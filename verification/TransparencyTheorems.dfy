/** What the multiplexer is to the chains behind it: each of them hears what it would hear without a multiplexer, and a
    single chain cannot be told from a chain that is called directly. Apps other than the KV store are spoken of in
    terms of their own answer functions only. */
module TransparencyTheorems {
  import opened Abci
  import opened Orders
  import opened ChainAppIds
  import opened Routing
  import opened ChainApps
  import opened MuxSpec
  import opened MergeTheorems
  import opened RunTheorems
  import opened Multiplexer

  // What a remote app hears

  /** In a block call an app hears its payloads and everything else about the block as the proposer made it, and
      only the answer it gives there and the state it moves to count; so also when a goroutine calls it late. */
  lemma HearsTheBlock<T>(env: Env<T>, apps: Apps<T>, req: RequestBlock, id: ChainAppIdentifier, o: T)
    requires id in apps && apps[id] == Other(o)
    ensures var heard := RequestBlock(SubBlock(req.txs, id), req.info);
            var (o1, finalized) := env.finalizeBlock(o, heard);
            var (o2, processed) := env.processProposal(o, heard);
            && id in FinalizeCalls(env, apps, req)
            && FinalizeCalls(env, apps, req)[id] == Call(Other(o1), finalized)
            && (id in ProposalCalls(env, apps, req) <==> heard.txs != [])
            && (id in ProposalCalls(env, apps, req) ==> ProposalCalls(env, apps, req)[id] == Call(Other(o2), processed))
            && (forall w :: w in FinalizeWorkers(req, {id}) ==> CalledLate(env, Other(o), w) == Other(o1))
            && (forall w :: w in ProposalWorkers(req, {id}) ==> CalledLate(env, Other(o), w) == Other(o2))
  {
    hide SubBlock;
  }

  /** At genesis an app hears its own chain id and its own state, and the caller's parameters and validators. */
  lemma HearsItsGenesis<T>(env: Env<T>, clients: Clients, apps: Apps<T>, chain: RequestInitChain,
                           id: ChainAppIdentifier, o: T)
    requires id in clients && id in apps && apps[id] == Other(o)
    ensures var hdl := clients[id];
            var heard := RequestInitChain(hdl.chainID, hdl.initAppState, chain.consensusParams, chain.validators);
            var (o', reply) := env.initChain(o, heard);
            && id in InitCalls(env, clients, apps, chain)
            && InitCalls(env, clients, apps, chain)[id] == Call(Other(o'), reply)
            && (forall w :: w in InitWorkers(clients, chain, {id}) ==> CalledLate(env, Other(o), w) == Other(o'))
  {
  }

  /** From start-up on: InitChain hands the app of each configured chain the genesis state that was read for that
      chain. */
  lemma GenesisReachesApp<T>(sha1: Hash, env: Env<T>, config: seq<MegaBlockApp<T>>, i: nat, clients: Clients,
                             apps: Apps<T>, chain: RequestInitChain)
    requires i < |config| && Enrolled(Ids(sha1, config), config, clients, apps)
    requires config[i].dial.Ok? && config[i].dial.value.Other? && config[i].genesis.Ok?
    ensures var id := AppId(sha1, config[i].chainID);
            var heard := RequestInitChain(config[i].chainID, config[i].genesis.value,
                                          chain.consensusParams, chain.validators);
            var (o', reply) := env.initChain(config[i].dial.value.other, heard);
            && id in InitCalls(env, clients, apps, chain)
            && InitCalls(env, clients, apps, chain)[id] == Call(Other(o'), reply)
  {
    var id := Ids(sha1, config)[i];
    HearsItsGenesis(env, clients, apps, chain, id, config[i].dial.value.other);
  }

  // Nobody is left out

  /** Whatever a routable FinalizeBlock returns, each app has either been called with its part or not been touched, and
      then one goroutine is left that will call it with just that part. No goroutine that was waiting before is lost. */
  lemma CalledOrWaitedFor<T>(env: Env<T>, apps: Apps<T>, outstanding: multiset<Worker>, req: RequestBlock,
                             apps': Apps<T>, outstanding': multiset<Worker>, out: Reply<ResponseFinalizeBlock>,
                             id: ChainAppIdentifier)
    requires FinalizeStep(env, apps, outstanding, req, apps', outstanding', out)
    requires AllRoutable(apps.Keys, req.txs) && id in apps
    ensures outstanding <= outstanding' && (out.Ok? ==> outstanding' == outstanding)
    ensures var part := RequestBlock(SubBlock(req.txs, id), req.info);
            && id in apps'
            && var waiting, waiting' := outstanding[FinalizeWorker(id, part)], outstanding'[FinalizeWorker(id, part)];
               || (apps'[id] == FinalizeBlock(env, apps[id], part).app && waiting' == waiting)
               || (apps'[id] == apps[id] && waiting' == waiting + 1)
  {
    hide FinalizeBlock, SubBlock, AllRoutable, FinalizeOutcome;
    var late: set<ChainAppIdentifier> :|
      && FinalizeReturns(env, apps, req, apps', out, late)
      && outstanding' == outstanding + multiset(FinalizeWorkers(req, late));
    if id in late {
      assert FinalizeWorker(id, SubRequest(req, id)) in FinalizeWorkers(req, late);
    }
    if out.Ok? {
      assert FinalizeWorkers(req, late) == {};
      FinalizedApps(env, apps, req, apps', out.value);
    }
  }

  lemma FinalizedApps<T>(env: Env<T>, apps: Apps<T>, req: RequestBlock, apps': Apps<T>, resp: ResponseFinalizeBlock)
    requires FinalizeOutcome(env, apps, req, apps', Ok(resp))
    ensures apps'.Keys == apps.Keys
    ensures forall id :: id in apps ==> apps'[id] == FinalizeBlock(env, apps[id], SubRequest(req, id)).app
  {
    FinalizedOk(env, apps, req, apps', resp);
  }

  /** The same for ProcessProposal and the apps it has transactions for; the others are not touched. */
  lemma AskedOrWaitedFor<T>(env: Env<T>, apps: Apps<T>, outstanding: multiset<Worker>, req: RequestBlock,
                            apps': Apps<T>, outstanding': multiset<Worker>, out: Reply<ProposalStatus>,
                            id: ChainAppIdentifier)
    requires ProposalStep(env, apps, outstanding, req, apps', outstanding', out)
    requires AllRoutable(apps.Keys, req.txs) && id in apps
    ensures outstanding <= outstanding' && (out.Ok? ==> outstanding' == outstanding)
    ensures var part := RequestBlock(SubBlock(req.txs, id), req.info);
            && id in apps'
            && (if part.txs == [] then apps'[id] == apps[id]
                else
                  var w := ProposalWorker(id, part);
                  var waiting, waiting' := outstanding[w], outstanding'[w];
                  || (apps'[id] == ProcessProposal(env, apps[id], part).app && waiting' == waiting)
                  || (apps'[id] == apps[id] && waiting' == waiting + 1))
  {
    hide ProcessProposal, SubBlock, AllRoutable, VerdictInSomeOrder;
    var late: set<ChainAppIdentifier> :|
      && ProposalReturns(env, apps, req, apps', out, late)
      && outstanding' == outstanding + multiset(ProposalWorkers(req, late));
    if id in late {
      assert ProposalWorker(id, SubRequest(req, id)) in ProposalWorkers(req, late);
    }
    if out.Ok? {
      assert ProposalWorkers(req, late) == {};
    }
  }

  /** And for InitChain. */
  lemma StartedOrWaitedFor<T>(env: Env<T>, clients: Clients, apps: Apps<T>, outstanding: multiset<Worker>,
                              chain: RequestInitChain, apps': Apps<T>, outstanding': multiset<Worker>,
                              out: Reply<Option<ResponseInitChain>>, id: ChainAppIdentifier)
    requires InitStep(env, clients, apps, outstanding, chain, apps', outstanding', out) && id in apps && id in clients
    ensures outstanding <= outstanding' && (out.Ok? ==> outstanding' == outstanding)
    ensures var hdl := clients[id];
            var heard := RequestInitChain(hdl.chainID, hdl.initAppState, chain.consensusParams, chain.validators);
            && id in apps'
            && var waiting, waiting' := outstanding[InitWorker(id, heard)], outstanding'[InitWorker(id, heard)];
               || (apps'[id] == InitChain(env, apps[id], heard).app && waiting' == waiting)
               || (apps'[id] == apps[id] && waiting' == waiting + 1)
  {
    hide InitChain, InitMergesInSomeOrder;
    var late: set<ChainAppIdentifier> :|
      && InitReturns(env, clients, apps, chain, apps', out, late)
      && outstanding' == outstanding + multiset(InitWorkers(clients, chain, late));
    if id in late {
      assert InitWorker(id, InitRequest(clients[id], chain)) in InitWorkers(clients, chain, late);
    }
    if out.Ok? {
      assert InitWorkers(clients, chain, late) == {};
    }
  }

  // A single chain

  /** Transactions as clients send them to the chain with this identifier. */
  function Wrapped(id: ChainAppIdentifier, payloads: seq<Bytes>): seq<Bytes> {
    seq(|payloads|, i requires 0 <= i < |payloads| => [0x23, 0x6d, 0x75, 0x78] + id + payloads[i])
  }

  lemma {:induction false} WrappedParts(id: ChainAppIdentifier, payloads: seq<Bytes>)
    ensures var txs := Wrapped(id, payloads);
            && SubBlock(txs, id) == payloads
            && forall i :: 0 <= i < |txs| ==> IsFor(txs[i], id, payloads[i])
  {
    var txs := Wrapped(id, payloads);
    if payloads != [] {
      var n := |payloads| - 1;
      WrappedParts(id, payloads[..n]);
      assert txs[..n] == Wrapped(id, payloads[..n]);
      Addressed(id, payloads[n]);
      assert IsFor(txs[n], id, payloads[n]);
      hide Strip, CheckHeader, Names;
      OneMore(txs, n, id);
      assert txs[..n + 1] == txs;
      forall i | 0 <= i < |txs| ensures IsFor(txs[i], id, payloads[i]) {
        if i < n {
          assert txs[..n][i] == txs[i] && payloads[..n][i] == payloads[i];
        }
      }
    }
  }

  lemma WrappedRanks(id: ChainAppIdentifier, payloads: seq<Bytes>, i: nat)
    requires i < |payloads|
    ensures var txs := Wrapped(id, payloads);
            CheckHeader(txs[i]).None? && Owner(txs[i]) == id && Rank(txs, i) == i
  {
    var txs := Wrapped(id, payloads);
    WrappedParts(id, payloads);
    WrappedParts(id, payloads[..i]);
    assert IsFor(txs[i], id, payloads[i]);
    assert txs[..i] == Wrapped(id, payloads[..i]);
  }

  lemma WrappedRoutes(id: ChainAppIdentifier, payloads: seq<Bytes>, ids: set<ChainAppIdentifier>)
    requires id in ids
    ensures AllRoutable(ids, Wrapped(id, payloads))
  {
    WrappedParts(id, payloads);
    var txs := Wrapped(id, payloads);
    forall i | 0 <= i < |txs| ensures Routable(ids, txs[i]) {
      assert IsFor(txs[i], id, payloads[i]);
    }
  }

  /** As many results as there are transactions: what is missing is nil, what is too much is dropped. */
  function OnePerTx(results: seq<Option<ExecTxResult>>, n: nat): (all: seq<Option<ExecTxResult>>)
    ensures |all| == n && (|results| == n ==> all == results)
  {
    seq(n, i requires 0 <= i < n => if i < |results| then results[i] else None)
  }

  /** FinalizeBlock over a single chain returns that chain's own response to the block it was made from, with one result
      per transaction; or that chain's own error. */
  lemma OneChainFinalize<T>(env: Env<T>, id: ChainAppIdentifier, o: T, block: RequestBlock, apps': Apps<T>,
                            out: Reply<ResponseFinalizeBlock>)
    requires FinalizeOutcome(env, map[id := Other(o)], RequestBlock(Wrapped(id, block.txs), block.info), apps', out)
    ensures var (o', reply) := env.finalizeBlock(o, block);
            && apps' == map[id := Other(o')]
            && match reply
               case Err(e) => out == Err(e)
               case Ok(v) =>
                 && out == Ok(v.(txResults := OnePerTx(v.txResults, |block.txs|)))
                 && (|v.txResults| == |block.txs| ==> out == Ok(v))
  {
    var apps, req := map[id := Other(o)], RequestBlock(Wrapped(id, block.txs), block.info);
    hide FinalizeCalls, FinalizeOutcome, AllRoutable, Wrapped;
    WrappedRoutes(id, block.txs, apps.Keys);
    OneFinalized(env, apps, req, id, apps', out, block.txs);
    HearsWrapped(env, apps, id, o, block);
  }

  lemma HearsWrapped<T>(env: Env<T>, apps: Apps<T>, id: ChainAppIdentifier, o: T, block: RequestBlock)
    requires id in apps && apps[id] == Other(o)
    ensures var req := RequestBlock(Wrapped(id, block.txs), block.info);
            var (o1, finalized) := env.finalizeBlock(o, block);
            var (o2, processed) := env.processProposal(o, block);
            && id in FinalizeCalls(env, apps, req) && FinalizeCalls(env, apps, req)[id] == Call(Other(o1), finalized)
            && (id in ProposalCalls(env, apps, req) <==> block.txs != [])
            && (block.txs != [] ==> ProposalCalls(env, apps, req)[id] == Call(Other(o2), processed))
  {
    var req := RequestBlock(Wrapped(id, block.txs), block.info);
    HearsTheBlock(env, apps, req, id, o);
    WrappedParts(id, block.txs);
    hide FinalizeCalls, ProposalCalls, SubBlock, Wrapped;
    assert RequestBlock(SubBlock(req.txs, id), req.info) == block;
  }

  lemma OneFinalized<T>(env: Env<T>, apps: Apps<T>, req: RequestBlock, id: ChainAppIdentifier, apps': Apps<T>,
                        out: Reply<ResponseFinalizeBlock>, payloads: seq<Bytes>)
    requires apps.Keys == {id} && req.txs == Wrapped(id, payloads) && AllRoutable(apps.Keys, req.txs)
    requires FinalizeOutcome(env, apps, req, apps', out)
    ensures id in FinalizeCalls(env, apps, req)
    ensures var call := FinalizeCalls(env, apps, req)[id];
            && apps' == map[id := call.app]
            && match call.reply
               case Err(e) => out == Err(e)
               case Ok(v) =>
                 && out == Ok(v.(txResults := OnePerTx(v.txResults, |payloads|)))
                 && (|v.txResults| == |payloads| ==> out == Ok(v))
  {
    var calls := FinalizeCalls(env, apps, req);
    assert calls.Keys == {id};
    hide FinalizeCalls, AllRoutable, Wrapped, MergesInSomeOrder, After, Failed, AllOk, Values;
    OneCalled(apps, calls, id);
    if out.Ok? {
      OneValue(calls, id);
      OneMerge(req.txs, calls, id, out.value, payloads);
    } else {
      OneFailure(apps, calls, apps', out.error, id);
    }
  }

  lemma OneCalled<T, R>(apps: Apps<T>, calls: Calls<T, R>, id: ChainAppIdentifier)
    requires apps.Keys == calls.Keys == {id}
    ensures After(apps, calls, calls.Keys) == map[id := calls[id].app]
  {
  }

  lemma OneFailure<T, R>(apps: Apps<T>, calls: Calls<T, R>, apps': Apps<T>, error: Error, id: ChainAppIdentifier)
    requires apps.Keys == calls.Keys == {id} && Failed(apps, calls, apps', error)
    ensures calls[id].reply == Err(error) && apps' == map[id := calls[id].app]
  {
    var called: set<ChainAppIdentifier> :| FailedAt(apps, calls, apps', error, called);
    assert called == {id};
  }

  lemma OneValue<T, R>(calls: Calls<T, R>, id: ChainAppIdentifier)
    requires calls.Keys == {id} && AllOk(calls)
    ensures calls[id].reply.Ok? && Values(calls) == map[id := calls[id].reply.value]
  {
  }

  lemma OneMerge<T>(txs: seq<Bytes>, calls: Calls<T, ResponseFinalizeBlock>, id: ChainAppIdentifier,
                    resp: ResponseFinalizeBlock, payloads: seq<Bytes>)
    requires calls.Keys == {id} && calls[id].reply.Ok? && Values(calls) == map[id := calls[id].reply.value]
    requires MergesInSomeOrder(txs, Values(calls), resp) && txs == Wrapped(id, payloads)
    ensures var v := calls[id].reply.value;
            && resp == v.(txResults := OnePerTx(v.txResults, |payloads|))
            && (|v.txResults| == |payloads| ==> resp == v)
  {
    hide Merges, Values, Wrapped;
    var answers := Values(calls);
    var order :| IsOrder(order, answers.Keys) && Merges(txs, answers, order, resp);
    OneAnswer(txs, answers, order, id, resp, payloads);
  }

  lemma OneAnswer(txs: seq<Bytes>, answers: Answers<ResponseFinalizeBlock>, order: seq<ChainAppIdentifier>,
                  id: ChainAppIdentifier, resp: ResponseFinalizeBlock, payloads: seq<Bytes>)
    requires answers.Keys == {id} && IsOrder(order, answers.Keys) && Merges(txs, answers, order, resp)
    requires txs == Wrapped(id, payloads)
    ensures var v := answers[id];
            resp == v.(txResults := OnePerTx(v.txResults, |payloads|))
  {
    OnlyOrder(order, id);
    OnlyOrder(SortedIds(answers.Keys), id);
    SingleConcat(id, AppHashes(answers));
    SingleConcat(id, Updates(answers));
    SingleConcat(id, EventLists(answers));
    assert [id][..0] == [];
    assert FirstParams([id], answers) == answers[id].consensusParamUpdates;
    forall i | 0 <= i < |txs|
      ensures resp.txResults[i] == if i < |answers[id].txResults| then answers[id].txResults[i] else None
    {
      WrappedRanks(id, payloads, i);
    }
  }

  lemma OnlyOrder(order: seq<ChainAppIdentifier>, id: ChainAppIdentifier)
    requires IsOrder(order, {id})
    ensures order == [id]
  {
    OrderSize(order, {id});
    assert order[0] in order;
  }

  /** ProcessProposal over a single chain returns that chain's own status; without transactions it accepts unasked. */
  lemma OneChainProposal<T>(env: Env<T>, id: ChainAppIdentifier, o: T, block: RequestBlock, apps': Apps<T>,
                            out: Reply<ProposalStatus>)
    requires ProposalOutcome(env, map[id := Other(o)], RequestBlock(Wrapped(id, block.txs), block.info), apps', out)
    ensures block.txs == [] ==> out == Ok(1) && apps' == map[id := Other(o)]
    ensures block.txs != [] ==>
              var (o', reply) := env.processProposal(o, block);
              out == reply && apps' == map[id := Other(o')]
  {
    var apps, req := map[id := Other(o)], RequestBlock(Wrapped(id, block.txs), block.info);
    WrappedRoutes(id, block.txs, apps.Keys);
    HearsWrapped(env, apps, id, o, block);
    var calls := ProposalCalls(env, apps, req);
    assert forall x :: x in calls ==> x == id;
    hide ProposalCalls, ProcessProposal, AllRoutable, SubBlock, Wrapped, After, Failed, AllOk, Values;
    hide VerdictInSomeOrder;
    if block.txs == [] {
      assert calls.Keys == {};
      NotCalled(apps, calls, apps', out);
    } else {
      assert calls.Keys == {id};
      OneCalled(apps, calls, id);
      if out.Ok? {
        OneValue(calls, id);
        OneStatus(Values(calls), id, out.value);
      } else {
        OneFailure(apps, calls, apps', out.error, id);
      }
    }
  }

  lemma NotCalled<T>(apps: Apps<T>, calls: Calls<T, ProposalStatus>, apps': Apps<T>, out: Reply<ProposalStatus>)
    requires calls.Keys == {}
    requires match out
             case Ok(v) => apps' == After(apps, calls, calls.Keys) && VerdictInSomeOrder(Values(calls), v)
             case Err(e) => Failed(apps, calls, apps', e)
    ensures out == Ok(1) && apps' == apps
  {
  }

  lemma OneStatus(answers: Answers<ProposalStatus>, id: ChainAppIdentifier, verdict: ProposalStatus)
    requires answers.Keys == {id} && VerdictInSomeOrder(answers, verdict)
    ensures verdict == answers[id]
  {
    var order :| IsOrder(order, answers.Keys) && IsVerdict(Statuses(order, answers), verdict);
    OnlyOrder(order, id);
    assert Statuses(order, answers) == [answers[id]];
    assert answers[id] != ACCEPT ==> LastDissent(Statuses(order, answers), 0);
  }

  /** InitChain over a single chain returns that chain's own response, with its validators written twice. */
  lemma OneChainInit<T>(env: Env<T>, clients: Clients, id: ChainAppIdentifier, o: T, chain: RequestInitChain,
                        apps': Apps<T>, out: Reply<Option<ResponseInitChain>>)
    requires clients.Keys == {id} && InitOutcome(env, clients, map[id := Other(o)], chain, apps', out)
    ensures var hdl := clients[id];
            var heard := RequestInitChain(hdl.chainID, hdl.initAppState, chain.consensusParams, chain.validators);
            var (o', reply) := env.initChain(o, heard);
            && apps' == map[id := Other(o')]
            && match reply
               case Err(e) => out == Err(e)
               case Ok(v) =>
                 out == Ok(Some(ResponseInitChain(v.consensusParams, v.validators + v.validators, v.appHash)))
  {
    var apps := map[id := Other(o)];
    HearsItsGenesis(env, clients, apps, chain, id, o);
    var calls := InitCalls(env, clients, apps, chain);
    assert calls.Keys == {id};
    hide InitCalls, InitChain, After, Failed, AllOk, Values, InitMergesInSomeOrder;
    OneCalled(apps, calls, id);
    if out.Ok? {
      OneValue(calls, id);
      OneInit(Values(calls), id, out.value);
    } else {
      OneFailure(apps, calls, apps', out.error, id);
    }
  }

  lemma OneInit(answers: Answers<ResponseInitChain>, id: ChainAppIdentifier, merged: Option<ResponseInitChain>)
    requires answers.Keys == {id} && InitMergesInSomeOrder(answers, merged)
    ensures var v := answers[id];
            merged == Some(ResponseInitChain(v.consensusParams, v.validators + v.validators, v.appHash))
  {
    var order :| IsOrder(order, answers.Keys) && InitMerges(answers, order, merged);
    OnlyOrder(order, id);
    SingleConcat(id, InitValidators(answers));
    SingleConcat(id, InitHashes(answers));
    assert [id][..0] == [];
    assert LastParams([id], answers) == answers[id].consensusParams;
  }

  /** Commit over a single chain is that chain's Commit. */
  lemma OneChainCommit<T>(env: Env<T>, id: ChainAppIdentifier, o: T, apps': Apps<T>, out: Reply<Option<ResponseCommit>>)
    requires CommitOutcome(env, map[id := Other(o)], apps', out)
    ensures var (o', reply) := env.commit(o);
            && apps' == map[id := Other(o')]
            && out == match reply case Ok(v) => Ok(Some(v)) case Err(e) => Err(e)
  {
    var apps := map[id := Other(o)];
    var calls := CommitCalls(env, apps);
    assert calls.Keys == {id};
    if out.Ok? {
      var visited :| IsOrder(visited, calls.Keys) && out.value == LastReply(calls, visited);
      OnlyOrder(visited, id);
      OneCalled(apps, calls, id);
    } else {
      var visited: seq<ChainAppIdentifier> :|
        && visited != [] && (forall i :: 0 <= i < |visited| ==> visited[i] in calls)
        && calls[visited[|visited| - 1]].reply == Err(out.error)
        && apps' == After(apps, calls, set x | x in visited);
      assert (set x | x in visited) == calls.Keys;
      OneCalled(apps, calls, id);
    }
  }

  /** CheckTx and Query hand on what an app is asked and what it answers, with any number of chains. */
  lemma AskedDirectly<T>(env: Env<T>, apps: Apps<T>, id: ChainAppIdentifier, o: T, payload: Bytes, apps': Apps<T>,
                         out: Reply<ResponseCheckTx>, q: RequestQuery)
    requires id in apps && apps[id] == Other(o)
    requires var tx := [0x23, 0x6d, 0x75, 0x78] + id + payload;
             |tx| >= HEADER_LEN ==> CheckTxOutcome(env, apps, tx, apps', out)
    ensures var (o', reply) := env.checkTx(o, payload);
            out == reply && apps' == apps[id := Other(o')]
    ensures Query(env, apps[id], q) == env.query(o, q)
  {
    Addressed(id, payload);
    var tx := MAGIC + id + payload;
    assert tx == [0x23, 0x6d, 0x75, 0x78] + id + payload;
  }

  // Runs

  /** A chain that is called directly, block after block. */
  function Alone<T>(env: Env<T>, o: T, blocks: seq<RequestBlock>): T {
    if |blocks| == 0 then o
    else env.commit(env.finalizeBlock(Alone(env, o, blocks[..|blocks| - 1]), blocks[|blocks| - 1]).0).0
  }

  /** In a run with any number of chains, each remote chain ends where it ends when it is called directly with the
      blocks made of its payloads, which are for the rest the blocks as the proposers made them. */
  lemma {:induction false} RemoteRunsAlone<T(!new)>(env: Env<T>, states: seq<Apps<T>>, blocks: seq<RequestBlock>,
                                                    responses: seq<ResponseFinalizeBlock>, id: ChainAppIdentifier, o: T,
                                                    own: seq<RequestBlock>)
    requires MuxRun(env, states, blocks, responses) && id in states[0] && states[0][id] == Other(o)
    requires |own| == |blocks|
    requires forall k :: 0 <= k < |blocks| ==> own[k] == RequestBlock(SubBlock(blocks[k].txs, id), blocks[k].info)
    ensures id in states[|blocks|] && states[|blocks|][id] == Other(Alone(env, o, own))
  {
    var n := |blocks|;
    if n > 0 {
      hide SubBlock, BlockStep;
      RunPrefix(env, states, blocks, responses);
      RemoteRunsAlone(env, states[..n], blocks[..n - 1], responses[..n - 1], id, o, own[..n - 1]);
      assert BlockStep(env, states[n - 1], blocks[n - 1], responses[n - 1], states[n]);
      StepProjects(env, states[n - 1], blocks[n - 1], responses[n - 1], states[n]);
      OneBlockAlone(env, Alone(env, o, own[..n - 1]), blocks[n - 1], id, own[n - 1]);
    }
  }

  lemma OneBlockAlone<T>(env: Env<T>, o: T, req: RequestBlock, id: ChainAppIdentifier, own: RequestBlock)
    requires own == RequestBlock(SubBlock(req.txs, id), req.info)
    ensures SoloBlock(env, Other(o), SubRequest(req, id)) == Other(env.commit(env.finalizeBlock(o, own).0).0)
  {
    hide SubBlock;
  }
}
