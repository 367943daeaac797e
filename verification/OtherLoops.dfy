/** The loops over the replies in ProcessProposal and InitChain (cosmux/multiplexer.go, lines 306-324 and 387-405). */
module OtherLoops {
  import opened Abci
  import opened Orders
  import opened ChainAppIds
  import opened Routing
  import opened ChainApps
  import opened MuxSpec
  import opened FanOut
  import opened FanOutTheorems
  import opened FinalizeLoop

  /** The answers in a fan-out's plan that are not errors. */
  function OkAnswers<R>(plan: map<ChainAppIdentifier, Reply<R>>): Answers<R> {
    map id | id in plan && plan[id].Ok? :: plan[id].value
  }

  /** Each worker will send what its app answers. */
  ghost predicate PlannedFor<T, R>(plan: map<ChainAppIdentifier, Reply<R>>, calls: Calls<T, R>) {
    plan.Keys == calls.Keys && forall id :: id in calls ==> plan[id] == calls[id].reply
  }

  /** An error-free loop has heard every app. */
  lemma AllAnswered<R(!new)>(c: Config<ChainAppIdentifier, Reply<R>>, st: State<ChainAppIdentifier, Reply<R>>)
    requires Counted(c) && Reachable(c, st) && st.loop == Drained
    requires forall id :: id in Senders(st.received) ==> id in OkAnswers(c.plan)
    ensures IsOrder(Senders(st.received), c.plan.Keys)
    ensures Called(c, st) == c.plan.Keys == OkAnswers(c.plan).Keys
  {
    HeardEveryone(c, st);
  }

  // ProcessProposal

  function TxsOf(handlerTxs: map<ChainAppIdentifier, seq<Bytes>>, id: ChainAppIdentifier): seq<Bytes> {
    if id in handlerTxs then handlerTxs[id] else []
  }

  ghost predicate GroupedByName(ids: set<ChainAppIdentifier>, txs: seq<Bytes>,
                                handlerTxs: map<ChainAppIdentifier, seq<Bytes>>)
  {
    && handlerTxs.Keys <= ids
    && (forall id :: id in ids ==> TxsOf(handlerTxs, id) == SubBlock(txs, id))
    && (forall id :: id in handlerTxs ==> handlerTxs[id] != [])
  }

  lemma GroupByNameNext(ids: set<ChainAppIdentifier>, txs: seq<Bytes>, idx: nat, id: ChainAppIdentifier,
                        handlerTxs: map<ChainAppIdentifier, seq<Bytes>>)
    requires idx < |txs| && Names(txs[idx], id) && id in ids
    requires AllRoutable(ids, txs[..idx]) && GroupedByName(ids, txs[..idx], handlerTxs)
    ensures AllRoutable(ids, txs[..idx + 1])
    ensures |txs[idx]| >= HEADER_LEN
    ensures GroupedByName(ids, txs[..idx + 1], handlerTxs[id := TxsOf(handlerTxs, id) + [txs[idx][HEADER_LEN..]]])
  {
    hide SubBlock;
    var longer := txs[..idx + 1];
    assert forall i :: 0 <= i < idx ==> longer[i] == txs[..idx][i];
    var groups := handlerTxs[id := TxsOf(handlerTxs, id) + [txs[idx][HEADER_LEN..]]];
    forall x | x in ids ensures TxsOf(groups, x) == SubBlock(longer, x) {
      OneMore(txs, idx, x);
      assert TxsOf(handlerTxs, x) == SubBlock(txs[..idx], x);
      assert Names(txs[idx], x) <==> x == id;
    }
  }

  /** The workers of ProcessProposal; the WaitGroup is raised as each of them starts. */
  method DispatchProposal<T>(env: Env<T>, clients: Clients, apps: Apps<T>, req: RequestBlock,
                             handlerTxs: map<ChainAppIdentifier, seq<Bytes>>)
    returns (calls: Calls<T, ProposalStatus>, c: Config<ChainAppIdentifier, Reply<ProposalStatus>>)
    requires clients.Keys == apps.Keys && GroupedByName(clients.Keys, req.txs, handlerTxs)
    ensures calls == ProposalCalls(env, apps, req) && calls.Keys <= apps.Keys
    ensures PlannedFor(c.plan, calls)
    ensures Counted(c) && Surplus(c) == 0
  {
    hide ChainApps.ProcessProposal;
    forall id | id in apps ensures id in handlerTxs <==> SubBlock(req.txs, id) != [] {
      assert TxsOf(handlerTxs, id) == SubBlock(req.txs, id);
    }
    calls := map id | id in handlerTxs :: ChainApps.ProcessProposal(env, apps[id], req.(txs := handlerTxs[id]));
    var plan := map id | id in handlerTxs :: calls[id].reply;
    c := Config(plan, |clients|, true, 0);
    SubsetSize(plan.Keys, clients.Keys);
    assert |plan| == |plan.Keys| && |clients| == |clients.Keys|;
  }

  lemma SubsetSize<K>(a: set<K>, b: set<K>)
    requires a <= b
    ensures |a| <= |b|
  {
    assert b == a + (b - a);
  }

  lemma ProposalUnrouted<T>(env: Env<T>, apps: Apps<T>, outstanding: multiset<Worker>, req: RequestBlock)
    requires !AllRoutable(apps.Keys, req.txs)
    ensures ProposalStep(env, apps, outstanding, req, apps, outstanding, Err(NoHandlerFound))
  {
    assert ProposalReturns(env, apps, req, apps, Err(NoHandlerFound), {});
    NoneLate(outstanding, ProposalWorkers(req, {}));
  }

  /** What the receive loop came to is an outcome of ProcessProposal. */
  lemma ProposalEnds<T>(env: Env<T>, apps: Apps<T>, outstanding: multiset<Worker>, req: RequestBlock,
                        calls: Calls<T, ProposalStatus>, plan: map<ChainAppIdentifier, Reply<ProposalStatus>>,
                        err: Option<Error>, called: set<ChainAppIdentifier>, verdict: ProposalStatus)
    requires AllRoutable(apps.Keys, req.txs) && calls == ProposalCalls(env, apps, req)
    requires PlannedFor(plan, calls) && called <= plan.Keys
    requires err.Some? ==> exists id :: id in called && plan[id] == Err(err.value)
    requires err.None? ==> called == plan.Keys == OkAnswers(plan).Keys && VerdictInSomeOrder(OkAnswers(plan), verdict)
    ensures After(apps, calls, called).Keys == apps.Keys
    ensures ProposalStep(env, apps, outstanding, req, After(apps, calls, called),
                         outstanding + multiset(ProposalWorkers(req, calls.Keys - called)),
                         if err.Some? then Err(err.value) else Ok(verdict))
  {
    hide ProposalCalls, AllRoutable, VerdictInSomeOrder;
    assert OkAnswers(plan) == Values(calls);
    if err.None? {
      AnsweredOk(calls);
      assert ProposalReturns(env, apps, req, After(apps, calls, called), Ok(verdict), calls.Keys - called);
    } else {
      FailsAt(apps, calls, called, err.value);
      assert ProposalReturns(env, apps, req, After(apps, calls, called), Err(err.value), calls.Keys - called);
    }
  }

  lemma VerdictNext(statuses: seq<ProposalStatus>, verdict: ProposalStatus, status: ProposalStatus)
    requires IsVerdict(statuses, verdict)
    ensures IsVerdict(statuses + [status],
                      if status != ACCEPT then status else if verdict == UNKNOWN then status else verdict)
  {
    var longer := statuses + [status];
    if status != ACCEPT {
      assert LastDissent(longer, |statuses|);
    } else if p :| LastDissent(statuses, p) {
      assert LastDissent(longer, p);
    }
  }

  method ReceiveVerdict(c: Config<ChainAppIdentifier, Reply<ProposalStatus>>)
    returns (err: Option<Error>, called: set<ChainAppIdentifier>, verdict: ProposalStatus)
    requires Counted(c) && Surplus(c) == 0
    ensures called <= c.plan.Keys
    ensures err.Some? ==> exists id :: id in called && c.plan[id] == Err(err.value)
    ensures err.None? ==>
              called == c.plan.Keys == OkAnswers(c.plan).Keys && VerdictInSomeOrder(OkAnswers(c.plan), verdict)
  {
    hide Reachable, Counted;
    ghost var answers := OkAnswers(c.plan);
    var st := Init(c);
    InitReachable(c);
    verdict := ACCEPT;
    while true
      invariant Reachable(c, st) && st.loop == Ranging
      invariant forall id :: id in Senders(st.received) ==> id in answers
      invariant IsVerdict(Statuses(Senders(st.received), answers), verdict)
      decreases |c.plan| - |st.received|
    {
      hide IsVerdict, Senders;
      ghost var before := st;
      var got;
      st, got := Range(c, st);
      called := Called(c, st);
      if got.None? {
        break;
      }
      TakenMessage(c, before, st, got.value);
      var resp := got.value.body;
      if resp.Err? {
        return Some(resp.error), called, verdict;
      }
      ghost var order := Senders(before.received);
      assert Statuses(order + [got.value.from], answers) == Statuses(order, answers) + [resp.value];
      VerdictNext(Statuses(order, answers), verdict, resp.value);
      if verdict == UNKNOWN {
        verdict := resp.value;
      }
      if resp.value != ACCEPT {
        verdict := resp.value;
      }
    }
    AllAnswered(c, st);
    err := None;
  }

  // InitChain

  /** The caller's request, to which all workers hold a pointer. */
  class InitChainRequest {
    var message: RequestInitChain

    constructor (message: RequestInitChain)
      ensures this.message == message
    {
      this.message := message;
    }
  }

  /** What a worker does: it copies the caller's request and puts its app's chain id and state into the copy. */
  method AskInit<T>(env: Env<T>, hdl: AbciHandler, app: App<T>, chain: InitChainRequest)
    returns (call: Call<T, ResponseInitChain>)
    ensures call == ChainApps.InitChain(env, app, InitRequest(hdl, chain.message))
    ensures chain.message == old(chain.message)
  {
    var req := new InitChainRequest(chain.message);
    req.message := req.message.(chainId := hdl.chainID);
    req.message := req.message.(appStateBytes := hdl.initAppState);
    call := ChainApps.InitChain(env, app, req.message);
  }

  /** Every app is asked. */
  method AskAll<T>(env: Env<T>, clients: Clients, apps: Apps<T>, chain: InitChainRequest)
    returns (calls: Calls<T, ResponseInitChain>)
    requires clients.Keys == apps.Keys
    ensures calls == InitCalls(env, clients, apps, chain.message) && calls.Keys == apps.Keys
    ensures chain.message == old(chain.message)
  {
    hide ChainApps.InitChain;
    calls := map[];
    var rest := clients.Keys;
    while rest != {}
      invariant rest <= clients.Keys && calls.Keys == clients.Keys - rest
      invariant chain.message == old(chain.message)
      invariant forall id :: id in calls ==>
                  calls[id] == ChainApps.InitChain(env, apps[id], InitRequest(clients[id], chain.message))
      decreases |rest|
    {
      var id :| id in rest;
      var call := AskInit(env, clients[id], apps[id], chain);
      calls := calls[id := call];
      rest := rest - {id};
    }
  }

  method DispatchInit<T>(env: Env<T>, clients: Clients, apps: Apps<T>, chain: InitChainRequest)
    returns (calls: Calls<T, ResponseInitChain>, c: Config<ChainAppIdentifier, Reply<ResponseInitChain>>)
    requires clients.Keys == apps.Keys
    ensures calls == InitCalls(env, clients, apps, chain.message) && calls.Keys == apps.Keys
    ensures chain.message == old(chain.message)
    ensures PlannedFor(c.plan, calls)
    ensures Counted(c) && Surplus(c) == 0
  {
    hide InitCalls;
    calls := AskAll(env, clients, apps, chain);
    var plan := map id | id in clients :: calls[id].reply;
    c := Config(plan, |clients|, false, |clients|);
    assert plan.Keys == clients.Keys;
    assert |plan| == |plan.Keys| && |clients| == |clients.Keys|;
  }

  lemma InitEnds<T>(env: Env<T>, clients: Clients, apps: Apps<T>, outstanding: multiset<Worker>,
                    chain: RequestInitChain,
                    calls: Calls<T, ResponseInitChain>, plan: map<ChainAppIdentifier, Reply<ResponseInitChain>>,
                    err: Option<Error>, called: set<ChainAppIdentifier>, response: Option<ResponseInitChain>)
    requires calls == InitCalls(env, clients, apps, chain)
    requires PlannedFor(plan, calls) && called <= plan.Keys
    requires err.Some? ==> exists id :: id in called && plan[id] == Err(err.value)
    requires err.None? ==>
               called == plan.Keys == OkAnswers(plan).Keys && InitMergesInSomeOrder(OkAnswers(plan), response)
    ensures After(apps, calls, called).Keys == apps.Keys
    ensures InitStep(env, clients, apps, outstanding, chain, After(apps, calls, called),
                     outstanding + multiset(InitWorkers(clients, chain, calls.Keys - called)),
                     if err.Some? then Err(err.value) else Ok(response))
  {
    hide InitCalls, InitMergesInSomeOrder;
    assert OkAnswers(plan) == Values(calls);
    if err.None? {
      AnsweredOk(calls);
      assert InitReturns(env, clients, apps, chain, After(apps, calls, called), Ok(response), calls.Keys - called);
    } else {
      FailsAt(apps, calls, called, err.value);
      assert InitReturns(env, clients, apps, chain, After(apps, calls, called), Err(err.value), calls.Keys - called);
    }
  }

  /** One round of the loop: the first reply becomes the response, later ones are appended to it; the
      validators of every reply are appended, so those of the first one to themselves. */
  function Absorb(response: Option<ResponseInitChain>, r: ResponseInitChain): ResponseInitChain {
    var merged := if response.None? then r else response.value.(appHash := response.value.appHash + r.appHash);
    merged.(consensusParams := if r.consensusParams.Some? then r.consensusParams else merged.consensusParams,
            validators := merged.validators + r.validators)
  }

  lemma InitNext(answers: Answers<ResponseInitChain>, order: seq<ChainAppIdentifier>,
                 response: Option<ResponseInitChain>, id: ChainAppIdentifier)
    requires InitMerges(answers, order, response) && id in answers
    ensures InitMerges(answers, order + [id], Some(Absorb(response, answers[id])))
  {
    var longer := order + [id];
    assert longer[..|order|] == order && longer[..|longer|] == longer;
    ConcatNext(longer, |order|, InitHashes(answers));
    ConcatNext(longer, |order|, InitValidators(answers));
    var hash, validators := answers[id].appHash, answers[id].validators;
    if order == [] {
      assert ConcatBy(longer, InitHashes(answers)) == hash && ConcatBy(longer, InitValidators(answers)) == validators;
    } else {
      var first := answers[order[0]].validators;
      assert first + ConcatBy(order, InitValidators(answers)) + validators
             == first + ConcatBy(longer, InitValidators(answers));
    }
  }

  method ReceiveInit(c: Config<ChainAppIdentifier, Reply<ResponseInitChain>>)
    returns (err: Option<Error>, called: set<ChainAppIdentifier>, response: Option<ResponseInitChain>)
    requires Counted(c) && Surplus(c) == 0
    ensures called <= c.plan.Keys
    ensures err.Some? ==> exists id :: id in called && c.plan[id] == Err(err.value)
    ensures err.None? ==>
              called == c.plan.Keys == OkAnswers(c.plan).Keys && InitMergesInSomeOrder(OkAnswers(c.plan), response)
  {
    hide Reachable, Counted;
    ghost var answers := OkAnswers(c.plan);
    var st := Init(c);
    InitReachable(c);
    response := None;
    while true
      invariant Reachable(c, st) && st.loop == Ranging
      invariant forall id :: id in Senders(st.received) ==> id in answers
      invariant InitMerges(answers, Senders(st.received), response)
      decreases |c.plan| - |st.received|
    {
      hide InitMerges, Senders;
      ghost var before := st;
      var got;
      st, got := Range(c, st);
      called := Called(c, st);
      if got.None? {
        break;
      }
      TakenMessage(c, before, st, got.value);
      var resp := got.value.body;
      if resp.Err? {
        return Some(resp.error), called, response;
      }
      InitNext(answers, Senders(before.received), response, got.value.from);
      if response.None? {
        response := Some(resp.value);
      } else {
        response := Some(response.value.(appHash := response.value.appHash + resp.value.appHash));
      }
      if resp.value.consensusParams.Some? {
        response := Some(response.value.(consensusParams := resp.value.consensusParams));
      }
      response := Some(response.value.(validators := response.value.validators + resp.value.validators));
    }
    AllAnswered(c, st);
    err := None;
  }
}
