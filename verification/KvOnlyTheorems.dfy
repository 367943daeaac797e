/** Multiplexers with KV stores behind them, down to the bytes that clients send and receive. */
module KvOnlyTheorems {
  import opened Abci
  import opened Orders
  import opened ChainAppIds
  import opened Routing
  import opened KvStore
  import opened KvTheorems
  import opened ChainApps
  import opened MuxSpec
  import opened RunTheorems
  import opened VerdictTheorems

  ghost predicate AllKv<T>(apps: Apps<T>) {
    forall id :: id in apps ==> apps[id].Kv?
  }

  // ProcessProposal

  /** A proposal that names KV stores only is accepted, whatever it says to them, and changes nothing. */
  lemma KvProposalAccepted<T>(env: Env<T>, apps: Apps<T>, req: RequestBlock, apps': Apps<T>, out: Reply<ProposalStatus>)
    requires ProposalOutcome(env, apps, req, apps', out) && AllRoutable(apps.Keys, req.txs)
    requires forall i :: 0 <= i < |req.txs| ==> apps[Owner(req.txs[i])].Kv?
    ensures out == Ok(1) && apps' == apps
  {
    forall id | id in ProposalCalls(env, apps, req) ensures ProposalCalls(env, apps, req)[id] == Call(apps[id], Ok(1)) {
      NamedBySome(req.txs, id);
    }
    hide AllRoutable, ProposalCalls, SubBlock;
    var calls := ProposalCalls(env, apps, req);
    assert After(apps, calls, calls.Keys) == apps;
    if out.Ok? {
      assert Unanimous(Values(calls));
      hide IsVerdict, Statuses;
      var order :| IsOrder(order, Values(calls).Keys) && IsVerdict(Statuses(order, Values(calls)), out.value);
      VerdictSound(Values(calls), order, out.value);
    }
  }

  lemma NamedBySome(txs: seq<Bytes>, id: ChainAppIdentifier)
    requires SubBlock(txs, id) != []
    ensures exists i :: 0 <= i < |txs| && CheckHeader(txs[i]).None? && Owner(txs[i]) == id
  {
    SlotsMatch(txs, id);
    var i := Slots(txs, id)[0];
    assert Names(txs[i], id);
  }

  /** Beside other apps a KV store has no say: for some order of arrival the verdict is what those others' answers alone
      give in that order, but that a KV store's ACCEPT may hide an UNKNOWN. */
  lemma KvHasNoSay<T>(env: Env<T>, apps: Apps<T>, req: RequestBlock, apps': Apps<T>, verdict: ProposalStatus)
    requires ProposalOutcome(env, apps, req, apps', Ok(verdict)) && AllRoutable(apps.Keys, req.txs)
    ensures var answers, kvs := Values(ProposalCalls(env, apps, req)), set id | id in apps && apps[id].Kv?;
            exists order :: IsOrder(order, answers.Keys)
              && var others := Fold(Statuses(Without(order, kvs), answers));
                 verdict == others || (others == 0 && verdict == 1)
  {
    var answers, kvs := Values(ProposalCalls(env, apps, req)), set id | id in apps && apps[id].Kv?;
    assert forall id :: id in answers && id in kvs ==> answers[id] == 1;
    hide ProposalCalls, Values, IsVerdict, Statuses, AllRoutable, Fold, Without;
    var order :| IsOrder(order, answers.Keys) && IsVerdict(Statuses(order, answers), verdict);
    VerdictIsFold(Statuses(order, answers), verdict);
    AcceptersAreNeutral(order, answers, kvs);
  }

  // FinalizeBlock

  /** What a block comes to: one code per transaction, and nothing else. */
  function KvResponse(txs: seq<Bytes>): ResponseFinalizeBlock {
    var results := seq(|txs|, i requires 0 <= i < |txs| =>
                         Some(ExecTxResult(if Count(Strip(txs[i])) == 1 then 0 else 1, [])));
    ResponseFinalizeBlock(results, [], [], [], None)
  }

  lemma KvOnlyFinalize<T>(env: Env<T>, apps: Apps<T>, req: RequestBlock, apps': Apps<T>,
                          out: Reply<ResponseFinalizeBlock>)
    requires FinalizeOutcome(env, apps, req, apps', out) && AllKv(apps)
    ensures out.Ok? ==> out.value == KvResponse(req.txs)
    ensures out.Err? ==> out == Err(if AllRoutable(apps.Keys, req.txs) then DatabaseError else NoHandlerFound)
  {
    if out.Ok? {
      FinalizedOk(env, apps, req, apps', out.value);
      PointwiseStep(env, apps, req, out.value);
      KvCodes(apps, req.txs, out.value.txResults);
      KvMerge(env, apps, req, apps', out.value);
    } else {
      hide Scan, SubBlock, AllRoutable;
    }
  }

  lemma KvCodes<T>(apps: Apps<T>, txs: seq<Bytes>, results: seq<Option<ExecTxResult>>)
    requires AllKv(apps) && AllRoutable(apps.Keys, txs) && PointwiseCodes(apps, txs, results)
    ensures results == KvResponse(txs).txResults
  {
    hide IsValid, Strip, Count, CheckHeader;
    forall i | 0 <= i < |txs| ensures results[i] == Some(ExecTxResult(if Count(Strip(txs[i])) == 1 then 0 else 1, [])) {
      assert Routable(apps.Keys, txs[i]);
      OneOrZero(Strip(txs[i]));
    }
  }

  lemma OneOrZero(tx: Bytes)
    ensures IsValid(tx) == if Count(tx) == 1 then 0 else 1
  {
    ParseThenPrint(tx);
    hide Count;
  }

  lemma KvMerge<T>(env: Env<T>, apps: Apps<T>, req: RequestBlock, apps': Apps<T>, resp: ResponseFinalizeBlock)
    requires FinalizeOutcome(env, apps, req, apps', Ok(resp)) && AllKv(apps)
    ensures resp == ResponseFinalizeBlock(resp.txResults, [], [], [], None)
  {
    var answers := Values(FinalizeCalls(env, apps, req));
    forall id | id in answers
      ensures answers[id] == ResponseFinalizeBlock(answers[id].txResults, [], [], [], None)
    {
      hide Scan, SubBlock;
    }
    hide FinalizeCalls, Values, Filled, AllRoutable, AllOk, After;
    var order :| IsOrder(order, answers.Keys) && Merges(req.txs, answers, order, resp);
    NothingListed(SortedIds(answers.Keys), AppHashes(answers));
    NothingListed(SortedIds(answers.Keys), Updates(answers));
    NothingListed(SortedIds(answers.Keys), EventLists(answers));
    NoParams(order, answers);
  }

  lemma {:induction false} NothingListed<X>(order: seq<ChainAppIdentifier>, lists: map<ChainAppIdentifier, seq<X>>)
    requires forall id :: id in lists ==> lists[id] == []
    ensures ConcatBy(order, lists) == []
  {
    if order != [] {
      NothingListed(order[..|order| - 1], lists);
    }
  }

  lemma {:induction false} NoParams(order: seq<ChainAppIdentifier>, answers: Answers<ResponseFinalizeBlock>)
    requires forall id :: id in answers ==> answers[id].consensusParamUpdates.None?
    ensures FirstParams(order, answers) == None
  {
    if order != [] {
      NoParams(order[..|order| - 1], answers);
    }
  }

  // InitChain and Commit

  lemma KvOnlyInit<T>(env: Env<T>, clients: Clients, apps: Apps<T>, chain: RequestInitChain, apps': Apps<T>,
                      out: Reply<Option<ResponseInitChain>>)
    requires InitOutcome(env, clients, apps, chain, apps', out) && AllKv(apps) && clients.Keys == apps.Keys
    ensures apps' == apps
    ensures out == Ok(if apps.Keys == {} then None else Some(ResponseInitChain(None, [], [])))
  {
    var calls := InitCalls(env, clients, apps, chain);
    assert calls.Keys == apps.Keys;
    assert forall id :: id in calls ==> calls[id] == Call(apps[id], Ok(ResponseInitChain(None, [], [])));
    hide InitCalls;
    assert After(apps, calls, calls.Keys) == apps;
    var answers := Values(calls);
    assert answers.Keys == apps.Keys;
    var order :| IsOrder(order, answers.Keys) && InitMerges(answers, order, out.value);
    NothingListed(order, InitValidators(answers));
    NothingListed(order, InitHashes(answers));
    NoLastParams(order, answers);
    assert order == [] <==> apps.Keys == {} by {
      OrderSize(order, answers.Keys);
    }
  }

  lemma {:induction false} NoLastParams(order: seq<ChainAppIdentifier>, answers: Answers<ResponseInitChain>)
    requires forall id :: id in answers ==> answers[id].consensusParams.None?
    ensures LastParams(order, answers) == None
  {
    if order != [] {
      NoLastParams(order[..|order| - 1], answers);
    }
  }

  /** A KV store that commits asks for nothing to be dropped; over KV stores alone that is the answer, in whatever order
      they are visited. */
  lemma KvOnlyCommit<T>(env: Env<T>, apps: Apps<T>, apps': Apps<T>, out: Reply<Option<ResponseCommit>>)
    requires CommitOutcome(env, apps, apps', out) && AllKv(apps)
    ensures out.Ok? ==> out.value == if apps.Keys == {} then None else Some(ResponseCommit(0))
    ensures out.Err? ==> out == Err(NoOngoingBlock) || out == Err(DatabaseError)
  {
    var calls := CommitCalls(env, apps);
    forall id | id in apps
      ensures calls[id].reply.Ok? ==> calls[id].reply.value == ResponseCommit(0)
      ensures calls[id].reply.Err? ==> calls[id].reply.error == NoOngoingBlock || calls[id].reply.error == DatabaseError
    {
      KvCommits(env, apps[id]);
      hide Commit;
    }
    hide Commit;
    assert calls.Keys == apps.Keys;
    hide CommitCalls;
    if out.Ok? {
      var visited :| IsOrder(visited, calls.Keys) && out.value == LastReply(calls, visited);
      OrderSize(visited, calls.Keys);
      assert visited != [] ==> visited[|visited| - 1] in visited;
    }
  }

  lemma KvCommits<T>(env: Env<T>, app: App<T>)
    requires app.Kv?
    ensures match Commit(env, app).reply
            case Ok(v) => v.retainHeight == 0
            case Err(e) => e == if app.kv.onGoingBlock.None? then NoOngoingBlock else DatabaseError
  {
  }

  // From client to client

  /** What a client writes under a key is what clients read, once the block is committed: the transaction is made with
      the chain's header, the query names the chain, and nobody writes to the same key of this chain later in the block.
      Other chains, of whatever kind, may share the block. */
  lemma WriteThenRead<T(!new)>(sha1: Hash, env: Env<T>, clients: Clients, apps: Apps<T>, req: RequestBlock,
                               resp: ResponseFinalizeBlock, apps': Apps<T>, id: ChainAppIdentifier, key: Bytes,
                               value: Bytes, i: nat)
    requires Registered(sha1, clients) && id in clients && id in apps && apps[id].Kv?
    requires BlockStep(env, apps, req, resp, apps') && i < |req.txs|
    requires EQUALS !in key && EQUALS !in value
    requires req.txs[i] == CreateMegablocksHeader(sha1, clients[id].chainID) + key + [61] + value
    requires forall j :: i < j < |req.txs| && Names(req.txs[j], id) ==> !Writes(Strip(req.txs[j]), key)
    ensures |resp.txResults| == |req.txs| && resp.txResults[i] == Some(ExecTxResult(0, []))
    ensures id in apps'
    ensures Query(env, apps'[id], RequestQuery(clients[id].chainID, key))
            == if env.badger.getOk(key) then Ok(ResponseQuery(key, value, "exists")) else Err(DatabaseError)
  {
    hide *;
    WrittenAsSent(sha1, clients, id, key, value, req.txs[i]);
    StoredAs(env, apps, req, resp, apps', id, i, key, value);
    ReadBackAs(env, apps'[id], clients[id].chainID, key, value);
  }

  lemma WrittenAsSent(sha1: Hash, clients: Clients, id: ChainAppIdentifier, key: Bytes, value: Bytes, tx: Bytes)
    requires Registered(sha1, clients) && id in clients && EQUALS !in key && EQUALS !in value
    requires tx == CreateMegablocksHeader(sha1, clients[id].chainID) + key + [61] + value
    ensures CheckHeader(tx).None? && Owner(tx) == id && Names(tx, id)
    ensures IsValid(Strip(tx)) == 0 && KeyOf(Strip(tx)) == key && ValueOf(Strip(tx)) == value
  {
    HeaderRoundTrip(sha1, clients, id, key + [61] + value);
    assert tx == CreateMegablocksHeader(sha1, clients[id].chainID) + (key + [61] + value);
    assert Strip(tx) == Print(key, value);
    PrintThenParse(key, value);
    hide IsValid, KeyOf, ValueOf;
  }

  lemma StoredAs<T(!new)>(env: Env<T>, apps: Apps<T>, req: RequestBlock, resp: ResponseFinalizeBlock, apps': Apps<T>,
                          id: ChainAppIdentifier, i: nat, key: Bytes, value: Bytes)
    requires BlockStep(env, apps, req, resp, apps') && i < |req.txs| && id in apps && apps[id].Kv?
    requires CheckHeader(req.txs[i]).None? && Owner(req.txs[i]) == id && Names(req.txs[i], id)
    requires IsValid(Strip(req.txs[i])) == 0 && KeyOf(Strip(req.txs[i])) == key && ValueOf(Strip(req.txs[i])) == value
    requires forall j :: i < j < |req.txs| && Names(req.txs[j], id) ==> !Writes(Strip(req.txs[j]), key)
    ensures |resp.txResults| == |req.txs| && resp.txResults[i] == Some(ExecTxResult(0, []))
    ensures id in apps' && apps'[id].Kv? && key in apps'[id].kv.db && apps'[id].kv.db[key] == value
  {
    hide BlockStep, SubBlock, ApplyAll, Strip, SoloBlock, IsValid, KeyOf, ValueOf, Rank, FinalizeBlock, Commit, Names;
    hide CheckHeader, Filled;
    BlockRefinesDirect(env, apps, req, resp, apps');
    hide PointwiseCodes;
    StepProjects(env, apps, req, resp, apps');
    SoloApplies(env, apps[id], req, id);
    LastInPart(req.txs, id, i, key);
    assert Writes(Strip(req.txs[i]), key);
    hide Writes;
    LastWriteWins(apps[id].kv.db, SubBlock(req.txs, id), key);
    CodeAt(apps, req.txs, resp.txResults, i);
  }

  lemma CodeAt<T>(apps: Apps<T>, txs: seq<Bytes>, results: seq<Option<ExecTxResult>>, i: nat)
    requires PointwiseCodes(apps, txs, results) && i < |txs| && CheckHeader(txs[i]).None?
    requires Owner(txs[i]) in apps && apps[Owner(txs[i])].Kv? && IsValid(Strip(txs[i])) == 0
    ensures |results| == |txs| && results[i] == Some(ExecTxResult(0, []))
  {
  }

  lemma ReadBackAs<T>(env: Env<T>, app: App<T>, chainID: Bytes, key: Bytes, value: Bytes)
    requires app.Kv? && key in app.kv.db && app.kv.db[key] == value
    ensures Query(env, app, RequestQuery(chainID, key))
            == if env.badger.getOk(key) then Ok(ResponseQuery(key, value, "exists")) else Err(DatabaseError)
  {
  }

  /** The last transaction of a block to this chain on this key is the last one on it in the chain's part. */
  lemma LastInPart(txs: seq<Bytes>, id: ChainAppIdentifier, i: nat, key: Bytes)
    requires i < |txs| && Names(txs[i], id)
    requires forall j :: i < j < |txs| && Names(txs[j], id) ==> !Writes(Strip(txs[j]), key)
    ensures var part, r := SubBlock(txs, id), Rank(txs, i);
            && r < |part| && part[r] == Strip(txs[i])
            && forall q :: r < q < |part| ==> !Writes(part[q], key)
  {
    hide Writes, Strip;
    RankFindsSlot(txs, i);
    SlotsMatch(txs, id);
    hide SubBlock, Slots;
    var part, slots, r := SubBlock(txs, id), Slots(txs, id), Rank(txs, i);
    forall q | r < q < |part| ensures !Writes(part[q], key) {
      assert slots[r] < slots[q] && Names(txs[slots[q]], id);
    }
  }

  /** A key nobody has written is answered as such, with the key that was asked for. */
  lemma AbsentKey<T>(env: Env<T>, app: App<T>, q: RequestQuery)
    requires app.Kv? && q.data !in app.kv.db && env.badger.getOk(q.data)
    ensures Query(env, app, q) == Ok(ResponseQuery(q.data, [], "key does not exist"))
  {
  }

  /** CheckTx on a KV store: the code says whether there is exactly one '=', and nothing changes. */
  lemma KvCheckTx<T>(env: Env<T>, apps: Apps<T>, id: ChainAppIdentifier, payload: Bytes, apps': Apps<T>,
                     out: Reply<ResponseCheckTx>)
    requires id in apps && apps[id].Kv?
    requires var tx := [0x23, 0x6d, 0x75, 0x78] + id + payload;
             |tx| >= HEADER_LEN ==> CheckTxOutcome(env, apps, tx, apps', out)
    ensures out == Ok(ResponseCheckTx(if Count(payload) == 1 then 0 else 1)) && apps' == apps
  {
    Addressed(id, payload);
    var tx := MAGIC + id + payload;
    assert tx == [0x23, 0x6d, 0x75, 0x78] + id + payload;
    OneOrZero(payload);
  }

  /** The bytes of "a=b", "ab" and "a=b=". */
  lemma SomePayloads()
    ensures IsValid([97, 61, 98]) == 0 && KeyOf([97, 61, 98]) == [97] && ValueOf([97, 61, 98]) == [98]
    ensures IsValid([97, 98]) == 1 && IsValid([97, 61, 98, 61]) == 1
  {
    PrintThenParse([97], [98]);
    assert Print([97], [98]) == [97, 61, 98];
    OneOrZero([97, 98]);
    OneOrZero([97, 61, 98, 61]);
    CountZero([97, 98]);
    CountZero([98, 61]);
    CountFromIndex([97, 61, 98, 61]);
    assert [97, 61, 98, 61][0] != EQUALS && [97, 61, 98, 61][1] == EQUALS;
  }
}
