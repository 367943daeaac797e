/** Chains that share blocks behave as if each ran alone. */
module RunTheorems {
  import opened Abci
  import opened ChainAppIds
  import opened Routing
  import opened KvStore
  import opened KvTheorems
  import opened ChainApps
  import opened MuxSpec

  /** One block through the multiplexer, finalized and committed. */
  ghost predicate BlockStep<T(!new)>(env: Env<T>, apps: Apps<T>, req: RequestBlock, resp: ResponseFinalizeBlock,
                                     apps': Apps<T>)
  {
    exists mid: Apps<T>, done ::
      FinalizeOutcome(env, apps, req, mid, Ok(resp)) && CommitOutcome(env, mid, apps', Ok(done))
  }

  /** Any number of blocks, each of them finalized and committed with success. */
  ghost predicate MuxRun<T(!new)>(env: Env<T>, states: seq<Apps<T>>, blocks: seq<RequestBlock>,
                                  responses: seq<ResponseFinalizeBlock>)
  {
    && |states| == |blocks| + 1 && |responses| == |blocks|
    && forall k :: 0 <= k < |blocks| ==> BlockStep(env, states[k], blocks[k], responses[k], states[k + 1])
  }

  /** One app on its own, without a multiplexer. */
  function SoloBlock<T>(env: Env<T>, app: App<T>, req: RequestBlock): App<T> {
    Commit(env, FinalizeBlock(env, app, req).app).app
  }

  function SoloRun<T>(env: Env<T>, app: App<T>, reqs: seq<RequestBlock>): App<T> {
    if |reqs| == 0 then app else SoloBlock(env, SoloRun(env, app, reqs[..|reqs| - 1]), reqs[|reqs| - 1])
  }

  /** What an app is sent in a run: its own payloads, block by block. */
  function Parts(blocks: seq<RequestBlock>, id: ChainAppIdentifier): seq<RequestBlock> {
    seq(|blocks|, k requires 0 <= k < |blocks| => SubRequest(blocks[k], id))
  }

  lemma StepProjects<T(!new)>(env: Env<T>, apps: Apps<T>, req: RequestBlock, resp: ResponseFinalizeBlock,
                              apps': Apps<T>)
    requires BlockStep(env, apps, req, resp, apps')
    ensures AllRoutable(apps.Keys, req.txs) && apps'.Keys == apps.Keys
    ensures forall id :: id in apps ==>
              && FinalizeBlock(env, apps[id], SubRequest(req, id)).reply.Ok?
              && Commit(env, FinalizeBlock(env, apps[id], SubRequest(req, id)).app).reply.Ok?
              && apps'[id] == SoloBlock(env, apps[id], SubRequest(req, id))
    ensures Filled(req.txs, apps.Keys, Values(FinalizeCalls(env, apps, req)), resp.txResults)
  {
    hide Filled, AllRoutable, SubRequest, FinalizeBlock, Commit, Values;
    var mid: Apps<T>, done :| FinalizeOutcome(env, apps, req, mid, Ok(resp))
        && CommitOutcome(env, mid, apps', Ok(done));
    FinalizedOk(env, apps, req, mid, resp);
    CommittedOk(env, mid, apps', done);
  }

  lemma FinalizedOk<T>(env: Env<T>, apps: Apps<T>, req: RequestBlock, mid: Apps<T>, resp: ResponseFinalizeBlock)
    requires FinalizeOutcome(env, apps, req, mid, Ok(resp))
    ensures AllRoutable(apps.Keys, req.txs) && mid.Keys == apps.Keys
    ensures forall id :: id in apps ==>
              var call := FinalizeBlock(env, apps[id], SubRequest(req, id));
              call.reply.Ok? && mid[id] == call.app
    ensures Filled(req.txs, apps.Keys, Values(FinalizeCalls(env, apps, req)), resp.txResults)
  {
    hide Filled, AllRoutable, SubRequest, FinalizeBlock, MergesInSomeOrder;
    var calls := FinalizeCalls(env, apps, req);
    assert forall id :: id in apps ==> id in calls && calls[id].reply.Ok?;
    hide FinalizeCalls;
    FinalizedFilled(req.txs, calls, resp);
  }

  lemma FinalizedFilled<T>(txs: seq<Bytes>, calls: Calls<T, ResponseFinalizeBlock>, resp: ResponseFinalizeBlock)
    requires AllOk(calls) && MergesInSomeOrder(txs, Values(calls), resp)
    ensures Filled(txs, calls.Keys, Values(calls), resp.txResults)
  {
    hide Filled, ConcatBy, SortedIds, FirstParams;
    assert Values(calls).Keys == calls.Keys;
  }

  lemma CommittedOk<T>(env: Env<T>, mid: Apps<T>, apps': Apps<T>, done: Option<ResponseCommit>)
    requires CommitOutcome(env, mid, apps', Ok(done))
    ensures apps'.Keys == mid.Keys
    ensures forall id :: id in mid ==> Commit(env, mid[id]).reply.Ok? && apps'[id] == Commit(env, mid[id]).app
  {
    hide Commit;
    var calls := CommitCalls(env, mid);
    assert forall id :: id in mid ==> id in calls && calls[id].reply.Ok?;
  }

  /** Whole-run projection. After any run, whatever the order of arrival of the replies and of the walks over the
      maps, every app is in the state it reaches alone on the payloads addressed to it. */
  lemma {:induction false} WholeRunProjection<T(!new)>(env: Env<T>, states: seq<Apps<T>>, blocks: seq<RequestBlock>,
                                                       responses: seq<ResponseFinalizeBlock>, id: ChainAppIdentifier)
    requires MuxRun(env, states, blocks, responses) && id in states[0]
    ensures states[|blocks|].Keys == states[0].Keys
    ensures states[|blocks|][id] == SoloRun(env, states[0][id], Parts(blocks, id))
  {
    var n := |blocks|;
    if n > 0 {
      RunPrefix(env, states, blocks, responses);
      WholeRunProjection(env, states[..n], blocks[..n - 1], responses[..n - 1], id);
      assert Parts(blocks, id)[..n - 1] == Parts(blocks[..n - 1], id);
      assert BlockStep(env, states[n - 1], blocks[n - 1], responses[n - 1], states[n]);
      StepProjects(env, states[n - 1], blocks[n - 1], responses[n - 1], states[n]);
    }
  }

  lemma RunPrefix<T(!new)>(env: Env<T>, states: seq<Apps<T>>, blocks: seq<RequestBlock>,
                           responses: seq<ResponseFinalizeBlock>)
    requires MuxRun(env, states, blocks, responses) && |blocks| > 0
    ensures MuxRun(env, states[..|blocks|], blocks[..|blocks| - 1], responses[..|blocks| - 1])
  {
    hide BlockStep;
    var n := |blocks| - 1;
    var ss, bs, rs := states[..|blocks|], blocks[..n], responses[..n];
    forall k | 0 <= k < |bs| ensures BlockStep(env, ss[k], bs[k], rs[k], ss[k + 1]) {
      assert BlockStep(env, states[k], blocks[k], responses[k], states[k + 1]);
    }
  }

  // The KV stores, one transaction at a time

  function Stores<T>(apps: Apps<T>): map<ChainAppIdentifier, Store> {
    map id | id in apps && apps[id].Kv? :: apps[id].kv.db
  }

  function StoreOf<T>(app: App<T>): Option<Store> {
    if app.Kv? then Some(app.kv.db) else None
  }

  lemma SameStores<T>(apps: Apps<T>, apps': Apps<T>)
    requires apps'.Keys == apps.Keys && forall id :: id in apps ==> StoreOf(apps'[id]) == StoreOf(apps[id])
    ensures Stores(apps') == Stores(apps)
  {
  }

  /** A single transaction executed on the store its header names: no blocks, no multiplexer, no commit. */
  function DirectTx(stores: map<ChainAppIdentifier, Store>, tx: Bytes): map<ChainAppIdentifier, Store> {
    if CheckHeader(tx).None? && Owner(tx) in stores
    then stores[Owner(tx) := ApplyTx(stores[Owner(tx)], Strip(tx))] else stores
  }

  function DirectAll(stores: map<ChainAppIdentifier, Store>, txs: seq<Bytes>): map<ChainAppIdentifier, Store> {
    if |txs| == 0 then stores else DirectTx(DirectAll(stores, txs[..|txs| - 1]), txs[|txs| - 1])
  }

  lemma {:induction false} DirectProjects(stores: map<ChainAppIdentifier, Store>, txs: seq<Bytes>)
    ensures DirectAll(stores, txs).Keys == stores.Keys
    ensures forall id :: id in stores ==> DirectAll(stores, txs)[id] == ApplyAll(stores[id], SubBlock(txs, id))
  {
    if |txs| != 0 {
      var n := |txs| - 1;
      DirectProjects(stores, txs[..n]);
      forall id | id in stores ensures DirectAll(stores, txs)[id] == ApplyAll(stores[id], SubBlock(txs, id)) {
        OneMoreApplied(stores[id], txs, id);
        assert CheckHeader(txs[n]).None? ==> (Owner(txs[n]) == id <==> Names(txs[n], id));
        hide SubBlock, ApplyAll, ApplyTx, Names, CheckHeader;
      }
    }
  }

  lemma OneMoreApplied(db: Store, txs: seq<Bytes>, id: ChainAppIdentifier)
    requires txs != []
    ensures var n := |txs| - 1;
            var before := ApplyAll(db, SubBlock(txs[..n], id));
            ApplyAll(db, SubBlock(txs, id)) == if Names(txs[n], id) then ApplyTx(before, Strip(txs[n])) else before
  {
    var n := |txs| - 1;
    hide SubBlock, ApplyAll, Names, Strip, ApplyTx;
    assert txs[..n + 1] == txs;
    OneMore(txs, n, id);
    ApplySnoc(db, SubBlock(txs[..n], id), Strip(txs[n]));
  }

  lemma ApplySnoc(db: Store, front: seq<Bytes>, tx: Bytes)
    ensures ApplyAll(db, front + [tx]) == ApplyTx(ApplyAll(db, front), tx)
  {
    assert (front + [tx])[..|front|] == front;
  }

  lemma {:induction false} DirectConcat(stores: map<ChainAppIdentifier, Store>, a: seq<Bytes>, b: seq<Bytes>)
    ensures DirectAll(stores, a + b) == DirectAll(DirectAll(stores, a), b)
  {
    if b == [] {
      assert a + b == a;
    } else {
      assert (a + b)[..|a + b| - 1] == a + b[..|b| - 1];
      DirectConcat(stores, a, b[..|b| - 1]);
    }
  }

  /** A transaction sent to a KV store is answered with the code its payload deserves by itself. */
  ghost predicate PointwiseCodes<T>(apps: Apps<T>, txs: seq<Bytes>, results: seq<Option<ExecTxResult>>) {
    && |results| == |txs|
    && forall i :: 0 <= i < |txs| && CheckHeader(txs[i]).None? && Owner(txs[i]) in apps && apps[Owner(txs[i])].Kv? ==>
         results[i] == Some(ExecTxResult(IsValid(Strip(txs[i])), []))
  }

  /** One block through the multiplexer does to the KV stores what its transactions do one by one, and position i
      of the results is the code of transaction i. */
  lemma BlockRefinesDirect<T(!new)>(env: Env<T>, apps: Apps<T>, req: RequestBlock, resp: ResponseFinalizeBlock,
                                    apps': Apps<T>)
    requires BlockStep(env, apps, req, resp, apps')
    ensures Stores(apps') == DirectAll(Stores(apps), req.txs)
    ensures PointwiseCodes(apps, req.txs, resp.txResults)
  {
    StepProjects(env, apps, req, resp, apps');
    hide BlockStep;
    StoresStep(env, apps, req, apps');
    PointwiseStep(env, apps, req, resp);
  }

  lemma StoresStep<T>(env: Env<T>, apps: Apps<T>, req: RequestBlock, apps': Apps<T>)
    requires apps'.Keys == apps.Keys
    requires forall id :: id in apps ==>
               && FinalizeBlock(env, apps[id], SubRequest(req, id)).reply.Ok?
               && Commit(env, FinalizeBlock(env, apps[id], SubRequest(req, id)).app).reply.Ok?
               && apps'[id] == SoloBlock(env, apps[id], SubRequest(req, id))
    ensures Stores(apps') == DirectAll(Stores(apps), req.txs)
  {
    hide FinalizeBlock, Commit, SubBlock, ApplyAll, SoloBlock, DirectAll;
    forall id | id in apps ensures Applied(apps[id], SubBlock(req.txs, id), apps'[id]) {
      SoloApplies(env, apps[id], req, id);
    }
    StoresApplied(apps, req.txs, apps');
  }

  /** A KV store has gone through these transactions, one by one; any other app is still another app. */
  ghost predicate Applied<T>(app: App<T>, txs: seq<Bytes>, app': App<T>) {
    app'.Kv? == app.Kv? && (app.Kv? ==> app'.kv.db == ApplyAll(app.kv.db, txs))
  }

  lemma SoloApplies<T>(env: Env<T>, app: App<T>, req: RequestBlock, id: ChainAppIdentifier)
    requires FinalizeBlock(env, app, SubRequest(req, id)).reply.Ok?
    requires Commit(env, FinalizeBlock(env, app, SubRequest(req, id)).app).reply.Ok?
    ensures Applied(app, SubBlock(req.txs, id), SoloBlock(env, app, SubRequest(req, id)))
  {
    hide Scan, ApplyAll, SubBlock;
    if app.Kv? {
      BlockMeaning(env.badger, app.kv, SubRequest(req, id));
    }
  }

  lemma StoresApplied<T>(apps: Apps<T>, txs: seq<Bytes>, apps': Apps<T>)
    requires apps'.Keys == apps.Keys && forall id :: id in apps ==> Applied(apps[id], SubBlock(txs, id), apps'[id])
    ensures Stores(apps') == DirectAll(Stores(apps), txs)
  {
    hide DirectAll, SubBlock, ApplyAll;
    DirectProjects(Stores(apps), txs);
  }

  lemma PointwiseStep<T>(env: Env<T>, apps: Apps<T>, req: RequestBlock, resp: ResponseFinalizeBlock)
    requires Filled(req.txs, apps.Keys, Values(FinalizeCalls(env, apps, req)), resp.txResults)
    requires forall id :: id in apps ==> FinalizeBlock(env, apps[id], SubRequest(req, id)).reply.Ok?
    ensures PointwiseCodes(apps, req.txs, resp.txResults)
  {
    hide FinalizeBlock, FinalizeCalls, Values, ResultAt, IsValid, Strip;
    forall i | 0 <= i < |req.txs| && CheckHeader(req.txs[i]).None? && Owner(req.txs[i]) in apps
               && apps[Owner(req.txs[i])].Kv?
      ensures resp.txResults[i] == Some(ExecTxResult(IsValid(Strip(req.txs[i])), []))
    {
      PointwiseCode(env, apps, req, i);
    }
  }

  lemma PointwiseCode<T>(env: Env<T>, apps: Apps<T>, req: RequestBlock, i: nat)
    requires i < |req.txs| && CheckHeader(req.txs[i]).None? && Owner(req.txs[i]) in apps && apps[Owner(req.txs[i])].Kv?
    requires FinalizeBlock(env, apps[Owner(req.txs[i])], SubRequest(req, Owner(req.txs[i]))).reply.Ok?
    ensures Owner(req.txs[i]) in Values(FinalizeCalls(env, apps, req))
    ensures ResultAt(Values(FinalizeCalls(env, apps, req))[Owner(req.txs[i])].txResults, Rank(req.txs, i))
            == Some(ExecTxResult(IsValid(Strip(req.txs[i])), []))
  {
    var id := Owner(req.txs[i]);
    ScanMeaning(env.badger, SubBlock(req.txs, id), map[]);
    RankFindsSlot(req.txs, i);
  }

  /** After any run the KV stores are what executing all transactions of all blocks one at a time, each straight on
      the store its header names, makes of them; and every code is that of the single transaction. */
  lemma {:induction false} RunRefinesDirect<T(!new)>(env: Env<T>, states: seq<Apps<T>>, blocks: seq<RequestBlock>,
                                                     responses: seq<ResponseFinalizeBlock>)
    requires MuxRun(env, states, blocks, responses)
    ensures Stores(states[|blocks|]) == DirectAll(Stores(states[0]), Flatten(blocks))
    ensures forall k :: 0 <= k < |blocks| ==> PointwiseCodes(states[k], blocks[k].txs, responses[k].txResults)
  {
    hide BlockStep, PointwiseCodes, DirectTx;
    var n := |blocks|;
    if n > 0 {
      RunPrefix(env, states, blocks, responses);
      RunRefinesDirect(env, states[..n], blocks[..n - 1], responses[..n - 1]);
      assert BlockStep(env, states[n - 1], blocks[n - 1], responses[n - 1], states[n]);
      BlockRefinesDirect(env, states[n - 1], blocks[n - 1], responses[n - 1], states[n]);
      DirectConcat(Stores(states[0]), Flatten(blocks[..n - 1]), blocks[n - 1].txs);
      forall k | 0 <= k < n ensures PointwiseCodes(states[k], blocks[k].txs, responses[k].txResults) {
        if k < n - 1 {
          assert PointwiseCodes(states[..n][k], blocks[..n - 1][k].txs, responses[..n - 1][k].txResults);
        }
      }
    }
  }

  /** The results of a run, block after block. */
  function AllResults(responses: seq<ResponseFinalizeBlock>): seq<Option<ExecTxResult>> {
    if |responses| == 0 then [] else AllResults(responses[..|responses| - 1]) + responses[|responses| - 1].txResults
  }

  lemma {:induction false} RunCodes<T(!new)>(env: Env<T>, states: seq<Apps<T>>, blocks: seq<RequestBlock>,
                                             responses: seq<ResponseFinalizeBlock>)
    requires MuxRun(env, states, blocks, responses)
    ensures PointwiseCodes(states[0], Flatten(blocks), AllResults(responses))
    ensures states[|blocks|].Keys == states[0].Keys
    ensures forall id :: id in states[0] ==> states[|blocks|][id].Kv? == states[0][id].Kv?
  {
    hide BlockStep, IsValid, Strip, Owner, CheckHeader;
    var n := |blocks|;
    if n > 0 {
      RunPrefix(env, states, blocks, responses);
      RunCodes(env, states[..n], blocks[..n - 1], responses[..n - 1]);
      assert BlockStep(env, states[n - 1], blocks[n - 1], responses[n - 1], states[n]);
      BlockRefinesDirect(env, states[n - 1], blocks[n - 1], responses[n - 1], states[n]);
      StepProjects(env, states[n - 1], blocks[n - 1], responses[n - 1], states[n]);
      KindsKept(env, states[n - 1], blocks[n - 1], states[n]);
      assert PointwiseCodes(states[0], blocks[n - 1].txs, responses[n - 1].txResults);
      CodesConcat(states[0], Flatten(blocks[..n - 1]), AllResults(responses[..n - 1]), blocks[n - 1].txs,
                  responses[n - 1].txResults);
    }
  }

  lemma KindsKept<T>(env: Env<T>, apps: Apps<T>, req: RequestBlock, apps': Apps<T>)
    requires apps'.Keys == apps.Keys
    requires forall id :: id in apps ==> apps'[id] == SoloBlock(env, apps[id], SubRequest(req, id))
    ensures forall id :: id in apps ==> apps'[id].Kv? == apps[id].Kv?
  {
    hide SubBlock, Scan;
  }

  lemma CodesConcat<T>(apps: Apps<T>, txs1: seq<Bytes>, results1: seq<Option<ExecTxResult>>,
                       txs2: seq<Bytes>, results2: seq<Option<ExecTxResult>>)
    requires PointwiseCodes(apps, txs1, results1) && PointwiseCodes(apps, txs2, results2)
    ensures PointwiseCodes(apps, txs1 + txs2, results1 + results2)
  {
    hide IsValid, Strip, Owner, CheckHeader;
    var txs, results := txs1 + txs2, results1 + results2;
    forall i | 0 <= i < |txs|
      ensures i < |txs1| ==> txs[i] == txs1[i] && results[i] == results1[i]
      ensures i >= |txs1| ==> txs[i] == txs2[i - |txs1|] && results[i] == results2[i - |txs1|]
    {
    }
  }

  /** Cutting one sequence of transactions into blocks in two ways gives the same stores, and every transaction to a KV
      store the same result at its place in the sequence. */
  lemma CutsAgree<T(!new)>(env: Env<T>, states1: seq<Apps<T>>, blocks1: seq<RequestBlock>,
                           responses1: seq<ResponseFinalizeBlock>,
                           states2: seq<Apps<T>>, blocks2: seq<RequestBlock>,
                           responses2: seq<ResponseFinalizeBlock>, i: nat)
    requires MuxRun(env, states1, blocks1, responses1) && MuxRun(env, states2, blocks2, responses2)
    requires Flatten(blocks1) == Flatten(blocks2) && Stores(states1[0]) == Stores(states2[0])
    requires i < |Flatten(blocks1)| && CheckHeader(Flatten(blocks1)[i]).None?
             && Owner(Flatten(blocks1)[i]) in Stores(states1[0])
    ensures Stores(states1[|blocks1|]) == Stores(states2[|blocks2|])
    ensures |AllResults(responses1)| == |AllResults(responses2)| == |Flatten(blocks1)|
    ensures AllResults(responses1)[i] == AllResults(responses2)[i]
  {
    hide BlockStep, DirectAll, Flatten, AllResults, MuxRun;
    RunRefinesDirect(env, states1, blocks1, responses1);
    RunRefinesDirect(env, states2, blocks2, responses2);
    RunCodes(env, states1, blocks1, responses1);
    RunCodes(env, states2, blocks2, responses2);
  }

  /** So the cutting into blocks, the schedules and the interleaving of the chains leave no trace in the stores:
      two runs in which each store is addressed by the same transactions in the same order end alike. */
  lemma RunsAgree<T(!new)>(env: Env<T>, states1: seq<Apps<T>>, blocks1: seq<RequestBlock>,
                           responses1: seq<ResponseFinalizeBlock>,
                           states2: seq<Apps<T>>, blocks2: seq<RequestBlock>, responses2: seq<ResponseFinalizeBlock>)
    requires MuxRun(env, states1, blocks1, responses1) && MuxRun(env, states2, blocks2, responses2)
    requires Stores(states1[0]) == Stores(states2[0])
    requires forall id :: SubBlock(Flatten(blocks1), id) == SubBlock(Flatten(blocks2), id)
    ensures Stores(states1[|blocks1|]) == Stores(states2[|blocks2|])
  {
    hide PointwiseCodes, BlockStep, DirectAll, SubBlock, Flatten;
    RunRefinesDirect(env, states1, blocks1, responses1);
    RunRefinesDirect(env, states2, blocks2, responses2);
    DirectAgrees(Stores(states1[0]), Flatten(blocks1), Flatten(blocks2));
  }

  lemma DirectAgrees(stores: map<ChainAppIdentifier, Store>, a: seq<Bytes>, b: seq<Bytes>)
    requires forall id :: SubBlock(a, id) == SubBlock(b, id)
    ensures DirectAll(stores, a) == DirectAll(stores, b)
  {
    hide DirectAll, SubBlock, ApplyAll;
    DirectProjects(stores, a);
    DirectProjects(stores, b);
    forall id | id in stores ensures DirectAll(stores, a)[id] == DirectAll(stores, b)[id] {
      assert SubBlock(a, id) == SubBlock(b, id);
    }
  }
}
