/** What the phases of a block have to do with each other: what can be seen before Commit, what a failing Commit leaves
    behind, and how CheckTx, ProcessProposal and FinalizeBlock agree on each transaction. */
module PhaseTheorems {
  import opened Abci
  import opened Orders
  import opened ChainAppIds
  import opened Routing
  import opened KvStore
  import opened ChainApps
  import opened MuxSpec
  import opened RunTheorems
  import opened FailureTheorems

  // Before and during Commit

  /** No FinalizeBlock, be it successful, failed on routing or failed by an app, changes what a KV store holds or
      answers, and a FinalizeBlock that reaches the store next finds it as if the earlier one had not been. After a
      successful one every KV store, also one without transactions in the block, has something to commit. */
  lemma NothingVisibleBeforeCommit<T>(env: Env<T>, apps: Apps<T>, req: RequestBlock, apps': Apps<T>,
                                      out: Reply<ResponseFinalizeBlock>, id: ChainAppIdentifier, next: RequestBlock,
                                      q: RequestQuery)
    requires FinalizeOutcome(env, apps, req, apps', out) && id in apps && apps[id].Kv?
    ensures id in apps' && apps'[id].Kv? && apps'[id].kv.db == apps[id].kv.db
    ensures Query(env, apps'[id], q) == Query(env, apps[id], q)
    ensures FinalizeBlock(env, apps'[id], next) == FinalizeBlock(env, apps[id], next)
    ensures out.Ok? ==> Commit(env, apps'[id]).reply != Err(NoOngoingBlock)
  {
    hide Scan, SubBlock, MergesInSomeOrder, AllRoutable;
    if out.Ok? {
      FinalizedOk(env, apps, req, apps', out.value);
    } else if AllRoutable(apps.Keys, req.txs) {
      var calls := FinalizeCalls(env, apps, req);
      var called: set<ChainAppIdentifier> :| FailedAt(apps, calls, apps', out.error, called);
      assert apps'[id] == calls[id].app || apps'[id] == apps[id];
    }
  }

  /** Committing this app alone would succeed and change its store. */
  ghost predicate WouldPublish<T>(env: Env<T>, app: App<T>) {
    && app.Kv? && app.kv.onGoingBlock.Some?
    && var txn := app.kv.onGoingBlock.value;
       !txn.discarded && env.badger.commitOk(txn) && app.kv.db + txn.writes != app.kv.db
  }

  /** A Commit that fails leaves all KV stores as they were, in whatever order the apps are visited, exactly when no app
      has anything to publish. */
  lemma CommitAtomicIff<T(!new)>(env: Env<T>, apps: Apps<T>)
    ensures (AllOk(CommitCalls(env, apps)) || forall id :: id in apps ==> !WouldPublish(env, apps[id])) <==>
            forall apps': Apps<T>, e :: CommitOutcome(env, apps, apps', Err(e)) ==> Stores(apps') == Stores(apps)
  {
    hide Commit, WouldPublish, Stores;
    if exists id :: id in apps && WouldPublish(env, apps[id]) {
      var id :| id in apps && WouldPublish(env, apps[id]);
      if !AllOk(CommitCalls(env, apps)) {
        var f :| f in CommitCalls(env, apps) && CommitCalls(env, apps)[f].reply.Err?;
        var apps' := CommitsThenFails(env, apps, id, f);
      }
    } else {
      forall apps': Apps<T>, e | CommitOutcome(env, apps, apps', Err(e)) ensures Stores(apps') == Stores(apps) {
        NothingPublished(env, apps, apps', e);
      }
    }
  }

  lemma NothingPublished<T>(env: Env<T>, apps: Apps<T>, apps': Apps<T>, e: Error)
    requires CommitOutcome(env, apps, apps', Err(e)) && forall id :: id in apps ==> !WouldPublish(env, apps[id])
    ensures Stores(apps') == Stores(apps)
  {
    hide CommitOutcome, Commit, StoreOf, WouldPublish;
    FailedCommitApps(env, apps, apps', e);
    forall id | id in apps ensures StoreOf(apps'[id]) == StoreOf(apps[id]) {
      CommitKeepsStore(env, apps[id]);
    }
    SameStores(apps, apps');
  }

  lemma FailedCommitApps<T>(env: Env<T>, apps: Apps<T>, apps': Apps<T>, e: Error)
    requires CommitOutcome(env, apps, apps', Err(e))
    ensures apps'.Keys == apps.Keys
    ensures forall id :: id in apps ==> apps'[id] == apps[id] || apps'[id] == Commit(env, apps[id]).app
  {
    hide Commit, Distinct;
    var calls := CommitCalls(env, apps);
    var called: set<ChainAppIdentifier> :| apps' == After(apps, calls, called);
  }

  lemma CommitKeepsStore<T>(env: Env<T>, app: App<T>)
    ensures !WouldPublish(env, app) ==> StoreOf(Commit(env, app).app) == StoreOf(app)
    ensures WouldPublish(env, app) ==> Commit(env, app).reply.Ok? && StoreOf(Commit(env, app).app) != StoreOf(app)
  {
  }

  lemma CommitsThenFails<T>(env: Env<T>, apps: Apps<T>, id: ChainAppIdentifier, f: ChainAppIdentifier)
    returns (apps': Apps<T>)
    requires id in apps && WouldPublish(env, apps[id])
    requires f in apps && Commit(env, apps[f]).reply.Err?
    ensures CommitOutcome(env, apps, apps', Err(Commit(env, apps[f]).reply.error))
    ensures Stores(apps') != Stores(apps)
  {
    CommitKeepsStore(env, apps[id]);
    hide Commit, WouldPublish, CommitOutcome;
    var calls := CommitCalls(env, apps);
    apps' := After(apps, calls, {id, f});
    assert apps'[id] == calls[id].app;
    assert id in Stores(apps);
    TwoVisits(env, apps, id, f);
  }

  lemma TwoVisits<T>(env: Env<T>, apps: Apps<T>, id: ChainAppIdentifier, f: ChainAppIdentifier)
    requires id in apps && Commit(env, apps[id]).reply.Ok?
    requires f in apps && Commit(env, apps[f]).reply.Err?
    ensures CommitOutcome(env, apps, After(apps, CommitCalls(env, apps), {id, f}),
                          Err(Commit(env, apps[f]).reply.error))
  {
    hide Commit, After;
    var visited := [id, f];
    assert (set x | x in visited) == {id, f};
    assert Distinct(visited) && visited[|visited| - 1] == f;
    assert forall i :: 0 <= i < |visited| - 1 ==> visited[i] == id;
  }

  /** Two KV stores, one with a write to publish, one without an ongoing block: when the first is visited first, a
      Commit that fails has changed it. */
  lemma CommitHalfway<T(!new)>(env: Env<T>, key: Bytes, value: Bytes)
    requires env.badger.commitOk(Txn(map[key := value], false))
    ensures var apps: Apps<T> := map[[0, 0, 0, 1] := Kv(KvState(map[], Some(Txn(map[key := value], false)))),
                                     [0, 0, 0, 2] := Kv(KvState(map[], None))];
            exists apps': Apps<T> :: CommitOutcome(env, apps, apps', Err(NoOngoingBlock))
                && Stores(apps') != Stores(apps)
  {
    var a: ChainAppIdentifier, b: ChainAppIdentifier := [0, 0, 0, 1], [0, 0, 0, 2];
    assert a[3] != b[3];
    var apps: Apps<T> := map[a := Kv(KvState(map[], Some(Txn(map[key := value], false)))),
                             b := Kv(KvState(map[], None))];
    assert key in map[] + map[key := value];
    assert WouldPublish(env, apps[a]);
    var apps' := CommitsThenFails(env, apps, a, b);
  }

  ghost predicate SameReplies<T>(calls: Calls<T, ResponseCommit>) {
    forall a, b :: a in calls && b in calls ==> calls[a].reply == calls[b].reply
  }

  /** What Commit returns does not depend on the order in which the apps are visited exactly when all of them give
      the same reply, or some fail and these all give one error. */
  lemma CommitIndependentIff<T(!new)>(env: Env<T>, apps: Apps<T>)
    ensures var calls := CommitCalls(env, apps);
            (if AllOk(calls) then SameReplies(calls) else OneError(calls)) <==>
            forall apps1: Apps<T>, out1, apps2: Apps<T>, out2 ::
              CommitOutcome(env, apps, apps1, out1) && CommitOutcome(env, apps, apps2, out2) ==> out1 == out2
  {
    hide CommitCalls, CommitOutcome;
    var calls := CommitCalls(env, apps);
    if AllOk(calls) && !SameReplies(calls) {
      var a: ChainAppIdentifier, b: ChainAppIdentifier :| a in calls && b in calls && calls[a].reply != calls[b].reply;
      LastReplyReturned(env, apps, a);
      LastReplyReturned(env, apps, b);
    } else if !AllOk(calls) && !OneError(calls) {
      var a, b := TwoErrors(calls);
      FirstErrorReturned(env, apps, a);
      FirstErrorReturned(env, apps, b);
    } else {
      forall apps1: Apps<T>, out1, apps2: Apps<T>, out2
        | CommitOutcome(env, apps, apps1, out1) && CommitOutcome(env, apps, apps2, out2)
        ensures out1 == out2
      {
        SameCommitReturn(env, apps, apps1, out1, apps2, out2);
      }
    }
  }

  lemma LastReplyReturned<T>(env: Env<T>, apps: Apps<T>, id: ChainAppIdentifier)
    requires var calls := CommitCalls(env, apps); AllOk(calls) && id in calls
    ensures var calls := CommitCalls(env, apps);
            CommitOutcome(env, apps, After(apps, calls, calls.Keys), Ok(Some(calls[id].reply.value)))
  {
    hide CommitCalls, After;
    var visited := EndingWith(id, CommitCalls(env, apps).Keys);
  }

  lemma FirstErrorReturned<T>(env: Env<T>, apps: Apps<T>, id: ChainAppIdentifier)
    requires var calls := CommitCalls(env, apps); id in calls && calls[id].reply.Err?
    ensures var calls := CommitCalls(env, apps);
            CommitOutcome(env, apps, After(apps, calls, {id}), Err(calls[id].reply.error))
  {
    hide CommitCalls, After;
    var visited := [id];
    assert (set x | x in visited) == {id};
    assert visited[|visited| - 1] == id;
  }

  /** There is an outcome for every call, and a successful one when no app fails. */
  lemma CommitHasOutcome<T>(env: Env<T>, apps: Apps<T>) returns (apps': Apps<T>, out: Reply<Option<ResponseCommit>>)
    ensures CommitOutcome(env, apps, apps', out)
    ensures out.Ok? <==> AllOk(CommitCalls(env, apps))
  {
    hide CommitCalls, After;
    var calls := CommitCalls(env, apps);
    if AllOk(calls) {
      var visited := OrderStartingWith([], calls.Keys);
      apps', out := After(apps, calls, calls.Keys), Ok(LastReply(calls, visited));
    } else {
      var id :| id in calls && calls[id].reply.Err?;
      FirstErrorReturned(env, apps, id);
      apps', out := After(apps, calls, {id}), Err(calls[id].reply.error);
    }
  }

  lemma SameCommitReturn<T>(env: Env<T>, apps: Apps<T>, apps1: Apps<T>, out1: Reply<Option<ResponseCommit>>,
                            apps2: Apps<T>, out2: Reply<Option<ResponseCommit>>)
    requires CommitOutcome(env, apps, apps1, out1) && CommitOutcome(env, apps, apps2, out2)
    requires var calls := CommitCalls(env, apps); if AllOk(calls) then SameReplies(calls) else OneError(calls)
    ensures out1 == out2
  {
    hide CommitCalls, After;
    CommitReturns(env, apps, apps1, out1);
    CommitReturns(env, apps, apps2, out2);
  }

  /** A success comes from an app that is visited last, or from nowhere if there is none; an error from an app that
      fails. */
  lemma CommitReturns<T>(env: Env<T>, apps: Apps<T>, apps': Apps<T>, out: Reply<Option<ResponseCommit>>)
    requires CommitOutcome(env, apps, apps', out)
    ensures var calls := CommitCalls(env, apps);
            match out
            case Ok(None) => AllOk(calls) && calls.Keys == {}
            case Ok(Some(r)) => AllOk(calls) && exists id :: id in calls && calls[id].reply == Ok(r)
            case Err(e) => exists id :: id in calls && calls[id].reply == Err(e)
  {
    hide CommitCalls, After, Distinct;
    var calls := CommitCalls(env, apps);
    if out.Ok? {
      var visited :| IsOrder(visited, calls.Keys) && out.value == LastReply(calls, visited);
      if visited != [] {
        var last := visited[|visited| - 1];
        assert last in visited && last in calls;
      }
    }
  }

  // The phases of a block

  /** CheckTx asks the app that ProcessProposal and FinalizeBlock send the transaction to, about the bytes these send it
      in the place of the transaction's rank; it calls no other app. */
  lemma SamePayloadInEveryPhase<T>(env: Env<T>, apps: Apps<T>, i: nat, apps': Apps<T>, out: Reply<ResponseCheckTx>,
                                   req: RequestBlock, apps1: Apps<T>, apps2: Apps<T>)
    requires i < |req.txs| && Routable(apps.Keys, req.txs[i]) && apps1.Keys == apps2.Keys == apps.Keys
    requires CheckTxOutcome(env, apps, req.txs[i], apps', out)
    ensures var id, r := Owner(req.txs[i]), Rank(req.txs, i);
            var part := SubRequest(req, id);
            && r < |part.txs|
            && id in apps' && CheckTx(env, apps[id], part.txs[r]) == Call(apps'[id], out)
            && (forall other :: other in apps && other != id ==> other in apps' && apps'[other] == apps[other])
            && id in ProposalCalls(env, apps1, req)
            && ProposalCalls(env, apps1, req)[id] == ProcessProposal(env, apps1[id], part)
            && FinalizeCalls(env, apps2, req)[id] == FinalizeBlock(env, apps2[id], part)
  {
    hide CheckTx, ProcessProposal, FinalizeBlock, SubBlock, Rank, Strip;
    RankFindsSlot(req.txs, i);
    var id := Owner(req.txs[i]);
    assert CheckTx(env, apps[id], Strip(req.txs[i])) == Call(apps'[id], out);
  }

  /** What CheckTx says of a transaction it cannot hand on: it does not begin with the magic, or nobody is registered
      under the four bytes that follow. No app is called. */
  lemma CheckTxRefusals<T>(env: Env<T>, apps: Apps<T>, tx: Bytes, apps': Apps<T>, out: Reply<ResponseCheckTx>)
    requires |tx| >= HEADER_LEN && CheckTxOutcome(env, apps, tx, apps', out)
    ensures |tx| >= 8
    ensures tx[..4] != [0x23, 0x6d, 0x75, 0x78] ==> out == Err(CheckTxFailed(InvalidMagic)) && apps' == apps
    ensures tx[..4] == [0x23, 0x6d, 0x75, 0x78] && tx[4..8] !in apps ==>
              out == Err(CheckTxFailed(InvalidChainReference)) && apps' == apps
    ensures tx[..4] == [0x23, 0x6d, 0x75, 0x78] && tx[4..8] in apps ==> out.Ok? || !out.error.CheckTxFailed?
  {
    HeaderVerdict(tx);
  }

  /** A KV transaction gets, in whatever block it is finalized, the code CheckTx gave it at whatever time. */
  lemma CheckTxForetellsCode<T>(env: Env<T>, apps: Apps<T>, i: nat, apps': Apps<T>, out: Reply<ResponseCheckTx>,
                                req: RequestBlock, apps1: Apps<T>, apps2: Apps<T>, resp: ResponseFinalizeBlock)
    requires i < |req.txs| && Routable(apps.Keys, req.txs[i]) && CheckTxOutcome(env, apps, req.txs[i], apps', out)
    requires FinalizeOutcome(env, apps1, req, apps2, Ok(resp))
    requires var id := Owner(req.txs[i]); apps[id].Kv? && id in apps1 && apps1[id].Kv?
    ensures out.Ok? && |resp.txResults| == |req.txs|
    ensures resp.txResults[i] == Some(ExecTxResult(out.value.code, []))
  {
    hide FinalizeOutcome, FinalizeBlock, Rank, IsValid;
    FinalizedOk(env, apps1, req, apps2, resp);
    PointwiseStep(env, apps1, req, resp);
  }

  /** The header names a KV store. */
  predicate KvTx<T>(apps: Apps<T>, tx: Bytes) {
    Routable(apps.Keys, tx) && apps[Owner(tx)].Kv?
  }

  lemma CodesForetold<T>(env: Env<T>, txs: seq<Bytes>, before: seq<Apps<T>>, after: seq<Apps<T>>,
                         checks: seq<Reply<ResponseCheckTx>>, req: RequestBlock,
                         apps: Apps<T>, apps': Apps<T>, resp: ResponseFinalizeBlock)
    requires |before| == |after| == |checks| == |txs| && req.txs == txs
    requires forall i :: 0 <= i < |txs| ==>
                           |txs[i]| >= HEADER_LEN && CheckTxOutcome(env, before[i], txs[i], after[i], checks[i])
    requires FinalizeOutcome(env, apps, req, apps', Ok(resp))
    ensures |resp.txResults| == |checks|
    ensures forall i :: 0 <= i < |checks| && KvTx(before[i], txs[i]) && KvTx(apps, txs[i]) ==>
                          checks[i].Ok? && resp.txResults[i] == Some(ExecTxResult(checks[i].value.code, []))
  {
    FinalizedOk(env, apps, req, apps', resp);
    hide FinalizeOutcome, CheckTxOutcome;
    forall i | 0 <= i < |checks| && KvTx(before[i], txs[i]) && KvTx(apps, txs[i])
      ensures checks[i].Ok? && resp.txResults[i] == Some(ExecTxResult(checks[i].value.code, []))
    {
      CheckTxForetellsCode(env, before[i], i, after[i], checks[i], req, apps, apps', resp);
    }
  }

  predicate Unrouted<R>(check: Reply<R>) {
    check.Err? && check.error.CheckTxFailed?
  }

  /** CheckTx refuses some transaction for its routing exactly when ProcessProposal refuses the block made of them
      for its routing, and exactly when FinalizeBlock does; both then call no app. The apps may change in the
      meantime, and nothing an app answers can be mistaken for these refusals. The bytes CheckTx asks about are those
      the block calls send; and where the block succeeds, each KV transaction gets the code CheckTx gave it. */
  lemma RoutingAgrees<T>(env: Env<T>, txs: seq<Bytes>, before: seq<Apps<T>>, after: seq<Apps<T>>,
                         checks: seq<Reply<ResponseCheckTx>>, req: RequestBlock,
                         apps1: Apps<T>, apps1': Apps<T>, verdict: Reply<ProposalStatus>,
                         apps2: Apps<T>, apps2': Apps<T>, out: Reply<ResponseFinalizeBlock>)
    requires |before| == |after| == |checks| == |txs| && req.txs == txs
    requires forall i :: 0 <= i < |txs| ==>
                           && |txs[i]| >= HEADER_LEN && before[i].Keys == apps1.Keys
                           && CheckTxOutcome(env, before[i], txs[i], after[i], checks[i])
    requires apps2.Keys == apps1.Keys
    requires ProposalOutcome(env, apps1, req, apps1', verdict) && FinalizeOutcome(env, apps2, req, apps2', out)
    ensures verdict == Err(NoHandlerFound) <==> exists i :: 0 <= i < |checks| && Unrouted(checks[i])
    ensures out == Err(NoHandlerFound) <==> exists i :: 0 <= i < |checks| && Unrouted(checks[i])
    ensures verdict == Err(NoHandlerFound) ==> apps1' == apps1 && apps2' == apps2
    ensures forall i :: 0 <= i < |txs| && Routable(apps1.Keys, txs[i]) ==>
              var sent := SubRequest(req, Owner(txs[i]));
              && sent.info == req.info
              && Rank(req.txs, i) < |sent.txs| && sent.txs[Rank(req.txs, i)] == txs[i][8..]
    ensures out.Ok? ==>
              && |out.value.txResults| == |checks|
              && forall i :: 0 <= i < |checks| && KvTx(before[i], txs[i]) && KvTx(apps2, txs[i]) ==>
                   checks[i].Ok? && out.value.txResults[i] == Some(ExecTxResult(checks[i].value.code, []))
  {
    if out.Ok? {
      CodesForetold(env, txs, before, after, checks, req, apps2, apps2', out.value);
    }
    forall i | 0 <= i < |txs| && Routable(apps1.Keys, txs[i])
      ensures SubRequest(req, Owner(txs[i])).info == req.info
      ensures Rank(req.txs, i) < |SubRequest(req, Owner(txs[i])).txs|
      ensures SubRequest(req, Owner(txs[i])).txs[Rank(req.txs, i)] == txs[i][8..]
    {
      hide SubBlock, Rank, ProposalOutcome, FinalizeOutcome, CheckTxOutcome;
      RankFindsSlot(req.txs, i);
    }
    hide KvTx, CheckTxOutcome, ProposalOutcome, FinalizeOutcome, AllRoutable, Unrouted, SubRequest, Rank, Routable;
    BlockUnrouted(env, req, apps1, apps1', verdict, apps2, apps2', out);
    forall i | 0 <= i < |txs| ensures Unrouted(checks[i]) <==> !Routable(apps1.Keys, txs[i]) {
      CheckUnrouted(env, before[i], txs[i], after[i], checks[i]);
    }
    SomeUnrouted(apps1.Keys, txs, checks);
  }

  lemma CheckUnrouted<T>(env: Env<T>, apps: Apps<T>, tx: Bytes, apps': Apps<T>, check: Reply<ResponseCheckTx>)
    requires |tx| >= HEADER_LEN && CheckTxOutcome(env, apps, tx, apps', check)
    ensures Unrouted(check) <==> !Routable(apps.Keys, tx)
  {
    hide CheckTx;
  }

  lemma SomeUnrouted(ids: set<ChainAppIdentifier>, txs: seq<Bytes>, checks: seq<Reply<ResponseCheckTx>>)
    requires |checks| == |txs| && forall i :: 0 <= i < |txs| ==> (Unrouted(checks[i]) <==> !Routable(ids, txs[i]))
    ensures AllRoutable(ids, txs) <==> !exists i :: 0 <= i < |checks| && Unrouted(checks[i])
  {
    hide Routable, Unrouted;
    assert forall i :: 0 <= i < |checks| ==> (Unrouted(checks[i]) <==> !Routable(ids, txs[i]));
  }

  lemma BlockUnrouted<T>(env: Env<T>, req: RequestBlock,
                         apps1: Apps<T>, apps1': Apps<T>, verdict: Reply<ProposalStatus>,
                         apps2: Apps<T>, apps2': Apps<T>, out: Reply<ResponseFinalizeBlock>)
    requires ProposalOutcome(env, apps1, req, apps1', verdict) && FinalizeOutcome(env, apps2, req, apps2', out)
    requires apps2.Keys == apps1.Keys
    ensures verdict == Err(NoHandlerFound) <==> !AllRoutable(apps1.Keys, req.txs)
    ensures out == Err(NoHandlerFound) <==> !AllRoutable(apps1.Keys, req.txs)
    ensures !AllRoutable(apps1.Keys, req.txs) ==> apps1' == apps1 && apps2' == apps2
  {
    hide ProposalCalls, FinalizeCalls, After, VerdictInSomeOrder, MergesInSomeOrder, AllRoutable;
  }
}
