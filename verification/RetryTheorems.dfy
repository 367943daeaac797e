/** A FinalizeBlock that failed early, its left-over goroutines, and the FinalizeBlock and Commit that follow. */
module RetryTheorems {
  import opened Abci
  import opened ChainAppIds
  import opened Routing
  import opened KvStore
  import opened KvTheorems
  import opened ChainApps
  import opened MuxSpec
  import opened MuxTheorems
  import opened PhaseTheorems
  import opened RunTheorems
  import opened ScriptedApps

  /** The goroutines that a failed FinalizeBlock left over for the apps in `late` have called them. */
  function Straggled<T>(env: Env<T>, apps: Apps<T>, failed: RequestBlock, late: set<ChainAppIdentifier>): Apps<T> {
    map id | id in apps ::
      if id in late then CalledLate(env, apps[id], FinalizeWorker(id, SubRequest(failed, id))) else apps[id]
  }

  /** While nothing else is called, the left-over goroutines of a failed call only lead to states that call could have
      returned in. */
  lemma StragglersStayAllowed<T>(env: Env<T>, apps: Apps<T>, req: RequestBlock, apps': Apps<T>, error: Error,
                                 left: set<ChainAppIdentifier>, late: set<ChainAppIdentifier>)
    requires FinalizeReturns(env, apps, req, apps', Err(error), left) && late <= left
    ensures FinalizeReturns(env, apps, req, Straggled(env, apps', req, late), Err(error), left - late)
  {
    hide FinalizeBlock, AllRoutable, MergesInSomeOrder;
    if AllRoutable(apps.Keys, req.txs) {
      var calls := FinalizeCalls(env, apps, req);
      var called, more := calls.Keys - left, calls.Keys - (left - late);
      assert Straggled(env, apps', req, late) == After(apps, calls, more);
      hide FinalizeCalls;
      assert called <= more;
      assert FailedAt(apps, calls, After(apps, calls, more), error, more);
    } else {
      assert Straggled(env, apps', req, late) == apps';
    }
  }

  /** What a KV store holds in the end: the late goroutine's writes where there is one, else the retry's. */
  function AfterRetry<T>(env: Env<T>, db: Store, failed: RequestBlock, retry: RequestBlock, id: ChainAppIdentifier,
                         late: set<ChainAppIdentifier>): Store
  {
    if id in late then db + Scan(env.badger, SubBlock(failed.txs, id)).writes else ApplyAll(db, SubBlock(retry.txs, id))
  }

  /** The same FinalizeBlock again or another one, then Commit. Goroutines of the failed call that reach a store before
      the retry does, or never, leave no trace. In a store that one of them reaches after the retry, the failed block's
      writes are what Commit publishes. */
  lemma RetryAfterFailure<T>(env: Env<T>, apps: Apps<T>, failed: RequestBlock, apps1: Apps<T>, error: Error,
                             left: set<ChainAppIdentifier>, early: set<ChainAppIdentifier>,
                             late: set<ChainAppIdentifier>,
                             retry: RequestBlock, apps2: Apps<T>, resp: ResponseFinalizeBlock,
                             apps3: Apps<T>, done: Option<ResponseCommit>)
    requires FinalizeReturns(env, apps, failed, apps1, Err(error), left)
    requires early <= left && late <= left - early
    requires FinalizeOutcome(env, Straggled(env, apps1, failed, early), retry, apps2, Ok(resp))
    requires CommitOutcome(env, Straggled(env, apps2, failed, late), apps3, Ok(done))
    ensures apps3.Keys == apps.Keys
    ensures forall id :: id in apps ==> apps3[id].Kv? == apps[id].Kv?
    ensures forall id :: id in apps && apps[id].Kv? ==>
              apps3[id].kv.db == AfterRetry(env, apps[id].kv.db, failed, retry, id, late)
  {
    hide Scan, SubBlock, FinalizeOutcome, CommitOutcome, FinalizeReturns, FinalizeBlock, Commit, AfterRetry;
    FailedKeepsStores(env, apps, failed, apps1, error, left);
    var mid := Straggled(env, apps1, failed, early);
    FinalizedOk(env, mid, retry, apps2, resp);
    CommittedOk(env, Straggled(env, apps2, failed, late), apps3, done);
    forall id | id in apps
      ensures apps3[id].Kv? == apps[id].Kv?
      ensures apps[id].Kv? ==> apps3[id].kv.db == AfterRetry(env, apps[id].kv.db, failed, retry, id, late)
    {
      SameKind(env, apps1[id], SubRequest(failed, id));
      OneRetried(env, mid[id], failed, retry, id, late);
    }
  }

  lemma SameKind<T>(env: Env<T>, app: App<T>, req: RequestBlock)
    ensures FinalizeBlock(env, app, req).app.Kv? == app.Kv?
    ensures app.Kv? ==> FinalizeBlock(env, app, req).app.kv.db == app.kv.db
  {
    hide Scan;
  }

  /** The retry seen from one app. */
  lemma OneRetried<T>(env: Env<T>, app: App<T>, failed: RequestBlock, retry: RequestBlock, id: ChainAppIdentifier,
                      late: set<ChainAppIdentifier>)
    requires FinalizeBlock(env, app, SubRequest(retry, id)).reply.Ok?
    requires var finalized := FinalizeBlock(env, app, SubRequest(retry, id)).app;
             var reached := if id in late then CalledLate(env, finalized, FinalizeWorker(id, SubRequest(failed, id)))
                            else finalized;
             Commit(env, reached).reply.Ok?
    ensures var finalized := FinalizeBlock(env, app, SubRequest(retry, id)).app;
            var reached := if id in late then CalledLate(env, finalized, FinalizeWorker(id, SubRequest(failed, id)))
                           else finalized;
            var committed := Commit(env, reached).app;
            && committed.Kv? == app.Kv?
            && (app.Kv? ==> committed.kv.db == AfterRetry(env, app.kv.db, failed, retry, id, late))
  {
    hide Scan, SubBlock, ApplyAll;
    if app.Kv? {
      ScanMeaning(env.badger, SubBlock(retry.txs, id), app.kv.db);
    }
  }

  lemma FailedKeepsStores<T>(env: Env<T>, apps: Apps<T>, failed: RequestBlock, apps1: Apps<T>, error: Error,
                             left: set<ChainAppIdentifier>)
    requires FinalizeReturns(env, apps, failed, apps1, Err(error), left)
    ensures apps1.Keys == apps.Keys
    ensures forall id :: id in apps ==>
              apps1[id].Kv? == apps[id].Kv? && (apps[id].Kv? ==> apps1[id].kv.db == apps[id].kv.db)
  {
    hide Scan, SubBlock, FinalizeOutcome, AllRoutable;
    if !AllRoutable(apps.Keys, failed.txs) {
      Unrouted(env, apps, failed, apps1, error);
    }
  }

  lemma Unrouted<T>(env: Env<T>, apps: Apps<T>, failed: RequestBlock, apps1: Apps<T>, error: Error)
    requires FinalizeOutcome(env, apps, failed, apps1, Err(error)) && !AllRoutable(apps.Keys, failed.txs)
    ensures apps1 == apps
  {
  }

  lemma StoresIff<T>(env: Env<T>, apps: Apps<T>, failed: RequestBlock, retry: RequestBlock,
                     late: set<ChainAppIdentifier>, apps3: Apps<T>)
    requires apps3.Keys == apps.Keys
    requires forall id :: id in apps ==> apps3[id].Kv? == apps[id].Kv?
    requires forall id :: id in apps && apps[id].Kv? ==>
               apps3[id].kv.db == AfterRetry(env, apps[id].kv.db, failed, retry, id, late)
    ensures Stores(apps3) == DirectAll(Stores(apps), retry.txs) <==>
            forall id :: id in late && id in apps && apps[id].Kv? ==>
                           apps[id].kv.db + Scan(env.badger, SubBlock(failed.txs, id)).writes
                           == ApplyAll(apps[id].kv.db, SubBlock(retry.txs, id))
  {
    hide Scan, SubBlock, ApplyAll, DirectAll;
    var direct := DirectAll(Stores(apps), retry.txs);
    DirectProjects(Stores(apps), retry.txs);
    assert Stores(apps3).Keys == direct.Keys;
    assert Stores(apps3) == direct <==> forall id :: id in Stores(apps) ==> Stores(apps3)[id] == direct[id];
  }

  lemma TakenWhole<T>(env: Env<T>, app: App<T>, req: RequestBlock, id: ChainAppIdentifier, db: Store)
    requires app.Kv? && FinalizeBlock(env, app, SubRequest(req, id)).reply.Ok?
    ensures db + Scan(env.badger, SubBlock(req.txs, id)).writes == ApplyAll(db, SubBlock(req.txs, id))
  {
    ScanMeaning(env.badger, SubBlock(req.txs, id), db);
  }

  /** Exactly then do all KV stores hold what the retry's transactions leave: every store that is reached late gets the
      same from both blocks. So it is when the failed call had called every app, and when the same transactions are
      retried. */
  lemma RetryHoldsIff<T>(env: Env<T>, apps: Apps<T>, failed: RequestBlock, apps1: Apps<T>, error: Error,
                         left: set<ChainAppIdentifier>, early: set<ChainAppIdentifier>, late: set<ChainAppIdentifier>,
                         retry: RequestBlock, apps2: Apps<T>, resp: ResponseFinalizeBlock,
                         apps3: Apps<T>, done: Option<ResponseCommit>)
    requires FinalizeReturns(env, apps, failed, apps1, Err(error), left)
    requires early <= left && late <= left - early
    requires FinalizeOutcome(env, Straggled(env, apps1, failed, early), retry, apps2, Ok(resp))
    requires CommitOutcome(env, Straggled(env, apps2, failed, late), apps3, Ok(done))
    ensures Stores(apps3) == DirectAll(Stores(apps), retry.txs) <==>
            forall id :: id in late && id in apps && apps[id].Kv? ==>
                           apps[id].kv.db + Scan(env.badger, SubBlock(failed.txs, id)).writes
                           == ApplyAll(apps[id].kv.db, SubBlock(retry.txs, id))
    ensures left == {} || retry.txs == failed.txs ==> Stores(apps3) == DirectAll(Stores(apps), retry.txs)
  {
    RetryAfterFailure(env, apps, failed, apps1, error, left, early, late, retry, apps2, resp, apps3, done);
    StoresIff(env, apps, failed, retry, late, apps3);
    FailedKeepsStores(env, apps, failed, apps1, error, left);
    var mid := Straggled(env, apps1, failed, early);
    FinalizedOk(env, mid, retry, apps2, resp);
    hide FinalizeOutcome, CommitOutcome, FinalizeReturns, Scan, SubBlock, ApplyAll, DirectAll, Stores;
    forall id | id in late && id in apps && apps[id].Kv? && retry.txs == failed.txs
      ensures apps[id].kv.db + Scan(env.badger, SubBlock(failed.txs, id)).writes
              == ApplyAll(apps[id].kv.db, SubBlock(retry.txs, id))
    {
      TakenWhole(env, mid[id], retry, id, apps[id].kv.db);
    }
  }

  /** A retry and a Commit that succeed, with these goroutines before the retry and those between the two. */
  ghost predicate RetriedWith<T(!new)>(env: Env<T>, apps1: Apps<T>, failed: RequestBlock,
                                       early: set<ChainAppIdentifier>, late: set<ChainAppIdentifier>,
                                       retry: RequestBlock, apps3: Apps<T>)
  {
    exists apps2: Apps<T>, resp, done ::
      && FinalizeOutcome(env, Straggled(env, apps1, failed, early), retry, apps2, Ok(resp))
      && CommitOutcome(env, Straggled(env, apps2, failed, late), apps3, Ok(done))
  }

  /** A KV store to which the two blocks do not do the same. */
  ghost predicate Differ<T>(env: Env<T>, apps: Apps<T>, failed: RequestBlock, retry: RequestBlock,
                            id: ChainAppIdentifier)
  {
    && id in apps && apps[id].Kv?
    && apps[id].kv.db + Scan(env.badger, SubBlock(failed.txs, id)).writes
       != ApplyAll(apps[id].kv.db, SubBlock(retry.txs, id))
  }

  /** Seen from the moment the failed call returns: the retry's transactions are what all KV stores end up with,
      whenever the goroutines in `left` run, exactly when the two blocks do the same to every store in `left`; provided
      that Commit can succeed when all of them run late. */
  lemma RetrySafeIff<T(!new)>(env: Env<T>, apps: Apps<T>, failed: RequestBlock, apps1: Apps<T>, error: Error,
                              left: set<ChainAppIdentifier>, retry: RequestBlock)
    requires FinalizeReturns(env, apps, failed, apps1, Err(error), left)
    requires exists apps3: Apps<T> :: RetriedWith(env, apps1, failed, {}, left, retry, apps3)
    ensures (forall id :: id in left ==> !Differ(env, apps, failed, retry, id)) <==>
            forall early, late, apps3: Apps<T> ::
              early <= left && late <= left - early && RetriedWith(env, apps1, failed, early, late, retry, apps3) ==>
                Stores(apps3) == DirectAll(Stores(apps), retry.txs)
  {
    hide FinalizeReturns, RetriedWith, Differ, Stores, DirectAll;
    forall early, late, apps3: Apps<T>
      | early <= left && late <= left - early && RetriedWith(env, apps1, failed, early, late, retry, apps3)
      ensures Stores(apps3) == DirectAll(Stores(apps), retry.txs) <==>
              forall id :: id in late ==> !Differ(env, apps, failed, retry, id)
    {
      OneTiming(env, apps, failed, apps1, error, left, early, late, retry, apps3);
    }
    var apps3: Apps<T> :| RetriedWith(env, apps1, failed, {}, left, retry, apps3);
    assert left <= left - {};
  }

  lemma OneTiming<T(!new)>(env: Env<T>, apps: Apps<T>, failed: RequestBlock, apps1: Apps<T>, error: Error,
                           left: set<ChainAppIdentifier>, early: set<ChainAppIdentifier>, late: set<ChainAppIdentifier>,
                           retry: RequestBlock, apps3: Apps<T>)
    requires FinalizeReturns(env, apps, failed, apps1, Err(error), left) && early <= left && late <= left - early
    requires RetriedWith(env, apps1, failed, early, late, retry, apps3)
    ensures Stores(apps3) == DirectAll(Stores(apps), retry.txs) <==>
            forall id :: id in late ==> !Differ(env, apps, failed, retry, id)
  {
    var apps2: Apps<T>, resp, done :|
      && FinalizeOutcome(env, Straggled(env, apps1, failed, early), retry, apps2, Ok(resp))
      && CommitOutcome(env, Straggled(env, apps2, failed, late), apps3, Ok(done));
    hide FinalizeReturns, FinalizeOutcome, CommitOutcome, Stores, DirectAll, Scan, ApplyAll, SubBlock, Straggled;
    RetryHoldsIff(env, apps, failed, apps1, error, left, early, late, retry, apps2, resp, apps3, done);
  }

  lemma ScanOne(badger: Badger, tx: Bytes)
    requires IsValid(tx) == 0
    ensures Scan(badger, [tx]) == if badger.setOk(KeyOf(tx), ValueOf(tx))
                                  then Progress(map[KeyOf(tx) := ValueOf(tx)], [Some(ExecTxResult(0, []))], true)
                                  else Progress(map[], [], false)
  {
    hide IsValid, KeyOf, ValueOf;
    assert [tx][..0] == [];
  }

  /** The failed call of LateWrite. */
  lemma FirstFails(apps: Apps<Script>, a: ChainAppIdentifier, b: ChainAppIdentifier, reason: string,
                   failed: RequestBlock)
    returns (apps1: Apps<Script>)
    requires a != b && apps.Keys == {a, b} && apps[a] == Other(FailingOnce(reason))
    requires AllRoutable(apps.Keys, failed.txs)
    ensures FinalizeReturns(Scripted(), apps, failed, apps1, Err(AppError(reason)), {b})
    ensures apps1.Keys == {a, b} && apps1[a] == Other(Script(0, reason, [], 0)) && apps1[b] == apps[b]
  {
    hide SubBlock, AllRoutable;
    var calls := FinalizeCalls(Scripted(), apps, failed);
    assert calls[a].reply == Err(AppError(reason)) && calls[a].app == Other(Script(0, reason, [], 0));
    apps1 := After(apps, calls, {a});
    hide Scan;
    assert calls.Keys - {b} == {a};
    assert FailedAt(apps, calls, apps1, AppError(reason), {a});
  }

  /** An app that does not fail any more, and any KV store that has been finalized, can be finalized and committed. */
  lemma Willing(app: App<Script>, req: RequestBlock)
    requires app.Other? ==> app.other.failures == 0
    ensures var call := FinalizeBlock(Scripted(), app, req);
            && call.reply.Ok? && Commit(Scripted(), call.app).reply.Ok?
            && call.app.Other? == app.Other? && (app.Other? ==> call.app == app)
  {
    if app.Kv? {
      ScanMeaning(Scripted().badger, req.txs, app.kv.db);
      hide Scan;
    }
  }

  /** The retry of LateWrite. */
  lemma RetrySucceeds(apps1: Apps<Script>, retry: RequestBlock)
    returns (apps2: Apps<Script>, resp: ResponseFinalizeBlock)
    requires AllRoutable(apps1.Keys, retry.txs)
    requires forall id :: id in apps1 && apps1[id].Other? ==> apps1[id].other.failures == 0
    ensures FinalizeOutcome(Scripted(), apps1, retry, apps2, Ok(resp))
    ensures apps2.Keys == apps1.Keys
    ensures forall id :: id in apps1 ==> apps2[id] == FinalizeBlock(Scripted(), apps1[id], SubRequest(retry, id)).app
  {
    hide Scripted, FinalizeOutcome, FinalizeBlock, Commit, SubRequest, AllRoutable;
    forall id | id in apps1 ensures FinalizeBlock(Scripted(), apps1[id], SubRequest(retry, id)).reply.Ok? {
      Willing(apps1[id], SubRequest(retry, id));
    }
    var out;
    apps2, out := FinalizeHasOutcome(Scripted(), apps1, retry);
    resp := out.value;
    FinalizedOk(Scripted(), apps1, retry, apps2, resp);
  }

  /** The Commit of LateWrite. */
  lemma CommitSucceeds(apps1: Apps<Script>, apps2: Apps<Script>, failed: RequestBlock, retry: RequestBlock,
                       late: set<ChainAppIdentifier>)
    returns (apps3: Apps<Script>, done: Option<ResponseCommit>)
    requires forall id :: id in apps1 && apps1[id].Other? ==> apps1[id].other.failures == 0
    requires apps2.Keys == apps1.Keys
    requires forall id :: id in apps1 ==> apps2[id] == FinalizeBlock(Scripted(), apps1[id], SubRequest(retry, id)).app
    ensures CommitOutcome(Scripted(), Straggled(Scripted(), apps2, failed, late), apps3, Ok(done))
  {
    hide Scripted, CommitOutcome, FinalizeBlock, Commit, SubRequest;
    var mid := Straggled(Scripted(), apps2, failed, late);
    forall id | id in mid ensures Commit(Scripted(), mid[id]).reply.Ok? {
      Willing(apps1[id], SubRequest(retry, id));
      Willing(apps2[id], SubRequest(failed, id));
    }
    assert AllOk(CommitCalls(Scripted(), mid));
    var out;
    apps3, out := CommitHasOutcome(Scripted(), mid);
    done := out.value;
  }

  /** An app answers with an error before a KV store has been called. The goroutine gets to the store after an empty
      block has been finalized, and Commit publishes a write no committed block holds. */
  lemma LateWrite(reason: string, payload: Bytes, info: BlockInfo)
    returns (apps: Apps<Script>, failed: RequestBlock, apps1: Apps<Script>, retry: RequestBlock, apps2: Apps<Script>,
             resp: ResponseFinalizeBlock, apps3: Apps<Script>, done: Option<ResponseCommit>)
    requires IsValid(payload) == 0
    ensures var a, b := [0, 0, 0, 1], [0, 0, 0, 2];
            && apps == map[a := Other(FailingOnce(reason)), b := Kv(KvState(map[], None))]
            && failed == RequestBlock([MAGIC + b + payload], info) && retry == RequestBlock([], info)
            && FinalizeReturns(Scripted(), apps, failed, apps1, Err(AppError(reason)), {b})
            && FinalizeOutcome(Scripted(), apps1, retry, apps2, Ok(resp))
            && CommitOutcome(Scripted(), Straggled(Scripted(), apps2, failed, {b}), apps3, Ok(done))
            && apps3.Keys == apps.Keys && apps3[b].Kv? && apps3[b].kv.db == map[KeyOf(payload) := ValueOf(payload)]
  {
    var a: ChainAppIdentifier, b: ChainAppIdentifier := [0, 0, 0, 1], [0, 0, 0, 2];
    assert a[3] != b[3];
    apps := map[a := Other(FailingOnce(reason)), b := Kv(KvState(map[], None))];
    failed := RequestBlock([MAGIC + b + payload], info);
    retry := RequestBlock([], info);
    Addressed(b, payload);
    OnePart(b, payload, failed.txs, apps.Keys);
    NoneToRoute(apps.Keys, retry.txs);
    assert apps[b].Kv? && apps[b].kv.db == map[];
    assert Scripted().badger.setOk(KeyOf(payload), ValueOf(payload));
    hide *;
    apps1 := FirstFails(apps, a, b, reason, failed);
    apps2, resp := RetrySucceeds(apps1, retry);
    apps3, done := CommitSucceeds(apps1, apps2, failed, retry, {b});
    NoneEarly(Scripted(), apps1, failed);
    RetryAfterFailure(Scripted(), apps, failed, apps1, AppError(reason), {b}, {}, {b}, retry, apps2, resp, apps3, done);
    WrittenLate(Scripted(), map[], failed, retry, b, {b}, payload);
  }

  lemma NoneEarly<T>(env: Env<T>, apps: Apps<T>, failed: RequestBlock)
    ensures Straggled(env, apps, failed, {}) == apps
  {
  }

  lemma WrittenLate<T>(env: Env<T>, db: Store, failed: RequestBlock, retry: RequestBlock, id: ChainAppIdentifier,
                       late: set<ChainAppIdentifier>, payload: Bytes)
    requires db == map[] && id in late && SubBlock(failed.txs, id) == [payload]
    requires IsValid(payload) == 0 && env.badger.setOk(KeyOf(payload), ValueOf(payload))
    ensures AfterRetry(env, db, failed, retry, id, late) == map[KeyOf(payload) := ValueOf(payload)]
  {
    ScanOne(env.badger, payload);
    hide Scan, IsValid, SubBlock, KeyOf, ValueOf;
  }
}
