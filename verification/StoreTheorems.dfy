/** One KV store in any session at all: failing Commits, Commits without a block, and goroutines that come late
    included. */
module StoreTheorems {
  import opened Abci
  import opened ChainAppIds
  import opened Routing
  import opened KvStore
  import opened KvTheorems
  import opened ChainApps
  import opened MuxSpec
  import opened RunTheorems
  import opened SessionTheorems

  /** The store's contents, and the transactions of the last block that reached it unless Commit has come since. */
  datatype View = View(db: Store, waiting: Option<seq<Bytes>>)

  /** The transactions that were executed: all of them, or those before the first one the database refused. */
  function Taken(badger: Badger, txs: seq<Bytes>): seq<Bytes> {
    ScanLength(badger, txs);
    txs[..|Scan(badger, txs).results|]
  }

  lemma {:induction false} ScanLength(badger: Badger, txs: seq<Bytes>)
    ensures |Scan(badger, txs).results| <= |txs|
    ensures Scan(badger, txs).ok ==> |Scan(badger, txs).results| == |txs|
  {
    if txs != [] {
      ScanLength(badger, txs[..|txs| - 1]);
    }
  }

  function Reach(v: View, txs: seq<Bytes>): View {
    v.(waiting := Some(txs))
  }

  function Publish(badger: Badger, v: View): View {
    match v.waiting
    case None => v
    case Some(txs) =>
      var published := badger.commitOk(Txn(Scan(badger, txs).writes, false));
      View(if published then ApplyAll(v.db, Taken(badger, txs)) else v.db, None)
  }

  /** What the events of a session do to the store of `id`: blocks reach it, through calls and through late goroutines,
      and each Commit that visits it publishes the last of them. */
  function ViewAfter(badger: Badger, v: View, events: seq<SessionEvent>, id: ChainAppIdentifier): View {
    if |events| == 0 then v
    else
      var before := ViewAfter(badger, v, events[..|events| - 1], id);
      match events[|events| - 1]
      case Finalize(req, out, late) =>
        if out == Err(NoHandlerFound) || id in late then before else Reach(before, SubBlock(req.txs, id))
      case CommitAll(_, visited) => if id in visited then Publish(badger, before) else before
      case Straggle(w) => if w.FinalizeWorker? && w.id == id then Reach(before, w.block.txs) else before
      case _ => before
  }

  ghost predicate Shows(badger: Badger, kv: KvState, v: View) {
    && kv.db == v.db
    && match v.waiting
       case None => kv.onGoingBlock.None? || kv.onGoingBlock.value.discarded
       case Some(txs) => kv.onGoingBlock == Some(Txn(Scan(badger, txs).writes, false))
  }

  predicate Refused(badger: Badger, tx: Bytes) {
    IsValid(tx) == 0 && !badger.setOk(KeyOf(tx), ValueOf(tx))
  }

  lemma TakenStep(badger: Badger, txs: seq<Bytes>)
    requires txs != []
    ensures var front, tx := txs[..|txs| - 1], txs[|txs| - 1];
            var before, after := Scan(badger, front).writes, Scan(badger, txs).writes;
            if !Scan(badger, front).ok || Refused(badger, tx) then
              after == before && Taken(badger, txs) == Taken(badger, front)
            else
              && Taken(badger, front) == front && Taken(badger, txs) == front + [tx]
              && after == if IsValid(tx) == 0 then before[KeyOf(tx) := ValueOf(tx)] else before
  {
    hide IsValid, KeyOf, ValueOf;
    ScanLength(badger, txs[..|txs| - 1]);
    ScanLength(badger, txs);
  }

  /** Also of a block that the database refuses half way, exactly the transactions before the refused one are
      written. */
  lemma {:induction false} ScanTakes(badger: Badger, txs: seq<Bytes>, db: Store)
    ensures db + Scan(badger, txs).writes == ApplyAll(db, Taken(badger, txs))
  {
    if txs == [] {
      assert db + map[] == db;
    } else {
      var front, tx := txs[..|txs| - 1], txs[|txs| - 1];
      hide Scan, Taken, IsValid, KeyOf, ValueOf, Refused, ApplyAll;
      ScanTakes(badger, front, db);
      TakenStep(badger, txs);
      ApplySnoc(db, front, tx);
    }
  }

  /** The first refused transaction is the first valid one that the database does not take. */
  lemma TakenUntilRefused(badger: Badger, txs: seq<Bytes>)
    ensures |Taken(badger, txs)| <= |txs| && Taken(badger, txs) == txs[..|Taken(badger, txs)|]
    ensures forall i :: 0 <= i < |Taken(badger, txs)| ==> !Refused(badger, txs[i])
    ensures |Taken(badger, txs)| < |txs| ==> Refused(badger, txs[|Taken(badger, txs)|])
  {
    ScanLength(badger, txs);
    RefusalEnds(badger, txs);
  }

  lemma {:induction false} RefusalEnds(badger: Badger, txs: seq<Bytes>)
    ensures var k := |Scan(badger, txs).results|;
            && (if Scan(badger, txs).ok then k == |txs| else k < |txs| && Refused(badger, txs[k]))
            && forall i :: 0 <= i < k ==> !Refused(badger, txs[i])
  {
    hide IsValid, KeyOf, ValueOf;
    if txs != [] {
      var n := |txs| - 1;
      RefusalEnds(badger, txs[..n]);
      assert forall i :: 0 <= i < n ==> txs[..n][i] == txs[i];
    }
  }

  lemma Reached<T>(env: Env<T>, app: App<T>, req: RequestBlock, v: View)
    requires app.Kv? && Shows(env.badger, app.kv, v)
    ensures var called := FinalizeBlock(env, app, req).app;
            called.Kv? && Shows(env.badger, called.kv, Reach(v, req.txs))
  {
    hide Scan;
  }

  lemma Committed<T>(env: Env<T>, app: App<T>, v: View)
    requires app.Kv? && Shows(env.badger, app.kv, v)
    ensures Commit(env, app).app.Kv? && Shows(env.badger, Commit(env, app).app.kv, Publish(env.badger, v))
  {
    if v.waiting.Some? {
      ScanTakes(env.badger, v.waiting.value, v.db);
    }
    hide Scan, ApplyAll, Taken;
  }

  lemma FinalizeReaches<T>(env: Env<T>, apps: Apps<T>, req: RequestBlock, apps': Apps<T>,
                           out: Reply<ResponseFinalizeBlock>, late: set<ChainAppIdentifier>, id: ChainAppIdentifier)
    requires FinalizeReturns(env, apps, req, apps', out, late) && id in apps
    ensures id in apps'
    ensures apps'[id] == if out == Err(NoHandlerFound) || id in late then apps[id]
                         else FinalizeBlock(env, apps[id], SubRequest(req, id)).app
  {
    hide FinalizeBlock, AllRoutable, SubBlock, MergesInSomeOrder;
  }

  lemma OneEvent<T>(env: Env<T>, s: Session<T>, event: SessionEvent, t: Session<T>, id: ChainAppIdentifier, v: View,
                    front: seq<SessionEvent>, v0: View)
    requires Step(env, s, event, t) && id in s.apps && s.apps[id].Kv? && Shows(env.badger, s.apps[id].kv, v)
    requires v == ViewAfter(env.badger, v0, front, id)
    ensures id in t.apps && t.apps[id].Kv?
    ensures Shows(env.badger, t.apps[id].kv, ViewAfter(env.badger, v0, front + [event], id))
  {
    var events := front + [event];
    assert events[..|events| - 1] == front;
    hide FinalizeReturns, ProposalOutcome, InitOutcome, CommitOutcome, Shows, Reach, Publish, SubBlock,
         FinalizeBlock, Commit;
    match event
    case Finalize(req, out, late) =>
      FinalizeReaches(env, s.apps, req, t.apps, out, late, id);
      Reached(env, s.apps[id], SubRequest(req, id), v);
    case Process(req, out) =>
      ProcessKeepsKvs(env, s.apps, req, t.apps, out);
    case Init(clients, chain, out) =>
      InitKeepsKvs(env, clients, s.apps, chain, t.apps, out);
    case Check(tx, out) =>
    case Ask(_, _, _) =>
    case CommitAll(out, visited) =>
      Committed(env, s.apps[id], v);
    case Straggle(w) =>
      if w.FinalizeWorker? && w.id == id {
        Reached(env, s.apps[id], w.block, v);
      }
  }

  /** A KV store at the end of any session: its contents are the successive Commits that visited it, each of the last
      block that had reached it, and what waits in it is the block that has reached it since. */
  lemma {:induction false} StoreInAnySession<T>(env: Env<T>, states: seq<Session<T>>, events: seq<SessionEvent>,
                                                id: ChainAppIdentifier, v: View)
    requires SessionRun(env, states, events) && id in states[0].apps && states[0].apps[id].Kv?
    requires Shows(env.badger, states[0].apps[id].kv, v)
    ensures id in states[|events|].apps && states[|events|].apps[id].Kv?
    ensures Shows(env.badger, states[|events|].apps[id].kv, ViewAfter(env.badger, v, events, id))
  {
    hide Step, Shows;
    if events != [] {
      var n := |events| - 1;
      RunUpTo(env, states, events, n);
      StoreInAnySession(env, states[..n + 1], events[..n], id, v);
      assert states[..n + 1][n] == states[n] && events[..n] + [events[n]] == events;
      assert Step(env, states[n], events[n], states[n + 1]);
      OneEvent(env, states[n], events[n], states[n + 1], id, ViewAfter(env.badger, v, events[..n], id), events[..n], v);
    }
  }

  lemma RunUpTo<T>(env: Env<T>, states: seq<Session<T>>, events: seq<SessionEvent>, n: nat)
    requires SessionRun(env, states, events) && n <= |events|
    ensures SessionRun(env, states[..n + 1], events[..n])
  {
    hide Step;
    var ss, es := states[..n + 1], events[..n];
    forall k | 0 <= k < n ensures Step(env, ss[k], es[k], ss[k + 1]) {
      assert Step(env, states[k], events[k], states[k + 1]);
    }
  }

  /** And every query of it is answered from those Commits. */
  lemma QueryInAnySession<T>(env: Env<T>, states: seq<Session<T>>, events: seq<SessionEvent>, k: nat, v: View)
    requires SessionRun(env, states, events) && k < |events| && events[k].Ask?
    requires events[k].id in states[0].apps && states[0].apps[events[k].id].Kv?
    requires Shows(env.badger, states[0].apps[events[k].id].kv, v)
    ensures var seen := ViewAfter(env.badger, v, events[..k], events[k].id);
            events[k].answer == KvQuery(env.badger, KvState(seen.db, None), events[k].query)
  {
    hide ViewAfter;
    RunUpTo(env, states, events, k);
    StoreInAnySession(env, states[..k + 1], events[..k], events[k].id, v);
    assert Step(env, states[k], events[k], states[k + 1]);
  }

  /** A goroutine that comes late was left over by an earlier FinalizeBlock that failed, and brings that block's
      part. */
  lemma {:induction false} StragglersComeFrom<T>(env: Env<T>, states: seq<Session<T>>, events: seq<SessionEvent>,
                                                 w: Worker)
    requires SessionRun(env, states, events) && states[0].outstanding == multiset{}
    requires w in states[|events|].outstanding && w.FinalizeWorker?
    ensures exists k :: 0 <= k < |events| && LeavesOver(events[k], w)
  {
    hide FinalizeReturns, ProposalReturns, InitReturns, CheckTxOutcome, CommitVisits, CalledLate;
    assert events != [];
    var n := |events| - 1;
    RunUpTo(env, states, events, n);
    assert Step(env, states[n], events[n], states[n + 1]);
    if w in states[n].outstanding {
      StragglersComeFrom(env, states[..n + 1], events[..n], w);
      var k :| 0 <= k < n && LeavesOver(events[..n][k], w);
      assert events[..n][k] == events[k];
    } else {
      match events[n]
      case Finalize(req, out, late) =>
        LateMeansFailed(env, states[n].apps, req, states[n + 1].apps, out, late);
        assert LeavesOver(events[n], w);
      case _ =>
    }
  }

  lemma LateMeansFailed<T>(env: Env<T>, apps: Apps<T>, req: RequestBlock, apps': Apps<T>,
                           out: Reply<ResponseFinalizeBlock>, late: set<ChainAppIdentifier>)
    requires FinalizeReturns(env, apps, req, apps', out, late)
    ensures late != {} ==> out.Err?
  {
    hide FinalizeOutcome, FinalizeCalls;
  }

  ghost predicate LeavesOver(event: SessionEvent, w: Worker) {
    && event.Finalize? && event.finalized.Err? && w.id in event.late
    && w == FinalizeWorker(w.id, SubRequest(event.req, w.id))
  }

  /** Nothing is lost by recording the apps a Commit has visited. */
  lemma SomeVisited<T>(env: Env<T>, apps: Apps<T>, apps': Apps<T>, out: Reply<Option<ResponseCommit>>)
    requires CommitOutcome(env, apps, apps', out)
    ensures exists visited :: CommitVisits(env, apps, apps', out, visited)
  {
    hide Commit;
    var calls := CommitCalls(env, apps);
    if out.Ok? {
      assert calls.Keys == apps.Keys;
      assert CommitVisits(env, apps, apps', out, apps.Keys);
    } else {
      var visited: seq<ChainAppIdentifier> :|
        && visited != [] && (forall i :: 0 <= i < |visited| ==> visited[i] in calls)
        && calls[visited[|visited| - 1]].reply == Err(out.error)
        && apps' == After(apps, calls, set id | id in visited);
      assert CommitVisits(env, apps, apps', out, set id | id in visited);
    }
  }
}
