/** Whole sessions: calls of every kind in any order, with goroutines of failed calls that go on in the background. */
module SessionTheorems {
  import opened Abci
  import opened ChainAppIds
  import opened Routing
  import opened KvStore
  import opened KvTheorems
  import opened ChainApps
  import opened MuxSpec
  import opened RunTheorems

  /** A call on the multiplexer with what it returned, or a left-over goroutine that calls its app. FinalizeBlock is
      recorded with the apps its goroutines have yet to call, Commit with the apps it has visited. */
  datatype SessionEvent =
    | Finalize(req: RequestBlock, finalized: Reply<ResponseFinalizeBlock>, late: set<ChainAppIdentifier>)
    | Process(proposal: RequestBlock, verdict: Reply<ProposalStatus>)
    | Init(clients: Clients, chain: RequestInitChain, merged: Reply<Option<ResponseInitChain>>)
    | Check(tx: Bytes, checked: Reply<ResponseCheckTx>)
    | Ask(id: ChainAppIdentifier, query: RequestQuery, answer: Reply<ResponseQuery>)
    | CommitAll(done: Reply<Option<ResponseCommit>>, visited: set<ChainAppIdentifier>)
    | Straggle(worker: Worker)

  datatype Session<T> = Session(apps: Apps<T>, outstanding: multiset<Worker>)

  ghost predicate Step<T>(env: Env<T>, s: Session<T>, event: SessionEvent, t: Session<T>) {
    match event
    case Finalize(req, out, late) =>
      && FinalizeReturns(env, s.apps, req, t.apps, out, late)
      && t.outstanding == s.outstanding + multiset(FinalizeWorkers(req, late))
    case Process(req, out) => ProposalStep(env, s.apps, s.outstanding, req, t.apps, t.outstanding, out)
    case Init(clients, chain, out) => InitStep(env, clients, s.apps, s.outstanding, chain, t.apps, t.outstanding, out)
    case Check(tx, out) =>
      |tx| >= HEADER_LEN && CheckTxOutcome(env, s.apps, tx, t.apps, out) && t.outstanding == s.outstanding
    case Ask(id, q, out) => id in s.apps && out == Query(env, s.apps[id], q) && t == s
    case CommitAll(out, visited) =>
      CommitVisits(env, s.apps, t.apps, out, visited) && t.outstanding == s.outstanding
    case Straggle(w) =>
      && w in s.outstanding && w.id in s.apps
      && t == Session(s.apps[w.id := CalledLate(env, s.apps[w.id], w)], s.outstanding - multiset{w})
  }

  ghost predicate SessionRun<T>(env: Env<T>, states: seq<Session<T>>, events: seq<SessionEvent>) {
    && |states| == |events| + 1
    && forall k :: 0 <= k < |events| ==> Step(env, states[k], events[k], states[k + 1])
  }

  /** The block that is finalized and waits for Commit: none after a Commit, or once a FinalizeBlock that came to call
      apps has failed or a goroutine of an earlier failed one has reached its app. */
  function Open(events: seq<SessionEvent>): Option<RequestBlock> {
    if |events| == 0 then None
    else
      var front := events[..|events| - 1];
      match events[|events| - 1]
      case Finalize(req, out, _) =>
        if out.Ok? then Some(req) else if out == Err(NoHandlerFound) then Open(front) else None
      case CommitAll(_, _) => None
      case Straggle(w) => if w.FinalizeWorker? then None else Open(front)
      case _ => Open(front)
  }

  /** The committed blocks. */
  function Landed(events: seq<SessionEvent>): seq<RequestBlock> {
    if |events| == 0 then []
    else
      var front := events[..|events| - 1];
      if events[|events| - 1].CommitAll? && Open(front).Some? then Landed(front) + [Open(front).value]
      else Landed(front)
  }

  /** Commit is called for a finalized block that is still open, and succeeds. */
  ghost predicate Orderly(events: seq<SessionEvent>) {
    forall k :: 0 <= k < |events| && events[k].CommitAll? ==> events[k].done.Ok? && Open(events[..k]).Some?
  }

  /** Each KV store has the writes of its part of the block pending. */
  ghost predicate Pending<T>(apps: Apps<T>, block: Option<RequestBlock>) {
    block.Some? ==> forall id :: id in apps && apps[id].Kv? ==> PendingIn(apps[id].kv, SubBlock(block.value.txs, id))
  }

  ghost predicate PendingIn(kv: KvState, txs: seq<Bytes>) {
    && kv.onGoingBlock.Some? && !kv.onGoingBlock.value.discarded
    && kv.db + kv.onGoingBlock.value.writes == ApplyAll(kv.db, txs)
  }

  // What each kind of event does to the KV stores

  /** The same KV stores, in the same states. */
  ghost predicate KvsKept<T>(apps: Apps<T>, apps': Apps<T>) {
    && apps'.Keys == apps.Keys
    && forall id :: id in apps ==> apps'[id].Kv? == apps[id].Kv? && (apps[id].Kv? ==> apps'[id] == apps[id])
  }

  lemma KeptStores<T>(apps: Apps<T>, apps': Apps<T>, block: Option<RequestBlock>)
    requires KvsKept(apps, apps') && Pending(apps, block)
    ensures Stores(apps') == Stores(apps) && Pending(apps', block)
  {
    hide PendingIn;
  }

  /** A fan-out that no KV store reacts to. */
  lemma FanOutKeepsKvs<T, R>(apps: Apps<T>, calls: Calls<T, R>, apps': Apps<T>, called: set<ChainAppIdentifier>)
    requires apps' == After(apps, calls, called)
    requires forall id :: id in calls && id in apps ==>
                            calls[id].app.Kv? == apps[id].Kv? && (apps[id].Kv? ==> calls[id].app == apps[id])
    ensures KvsKept(apps, apps')
  {
  }

  lemma ProcessKeepsKvs<T>(env: Env<T>, apps: Apps<T>, req: RequestBlock, apps': Apps<T>, out: Reply<ProposalStatus>)
    requires ProposalOutcome(env, apps, req, apps', out)
    ensures KvsKept(apps, apps')
  {
    hide AllRoutable, VerdictInSomeOrder, After, SubBlock;
    var calls := ProposalCalls(env, apps, req);
    if AllRoutable(apps.Keys, req.txs) {
      var called: set<ChainAppIdentifier> :| apps' == After(apps, calls, called);
      FanOutKeepsKvs(apps, calls, apps', called);
    }
  }

  lemma InitKeepsKvs<T>(env: Env<T>, clients: Clients, apps: Apps<T>, chain: RequestInitChain, apps': Apps<T>,
                        out: Reply<Option<ResponseInitChain>>)
    requires InitOutcome(env, clients, apps, chain, apps', out)
    ensures KvsKept(apps, apps')
  {
    hide InitMergesInSomeOrder, After;
    var calls := InitCalls(env, clients, apps, chain);
    var called: set<ChainAppIdentifier> :| apps' == After(apps, calls, called);
    FanOutKeepsKvs(apps, calls, apps', called);
  }

  lemma FinalizedPending<T>(env: Env<T>, apps: Apps<T>, req: RequestBlock, apps': Apps<T>, resp: ResponseFinalizeBlock)
    requires FinalizeOutcome(env, apps, req, apps', Ok(resp))
    ensures apps'.Keys == apps.Keys && Stores(apps') == Stores(apps) && Pending(apps', Some(req))
    ensures PointwiseCodes(apps, req.txs, resp.txResults)
  {
    FinalizedOk(env, apps, req, apps', resp);
    forall id | id in apps
      ensures apps'[id].Kv? == apps[id].Kv?
      ensures apps[id].Kv? ==> apps'[id].kv.db == apps[id].kv.db && PendingIn(apps'[id].kv, SubBlock(req.txs, id))
    {
      hide FinalizeOutcome, Scan, SubBlock, ApplyAll;
      if apps[id].Kv? {
        ScanMeaning(env.badger, SubBlock(req.txs, id), apps[id].kv.db);
      }
    }
    hide FinalizeOutcome, PendingIn, FinalizeBlock, SubBlock;
    PointwiseStep(env, apps, req, resp);
  }

  lemma CommitPublishes<T>(env: Env<T>, apps: Apps<T>, req: RequestBlock, apps': Apps<T>, done: Option<ResponseCommit>)
    requires CommitOutcome(env, apps, apps', Ok(done)) && Pending(apps, Some(req))
    ensures apps'.Keys == apps.Keys && Pending(apps', None)
    ensures Stores(apps') == DirectAll(Stores(apps), req.txs)
  {
    CommittedOk(env, apps, apps', done);
    hide CommitOutcome, DirectAll, ApplyAll, SubBlock;
    forall id | id in apps ensures Applied(apps[id], SubBlock(req.txs, id), apps'[id]) {
    }
    StoresApplied(apps, req.txs, apps');
  }

  lemma StraggleKeepsStores<T>(env: Env<T>, apps: Apps<T>, w: Worker, apps': Apps<T>, block: Option<RequestBlock>)
    requires w.id in apps && apps' == apps[w.id := CalledLate(env, apps[w.id], w)] && Pending(apps, block)
    ensures apps'.Keys == apps.Keys && Stores(apps') == Stores(apps)
    ensures Pending(apps', if w.FinalizeWorker? then None else block)
  {
    hide Scan, PendingIn;
    assert StoreOf(CalledLate(env, apps[w.id], w)) == StoreOf(apps[w.id]);
    assert apps'.Keys == apps.Keys;
    SameStores(apps, apps');
    if !w.FinalizeWorker? {
      assert KvsKept(apps, apps');
      KeptStores(apps, apps', block);
    }
  }

  lemma FailedFinalize<T>(env: Env<T>, apps: Apps<T>, req: RequestBlock, apps': Apps<T>, e: Error,
                          block: Option<RequestBlock>)
    requires FinalizeOutcome(env, apps, req, apps', Err(e)) && Pending(apps, block)
    ensures apps'.Keys == apps.Keys && Stores(apps') == Stores(apps)
    ensures Pending(apps', if e == NoHandlerFound then block else None)
  {
    hide AllRoutable, SubBlock;
    if AllRoutable(apps.Keys, req.txs) {
      var calls := FinalizeCalls(env, apps, req);
      var called: set<ChainAppIdentifier> :| FailedAt(apps, calls, apps', e, called);
      assert apps'.Keys == apps.Keys;
      forall id | id in apps ensures StoreOf(apps'[id]) == StoreOf(apps[id]) {
        hide Scan;
        assert apps'[id] == apps[id] || apps'[id] == calls[id].app;
      }
      SameStores(apps, apps');
    }
  }

  lemma EventStep<T>(env: Env<T>, s: Session<T>, event: SessionEvent, t: Session<T>, front: seq<SessionEvent>)
    requires Step(env, s, event, t) && Pending(s.apps, Open(front))
    requires event.CommitAll? ==> event.done.Ok? && Open(front).Some?
    ensures t.apps.Keys == s.apps.Keys && Pending(t.apps, Open(front + [event]))
    ensures Stores(t.apps) == if event.CommitAll? then DirectAll(Stores(s.apps), Open(front).value.txs)
                              else Stores(s.apps)
  {
    var events := front + [event];
    assert events[..|events| - 1] == front;
    hide FinalizeOutcome, ProposalOutcome, InitOutcome, CommitOutcome, CalledLate, DirectAll, Stores, Pending;
    match event
    case Finalize(req, out, _) =>
      if out.Ok? {
        FinalizedPending(env, s.apps, req, t.apps, out.value);
      } else {
        FailedFinalize(env, s.apps, req, t.apps, out.error, Open(front));
      }
    case Process(req, out) =>
      ProcessKeepsKvs(env, s.apps, req, t.apps, out);
      KeptStores(s.apps, t.apps, Open(front));
    case Init(clients, chain, out) =>
      InitKeepsKvs(env, clients, s.apps, chain, t.apps, out);
      KeptStores(s.apps, t.apps, Open(front));
    case Check(tx, out) =>
      assert KvsKept(s.apps, t.apps);
      KeptStores(s.apps, t.apps, Open(front));
    case Ask(_, _, _) =>
    case CommitAll(out, _) =>
      CommitPublishes(env, s.apps, Open(front).value, t.apps, out.value);
    case Straggle(w) =>
      StraggleKeepsStores(env, s.apps, w, t.apps, Open(front));
  }

  // Sessions

  lemma SessionPrefix<T>(env: Env<T>, states: seq<Session<T>>, events: seq<SessionEvent>, n: nat)
    requires SessionRun(env, states, events) && Orderly(events) && n <= |events|
    ensures SessionRun(env, states[..n + 1], events[..n]) && Orderly(events[..n])
  {
    hide Step, Open;
    var ss, es := states[..n + 1], events[..n];
    forall k | 0 <= k < n ensures Step(env, ss[k], es[k], ss[k + 1]) && es[..k] == events[..k] {
      assert Step(env, states[k], events[k], states[k + 1]);
    }
  }

  /** Whatever calls are made in whatever order, with FinalizeBlock failing or being repeated, proposals, checks,
      queries, InitChain and left-over goroutines in between: as long as Commit is called for an open block and
      succeeds, the KV stores hold what the committed blocks' transactions leave when executed one at a time. */
  lemma {:induction false} SessionRefinesDirect<T>(env: Env<T>, states: seq<Session<T>>, events: seq<SessionEvent>)
    requires SessionRun(env, states, events) && Orderly(events)
    ensures var last := states[|events|].apps;
            && last.Keys == states[0].apps.Keys && Pending(last, Open(events))
            && Stores(last) == DirectAll(Stores(states[0].apps), Flatten(Landed(events)))
  {
    hide Step, Pending, Stores, DirectTx;
    var n := |events|;
    if n == 0 {
      NothingPending(states[0].apps);
    } else {
      var front, event := events[..n - 1], events[n - 1];
      SessionPrefix(env, states, events, n - 1);
      SessionRefinesDirect(env, states[..n], front);
      assert Step(env, states[n - 1], event, states[n]);
      assert front + [event] == events;
      EventStep(env, states[n - 1], event, states[n], front);
      if event.CommitAll? {
        OneMoreLanded(Stores(states[0].apps), Landed(front), Open(front).value);
      }
    }
  }

  lemma NothingPending<T>(apps: Apps<T>)
    ensures Pending(apps, None)
  {
  }

  lemma OneMoreLanded(stores: map<ChainAppIdentifier, Store>, blocks: seq<RequestBlock>, block: RequestBlock)
    ensures DirectAll(stores, Flatten(blocks + [block])) == DirectAll(DirectAll(stores, Flatten(blocks)), block.txs)
  {
    assert (blocks + [block])[..|blocks|] == blocks;
    DirectConcat(stores, Flatten(blocks), block.txs);
  }

  /** At every moment of a session a query of a KV store is answered from the blocks committed so far. */
  lemma QueriesSeeCommitted<T>(env: Env<T>, states: seq<Session<T>>, events: seq<SessionEvent>, k: nat)
    requires SessionRun(env, states, events) && Orderly(events) && k < |events| && events[k].Ask?
    requires events[k].id in Stores(states[0].apps)
    ensures var stores := DirectAll(Stores(states[0].apps), Flatten(Landed(events[..k])));
            && events[k].id in stores
            && events[k].answer == KvQuery(env.badger, KvState(stores[events[k].id], None), events[k].query)
  {
    hide DirectAll, Pending, Flatten, Landed, Open;
    SessionPrefix(env, states, events, k);
    SessionRefinesDirect(env, states[..k + 1], events[..k]);
    DirectProjects(Stores(states[0].apps), Flatten(Landed(events[..k])));
    assert Step(env, states[k], events[k], states[k + 1]);
  }

  /** Also the codes of every finalized block are those its transactions deserve one by one. */
  lemma SessionCodes<T>(env: Env<T>, states: seq<Session<T>>, events: seq<SessionEvent>, k: nat)
    requires SessionRun(env, states, events) && k < |events| && events[k].Finalize? && events[k].finalized.Ok?
    ensures PointwiseCodes(states[k].apps, events[k].req.txs, events[k].finalized.value.txResults)
  {
    hide FinalizeOutcome, PointwiseCodes, Pending;
    assert Step(env, states[k], events[k], states[k + 1]);
    FinalizedPending(env, states[k].apps, events[k].req, states[k + 1].apps, events[k].finalized.value);
  }
}
