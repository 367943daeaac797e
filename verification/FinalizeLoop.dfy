/** The parts of FinalizeBlock: what its workers do, its loop over the replies, and the merge by identifier
    (cosmux/multiplexer.go, lines 421-525). */
module FinalizeLoop {
  import opened Abci
  import opened Orders
  import opened ChainAppIds
  import opened Routing
  import opened ChainApps
  import opened MuxSpec
  import opened FanOut
  import opened FanOutTheorems

  datatype FinalizeResponse = FinalizeResponse(response: Reply<ResponseFinalizeBlock>, slots: seq<nat>)

  lemma FinalizeUnrouted<T>(env: Env<T>, apps: Apps<T>, outstanding: multiset<Worker>, req: RequestBlock)
    requires !AllRoutable(apps.Keys, req.txs)
    ensures FinalizeStep(env, apps, outstanding, req, apps, outstanding, Err(NoHandlerFound))
  {
    assert FinalizeReturns(env, apps, req, apps, Err(NoHandlerFound), {});
    NoneLate(outstanding, FinalizeWorkers(req, {}));
  }

  lemma NoneLate(outstanding: multiset<Worker>, late: set<Worker>)
    requires late == {}
    ensures outstanding + multiset(late) == outstanding
  {
  }

  lemma FilledNothing(txs: seq<Bytes>, answers: Answers<ResponseFinalizeBlock>, results: seq<Option<ExecTxResult>>)
    requires |results| == |txs| && forall i :: 0 <= i < |results| ==> results[i] == None
    ensures Filled(txs, {}, answers, results)
  {
  }

  lemma FinalizeFails<T>(env: Env<T>, apps: Apps<T>, outstanding: multiset<Worker>, req: RequestBlock,
                         calls: Calls<T, ResponseFinalizeBlock>, called: set<ChainAppIdentifier>, e: Error)
    requires AllRoutable(apps.Keys, req.txs) && calls == FinalizeCalls(env, apps, req)
    requires called <= calls.Keys && exists id :: id in called && calls[id].reply == Err(e)
    ensures After(apps, calls, called).Keys == apps.Keys
    ensures FinalizeStep(env, apps, outstanding, req, After(apps, calls, called),
                         outstanding + multiset(FinalizeWorkers(req, calls.Keys - called)), Err(e))
  {
    hide FinalizeCalls, AllRoutable, MergesInSomeOrder;
    FailsAt(apps, calls, called, e);
    assert FinalizeReturns(env, apps, req, After(apps, calls, called), Err(e), calls.Keys - called);
  }

  lemma FailsAt<T, R>(apps: Apps<T>, calls: Calls<T, R>, called: set<ChainAppIdentifier>, e: Error)
    requires called <= calls.Keys && exists id :: id in called && calls[id].reply == Err(e)
    ensures FailedAt(apps, calls, After(apps, calls, called), e, calls.Keys - (calls.Keys - called))
    ensures Failed(apps, calls, After(apps, calls, called), e)
  {
    assert calls.Keys - (calls.Keys - called) == called;
    assert FailedAt(apps, calls, After(apps, calls, called), e, called);
  }

  lemma FinalizeSucceeds<T>(env: Env<T>, apps: Apps<T>, outstanding: multiset<Worker>, req: RequestBlock,
                            calls: Calls<T, ResponseFinalizeBlock>, resp: ResponseFinalizeBlock)
    requires AllRoutable(apps.Keys, req.txs) && calls == FinalizeCalls(env, apps, req)
    requires Values(calls).Keys == calls.Keys && MergesInSomeOrder(req.txs, Values(calls), resp)
    ensures After(apps, calls, calls.Keys).Keys == apps.Keys
    ensures FinalizeStep(env, apps, outstanding, req, After(apps, calls, calls.Keys), outstanding, Ok(resp))
  {
    hide FinalizeCalls, AllRoutable, MergesInSomeOrder, Values, AllOk;
    AnsweredOk(calls);
    assert FinalizeReturns(env, apps, req, After(apps, calls, calls.Keys), Ok(resp), {});
    NoneLate(outstanding, FinalizeWorkers(req, {}));
  }

  lemma AnsweredOk<T, R>(calls: Calls<T, R>)
    requires Values(calls).Keys == calls.Keys
    ensures AllOk(calls)
  {
    assert forall id :: id in calls ==> id in Values(calls);
  }

  lemma AssembledMerges(txs: seq<Bytes>, answers: Answers<ResponseFinalizeBlock>, g: Gathered,
                        resp: ResponseFinalizeBlock)
    requires GatheredFromAll(answers, g)
    requires Filled(txs, answers.Keys, answers, resp.txResults)
    requires resp.appHash == ConcatBy(SortedIds(g.appHashes.Keys), g.appHashes)
    requires resp.validatorUpdates == ConcatBy(SortedIds(g.appHashes.Keys), g.validatorUpdates)
    requires resp.events == ConcatBy(SortedIds(g.appHashes.Keys), g.events)
    requires resp.consensusParamUpdates == g.consensusParamUpdates
    ensures MergesInSomeOrder(txs, answers, resp)
  {
    hide Filled, ConcatBy;
    var order :| IsOrder(order, answers.Keys) && GatheredFrom(order, answers, g);
    GatheredAll(order, answers, g);
    assert AppHashes(answers).Keys == answers.Keys;
    assert Merges(txs, answers, order, resp);
  }

  /** What the workers of one FinalizeBlock will do: each calls its app with its part of the block, and
      passes the answer on together with the slots it belongs in. An app is called once in a fan-out, so its
      answer is the same whenever its worker gets to run. */
  method Dispatch<T>(env: Env<T>, clients: Clients, apps: Apps<T>, req: RequestBlock,
                     handlerTxs: map<ChainAppIdentifier, seq<Bytes>>, responseSlots: map<ChainAppIdentifier, seq<nat>>)
    returns (calls: Calls<T, ResponseFinalizeBlock>, c: Config<ChainAppIdentifier, FinalizeResponse>)
    requires clients.Keys == apps.Keys && Grouped(clients.Keys, req.txs, handlerTxs, responseSlots)
    ensures calls == FinalizeCalls(env, apps, req) && calls.Keys == apps.Keys
    ensures c.plan.Keys == calls.Keys && PlanAnswers(c) == Values(calls)
    ensures forall id :: id in c.plan ==> c.plan[id] == FinalizeResponse(calls[id].reply, Slots(req.txs, id))
    ensures Counted(c) && Surplus(c) == 0
  {
    hide ChainApps.FinalizeBlock, SubBlock, Slots;
    calls := map id | id in handlerTxs :: ChainApps.FinalizeBlock(env, apps[id], req.(txs := handlerTxs[id]));
    assert calls.Keys == clients.Keys;
    var plan := map id | id in handlerTxs :: FinalizeResponse(calls[id].reply, SlotsOf(responseSlots, id));
    c := Config(plan, |clients|, false, |clients|);
    assert plan.Keys == clients.Keys;
    assert |plan| == |plan.Keys| && |clients| == |clients.Keys|;
  }

  /** What the receive loop of FinalizeBlock has put by. */
  datatype Gathered = Gathered(
    consensusParamUpdates: Option<ConsensusParams>,
    appHashes: map<ChainAppIdentifier, Bytes>,
    validatorUpdates: map<ChainAppIdentifier, seq<ValidatorUpdate>>,
    events: map<ChainAppIdentifier, seq<Event>>)

  ghost predicate GatheredFrom(order: seq<ChainAppIdentifier>, answers: Answers<ResponseFinalizeBlock>, g: Gathered) {
    && Named(order) <= answers.Keys
    && g.appHashes == Restrict(AppHashes(answers), Named(order))
    && g.validatorUpdates == Restrict(Updates(answers), Named(order))
    && g.events == Restrict(EventLists(answers), Named(order))
    && g.consensusParamUpdates == FirstParams(order, answers)
  }

  ghost predicate GatheredFromAll(answers: Answers<ResponseFinalizeBlock>, g: Gathered) {
    exists order :: IsOrder(order, answers.Keys) && GatheredFrom(order, answers, g)
  }

  ghost function Named(order: seq<ChainAppIdentifier>): set<ChainAppIdentifier> {
    set id | id in order
  }

  /** The state of the receive loop after the apps in `order`. */
  ghost predicate Heard(order: seq<ChainAppIdentifier>, txs: seq<Bytes>, answers: Answers<ResponseFinalizeBlock>,
                        g: Gathered, results: seq<Option<ExecTxResult>>)
  {
    GatheredFrom(order, answers, g) && Filled(txs, Named(order), answers, results)
  }

  /** The body of the receive loop for an answer that is no error. */
  method Record(txResults: array<Option<ExecTxResult>>, id: ChainAppIdentifier, slots: seq<nat>,
                resp: ResponseFinalizeBlock,
                g: Gathered, ghost order: seq<ChainAppIdentifier>, ghost txs: seq<Bytes>,
                ghost answers: Answers<ResponseFinalizeBlock>)
    returns (g': Gathered)
    requires Heard(order, txs, answers, g, txResults[..])
    requires id in answers && resp == answers[id] && id !in order && slots == Slots(txs, id)
    modifies txResults
    ensures Heard(order + [id], txs, answers, g', txResults[..])
  {
    GatheredNext(order, id, answers, g);
    hide Filled, GatheredFrom, Slots;
    Scatter(txResults, slots, resp.txResults, txs, id, Named(order), answers);
    g' := Gathered(if g.consensusParamUpdates == None then resp.consensusParamUpdates else g.consensusParamUpdates,
                   g.appHashes[id := resp.appHash],
                   g.validatorUpdates[id := resp.validatorUpdates],
                   g.events[id := resp.events]);
  }

  lemma GatheredNext(order: seq<ChainAppIdentifier>, id: ChainAppIdentifier, answers: Answers<ResponseFinalizeBlock>,
                     g: Gathered)
    requires GatheredFrom(order, answers, g) && id in answers
    ensures Named(order + [id]) == Named(order) + {id}
    ensures var r := answers[id];
            GatheredFrom(order + [id], answers,
                         Gathered(if g.consensusParamUpdates == None then r.consensusParamUpdates
                                  else g.consensusParamUpdates,
                                  g.appHashes[id := r.appHash],
                                  g.validatorUpdates[id := r.validatorUpdates],
                                  g.events[id := r.events]))
  {
    assert (order + [id])[..|order|] == order;
    assert Named(order + [id]) == Named(order) + {id};
  }

  lemma GatheredAll(order: seq<ChainAppIdentifier>, answers: Answers<ResponseFinalizeBlock>, g: Gathered)
    requires GatheredFrom(order, answers, g)
    requires forall id :: id in answers ==> id in order
    ensures Named(order) == answers.Keys
    ensures g == Gathered(FirstParams(order, answers), AppHashes(answers), Updates(answers), EventLists(answers))
    ensures g.validatorUpdates.Keys == g.events.Keys == g.appHashes.Keys
  {
    assert AppHashes(answers).Keys == answers.Keys;
  }

  /** The answers in a fan-out's plan that are not errors. */
  ghost function PlanAnswers(c: Config<ChainAppIdentifier, FinalizeResponse>): Answers<ResponseFinalizeBlock> {
    map id | id in c.plan && c.plan[id].response.Ok? :: c.plan[id].response.value
  }

  /** The loop over the channel in FinalizeBlock. It stops at the first error; without one it ends when the
      channel is closed, and then it has heard every app. */
  method ReceiveAll(c: Config<ChainAppIdentifier, FinalizeResponse>, ghost txs: seq<Bytes>,
                    ghost answers: Answers<ResponseFinalizeBlock>, txResults: array<Option<ExecTxResult>>)
    returns (err: Option<Error>, called: set<ChainAppIdentifier>, g: Gathered)
    requires Counted(c) && Surplus(c) == 0
    requires answers == PlanAnswers(c)
    requires forall id :: id in c.plan ==> c.plan[id].slots == Slots(txs, id)
    requires Filled(txs, {}, answers, txResults[..])
    modifies txResults
    ensures called <= c.plan.Keys
    ensures err.Some? ==> exists id :: id in called && c.plan[id].response == Err(err.value)
    ensures err.None? ==>
              && called == c.plan.Keys == answers.Keys
              && Filled(txs, answers.Keys, answers, txResults[..])
              && GatheredFromAll(answers, g)
              && g.validatorUpdates.Keys == g.events.Keys == g.appHashes.Keys
  {
    g := Gathered(None, map[], map[], map[]);
    NoneHeard(txs, answers, g, txResults[..]);
    hide *;
    var st := Init(c);
    InitReachable(c);
    while true
      invariant Reachable(c, st) && st.loop == Ranging
      invariant Heard(Senders(st.received), txs, answers, g, txResults[..])
      decreases |c.plan| - |st.received|
    {
      ghost var before := st;
      var got;
      st, got := Range(c, st);
      called := Called(c, st);
      if got.None? {
        break;
      }
      TakenMessage(c, before, st, got.value);
      var id, resp, slots := got.value.from, got.value.body.response, got.value.body.slots;
      if resp.Err? {
        return Some(resp.error), called, g;
      }
      InPlanAnswers(c, id);
      g := Record(txResults, id, slots, resp.value, g, Senders(before.received), txs, answers);
    }
    AllHeard(c, st, txs, g, txResults[..]);
    err := None;
  }

  lemma NoneHeard(txs: seq<Bytes>, answers: Answers<ResponseFinalizeBlock>, g: Gathered,
                  results: seq<Option<ExecTxResult>>)
    requires Filled(txs, {}, answers, results)
    requires g == Gathered(None, map[], map[], map[])
    ensures forall log: seq<Message<ChainAppIdentifier, FinalizeResponse>> :: log == [] ==>
              Heard(Senders(log), txs, answers, g, results)
  {
  }

  lemma InPlanAnswers(c: Config<ChainAppIdentifier, FinalizeResponse>, id: ChainAppIdentifier)
    requires id in c.plan && c.plan[id].response.Ok?
    ensures id in PlanAnswers(c) && PlanAnswers(c)[id] == c.plan[id].response.value
  {
  }

  lemma AllHeard(c: Config<ChainAppIdentifier, FinalizeResponse>, st: State<ChainAppIdentifier, FinalizeResponse>,
                 txs: seq<Bytes>, g: Gathered, results: seq<Option<ExecTxResult>>)
    requires Counted(c) && Reachable(c, st) && st.loop == Drained
    requires Heard(Senders(st.received), txs, PlanAnswers(c), g, results)
    ensures Called(c, st) == c.plan.Keys == PlanAnswers(c).Keys
    ensures Filled(txs, PlanAnswers(c).Keys, PlanAnswers(c), results)
    ensures GatheredFromAll(PlanAnswers(c), g)
    ensures g.validatorUpdates.Keys == g.events.Keys == g.appHashes.Keys
  {
    HeardEveryone(c, st);
    var order := Senders(st.received);
    hide Reachable, Counted, Filled;
    forall id | id in c.plan ensures id in PlanAnswers(c) {
      assert id in Named(order);
    }
    GatheredAll(order, PlanAnswers(c), g);
  }

  lemma HeardEveryone<K(!new), M(!new)>(c: Config<K, M>, s: State<K, M>)
    requires Counted(c) && Reachable(c, s) && s.loop == Drained
    ensures IsOrder(Senders(s.received), c.plan.Keys)
    ensures Called(c, s) == c.plan.Keys
  {
    ReachableInv(c, s);
    DrainedComplete(c, s);
    CompleteIsOrder(c, s);
  }

  /** The handlers' answers put together by increasing identifier. */
  method MergeSorted(appHashes: map<ChainAppIdentifier, Bytes>,
                     validatorUpdates: map<ChainAppIdentifier, seq<ValidatorUpdate>>,
                     events: map<ChainAppIdentifier, seq<Event>>)
    returns (appHash: Bytes, updates: seq<ValidatorUpdate>, evs: seq<Event>)
    requires validatorUpdates.Keys == events.Keys == appHashes.Keys
    ensures appHash == ConcatBy(SortedIds(appHashes.Keys), appHashes)
    ensures updates == ConcatBy(SortedIds(appHashes.Keys), validatorUpdates)
    ensures evs == ConcatBy(SortedIds(appHashes.Keys), events)
  {
    var keys := SortedKeys(appHashes);
    assert forall k :: k in keys ==> k in appHashes;
    assert keys[..0] == [];
    appHash, updates, evs := [], [], [];
    for n := 0 to |keys|
      invariant appHash == ConcatBy(keys[..n], appHashes)
      invariant updates == ConcatBy(keys[..n], validatorUpdates)
      invariant evs == ConcatBy(keys[..n], events)
    {
      hide ConcatBy, SortedIds;
      ConcatNext(keys, n, appHashes);
      ConcatNext(keys, n, validatorUpdates);
      ConcatNext(keys, n, events);
      appHash := appHash + appHashes[keys[n]];
      updates := updates + validatorUpdates[keys[n]];
      evs := evs + events[keys[n]];
    }
    assert keys[..|keys|] == keys;
  }

  /** The second half of FinalizeBlock: hears the apps out and puts the response together. */
  method Collect(c: Config<ChainAppIdentifier, FinalizeResponse>, n: nat, ghost txs: seq<Bytes>,
                 ghost answers: Answers<ResponseFinalizeBlock>)
    returns (err: Option<Error>, called: set<ChainAppIdentifier>, resp: ResponseFinalizeBlock)
    requires Counted(c) && Surplus(c) == 0
    requires answers == PlanAnswers(c) && n == |txs|
    requires forall id :: id in c.plan ==> c.plan[id].slots == Slots(txs, id)
    ensures called <= c.plan.Keys
    ensures err.Some? ==> exists id :: id in called && c.plan[id].response == Err(err.value)
    ensures err.None? ==> called == c.plan.Keys == answers.Keys && MergesInSomeOrder(txs, answers, resp)
  {
    var txResults := new Option<ExecTxResult>[n](_ => None);
    FilledNothing(txs, answers, txResults[..]);
    hide *;
    var got;
    err, called, got := ReceiveAll(c, txs, answers, txResults);
    var appHash, updates, evs := [], [], [];
    if err.None? {
      appHash, updates, evs := MergeSorted(got.appHashes, got.validatorUpdates, got.events);
    }
    resp := ResponseFinalizeBlock(txResults[..], appHash, updates, evs, got.consensusParamUpdates);
    if err.None? {
      AssembledMerges(txs, answers, got, resp);
    }
  }

  ghost predicate Grouped(ids: set<ChainAppIdentifier>, txs: seq<Bytes>,
                          handlerTxs: map<ChainAppIdentifier, seq<Bytes>>,
                          responseSlots: map<ChainAppIdentifier, seq<nat>>)
  {
    && handlerTxs.Keys == ids
    && (forall id :: id in handlerTxs ==> handlerTxs[id] == SubBlock(txs, id))
    && (forall id :: SlotsOf(responseSlots, id) == Slots(txs, id))
  }

  lemma GroupNext(ids: set<ChainAppIdentifier>, txs: seq<Bytes>, idx: nat, id: ChainAppIdentifier,
                  handlerTxs: map<ChainAppIdentifier, seq<Bytes>>, responseSlots: map<ChainAppIdentifier, seq<nat>>)
    requires idx < |txs| && Names(txs[idx], id) && id in ids
    requires AllRoutable(ids, txs[..idx]) && Grouped(ids, txs[..idx], handlerTxs, responseSlots)
    ensures AllRoutable(ids, txs[..idx + 1])
    ensures id in handlerTxs && |txs[idx]| >= HEADER_LEN
    ensures Grouped(ids, txs[..idx + 1], handlerTxs[id := handlerTxs[id] + [txs[idx][HEADER_LEN..]]],
                    responseSlots[id := SlotsOf(responseSlots, id) + [idx]])
  {
    hide SubBlock, Slots;
    var longer := txs[..idx + 1];
    assert forall i :: 0 <= i < idx ==> longer[i] == txs[..idx][i];
    var groups := handlerTxs[id := handlerTxs[id] + [txs[idx][HEADER_LEN..]]];
    var slots := responseSlots[id := SlotsOf(responseSlots, id) + [idx]];
    forall x: ChainAppIdentifier
      ensures SlotsOf(slots, x) == Slots(longer, x)
      ensures x in groups ==> groups[x] == SubBlock(longer, x)
    {
      OneMore(txs, idx, x);
      assert Names(txs[idx], x) <==> x == id;
    }
  }

  function SlotsOf(slots: map<ChainAppIdentifier, seq<nat>>, id: ChainAppIdentifier): seq<nat> {
    if id in slots then slots[id] else []
  }

  ghost function Restrict<V>(m: map<ChainAppIdentifier, V>, ids: set<ChainAppIdentifier>): map<ChainAppIdentifier, V> {
    map id | id in m && id in ids :: m[id]
  }

  /** A message taken off the channel is from an app that has been called and was not heard of before. */
  lemma TakenMessage<K(!new), M(!new)>(c: Config<K, M>, s: State<K, M>, t: State<K, M>, m: Message<K, M>)
    requires Counted(c) && Reachable(c, t) && t.received == s.received + [m]
    ensures m.from in c.plan && m.body == c.plan[m.from]
    ensures m.from in Called(c, t) && Called(c, t) <= c.plan.Keys
    ensures m.from !in Senders(s.received)
    ensures Senders(t.received) == Senders(s.received) + [m.from]
    ensures |t.received| <= |c.plan|
  {
    ReachableInv(c, t);
    assert Log(t)[|s.received|] == m;
    assert Has(Log(t), m.from);
    forall i | 0 <= i < |s.received| ensures Senders(s.received)[i] != m.from {
      assert Log(t)[i] == s.received[i];
    }
  }

  /** Writes an app's results into its slots; results beyond the last slot are dropped. */
  method Scatter(txResults: array<Option<ExecTxResult>>, slots: seq<nat>, results: seq<Option<ExecTxResult>>,
                 ghost txs: seq<Bytes>, ghost id: ChainAppIdentifier, ghost done: set<ChainAppIdentifier>,
                 ghost answers: Answers<ResponseFinalizeBlock>)
    requires slots == Slots(txs, id) && id in answers && answers[id].txResults == results && id !in done
    requires Filled(txs, done, answers, txResults[..])
    modifies txResults
    ensures Filled(txs, done + {id}, answers, txResults[..])
  {
    SlotsMatch(txs, id);
    ghost var was := txResults[..];
    for idx := 0 to |results|
      invariant forall r :: 0 <= r < idx && r < |slots| ==> txResults[slots[r]] == results[r]
      invariant forall i :: 0 <= i < txResults.Length && (forall r :: 0 <= r < idx && r < |slots| ==> slots[r] != i) ==>
                  txResults[i] == was[i]
    {
      if idx < |slots| {
        txResults[slots[idx]] := results[idx];
      }
    }
    forall i | 0 <= i < |txs| && CheckHeader(txs[i]).None?
      ensures txResults[i] == if Owner(txs[i]) in done + {id} && Owner(txs[i]) in answers
                              then ResultAt(answers[Owner(txs[i])].txResults, Rank(txs, i)) else None
    {
      RankFindsSlot(txs, i);
    }
  }

  /** The keys leave the map in any order and are then sorted. */
  method SortedKeys<V>(m: map<ChainAppIdentifier, V>) returns (keys: seq<ChainAppIdentifier>)
    ensures keys == SortedIds(m.Keys)
  {
    keys := [];
    var rest := m.Keys;
    while rest != {}
      invariant rest <= m.Keys
      invariant IsOrder(keys, m.Keys - rest)
      decreases |rest|
    {
      var k :| k in rest;
      keys := keys + [k];
      rest := rest - {k};
    }
    ghost var unsorted := keys;
    var a := new ChainAppIdentifier[|keys|](i requires 0 <= i < |keys| => keys[i]);
    assert a[..] == keys;
    SortChainAppIDs(a);
    keys := a[..];
    SortIsCanonical(unsorted, keys, m.Keys);
  }
}
