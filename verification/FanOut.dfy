/** One concurrent fan-out of the multiplexer (cosmux/multiplexer.go, lines 288-324, 358-405 and 452-513) as a
    step relation: the main goroutine starts one worker per app and the waiter, every worker calls its app,
    sends the answer into the buffered channel and signs off from the WaitGroup, the waiter closes the channel,
    and the main goroutine ranges over the channel, possibly leaving early. Any enabled step may come next. */
module FanOut {
  import opened Abci

  datatype Message<K, M> = Message(from: K, body: M)

  datatype Waiter = NotStarted | Waiting | Closed

  /** The main goroutine's loop over the channel: still running, ended because the channel was closed and
      empty, or left by an early return. */
  datatype Loop = Ranging | Drained | Abandoned

  /** `plan` gives each worker the answer its app will produce. The WaitGroup starts at `added`; with
      `perSpawn` it is also raised by one for every worker started. */
  datatype Config<K, M> = Config(plan: map<K, M>, capacity: nat, perSpawn: bool, added: nat)

  /** A worker is in one of the four sets, or has signed off. */
  datatype State<K(==), M> = State(
    unspawned: set<K>,
    calling: set<K>,
    sending: set<K>,
    finishing: set<K>,
    waitGroup: int,
    waiter: Waiter,
    buffer: seq<Message<K, M>>,
    received: seq<Message<K, M>>,
    loop: Loop)

  datatype Step<K> =
    | Spawn(k: K)
    | StartWaiter
    | Answer(k: K)
    | Send(k: K)
    | Done(k: K)
    | Close
    | Receive
    | Finish
    | Abandon

  function Init<K, M>(c: Config<K, M>): State<K, M> {
    State(c.plan.Keys, {}, {}, {}, c.added, NotStarted, [], [], Ranging)
  }

  predicate Enabled<K, M>(c: Config<K, M>, s: State<K, M>, step: Step<K>) {
    match step
    case Spawn(k) => k in s.unspawned
    case StartWaiter => s.unspawned == {} && s.waiter == NotStarted
    case Answer(k) => k in s.calling
    case Send(k) => k in s.sending && k in c.plan && |s.buffer| < c.capacity
    case Done(k) => k in s.finishing
    case Close => s.waiter == Waiting && s.waitGroup == 0
    case Receive => s.waiter != NotStarted && s.loop == Ranging && s.buffer != []
    case Finish => s.waiter == Closed && s.loop == Ranging && s.buffer == []
    case Abandon => s.loop == Ranging && s.received != []
  }

  function Next<K, M>(c: Config<K, M>, s: State<K, M>, step: Step<K>): State<K, M>
    requires Enabled(c, s, step)
  {
    match step
    case Spawn(k) =>
      s.(unspawned := s.unspawned - {k}, calling := s.calling + {k},
         waitGroup := s.waitGroup + (if c.perSpawn then 1 else 0))
    case StartWaiter => s.(waiter := Waiting)
    case Answer(k) => s.(calling := s.calling - {k}, sending := s.sending + {k})
    case Send(k) =>
      s.(sending := s.sending - {k}, finishing := s.finishing + {k},
         buffer := s.buffer + [Message(k, c.plan[k])])
    case Done(k) => s.(finishing := s.finishing - {k}, waitGroup := s.waitGroup - 1)
    case Close => s.(waiter := Closed)
    case Receive => s.(buffer := s.buffer[1..], received := s.received + [s.buffer[0]])
    case Finish => s.(loop := Drained)
    case Abandon => s.(loop := Abandoned)
  }

  ghost predicate CanStep<K(!new), M>(c: Config<K, M>, s: State<K, M>, t: State<K, M>) {
    exists step :: Enabled(c, s, step) && t == Next(c, s, step)
  }

  ghost predicate IsRun<K(!new), M>(c: Config<K, M>, run: seq<State<K, M>>) {
    && |run| > 0
    && run[0] == Init(c)
    && forall i :: 0 < i < |run| ==> CanStep(c, run[i - 1], run[i])
  }

  ghost predicate Reachable<K(!new), M(!new)>(c: Config<K, M>, s: State<K, M>) {
    exists run :: IsRun(c, run) && run[|run| - 1] == s
  }

  /** The WaitGroup's start value is at least the number of workers that will sign off. FinalizeBlock and
      InitChain add len(clients) at once; ProcessProposal adds one per worker. */
  ghost predicate Counted<K, M>(c: Config<K, M>) {
    && |c.plan| <= c.capacity
    && (c.perSpawn ==> c.added == 0)
    && (!c.perSpawn ==> |c.plan| <= c.added)
  }

  function Surplus<K, M>(c: Config<K, M>): int {
    if c.perSpawn then 0 else c.added - |c.plan|
  }

  /** The workers whose app has been called. */
  function Called<K, M>(c: Config<K, M>, s: State<K, M>): set<K> {
    c.plan.Keys - s.unspawned - s.calling
  }

  /** Everything ever sent, in order of sending. */
  function Log<K, M>(s: State<K, M>): seq<Message<K, M>> {
    s.received + s.buffer
  }

  ghost predicate Faithful<K, M>(c: Config<K, M>, log: seq<Message<K, M>>) {
    && (forall i :: 0 <= i < |log| ==> log[i].from in c.plan && log[i].body == c.plan[log[i].from])
    && (forall i, j :: 0 <= i < j < |log| ==> log[i].from != log[j].from)
  }

  /** Worker `k` has sent its message. */
  ghost predicate Has<K, M>(log: seq<Message<K, M>>, k: K) {
    exists i :: 0 <= i < |log| && log[i].from == k
  }

  ghost predicate Placed<K, M>(c: Config<K, M>, s: State<K, M>) {
    && (forall k :: k in s.unspawned ==> k in c.plan && k !in s.calling && k !in s.sending && k !in s.finishing)
    && (forall k :: k in s.calling ==> k in c.plan && k !in s.sending && k !in s.finishing)
    && (forall k :: k in s.sending ==> k in c.plan && k !in s.finishing)
    && (forall k :: k in s.finishing ==> k in c.plan)
  }

  ghost predicate Sent<K, M>(c: Config<K, M>, s: State<K, M>) {
    && Faithful(c, Log(s))
    && SentBut(c, Log(s), s.unspawned, s.calling, s.sending)
  }

  /** All workers have sent their messages but those in the three sets. */
  ghost predicate SentBut<K, M>(c: Config<K, M>, log: seq<Message<K, M>>, unspawned: set<K>, calling: set<K>,
                                sending: set<K>)
  {
    && (forall k :: k in c.plan ==> (Has(log, k) <==> k !in unspawned && k !in calling && k !in sending))
    && |log| + |unspawned| + |calling| + |sending| == |c.plan|
  }

  /** The WaitGroup counts the workers that have not signed off. */
  ghost predicate WaitGroupExact<K, M>(c: Config<K, M>, s: State<K, M>) {
    s.waitGroup == Surplus(c) + (if c.perSpawn then 0 else |s.unspawned|) + |s.calling| + |s.sending| + |s.finishing|
  }

  ghost predicate Balanced<K, M>(c: Config<K, M>, s: State<K, M>) {
    && WaitGroupExact(c, s)
    && (s.waiter != NotStarted ==> s.unspawned == {})
    && (s.waiter == Closed ==> s.waitGroup == 0)
    && (s.received != [] ==> s.waiter != NotStarted)
    && (s.loop != Ranging ==> s.waiter != NotStarted)
    && (s.loop == Drained ==> s.waiter == Closed && s.buffer == [])
    && (s.loop == Abandoned ==> s.received != [])
  }

  ghost predicate Inv<K, M>(c: Config<K, M>, s: State<K, M>) {
    Placed(c, s) && Sent(c, s) && Balanced(c, s)
  }

  lemma InitInv<K, M>(c: Config<K, M>)
    requires Counted(c)
    ensures Inv(c, Init(c))
  {
  }

  lemma NextPlaced<K, M>(c: Config<K, M>, s: State<K, M>, step: Step<K>)
    requires Inv(c, s) && Enabled(c, s, step)
    ensures Placed(c, Next(c, s, step))
  {
  }

  lemma NextBalanced<K, M>(c: Config<K, M>, s: State<K, M>, step: Step<K>)
    requires Counted(c) && Inv(c, s) && Enabled(c, s, step)
    ensures Balanced(c, Next(c, s, step))
  {
    NextWaitGroup(c, s, step);
    hide Sent, Placed, WaitGroupExact;
    if s.waiter == Closed {
      NoneLeft(c, s);
    }
  }

  lemma NextWaitGroup<K, M>(c: Config<K, M>, s: State<K, M>, step: Step<K>)
    requires Placed(c, s) && WaitGroupExact(c, s) && Enabled(c, s, step)
    ensures WaitGroupExact(c, Next(c, s, step))
  {
    match step
    case Spawn(k) => MoveOne(k, s.unspawned, s.calling);
    case Answer(k) => MoveOne(k, s.calling, s.sending);
    case Send(k) => MoveOne(k, s.sending, s.finishing);
    case Done(k) => MoveOne(k, s.finishing, {});
    case _ =>
  }

  lemma NoneLeft<K, M>(c: Config<K, M>, s: State<K, M>)
    requires Counted(c) && WaitGroupExact(c, s) && s.waitGroup == 0 && s.unspawned == {}
    ensures s.calling == s.sending == s.finishing == {}
  {
  }

  lemma LogGrows<K, M>(c: Config<K, M>, log: seq<Message<K, M>>, k: K)
    requires Faithful(c, log) && k in c.plan && !Has(log, k)
    ensures Faithful(c, log + [Message(k, c.plan[k])])
    ensures forall x :: Has(log + [Message(k, c.plan[k])], x) <==> x == k || Has(log, x)
  {
    var longer := log + [Message(k, c.plan[k])];
    forall x ensures Has(longer, x) <==> x == k || Has(log, x) {
      if x == k {
        assert longer[|log|].from == x;
      } else if Has(log, x) {
        var i :| 0 <= i < |log| && log[i].from == x;
        assert longer[i].from == x;
      }
    }
  }

  lemma SendSent<K, M>(c: Config<K, M>, s: State<K, M>, k: K)
    requires Inv(c, s) && Enabled(c, s, Send(k))
    ensures Sent(c, Next(c, s, Send(k)))
  {
    var t := Next(c, s, Send(k));
    assert Log(t) == Log(s) + [Message(k, c.plan[k])];
    LogGrows(c, Log(s), k);
  }

  lemma MoveOne<K>(k: K, a: set<K>, b: set<K>)
    requires k in a && k !in b
    ensures |a - {k}| == |a| - 1 && |b + {k}| == |b| + 1
  {
  }

  lemma QuietSent<K, M>(c: Config<K, M>, s: State<K, M>, step: Step<K>)
    requires Placed(c, s) && Sent(c, s) && Enabled(c, s, step) && !step.Send?
    ensures Sent(c, Next(c, s, step))
  {
    assert Log(Next(c, s, step)) == Log(s);
    hide Faithful, SentBut, Log;
    match step
    case Spawn(k) => SpawnedSent(c, Log(s), k, s.unspawned, s.calling, s.sending);
    case Answer(k) => AnsweredSent(c, Log(s), k, s.unspawned, s.calling, s.sending);
    case _ =>
  }

  lemma SpawnedSent<K, M>(c: Config<K, M>, log: seq<Message<K, M>>, k: K, unspawned: set<K>, calling: set<K>,
                          sending: set<K>)
    requires SentBut(c, log, unspawned, calling, sending) && k in unspawned && k !in calling
    ensures SentBut(c, log, unspawned - {k}, calling + {k}, sending)
  {
    hide Has;
    MoveOne(k, unspawned, calling);
  }

  lemma AnsweredSent<K, M>(c: Config<K, M>, log: seq<Message<K, M>>, k: K, unspawned: set<K>, calling: set<K>,
                           sending: set<K>)
    requires SentBut(c, log, unspawned, calling, sending) && k in calling && k !in sending
    ensures SentBut(c, log, unspawned, calling - {k}, sending + {k})
  {
    hide Has;
    MoveOne(k, calling, sending);
  }

  lemma NextSent<K, M>(c: Config<K, M>, s: State<K, M>, step: Step<K>)
    requires Inv(c, s) && Enabled(c, s, step)
    ensures Sent(c, Next(c, s, step))
  {
    hide Sent, Placed, Balanced;
    if step.Send? {
      SendSent(c, s, step.k);
    } else {
      QuietSent(c, s, step);
    }
  }

  lemma NextInv<K, M>(c: Config<K, M>, s: State<K, M>, step: Step<K>)
    requires Counted(c) && Inv(c, s) && Enabled(c, s, step)
    ensures Inv(c, Next(c, s, step))
  {
    NextPlaced(c, s, step);
    NextSent(c, s, step);
    NextBalanced(c, s, step);
  }

  lemma {:induction false} RunInv<K(!new), M>(c: Config<K, M>, run: seq<State<K, M>>)
    requires Counted(c) && IsRun(c, run)
    ensures Inv(c, run[|run| - 1])
  {
    var n := |run| - 1;
    if n == 0 {
      InitInv(c);
    } else {
      var front := run[..n];
      forall i | 0 < i < |front| ensures CanStep(c, front[i - 1], front[i]) {
        assert CanStep(c, run[i - 1], run[i]);
      }
      RunInv(c, front);
      assert CanStep(c, run[n - 1], run[n]);
      var step :| Enabled(c, run[n - 1], step) && run[n] == Next(c, run[n - 1], step);
      NextInv(c, run[n - 1], step);
    }
  }

  lemma ReachableInv<K(!new), M(!new)>(c: Config<K, M>, s: State<K, M>)
    requires Counted(c) && Reachable(c, s)
    ensures Inv(c, s)
  {
    var run :| IsRun(c, run) && run[|run| - 1] == s;
    RunInv(c, run);
  }

  lemma InitReachable<K(!new), M(!new)>(c: Config<K, M>)
    ensures Reachable(c, Init(c))
    ensures Init(c).loop == Ranging && Init(c).received == []
  {
    assert IsRun(c, [Init(c)]);
  }

  lemma NextReachable<K(!new), M(!new)>(c: Config<K, M>, s: State<K, M>, step: Step<K>)
    requires Reachable(c, s) && Enabled(c, s, step)
    ensures Reachable(c, Next(c, s, step))
  {
    var run :| IsRun(c, run) && run[|run| - 1] == s;
    var longer := run + [Next(c, s, step)];
    assert CanStep(c, s, Next(c, s, step));
    forall i | 0 < i < |longer| ensures CanStep(c, longer[i - 1], longer[i]) {
      if i < |run| { assert CanStep(c, run[i - 1], run[i]); }
    }
    assert IsRun(c, longer);
  }

  /** Strictly smaller after every step. */
  function Measure<K, M>(s: State<K, M>): nat {
    6 * |s.unspawned| + 5 * |s.calling| + 4 * |s.sending| + 2 * |s.finishing| + |s.buffer|
    + (match s.waiter case NotStarted => 2 case Waiting => 1 case Closed => 0)
    + (if s.loop == Ranging then 1 else 0)
  }

  lemma NextDecreases<K, M>(c: Config<K, M>, s: State<K, M>, step: Step<K>)
    requires Placed(c, s) && Enabled(c, s, step)
    ensures Measure(Next(c, s, step)) < Measure(s)
  {
    match step
    case Spawn(k) => MoveOne(k, s.unspawned, s.calling);
    case Answer(k) => MoveOne(k, s.calling, s.sending);
    case Send(k) => MoveOne(k, s.sending, s.finishing);
    case Done(k) => MoveOne(k, s.finishing, {});
    case _ =>
  }

  /** The channel's last message has been taken and every app has answered exactly once. */
  ghost predicate Complete<K, M>(c: Config<K, M>, s: State<K, M>) {
    && Called(c, s) == c.plan.Keys
    && Faithful(c, s.received)
    && |s.received| == |c.plan|
    && (forall k :: k in c.plan ==> Has(s.received, k))
  }

  lemma DrainedComplete<K, M>(c: Config<K, M>, s: State<K, M>)
    requires Counted(c) && Inv(c, s) && s.loop == Drained
    ensures Complete(c, s)
  {
    assert Log(s) == s.received;
    assert s.calling == {} && s.sending == {} by {
      assert |s.calling| == 0 && |s.sending| == 0;
    }
  }

  /** The scheduler. It lets any enabled step of any goroutine happen, again and again, until the main
      goroutine's `range` takes the next message out of the channel or sees it closed and empty. That it
      verifies means that in every state reached this way some step is enabled, a send finds the channel open
      and room in it, the WaitGroup does not go below zero, and the wait ends. */
  method Range<K(==, !new), M(!new)>(c: Config<K, M>, s0: State<K, M>)
    returns (s: State<K, M>, got: Option<Message<K, M>>)
    requires Counted(c) && Surplus(c) == 0
    requires Reachable(c, s0) && s0.loop == Ranging
    ensures Reachable(c, s)
    ensures got.Some? ==> s.loop == Ranging && s.received == s0.received + [got.value]
    ensures got.None? ==> s.loop == Drained && s.received == s0.received
  {
    s := s0;
    ReachableInv(c, s);
    hide Reachable, Placed, Sent, Balanced, Measure, Surplus, Counted;
    ghost var left: nat := Measure(s);
    while true
      invariant Reachable(c, s) && Inv(c, s)
      invariant s.loop == Ranging && s.received == s0.received
      invariant left == Measure(s)
      decreases left
    {
      var step: Step<K>;
      SomeStep(c, s);
      if {
        case s.unspawned != {} =>
          var k :| k in s.unspawned;
          step := Spawn(k);
        case s.unspawned == {} && s.waiter == NotStarted =>
          step := StartWaiter;
        case s.calling != {} =>
          var k :| k in s.calling;
          step := Answer(k);
        case s.sending != {} =>
          var k :| k in s.sending;
          WorkerCanSend(c, s, k);
          step := Send(k);
        case s.finishing != {} =>
          var k :| k in s.finishing;
          CanSignOff(c, s, k);
          step := Done(k);
        case s.waiter == Waiting && s.waitGroup == 0 =>
          step := Close;
        case s.waiter != NotStarted && s.buffer != [] =>
          step := Receive;
        case s.waiter == Closed && s.buffer == [] =>
          step := Finish;
      }
      NextReachable(c, s, step);
      NextInv(c, s, step);
      NextDecreases(c, s, step);
      var t := Next(c, s, step);
      if step == Receive {
        return t, Some(s.buffer[0]);
      }
      if step == Finish {
        return t, None;
      }
      s, left := t, Measure(t);
    }
    assert false;
  }

  /** As long as the loop runs, one of these steps can be taken. */
  lemma SomeStep<K, M>(c: Config<K, M>, s: State<K, M>)
    requires Counted(c) && Surplus(c) == 0 && Inv(c, s) && s.loop == Ranging
    ensures s.unspawned == {} && s.calling == {} && s.sending == {} && s.finishing == {} && s.buffer == [] ==>
              s.waiter == NotStarted || s.waiter == Closed || s.waitGroup == 0
  {
  }

  lemma CanSignOff<K, M>(c: Config<K, M>, s: State<K, M>, k: K)
    requires Counted(c) && Surplus(c) == 0 && Inv(c, s) && k in s.finishing
    ensures s.waitGroup > 0
  {
    assert |s.finishing| > 0 by { assert k in s.finishing; }
  }

  /** A worker that has its answer finds the channel open and room in the buffer. */
  lemma WorkerCanSend<K, M>(c: Config<K, M>, s: State<K, M>, k: K)
    requires Counted(c) && Inv(c, s) && k in s.sending
    ensures s.waiter != Closed && |s.buffer| < c.capacity
  {
    assert |s.sending| > 0 by { assert k in s.sending; }
  }
}
