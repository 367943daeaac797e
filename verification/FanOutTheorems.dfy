/** What every run of a fan-out does, whatever the scheduler chooses. */
module FanOutTheorems {
  import opened Orders
  import opened FanOut

  /** The program panics on a send into a closed channel or on a negative WaitGroup, and a worker blocks on a
      full buffer. No schedule brings any of these about, also after an early return. */
  lemma Safety<K(!new), M(!new)>(c: Config<K, M>, s: State<K, M>)
    requires Counted(c) && Surplus(c) == 0 && Reachable(c, s)
    ensures s.sending != {} ==> s.waiter != Closed && |s.buffer| < c.capacity
    ensures |s.buffer| <= c.capacity
    ensures s.waitGroup == (if c.perSpawn then 0 else |s.unspawned|) + |s.calling| + |s.sending| + |s.finishing|
    ensures s.finishing != {} ==> s.waitGroup > 0
    ensures s.waiter == Closed ==> s.unspawned == s.calling == s.sending == s.finishing == {}
  {
    ReachableInv(c, s);
    if s.sending != {} {
      var k :| k in s.sending;
      WorkerCanSend(c, s, k);
    }
  }

  ghost predicate Terminal<K(!new), M>(c: Config<K, M>, s: State<K, M>) {
    forall step :: !Enabled(c, s, step)
  }

  /** There is no deadlock: a reachable state has no next step only when every worker has signed off, the
      channel is closed and the main goroutine has left its loop; and then each app was called. */
  lemma Progress<K(!new), M(!new)>(c: Config<K, M>, s: State<K, M>)
    requires Counted(c) && Surplus(c) == 0 && Reachable(c, s)
    ensures Terminal(c, s) <==>
            && s.unspawned == {} && s.calling == {} && s.sending == {} && s.finishing == {}
            && s.waiter == Closed && s.loop != Ranging
    ensures Terminal(c, s) ==> Called(c, s) == c.plan.Keys
    ensures Terminal(c, s) && s.loop == Drained ==> Complete(c, s)
  {
    ReachableInv(c, s);
    if Terminal(c, s) {
      TerminalMeansDone(c, s);
    }
    if s.unspawned == {} && s.calling == {} && s.sending == {} && s.finishing == {}
       && s.waiter == Closed && s.loop != Ranging {
      DoneMeansTerminal(c, s);
    }
    if s.loop == Drained {
      DrainedComplete(c, s);
    }
  }

  lemma DoneMeansTerminal<K(!new), M>(c: Config<K, M>, s: State<K, M>)
    requires s.unspawned == {} && s.calling == {} && s.sending == {} && s.finishing == {}
    requires s.waiter == Closed && s.loop != Ranging
    ensures Terminal(c, s)
  {
    forall step ensures !Enabled(c, s, step) {
      match step
      case Spawn(k) =>
      case Answer(k) =>
      case Send(k) =>
      case Done(k) =>
      case _ =>
    }
  }

  lemma TerminalMeansDone<K(!new), M>(c: Config<K, M>, s: State<K, M>)
    requires Counted(c) && Inv(c, s) && Terminal(c, s)
    ensures s.unspawned == {} && s.calling == {} && s.sending == {} && s.finishing == {}
    ensures s.waiter != NotStarted
    ensures Surplus(c) == 0 ==> s.waiter == Closed && s.loop != Ranging
  {
    assert forall k :: k in s.unspawned ==> Enabled(c, s, Spawn(k));
    assert forall k :: k in s.calling ==> Enabled(c, s, Answer(k));
    forall k | k in s.sending ensures Enabled(c, s, Send(k)) {
      WorkerCanSend(c, s, k);
    }
    assert forall k :: k in s.finishing ==> Enabled(c, s, Done(k));
    assert !Enabled(c, s, StartWaiter);
    assert !Enabled(c, s, Close);
    assert !Enabled(c, s, Receive);
    assert !Enabled(c, s, Finish);
  }

  lemma Prefix<K(!new), M(!new)>(c: Config<K, M>, run: seq<State<K, M>>)
    requires IsRun(c, run) && |run| > 1
    ensures IsRun(c, run[..|run| - 1])
  {
    var front := run[..|run| - 1];
    forall i | 0 < i < |front| ensures CanStep(c, front[i - 1], front[i]) {
      assert CanStep(c, run[i - 1], run[i]);
    }
  }

  /** Every run is finite: with n workers it takes at most 6n + 3 steps. */
  lemma RunsEnd<K(!new), M(!new)>(c: Config<K, M>, run: seq<State<K, M>>)
    requires Counted(c) && IsRun(c, run)
    ensures |run| - 1 <= 6 * |c.plan| + 3
  {
    RunLength(c, run);
  }

  lemma {:induction false} RunLength<K(!new), M(!new)>(c: Config<K, M>, run: seq<State<K, M>>)
    requires Counted(c) && IsRun(c, run)
    ensures |run| - 1 + Measure(run[|run| - 1]) <= 6 * |c.plan| + 3
  {
    var n := |run| - 1;
    if n > 0 {
      Prefix(c, run);
      RunLength(c, run[..n]);
      RunInv(c, run[..n]);
      assert CanStep(c, run[n - 1], run[n]);
      var step :| Enabled(c, run[n - 1], step) && run[n] == Next(c, run[n - 1], step);
      NextDecreases(c, run[n - 1], step);
    }
  }

  lemma {:induction false} RunsOn<K(!new), M(!new)>(c: Config<K, M>, s: State<K, M>) returns (t: State<K, M>)
    requires Counted(c) && Reachable(c, s)
    ensures Reachable(c, t) && Terminal(c, t)
    decreases Measure(s)
  {
    if Terminal(c, s) {
      t := s;
    } else {
      var step :| Enabled(c, s, step);
      ReachableInv(c, s);
      NextDecreases(c, s, step);
      NextReachable(c, s, step);
      t := RunsOn(c, Next(c, s, step));
    }
  }

  /** The channel can be closed at all exactly when the WaitGroup was started at the number of workers.
      With a larger start the receiver waits for ever. */
  lemma ClosesIffCounted<K(!new), M(!new)>(c: Config<K, M>)
    requires Counted(c)
    ensures Surplus(c) == 0 <==> exists s: State<K, M> :: Reachable(c, s) && s.waiter == Closed
    ensures Surplus(c) != 0 ==> forall s: State<K, M> :: Reachable(c, s) ==> s.loop != Drained
  {
    InitReachable(c);
    var t := RunsOn(c, Init(c));
    ReachableInv(c, t);
    TerminalMeansDone(c, t);
    forall s: State<K, M> | Reachable(c, s) ensures Inv(c, s) {
      ReachableInv(c, s);
    }
  }

  function Senders<K, M>(log: seq<Message<K, M>>): seq<K> {
    seq(|log|, i requires 0 <= i < |log| => log[i].from)
  }

  function Messages<K, M>(c: Config<K, M>, order: seq<K>): seq<Message<K, M>>
    requires forall k :: k in order ==> k in c.plan
  {
    seq(|order|, i requires 0 <= i < |order| => Message(order[i], c.plan[order[i]]))
  }

  lemma CompleteIsOrder<K, M>(c: Config<K, M>, s: State<K, M>)
    requires Complete(c, s)
    ensures IsOrder(Senders(s.received), c.plan.Keys)
    ensures s.received == Messages(c, Senders(s.received))
  {
    var order := Senders(s.received);
    hide Called;
    assert Distinct(order);
    forall k | k in c.plan ensures k in order {
      assert Has(s.received, k);
      var i :| 0 <= i < |s.received| && s.received[i].from == k;
      assert order[i] == k;
    }
  }

  /** The replies can arrive in every order, and in no other way: a listing of the apps is the order of arrival
      of some completed run exactly when it names every app once. */
  lemma ArrivalOrders<K(!new), M(!new)>(c: Config<K, M>, order: seq<K>)
    requires Counted(c) && Surplus(c) == 0
    ensures IsOrder(order, c.plan.Keys) <==>
            exists s: State<K, M> :: Reachable(c, s) && s.loop == Drained && Senders(s.received) == order
  {
    if IsOrder(order, c.plan.Keys) {
      var s := Arrive(c, order);
      assert Senders(s.received) == order;
    }
    forall s: State<K, M> | Reachable(c, s) && s.loop == Drained ensures IsOrder(Senders(s.received), c.plan.Keys) {
      ReachableInv(c, s);
      DrainedComplete(c, s);
      CompleteIsOrder(c, s);
    }
  }

  lemma Arrive<K(!new), M(!new)>(c: Config<K, M>, order: seq<K>) returns (s: State<K, M>)
    requires Counted(c) && Surplus(c) == 0 && IsOrder(order, c.plan.Keys)
    ensures Reachable(c, s) && s.loop == Drained && s.received == Messages(c, order)
  {
    InitReachable(c);
    s := SpawnAll(c, Init(c));
    NextReachable(c, s, StartWaiter);
    s := Next(c, s, StartWaiter);
    assert (set k | k in order[0..]) == c.plan.Keys by { assert order[0..] == order; }
    s := DeliverAll(c, order, 0, s);
    s := CloseAndDrain(c, s);
  }

  lemma CloseAndDrain<K(!new), M(!new)>(c: Config<K, M>, s: State<K, M>) returns (t: State<K, M>)
    requires Counted(c) && Surplus(c) == 0 && Reachable(c, s)
    requires s.waiter == Waiting && s.loop == Ranging && s.received == []
    requires s.unspawned == s.calling == s.sending == s.finishing == {}
    ensures Reachable(c, t) && t.loop == Drained && t.received == s.buffer
  {
    assert s.waitGroup == 0 by { ReachableInv(c, s); }
    hide Reachable, Counted, Surplus;
    NextReachable(c, s, Close);
    t := TakeAll(c, Next(c, s, Close));
    NextReachable(c, t, Finish);
    t := Next(c, t, Finish);
  }

  lemma {:induction false} SpawnAll<K(!new), M(!new)>(c: Config<K, M>, s: State<K, M>) returns (t: State<K, M>)
    requires Reachable(c, s)
    requires s.waiter == NotStarted && s.unspawned + s.calling == c.plan.Keys
    ensures Reachable(c, t)
    ensures t.unspawned == {} && t.calling == c.plan.Keys
    ensures t == s.(unspawned := {}, calling := c.plan.Keys, waitGroup := t.waitGroup)
    decreases |s.unspawned|
  {
    if s.unspawned == {} {
      t := s;
    } else {
      var k :| k in s.unspawned;
      NextReachable(c, s, Spawn(k));
      t := SpawnAll(c, Next(c, s, Spawn(k)));
    }
  }

  lemma {:induction false} DeliverAll<K(!new), M(!new)>(c: Config<K, M>, order: seq<K>, i: nat, s: State<K, M>)
    returns (t: State<K, M>)
    requires Counted(c) && IsOrder(order, c.plan.Keys) && i <= |order|
    requires Reachable(c, s)
    requires s.waiter == Waiting && s.loop == Ranging && s.received == []
    requires s.unspawned == {} && s.sending == {} && s.finishing == {}
    requires s.calling == (set k | k in order[i..])
    requires s.buffer == Messages(c, order[..i])
    ensures Reachable(c, t)
    ensures t.waiter == Waiting && t.loop == Ranging && t.received == []
    ensures t.unspawned == {} && t.calling == {} && t.sending == {} && t.finishing == {}
    ensures t.buffer == Messages(c, order)
    decreases |order| - i
  {
    if i == |order| {
      assert order[..i] == order;
      t := s;
    } else {
      var k := order[i];
      assert order[i..] == [k] + order[i + 1..];
      assert k !in order[i + 1..];
      var done := DeliverOne(c, k, s);
      assert order[..i + 1] == order[..i] + [k];
      assert done.buffer == Messages(c, order[..i + 1]);
      var rest := order[i + 1..];
      assert done.calling == set x | x in rest;
      t := DeliverAll(c, order, i + 1, done);
    }
  }

  lemma DeliverOne<K(!new), M(!new)>(c: Config<K, M>, k: K, s: State<K, M>) returns (t: State<K, M>)
    requires Counted(c) && Reachable(c, s)
    requires k in s.calling && s.sending == {} && s.finishing == {}
    ensures k in c.plan && Reachable(c, t)
    ensures t == s.(calling := s.calling - {k}, buffer := s.buffer + [Message(k, c.plan[k])],
              waitGroup := s.waitGroup - 1)
  {
    NextReachable(c, s, Answer(k));
    var answered := Next(c, s, Answer(k));
    ReachableInv(c, answered);
    WorkerCanSend(c, answered, k);
    NextReachable(c, answered, Send(k));
    var sent := Next(c, answered, Send(k));
    NextReachable(c, sent, Done(k));
    t := Next(c, sent, Done(k));
  }

  lemma {:induction false} TakeAll<K(!new), M(!new)>(c: Config<K, M>, s: State<K, M>) returns (t: State<K, M>)
    requires Reachable(c, s) && s.waiter == Closed && s.loop == Ranging
    ensures Reachable(c, t) && t.waiter == Closed && t.loop == Ranging
    ensures t.buffer == [] && t.received == s.received + s.buffer
    decreases |s.buffer|
  {
    if s.buffer == [] {
      t := s;
    } else {
      NextReachable(c, s, Receive);
      t := TakeAll(c, Next(c, s, Receive));
      assert s.received + s.buffer == s.received + [s.buffer[0]] + s.buffer[1..];
    }
  }

  /** A worker calls its app once, when it answers, and no other step calls an app. */
  lemma CalledOnce<K(!new), M(!new)>(c: Config<K, M>, s: State<K, M>, step: Step<K>)
    requires Counted(c) && Reachable(c, s) && Enabled(c, s, step)
    ensures match step
            case Answer(k) => k in c.plan && k !in Called(c, s) && Called(c, Next(c, s, step)) == Called(c, s) + {k}
            case _ => Called(c, Next(c, s, step)) == Called(c, s)
  {
    ReachableInv(c, s);
    hide Reachable, Sent, Balanced, Placed, Counted, Called;
    CalledNext(c, s, step);
  }

  lemma CalledNext<K, M>(c: Config<K, M>, s: State<K, M>, step: Step<K>)
    requires Placed(c, s) && Enabled(c, s, step)
    ensures match step
            case Answer(k) => k in c.plan && k !in Called(c, s) && Called(c, Next(c, s, step)) == Called(c, s) + {k}
            case _ => Called(c, Next(c, s, step)) == Called(c, s)
  {
  }

  // Early returns

  /** The main goroutine can leave its loop over the first message of any worker, at a moment when any set of apps that
      includes that worker's has been called. */
  lemma EarlyReturn<K(!new), M(!new)>(c: Config<K, M>, id: K, called: set<K>) returns (s: State<K, M>)
    requires Counted(c) && id in called && called <= c.plan.Keys
    ensures Reachable(c, s) && s.loop == Abandoned
    ensures s.received == [Message(id, c.plan[id])] && Called(c, s) == called
  {
    InitReachable(c);
    s := SpawnAll(c, Init(c));
    hide Reachable;
    NextReachable(c, s, StartWaiter);
    s := Next(c, s, StartWaiter);
    s := DeliverOne(c, id, s);
    NextReachable(c, s, Receive);
    s := Next(c, s, Receive);
    s := AnswerAll(c, called - {id}, s);
    NextReachable(c, s, Abandon);
    s := Next(c, s, Abandon);
  }

  lemma {:induction false} AnswerAll<K(!new), M(!new)>(c: Config<K, M>, ks: set<K>, s: State<K, M>)
    returns (t: State<K, M>)
    requires Reachable(c, s) && ks <= s.calling
    ensures Reachable(c, t)
    ensures t == s.(calling := s.calling - ks, sending := s.sending + ks)
    decreases ks
  {
    hide Reachable;
    if ks == {} {
      t := s;
    } else {
      var k :| k in ks;
      NextReachable(c, s, Answer(k));
      t := AnswerAll(c, ks - {k}, Next(c, s, Answer(k)));
    }
  }
}
