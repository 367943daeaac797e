/** The merged response of InitChain: what it does to the apps' answers, and when it does not depend on the order in
    which these arrive. */
module InitTheorems {
  import opened Abci
  import opened Orders
  import opened ChainAppIds
  import opened Routing
  import opened ChainApps
  import opened MuxSpec
  import opened FailureTheorems
  import opened MergeTheorems

  // App hashes

  ghost predicate Commute<X>(ids: set<ChainAppIdentifier>, lists: map<ChainAppIdentifier, seq<X>>) {
    forall a, b :: a in ids && b in ids && a in lists && b in lists ==> lists[a] + lists[b] == lists[b] + lists[a]
  }

  lemma {:induction false} CommutesWithAll<X>(x: ChainAppIdentifier, order: seq<ChainAppIdentifier>,
                                              ids: set<ChainAppIdentifier>,
                                              lists: map<ChainAppIdentifier, seq<X>>)
    requires Commute(ids, lists) && x in ids && x in lists
    requires forall id :: id in order ==> id in ids && id in lists
    ensures lists[x] + ConcatBy(order, lists) == ConcatBy(order, lists) + lists[x]
  {
    if order != [] {
      var n := |order| - 1;
      var c, l := ConcatBy(order[..n], lists), lists[order[n]];
      CommutesWithAll(x, order[..n], ids, lists);
      assert lists[x] + (c + l) == (lists[x] + c) + l;
      assert (c + lists[x]) + l == c + (lists[x] + l);
      assert lists[x] + l == l + lists[x];
      assert c + (l + lists[x]) == (c + l) + lists[x];
    }
  }

  lemma PullOut<X>(before: seq<ChainAppIdentifier>, x: ChainAppIdentifier, after: seq<ChainAppIdentifier>,
                   ids: set<ChainAppIdentifier>, lists: map<ChainAppIdentifier, seq<X>>)
    requires Commute(ids, lists) && x in ids && ids <= lists.Keys && forall id :: id in after ==> id in ids
    ensures ConcatBy(before + [x] + after, lists) == ConcatBy(before + after, lists) + lists[x]
  {
    hide Commute, ConcatBy;
    CommutesWithAll(x, after, ids, lists);
    SingleConcat(x, lists);
    ConcatSplit(before, after, lists);
    ConcatSplit(before + [x], after, lists);
    ConcatSplit(before, [x], lists);
    var b, a, l := ConcatBy(before, lists), ConcatBy(after, lists), lists[x];
    assert (b + l) + a == b + (l + a);
    assert b + (a + l) == (b + a) + l;
  }

  lemma {:induction false} CommutingConcat<X>(o1: seq<ChainAppIdentifier>, o2: seq<ChainAppIdentifier>,
                                              ids: set<ChainAppIdentifier>,
                                              lists: map<ChainAppIdentifier, seq<X>>)
    requires IsOrder(o1, ids) && IsOrder(o2, ids) && ids <= lists.Keys && Commute(ids, lists)
    ensures ConcatBy(o1, lists) == ConcatBy(o2, lists)
    decreases |o1|
  {
    OrderSize(o1, ids);
    OrderSize(o2, ids);
    if o1 != [] {
      var x := o1[|o1| - 1];
      assert x in ids && x in o2;
      var p :| 0 <= p < |o2| && o2[p] == x;
      var front, before, after := o1[..|o1| - 1], o2[..p], o2[p + 1..];
      assert o2 == before + [x] + after && o1 == front + [x] + [] && front + [] == front;
      hide ConcatBy, Commute;
      WithoutOne(front, x, [], ids);
      WithoutOne(before, x, after, ids);
      FewerCommute(ids, x, lists);
      hide IsOrder;
      PullOut(front, x, [], ids, lists);
      PullOut(before, x, after, ids, lists);
      CommutingConcat(front, before + after, ids - {x}, lists);
    }
  }

  lemma FewerCommute<X>(ids: set<ChainAppIdentifier>, x: ChainAppIdentifier, lists: map<ChainAppIdentifier, seq<X>>)
    requires Commute(ids, lists)
    ensures Commute(ids - {x}, lists)
  {
  }

  lemma WithoutOne<K>(before: seq<K>, x: K, after: seq<K>, s: set<K>)
    requires IsOrder(before + [x] + after, s)
    ensures IsOrder(before + after, s - {x})
    ensures forall k :: k in after ==> k in s
  {
    var o := before + [x] + after;
    assert o[|before|] == x;
    assert forall i :: 0 <= i < |before| ==> o[i] == before[i];
    assert forall i :: 0 <= i < |after| ==> o[|before| + 1 + i] == after[i];
    forall k | k in s - {x} ensures k in before + after {
      assert k in o;
    }
  }

  /** InitChain puts the app hashes together in the order of arrival. All orders give the same hash exactly when
      any two of the apps' hashes may be swapped. */
  lemma ArrivalOrderFreeIff<X>(lists: map<ChainAppIdentifier, seq<X>>)
    ensures Commute(lists.Keys, lists) <==>
            forall o1, o2 :: IsOrder(o1, lists.Keys) && IsOrder(o2, lists.Keys) ==>
                ConcatBy(o1, lists) == ConcatBy(o2, lists)
  {
    if Commute(lists.Keys, lists) {
      forall o1, o2 | IsOrder(o1, lists.Keys) && IsOrder(o2, lists.Keys)
        ensures ConcatBy(o1, lists) == ConcatBy(o2, lists)
      {
        CommutingConcat(o1, o2, lists.Keys, lists);
      }
    } else {
      var a: ChainAppIdentifier, b: ChainAppIdentifier :|
        a in lists && b in lists && lists[a] + lists[b] != lists[b] + lists[a];
      var o1, o2 := Swapped(a, b, lists);
    }
  }

  lemma Swapped<X>(a: ChainAppIdentifier, b: ChainAppIdentifier, lists: map<ChainAppIdentifier, seq<X>>)
    returns (o1: seq<ChainAppIdentifier>, o2: seq<ChainAppIdentifier>)
    requires a in lists && b in lists && lists[a] + lists[b] != lists[b] + lists[a]
    ensures IsOrder(o1, lists.Keys) && IsOrder(o2, lists.Keys) && ConcatBy(o1, lists) != ConcatBy(o2, lists)
  {
    var rest := OrderStartingWith([], lists.Keys - {a, b});
    o1, o2 := [a, b] + rest, [b, a] + rest;
    TwoFirst(a, b, rest, lists.Keys);
    TwoFirst(b, a, rest, lists.Keys);
    hide ConcatBy, IsOrder;
    ConcatSplit([a, b], rest, lists);
    ConcatSplit([b, a], rest, lists);
    PairConcat(a, b, lists);
    PairConcat(b, a, lists);
    var c, ab, ba := ConcatBy(rest, lists), lists[a] + lists[b], lists[b] + lists[a];
    assert (ab + c)[..|ab|] == ab && (ba + c)[..|ba|] == ba;
  }

  lemma TwoFirst<K>(a: K, b: K, rest: seq<K>, s: set<K>)
    requires a != b && a in s && b in s && IsOrder(rest, s - {a, b})
    ensures IsOrder([a, b] + rest, s)
  {
    var o := [a, b] + rest;
    assert o[0] == a && o[1] == b;
    assert forall i :: 0 <= i < |rest| ==> o[i + 2] == rest[i];
    forall k | k in s ensures k in o {
      if k != a && k != b {
        assert k in rest;
      }
    }
  }

  /** InitChain on two apps with different one-byte hashes: the order of arrival shows. */
  lemma InitHashFollowsArrival()
    ensures var a, b := [0, 0, 0, 1], [0, 0, 0, 2];
            var hashes: map<ChainAppIdentifier, Bytes> := map[a := [7], b := [8]];
            ConcatBy([a, b], hashes) == [7, 8] && ConcatBy([b, a], hashes) == [8, 7]
  {
    var a: ChainAppIdentifier, b: ChainAppIdentifier := [0, 0, 0, 1], [0, 0, 0, 2];
    assert a[3] != b[3];
    var hashes: map<ChainAppIdentifier, Bytes> := map[a := [7], b := [8]];
    PairConcat(a, b, hashes);
    PairConcat(b, a, hashes);
  }

  // Validators

  /** The merged validators when the replies arrive in the given order: those of the first one come twice. */
  function MergedValidators<X>(order: seq<ChainAppIdentifier>, lists: map<ChainAppIdentifier, seq<X>>): seq<X> {
    (if order != [] && order[0] in lists then lists[order[0]] else []) + ConcatBy(order, lists)
  }

  /** The merged validators are those of all apps, each once, exactly when the first app to answer has none. */
  lemma ValidatorsOnceIff(answers: Answers<ResponseInitChain>, order: seq<ChainAppIdentifier>, resp: ResponseInitChain)
    requires order != [] && InitMerges(answers, order, Some(resp))
    ensures resp.validators == ConcatBy(order, InitValidators(answers)) <==> answers[order[0]].validators == []
    ensures |resp.validators| == TotalLength(order, InitValidators(answers)) + |answers[order[0]].validators|
  {
    ConcatLength(order, InitValidators(answers));
    hide ConcatBy, LastParams;
    var first, all := answers[order[0]].validators, ConcatBy(order, InitValidators(answers));
    assert |first + all| == |first| + |all|;
    assert first == [] ==> first + all == all;
  }

  /** A single app with a single validator: the merged response lists it twice. */
  lemma ValidatorDoubled(r: ResponseInitChain, v: ValidatorUpdate)
    requires r.validators == [v]
    ensures InitMerges(map[[0, 0, 0, 1] := r], [[0, 0, 0, 1]], Some(r.(validators := [v, v])))
  {
    var a: ChainAppIdentifier := [0, 0, 0, 1];
    var answers: Answers<ResponseInitChain> := map[a := r];
    SingleConcat(a, InitValidators(answers));
    SingleConcat(a, InitHashes(answers));
    assert [a][..0] == [];
    assert LastParams([a], answers) == r.consensusParams;
    assert r.validators + ConcatBy([a], InitValidators(answers)) == [v, v];
  }

  ghost predicate AllAlike<X>(lists: map<ChainAppIdentifier, seq<X>>) {
    forall a, b :: a in lists && b in lists ==> lists[a] == lists[b]
  }

  /** The merged validators are the same in all orders of arrival exactly when all apps report the same list. */
  lemma ValidatorsOrderFreeIff<X>(lists: map<ChainAppIdentifier, seq<X>>)
    ensures AllAlike(lists) <==>
            forall o1, o2 :: IsOrder(o1, lists.Keys) && IsOrder(o2, lists.Keys) ==>
                               MergedValidators(o1, lists) == MergedValidators(o2, lists)
  {
    if AllAlike(lists) {
      forall o1, o2 | IsOrder(o1, lists.Keys) && IsOrder(o2, lists.Keys)
        ensures MergedValidators(o1, lists) == MergedValidators(o2, lists)
      {
        OrderSize(o1, lists.Keys);
        OrderSize(o2, lists.Keys);
        CommutingConcat(o1, o2, lists.Keys, lists);
        assert o1 != [] ==> o1[0] in lists && o2[0] in lists;
      }
    } else {
      var a: ChainAppIdentifier, b: ChainAppIdentifier :| a in lists && b in lists && lists[a] != lists[b];
      var o1, o2 := FirstTwoSwapped(a, b, lists);
    }
  }

  lemma FirstTwoSwapped<X>(a: ChainAppIdentifier, b: ChainAppIdentifier, lists: map<ChainAppIdentifier, seq<X>>)
    returns (o1: seq<ChainAppIdentifier>, o2: seq<ChainAppIdentifier>)
    requires a in lists && b in lists && lists[a] != lists[b]
    ensures IsOrder(o1, lists.Keys) && IsOrder(o2, lists.Keys)
              && MergedValidators(o1, lists) != MergedValidators(o2, lists)
  {
    var rest := OrderStartingWith([], lists.Keys - {a, b});
    o1, o2 := [a, b] + rest, [b, a] + rest;
    TwoFirst(a, b, rest, lists.Keys);
    TwoFirst(b, a, rest, lists.Keys);
    hide ConcatBy, IsOrder;
    ConcatSplit([a, b], rest, lists);
    ConcatSplit([b, a], rest, lists);
    PairConcat(a, b, lists);
    PairConcat(b, a, lists);
    FirstDiffers(lists[a], lists[b], ConcatBy(rest, lists));
  }

  lemma FirstDiffers<X>(x: seq<X>, y: seq<X>, z: seq<X>)
    requires x != y
    ensures x + (x + y + z) != y + (y + x + z)
  {
    var p, q := x + (x + y + z), y + (y + x + z);
    if |x| == |y| {
      assert p[..|x|] == x && q[..|y|] == y;
    } else {
      assert |p| != |q|;
    }
  }

  // Consensus parameters

  ghost predicate ParamsAgree(answers: Answers<ResponseInitChain>) {
    forall a, b :: a in answers && b in answers
                   && answers[a].consensusParams.Some? && answers[b].consensusParams.Some? ==>
                     answers[a].consensusParams == answers[b].consensusParams
  }

  /** The parameters are those of the last app in the order of arrival that reports any. */
  lemma {:induction false} LastParamsFound(order: seq<ChainAppIdentifier>, answers: Answers<ResponseInitChain>)
    requires forall id :: id in order ==> id in answers
    ensures LastParams(order, answers).None? <==>
            forall i :: 0 <= i < |order| ==> answers[order[i]].consensusParams.None?
    ensures LastParams(order, answers).Some? ==>
              exists i :: 0 <= i < |order| && answers[order[i]].consensusParams == LastParams(order, answers)
                          && forall j :: i < j < |order| ==> answers[order[j]].consensusParams.None?
  {
    if order != [] {
      var n := |order| - 1;
      assert order == order[..n] + [order[n]];
      LastParamsFound(order[..n], answers);
      assert forall j :: 0 <= j < n ==> order[..n][j] == order[j];
    }
  }

  /** The merged consensus parameters are the same in all orders of arrival exactly when no two apps report different
      ones. */
  lemma LastParamsOrderFreeIff(answers: Answers<ResponseInitChain>)
    ensures ParamsAgree(answers) <==>
            forall o1, o2 :: IsOrder(o1, answers.Keys) && IsOrder(o2, answers.Keys) ==>
                               LastParams(o1, answers) == LastParams(o2, answers)
  {
    if ParamsAgree(answers) {
      forall o1, o2 | IsOrder(o1, answers.Keys) && IsOrder(o2, answers.Keys)
        ensures LastParams(o1, answers) == LastParams(o2, answers)
      {
        SameLastParams(o1, o2, answers);
      }
    } else {
      var o1, o2 := LastTwoDiffer(answers);
    }
  }

  lemma SameLastParams(o1: seq<ChainAppIdentifier>, o2: seq<ChainAppIdentifier>, answers: Answers<ResponseInitChain>)
    requires ParamsAgree(answers) && IsOrder(o1, answers.Keys) && IsOrder(o2, answers.Keys)
    ensures LastParams(o1, answers) == LastParams(o2, answers)
  {
    LastParamsFound(o1, answers);
    LastParamsFound(o2, answers);
    SomeoneReports(o1, answers);
    SomeoneReports(o2, answers);
  }

  lemma SomeoneReports(order: seq<ChainAppIdentifier>, answers: Answers<ResponseInitChain>)
    requires IsOrder(order, answers.Keys)
    ensures LastParams(order, answers).None? <==> forall id :: id in answers ==> answers[id].consensusParams.None?
  {
    LastParamsFound(order, answers);
    forall id | id in answers ensures exists i :: 0 <= i < |order| && order[i] == id {
      assert id in order;
    }
  }

  lemma LastTwoDiffer(answers: Answers<ResponseInitChain>)
    returns (o1: seq<ChainAppIdentifier>, o2: seq<ChainAppIdentifier>)
    requires !ParamsAgree(answers)
    ensures IsOrder(o1, answers.Keys) && IsOrder(o2, answers.Keys) && LastParams(o1, answers) != LastParams(o2, answers)
  {
    var a: ChainAppIdentifier, b: ChainAppIdentifier :|
      a in answers && b in answers && answers[a].consensusParams.Some? && answers[b].consensusParams.Some?
      && answers[a].consensusParams != answers[b].consensusParams;
    o1 := EndingWith(a, answers.Keys);
    o2 := EndingWith(b, answers.Keys);
  }

  /** Two apps with different parameters: the last to answer decides. */
  lemma InitParamsFollowArrival(r: ResponseInitChain)
    ensures var a, b := [0, 0, 0, 1], [0, 0, 0, 2];
            var p, q := Some(ConsensusParams(1, 1)), Some(ConsensusParams(2, 2));
            var answers: Answers<ResponseInitChain> :=
              map[a := r.(consensusParams := p), b := r.(consensusParams := q)];
            LastParams([a, b], answers) == q && LastParams([b, a], answers) == p
  {
    var a: ChainAppIdentifier, b: ChainAppIdentifier := [0, 0, 0, 1], [0, 0, 0, 2];
    assert a[3] != b[3];
  }

  // The whole response

  /** No order of arrival shows: any two hashes commute, all validator lists are alike and no parameters conflict. */
  ghost predicate InitSettled(answers: Answers<ResponseInitChain>) {
    && Commute(answers.Keys, InitHashes(answers))
    && AllAlike(InitValidators(answers))
    && ParamsAgree(answers)
  }

  function Merged(order: seq<ChainAppIdentifier>, answers: Answers<ResponseInitChain>): Option<ResponseInitChain> {
    if order == [] then None
    else Some(ResponseInitChain(LastParams(order, answers), MergedValidators(order, InitValidators(answers)),
                                ConcatBy(order, InitHashes(answers))))
  }

  lemma MergesToMerged(order: seq<ChainAppIdentifier>, answers: Answers<ResponseInitChain>)
    requires IsOrder(order, answers.Keys)
    ensures forall r :: InitMerges(answers, order, r) <==> r == Merged(order, answers)
  {
    hide ConcatBy, LastParams;
    assert order != [] ==> order[0] in answers;
  }

  /** The merged response of InitChain is the same in all orders of arrival exactly when the answers are settled. */
  lemma InitMergeIndependentIff(answers: Answers<ResponseInitChain>)
    ensures InitSettled(answers) <==>
            forall o1, o2 :: IsOrder(o1, answers.Keys) && IsOrder(o2, answers.Keys) ==>
                Merged(o1, answers) == Merged(o2, answers)
  {
    hide IsOrder, Merged, InitSettled;
    if InitSettled(answers) {
      forall o1, o2 | IsOrder(o1, answers.Keys) && IsOrder(o2, answers.Keys)
        ensures Merged(o1, answers) == Merged(o2, answers)
      {
        SettledMerge(o1, o2, answers);
      }
    } else {
      var o1, o2 := UnsettledMerges(answers);
    }
  }

  lemma SettledMerge(o1: seq<ChainAppIdentifier>, o2: seq<ChainAppIdentifier>, answers: Answers<ResponseInitChain>)
    requires InitSettled(answers) && IsOrder(o1, answers.Keys) && IsOrder(o2, answers.Keys)
    ensures Merged(o1, answers) == Merged(o2, answers)
  {
    hide IsOrder, LastParams, ConcatBy, MergedValidators, Commute, AllAlike, ParamsAgree;
    var hashes, validators := InitHashes(answers), InitValidators(answers);
    assert hashes.Keys == validators.Keys == answers.Keys;
    SameSize(o1, o2, answers.Keys);
    CommutingConcat(o1, o2, answers.Keys, hashes);
    ValidatorsOrderFreeIff(validators);
    SameLastParams(o1, o2, answers);
  }

  lemma UnsettledMerges(answers: Answers<ResponseInitChain>)
    returns (o1: seq<ChainAppIdentifier>, o2: seq<ChainAppIdentifier>)
    requires !InitSettled(answers)
    ensures IsOrder(o1, answers.Keys) && IsOrder(o2, answers.Keys) && Merged(o1, answers) != Merged(o2, answers)
  {
    hide IsOrder, LastParams, ConcatBy, MergedValidators, ParamsAgree;
    var hashes, validators := InitHashes(answers), InitValidators(answers);
    assert hashes.Keys == validators.Keys == answers.Keys;
    if !ParamsAgree(answers) {
      o1, o2 := LastTwoDiffer(answers);
    } else if !AllAlike(validators) {
      var a: ChainAppIdentifier, b: ChainAppIdentifier :|
        a in validators && b in validators && validators[a] != validators[b];
      o1, o2 := FirstTwoSwapped(a, b, validators);
    } else {
      var a: ChainAppIdentifier, b: ChainAppIdentifier :|
        a in hashes && b in hashes && hashes[a] + hashes[b] != hashes[b] + hashes[a];
      o1, o2 := Swapped(a, b, hashes);
    }
    SameSize(o1, o2, answers.Keys);
  }

  lemma SameSize(o1: seq<ChainAppIdentifier>, o2: seq<ChainAppIdentifier>, ids: set<ChainAppIdentifier>)
    requires IsOrder(o1, ids) && IsOrder(o2, ids)
    ensures o1 == [] <==> o2 == []
    ensures o1 == [] ==> o1 == o2
  {
    OrderSize(o1, ids);
    OrderSize(o2, ids);
  }

  /** What InitChain returns does not depend on the schedule exactly when no app fails and the answers are settled, or
      all failing apps give one error. */
  lemma InitIndependentIff<T(!new)>(env: Env<T>, clients: Clients, apps: Apps<T>, chain: RequestInitChain)
    ensures var calls := InitCalls(env, clients, apps, chain);
            (if AllOk(calls) then InitSettled(Values(calls)) else OneError(calls)) <==>
            forall apps1: Apps<T>, out1, apps2: Apps<T>, out2 ::
              && InitOutcome(env, clients, apps, chain, apps1, out1)
              && InitOutcome(env, clients, apps, chain, apps2, out2) ==>
                out1 == out2
  {
    hide InitCalls, InitSettled, InitMergesInSomeOrder, OneError, Failed, After;
    var calls := InitCalls(env, clients, apps, chain);
    SomeFails(calls);
    if AllOk(calls) {
      NoFailure(apps, calls);
      InitMergeIndependentIff(Values(calls));
      SomeOrderMerges(Values(calls));
      if !InitSettled(Values(calls)) {
        var o1, o2 :| IsOrder(o1, Values(calls).Keys) && IsOrder(o2, Values(calls).Keys)
                      && Merged(o1, Values(calls)) != Merged(o2, Values(calls));
        assert InitOutcome(env, clients, apps, chain, After(apps, calls, calls.Keys), Ok(Merged(o1, Values(calls))));
        assert InitOutcome(env, clients, apps, chain, After(apps, calls, calls.Keys), Ok(Merged(o2, Values(calls))));
      }
    } else if OneError(calls) {
      forall apps1: Apps<T>, out1, apps2: Apps<T>, out2
        | InitOutcome(env, clients, apps, chain, apps1, out1) && InitOutcome(env, clients, apps, chain, apps2, out2)
        ensures out1 == out2
      {
        FailuresAgree(apps, calls, apps1, out1.error, apps2, out2.error);
      }
    } else {
      var a, b := TwoErrors(calls);
      MayFailWith(apps, calls, a);
      MayFailWith(apps, calls, b);
      assert InitOutcome(env, clients, apps, chain, After(apps, calls, {a}), Err(calls[a].reply.error));
      assert InitOutcome(env, clients, apps, chain, After(apps, calls, {b}), Err(calls[b].reply.error));
    }
  }

  /** There is an outcome for every call, and a successful one when no app fails. */
  lemma InitHasOutcome<T>(env: Env<T>, clients: Clients, apps: Apps<T>, chain: RequestInitChain)
    returns (apps': Apps<T>, out: Reply<Option<ResponseInitChain>>)
    ensures InitOutcome(env, clients, apps, chain, apps', out)
    ensures out.Ok? <==> AllOk(InitCalls(env, clients, apps, chain))
  {
    hide InitCalls, After, Failed, InitMergesInSomeOrder;
    var calls := InitCalls(env, clients, apps, chain);
    if AllOk(calls) {
      SomeOrderMerges(Values(calls));
      var order := OrderStartingWith([], Values(calls).Keys);
      apps', out := After(apps, calls, calls.Keys), Ok(Merged(order, Values(calls)));
    } else {
      var id :| id in calls && calls[id].reply.Err?;
      MayFailWith(apps, calls, id);
      apps', out := After(apps, calls, {id}), Err(calls[id].reply.error);
    }
  }

  lemma SomeOrderMerges(answers: Answers<ResponseInitChain>)
    ensures forall r :: InitMergesInSomeOrder(answers, r) <==>
                        exists order :: IsOrder(order, answers.Keys) && r == Merged(order, answers)
    ensures forall order :: IsOrder(order, answers.Keys) ==> InitMergesInSomeOrder(answers, Merged(order, answers))
  {
    hide IsOrder, InitMerges, Merged;
    forall order | IsOrder(order, answers.Keys)
      ensures forall r :: InitMerges(answers, order, r) <==> r == Merged(order, answers)
    {
      MergesToMerged(order, answers);
    }
  }

  // The requests

  /** The chain id an app is told at genesis is the one whose header leads to it, and no other app is told that one; so
      what clients address to a chain by its id reaches the app that was started under this id. */
  lemma InitIsolation(sha1: Hash, clients: Clients, id: ChainAppIdentifier, chain: RequestInitChain, payload: Bytes)
    requires Registered(sha1, clients) && id in clients
    ensures var told := InitRequest(clients[id], chain).chainId;
            && (forall other :: Names(CreateMegablocksHeader(sha1, told) + payload, other) <==> other == id)
            && (forall other :: other in clients && InitRequest(clients[other], chain).chainId == told ==> other == id)
  {
    HeaderRoundTrip(sha1, clients, id, payload);
  }
}
