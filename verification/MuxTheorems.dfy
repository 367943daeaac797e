/** One FinalizeBlock on the multiplexer: what depends neither on the schedule nor on the interleaving of the chains. */
module MuxTheorems {
  import opened Abci
  import opened Orders
  import opened ChainAppIds
  import opened Routing
  import opened ChainApps
  import opened MuxSpec
  import opened RunTheorems
  import opened FailureTheorems

  // Schedules

  ghost predicate Agreed(answers: Answers<ResponseFinalizeBlock>) {
    forall a, b :: a in answers && b in answers
                   && answers[a].consensusParamUpdates.Some? && answers[b].consensusParamUpdates.Some? ==>
                     answers[a].consensusParamUpdates == answers[b].consensusParamUpdates
  }

  /** The parameters are those of the first app in the order of arrival that reports any. */
  lemma {:induction false} FirstParamsFound(order: seq<ChainAppIdentifier>, answers: Answers<ResponseFinalizeBlock>)
    requires forall id :: id in order ==> id in answers
    ensures FirstParams(order, answers).None? <==>
            forall i :: 0 <= i < |order| ==> answers[order[i]].consensusParamUpdates.None?
    ensures FirstParams(order, answers).Some? ==>
              exists i :: 0 <= i < |order| && answers[order[i]].consensusParamUpdates == FirstParams(order, answers)
                          && forall j :: 0 <= j < i ==> answers[order[j]].consensusParamUpdates.None?
  {
    if order != [] {
      var n := |order| - 1;
      assert order == order[..n] + [order[n]];
      FirstParamsFound(order[..n], answers);
      if FirstParams(order[..n], answers).Some? {
        var i :| 0 <= i < n && answers[order[..n][i]].consensusParamUpdates == FirstParams(order[..n], answers)
                 && forall j :: 0 <= j < i ==> answers[order[..n][j]].consensusParamUpdates.None?;
        assert order[..n][i] == order[i];
        assert forall j :: 0 <= j < i ==> order[..n][j] == order[j];
      } else {
        assert forall j :: 0 <= j < n ==> order[..n][j] == order[j];
      }
    }
  }

  /** With each app's reply given, any two complete runs agree on whether FinalizeBlock fails, and when it does
      not, on the apps' states and on everything in the response but the consensus parameters; on these too if the
      apps do not contradict each other. */
  lemma ScheduleIndependence<T>(env: Env<T>, apps: Apps<T>, req: RequestBlock,
                                apps1: Apps<T>, out1: Reply<ResponseFinalizeBlock>,
                                apps2: Apps<T>, out2: Reply<ResponseFinalizeBlock>)
    requires FinalizeOutcome(env, apps, req, apps1, out1) && FinalizeOutcome(env, apps, req, apps2, out2)
    ensures out1.Ok? <==> out2.Ok?
    ensures out1.Ok? ==> apps1 == apps2
                         && out1.value.(consensusParamUpdates := None) == out2.value.(consensusParamUpdates := None)
    ensures out1.Ok? && Agreed(Values(FinalizeCalls(env, apps, req))) ==> out1 == out2
    ensures !AllRoutable(apps.Keys, req.txs) ==> out1 == out2 && apps1 == apps2 == apps
  {
    hide FinalizeBlock, FinalizeCalls, ConcatBy, SortedIds, Rank, Owner, Agreed;
    if out1.Ok? && out2.Ok? {
      var answers := Values(FinalizeCalls(env, apps, req));
      var order1 :| IsOrder(order1, answers.Keys) && Merges(req.txs, answers, order1, out1.value);
      var order2 :| IsOrder(order2, answers.Keys) && Merges(req.txs, answers, order2, out2.value);
      assert out1.value.txResults == out2.value.txResults by {
        assert forall i :: 0 <= i < |req.txs| ==> Routable(apps.Keys, req.txs[i]);
      }
      if Agreed(answers) {
        SameParams(answers, order1, order2);
      }
    }
  }

  lemma SameParams(answers: Answers<ResponseFinalizeBlock>, order1: seq<ChainAppIdentifier>,
                   order2: seq<ChainAppIdentifier>)
    requires Agreed(answers) && IsOrder(order1, answers.Keys) && IsOrder(order2, answers.Keys)
    ensures FirstParams(order1, answers) == FirstParams(order2, answers)
  {
    FirstParamsFound(order1, answers);
    FirstParamsFound(order2, answers);
    SomeReport(order1, answers);
    SomeReport(order2, answers);
  }

  lemma SomeReport(order: seq<ChainAppIdentifier>, answers: Answers<ResponseFinalizeBlock>)
    requires IsOrder(order, answers.Keys)
    ensures FirstParams(order, answers).None? <==>
            forall id :: id in answers ==> answers[id].consensusParamUpdates.None?
  {
    FirstParamsFound(order, answers);
    forall id | id in answers ensures exists i :: 0 <= i < |order| && order[i] == id {
      assert id in order;
    }
  }

  /** The consensus parameters are the one part of the response that the order of arrival can change; it cannot
      exactly when no two apps report different ones. Every order does occur, by ArrivalOrders. */
  lemma ParamsIndependentIff(answers: Answers<ResponseFinalizeBlock>)
    ensures Agreed(answers) <==>
            forall order1, order2 :: IsOrder(order1, answers.Keys) && IsOrder(order2, answers.Keys) ==>
                                       FirstParams(order1, answers) == FirstParams(order2, answers)
  {
    if Agreed(answers) {
      forall order1, order2 | IsOrder(order1, answers.Keys) && IsOrder(order2, answers.Keys)
        ensures FirstParams(order1, answers) == FirstParams(order2, answers)
      {
        SameParams(answers, order1, order2);
      }
    } else {
      var order1, order2 := ParamsDiffer(answers);
    }
  }

  lemma ParamsDiffer(answers: Answers<ResponseFinalizeBlock>)
    returns (order1: seq<ChainAppIdentifier>, order2: seq<ChainAppIdentifier>)
    requires !Agreed(answers)
    ensures IsOrder(order1, answers.Keys) && IsOrder(order2, answers.Keys)
    ensures FirstParams(order1, answers) != FirstParams(order2, answers)
  {
    var a: ChainAppIdentifier, b: ChainAppIdentifier :|
      a in answers && b in answers
      && answers[a].consensusParamUpdates.Some? && answers[b].consensusParamUpdates.Some?
      && answers[a].consensusParamUpdates != answers[b].consensusParamUpdates;
    order1 := OrderStartingWith([a], answers.Keys);
    order2 := OrderStartingWith([b], answers.Keys);
    assert order1[0] == a && order2[0] == b;
    FirstReports(order1, answers);
    FirstReports(order2, answers);
  }

  /** What FinalizeBlock returns does not depend on the schedule exactly when the block cannot be routed, or no app
      fails and no two report different consensus parameters, or all failing apps give one error. */
  lemma FinalizeIndependentIff<T(!new)>(env: Env<T>, apps: Apps<T>, req: RequestBlock)
    ensures var calls := FinalizeCalls(env, apps, req);
            (AllRoutable(apps.Keys, req.txs) ==> if AllOk(calls) then Agreed(Values(calls)) else OneError(calls)) <==>
            forall apps1: Apps<T>, out1, apps2: Apps<T>, out2 ::
              FinalizeOutcome(env, apps, req, apps1, out1) && FinalizeOutcome(env, apps, req, apps2, out2) ==>
                out1 == out2
  {
    hide AllRoutable, FinalizeCalls, Agreed, MergesInSomeOrder, OneError, Failed, After, FinalizeOutcome;
    var calls := FinalizeCalls(env, apps, req);
    if AllRoutable(apps.Keys, req.txs) && AllOk(calls) && !Agreed(Values(calls)) {
      var out1, out2 := TwoMerges(env, apps, req);
    } else if AllRoutable(apps.Keys, req.txs) && !AllOk(calls) && !OneError(calls) {
      var out1, out2 := TwoFailures(env, apps, req);
    } else {
      forall apps1: Apps<T>, out1, apps2: Apps<T>, out2
        | FinalizeOutcome(env, apps, req, apps1, out1) && FinalizeOutcome(env, apps, req, apps2, out2)
        ensures out1 == out2
      {
        SameReturn(env, apps, req, apps1, out1, apps2, out2);
      }
    }
  }

  lemma SameReturn<T(!new)>(env: Env<T>, apps: Apps<T>, req: RequestBlock, apps1: Apps<T>,
                            out1: Reply<ResponseFinalizeBlock>,
                            apps2: Apps<T>, out2: Reply<ResponseFinalizeBlock>)
    requires FinalizeOutcome(env, apps, req, apps1, out1) && FinalizeOutcome(env, apps, req, apps2, out2)
    requires var calls := FinalizeCalls(env, apps, req);
             AllRoutable(apps.Keys, req.txs) ==> if AllOk(calls) then Agreed(Values(calls)) else OneError(calls)
    ensures out1 == out2
  {
    hide AllRoutable, FinalizeCalls, Agreed, MergesInSomeOrder, OneError, Failed, After;
    ScheduleIndependence(env, apps, req, apps1, out1, apps2, out2);
    var calls := FinalizeCalls(env, apps, req);
    if AllRoutable(apps.Keys, req.txs) && out1.Err? {
      if AllOk(calls) {
        NoFailure(apps, calls);
      } else {
        FailuresAgree(apps, calls, apps1, out1.error, apps2, out2.error);
      }
    }
  }

  lemma TwoMerges<T>(env: Env<T>, apps: Apps<T>, req: RequestBlock)
    returns (out1: Reply<ResponseFinalizeBlock>, out2: Reply<ResponseFinalizeBlock>)
    requires AllRoutable(apps.Keys, req.txs) && AllOk(FinalizeCalls(env, apps, req))
    requires !Agreed(Values(FinalizeCalls(env, apps, req)))
    ensures var calls := FinalizeCalls(env, apps, req);
            && FinalizeOutcome(env, apps, req, After(apps, calls, calls.Keys), out1)
            && FinalizeOutcome(env, apps, req, After(apps, calls, calls.Keys), out2)
    ensures out1 != out2
  {
    hide AllRoutable, FinalizeCalls, Agreed, After, Merges, IsOrder, FirstParams;
    var answers := Values(FinalizeCalls(env, apps, req));
    var order1, order2 := ParamsDiffer(answers);
    var resp1 := SomeMerge(req.txs, answers, order1);
    var resp2 := SomeMerge(req.txs, answers, order2);
    out1, out2 := Ok(resp1), Ok(resp2);
  }

  lemma SomeMerge(txs: seq<Bytes>, answers: Answers<ResponseFinalizeBlock>, order: seq<ChainAppIdentifier>)
    returns (resp: ResponseFinalizeBlock)
    ensures Merges(txs, answers, order, resp) && resp.consensusParamUpdates == FirstParams(order, answers)
  {
    hide Rank, Owner, ConcatBy, SortedIds;
    var results := seq(|txs|, i requires 0 <= i < |txs| =>
                         if CheckHeader(txs[i]).None? && Owner(txs[i]) in answers
                         then ResultAt(answers[Owner(txs[i])].txResults, Rank(txs, i)) else None);
    resp := ResponseFinalizeBlock(results,
                                  ConcatBy(SortedIds(answers.Keys), AppHashes(answers)),
                                  ConcatBy(SortedIds(answers.Keys), Updates(answers)),
                                  ConcatBy(SortedIds(answers.Keys), EventLists(answers)),
                                  FirstParams(order, answers));
  }

  /** There is an outcome for every call, and a successful one when the block can be routed and no app fails. */
  lemma FinalizeHasOutcome<T>(env: Env<T>, apps: Apps<T>, req: RequestBlock)
    returns (apps': Apps<T>, out: Reply<ResponseFinalizeBlock>)
    ensures FinalizeOutcome(env, apps, req, apps', out)
    ensures out.Ok? <==> AllRoutable(apps.Keys, req.txs) && AllOk(FinalizeCalls(env, apps, req))
  {
    hide AllRoutable, FinalizeCalls, After, Failed, Merges;
    var calls := FinalizeCalls(env, apps, req);
    if !AllRoutable(apps.Keys, req.txs) {
      apps', out := apps, Err(NoHandlerFound);
    } else if AllOk(calls) {
      var order := OrderStartingWith([], Values(calls).Keys);
      var resp := SomeMerge(req.txs, Values(calls), order);
      apps', out := After(apps, calls, calls.Keys), Ok(resp);
    } else {
      var id :| id in calls && calls[id].reply.Err?;
      MayFailWith(apps, calls, id);
      apps', out := After(apps, calls, {id}), Err(calls[id].reply.error);
    }
  }

  lemma TwoFailures<T(!new)>(env: Env<T>, apps: Apps<T>, req: RequestBlock)
    returns (out1: Reply<ResponseFinalizeBlock>, out2: Reply<ResponseFinalizeBlock>)
    requires AllRoutable(apps.Keys, req.txs) && !OneError(FinalizeCalls(env, apps, req))
    ensures exists apps1 :: FinalizeOutcome(env, apps, req, apps1, out1)
    ensures exists apps2 :: FinalizeOutcome(env, apps, req, apps2, out2)
    ensures out1 != out2
  {
    hide AllRoutable, FinalizeCalls, After, Failed, OneError;
    var calls := FinalizeCalls(env, apps, req);
    var a, b := TwoErrors(calls);
    MayFailWith(apps, calls, a);
    MayFailWith(apps, calls, b);
    out1, out2 := Err(calls[a].reply.error), Err(calls[b].reply.error);
    assert FinalizeOutcome(env, apps, req, After(apps, calls, {a}), out1);
    assert FinalizeOutcome(env, apps, req, After(apps, calls, {b}), out2);
  }

  /** Two apps that contradict each other: the first to answer decides the consensus parameters. */
  lemma ParamsFollowArrival(r: ResponseFinalizeBlock)
    ensures var a, b := [0, 0, 0, 1], [0, 0, 0, 2];
            var p, q := Some(ConsensusParams(1, 1)), Some(ConsensusParams(2, 2));
            var answers: Answers<ResponseFinalizeBlock> :=
              map[a := r.(consensusParamUpdates := p), b := r.(consensusParamUpdates := q)];
            FirstParams([a, b], answers) == p && FirstParams([b, a], answers) == q
  {
    var a: ChainAppIdentifier, b: ChainAppIdentifier := [0, 0, 0, 1], [0, 0, 0, 2];
    assert a[3] != b[3];
    var answers: Answers<ResponseFinalizeBlock> :=
      map[a := r.(consensusParamUpdates := Some(ConsensusParams(1, 1))),
          b := r.(consensusParamUpdates := Some(ConsensusParams(2, 2)))];
    FirstReports([a, b], answers);
    FirstReports([b, a], answers);
  }

  lemma FirstReports(order: seq<ChainAppIdentifier>, answers: Answers<ResponseFinalizeBlock>)
    requires order != [] && forall id :: id in order ==> id in answers
    requires answers[order[0]].consensusParamUpdates.Some?
    ensures FirstParams(order, answers) == answers[order[0]].consensusParamUpdates
  {
    FirstParamsFound(order, answers);
  }

  // Replicas

  /** Two replicas that start alike and go through the same blocks are in the same states throughout and give the same
      responses, the consensus parameters excepted where apps disagree on them, whatever the schedules and walks are. */
  lemma {:induction false} ReplicasAgree<T(!new)>(env: Env<T>, blocks: seq<RequestBlock>,
                                                  states1: seq<Apps<T>>, responses1: seq<ResponseFinalizeBlock>,
                                                  states2: seq<Apps<T>>, responses2: seq<ResponseFinalizeBlock>)
    requires MuxRun(env, states1, blocks, responses1) && MuxRun(env, states2, blocks, responses2)
    requires states1[0] == states2[0]
    ensures states1 == states2
    ensures forall k :: 0 <= k < |blocks| ==>
              && responses1[k].(consensusParamUpdates := None) == responses2[k].(consensusParamUpdates := None)
              && (Agreed(Values(FinalizeCalls(env, states1[k], blocks[k]))) ==> responses1[k] == responses2[k])
  {
    hide BlockStep, Agreed, FinalizeCalls, Values;
    var n := |blocks|;
    if n == 0 {
      assert states1 == [states1[0]] && states2 == [states2[0]];
    } else {
      RunPrefix(env, states1, blocks, responses1);
      RunPrefix(env, states2, blocks, responses2);
      ReplicasAgree(env, blocks[..n - 1], states1[..n], responses1[..n - 1], states2[..n], responses2[..n - 1]);
      assert states1[n - 1] == states1[..n][n - 1] && states2[n - 1] == states2[..n][n - 1];
      assert BlockStep(env, states1[n - 1], blocks[n - 1], responses1[n - 1], states1[n]);
      assert BlockStep(env, states2[n - 1], blocks[n - 1], responses2[n - 1], states2[n]);
      SameStep(env, states1[n - 1], blocks[n - 1], responses1[n - 1], states1[n], responses2[n - 1], states2[n]);
      assert states1 == states1[..n] + [states1[n]] && states2 == states2[..n] + [states2[n]];
      forall k | 0 <= k < n - 1
        ensures responses1[k].(consensusParamUpdates := None) == responses2[k].(consensusParamUpdates := None)
        ensures Agreed(Values(FinalizeCalls(env, states1[k], blocks[k]))) ==> responses1[k] == responses2[k]
      {
        assert responses1[..n - 1][k] == responses1[k] && responses2[..n - 1][k] == responses2[k];
        assert states1[..n][k] == states1[k] && blocks[..n - 1][k] == blocks[k];
      }
    }
  }

  lemma SameStep<T(!new)>(env: Env<T>, apps: Apps<T>, req: RequestBlock, resp1: ResponseFinalizeBlock, apps1: Apps<T>,
                          resp2: ResponseFinalizeBlock, apps2: Apps<T>)
    requires BlockStep(env, apps, req, resp1, apps1) && BlockStep(env, apps, req, resp2, apps2)
    ensures apps1 == apps2
    ensures resp1.(consensusParamUpdates := None) == resp2.(consensusParamUpdates := None)
    ensures Agreed(Values(FinalizeCalls(env, apps, req))) ==> resp1 == resp2
  {
    StepProjects(env, apps, req, resp1, apps1);
    StepProjects(env, apps, req, resp2, apps2);
    hide FinalizeOutcome, CommitOutcome, SoloBlock, FinalizeBlock, Commit, Filled, Agreed, FinalizeCalls, Values,
         AllRoutable;
    var mid1: Apps<T> :| FinalizeOutcome(env, apps, req, mid1, Ok(resp1));
    var mid2: Apps<T> :| FinalizeOutcome(env, apps, req, mid2, Ok(resp2));
    ScheduleIndependence(env, apps, req, mid1, Ok(resp1), mid2, Ok(resp2));
  }

  // Interleavings

  ghost predicate SameParts(a: seq<Bytes>, b: seq<Bytes>) {
    forall id :: SubBlock(a, id) == SubBlock(b, id)
  }

  /** Where transaction `i` of block `a` stands in block `b`: at the same rank of the same app. */
  function Partner(a: seq<Bytes>, b: seq<Bytes>, i: nat): nat
    requires i < |a| && CheckHeader(a[i]).None?
  {
    var slots := Slots(b, Owner(a[i]));
    if Rank(a, i) < |slots| then slots[Rank(a, i)] else 0
  }

  /** Partner is a bijection that carries each transaction to an equal one. */
  lemma PartnerExchanges(a: seq<Bytes>, b: seq<Bytes>, i: nat)
    requires SameParts(a, b) && i < |a| && CheckHeader(a[i]).None?
    ensures var j := Partner(a, b, i);
            && j < |b| && b[j] == a[i] && Rank(b, j) == Rank(a, i)
            && Partner(b, a, j) == i
  {
    var id, r := Owner(a[i]), Rank(a, i);
    RankFindsSlot(a, i);
    assert SubBlock(a, id) == SubBlock(b, id);
    SlotsMatch(b, id);
    SlotHasRank(b, id, r);
    var j := Slots(b, id)[r];
    HeaderAndPayload(a[i]);
    HeaderAndPayload(b[j]);
  }

  /** Two blocks that keep each chain's own order but weave the chains together differently: every app is sent the
      same, the merged hash, validator updates and events and all app states are the same, so are the consensus
      parameters if the apps agree on them, and the results are reordered as the transactions are. */
  lemma InterleavingInvariance<T>(env: Env<T>, apps: Apps<T>, req1: RequestBlock, req2: RequestBlock,
                                  apps1: Apps<T>, resp1: ResponseFinalizeBlock, apps2: Apps<T>,
                                  out2: Reply<ResponseFinalizeBlock>)
    requires req1.info == req2.info && SameParts(req1.txs, req2.txs)
    requires AllRoutable(apps.Keys, req2.txs)
    requires FinalizeOutcome(env, apps, req1, apps1, Ok(resp1)) && FinalizeOutcome(env, apps, req2, apps2, out2)
    ensures FinalizeCalls(env, apps, req1) == FinalizeCalls(env, apps, req2)
    ensures out2.Ok? && apps1 == apps2
    ensures var resp2 := out2.value;
            && resp1.appHash == resp2.appHash
            && resp1.validatorUpdates == resp2.validatorUpdates
            && resp1.events == resp2.events
            && (Agreed(Values(FinalizeCalls(env, apps, req1))) ==>
                 resp1.consensusParamUpdates == resp2.consensusParamUpdates)
            && forall i :: 0 <= i < |req1.txs| ==>
                 && CheckHeader(req1.txs[i]).None?
                 && Partner(req1.txs, req2.txs, i) < |resp2.txResults|
                 && resp1.txResults[i] == resp2.txResults[Partner(req1.txs, req2.txs, i)]
  {
    hide FinalizeBlock, ConcatBy, SortedIds, SubBlock, Rank, Owner, Partner;
    SameCalls(env, apps, req1, req2);
    FinalizedOk(env, apps, req1, apps1, resp1);
    var answers := Values(FinalizeCalls(env, apps, req1));
    hide FinalizeCalls;
    if Agreed(answers) {
      var order1 :| IsOrder(order1, answers.Keys) && Merges(req1.txs, answers, order1, resp1);
      var order2 :| IsOrder(order2, answers.Keys) && Merges(req2.txs, answers, order2, out2.value);
      SameParams(answers, order1, order2);
    }
    forall i | 0 <= i < |req1.txs|
      ensures CheckHeader(req1.txs[i]).None?
      ensures Partner(req1.txs, req2.txs, i) < |out2.value.txResults|
      ensures resp1.txResults[i] == out2.value.txResults[Partner(req1.txs, req2.txs, i)]
    {
      assert Routable(apps.Keys, req1.txs[i]);
      PartnerExchanges(req1.txs, req2.txs, i);
      SamePlace(req1.txs, req2.txs, i);
    }
  }

  lemma SamePlace(a: seq<Bytes>, b: seq<Bytes>, i: nat)
    requires SameParts(a, b) && i < |a| && CheckHeader(a[i]).None?
    ensures var j := Partner(a, b, i); j < |b| && CheckHeader(b[j]).None? && Owner(b[j]) == Owner(a[i])
  {
    PartnerExchanges(a, b, i);
  }

  lemma SameCalls<T>(env: Env<T>, apps: Apps<T>, req1: RequestBlock, req2: RequestBlock)
    requires req1.info == req2.info && SameParts(req1.txs, req2.txs)
    ensures FinalizeCalls(env, apps, req1) == FinalizeCalls(env, apps, req2)
  {
    hide FinalizeBlock, SubBlock;
    forall id ensures SubRequest(req1, id) == SubRequest(req2, id) {
      assert SubBlock(req1.txs, id) == SubBlock(req2.txs, id);
    }
  }
}
