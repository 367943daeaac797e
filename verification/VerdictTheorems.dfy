/** The verdict of ProcessProposal: what it says about the apps' answers, and when it does not depend on the order
    in which these arrive. */
module VerdictTheorems {
  import opened Abci
  import opened Orders
  import opened ChainAppIds
  import opened Routing
  import opened ChainApps
  import opened MuxSpec
  import opened FailureTheorems
  import opened OtherLoops

  lemma VerdictUnique(statuses: seq<ProposalStatus>, v1: ProposalStatus, v2: ProposalStatus)
    requires IsVerdict(statuses, v1) && IsVerdict(statuses, v2)
    ensures v1 == v2
  {
    forall p, q | LastDissent(statuses, p) && LastDissent(statuses, q) ensures p == q {
      assert !(p < q) && !(q < p);
    }
  }

  /** The receive loop as it is written, over the numbers of the protobuf enumeration: 0 is UNKNOWN and 1 is ACCEPT. */
  function Fold(statuses: seq<int>): int {
    if |statuses| == 0 then 1
    else
      var sofar, status := Fold(statuses[..|statuses| - 1]), statuses[|statuses| - 1];
      var kept := if sofar == 0 then status else sofar;
      if status != 1 then status else kept
  }

  /** The closed form of the verdict is what the loop computes. */
  lemma {:induction false} VerdictIsFold(statuses: seq<ProposalStatus>, verdict: ProposalStatus)
    ensures IsVerdict(statuses, verdict) <==> verdict == Fold(statuses)
  {
    FoldIsVerdict(statuses);
    if IsVerdict(statuses, verdict) {
      VerdictUnique(statuses, verdict, Fold(statuses));
    }
  }

  lemma {:induction false} FoldIsVerdict(statuses: seq<ProposalStatus>)
    ensures IsVerdict(statuses, Fold(statuses))
  {
    if statuses != [] {
      var front, status := statuses[..|statuses| - 1], statuses[|statuses| - 1];
      assert statuses == front + [status];
      FoldIsVerdict(front);
      hide Fold;
      VerdictNext(front, Fold(front), status);
    }
  }

  /** The answers of the apps that are not in `silent`, in the same order. */
  function Without(order: seq<ChainAppIdentifier>, silent: set<ChainAppIdentifier>): seq<ChainAppIdentifier> {
    if |order| == 0 then []
    else
      var front, id := order[..|order| - 1], order[|order| - 1];
      Without(front, silent) + if id in silent then [] else [id]
  }

  /** Apps that accept have no other influence than to hide an UNKNOWN: leaving them out gives the same verdict, or
      UNKNOWN in the place of an ACCEPT. */
  lemma {:induction false} AcceptersAreNeutral(order: seq<ChainAppIdentifier>, answers: Answers<ProposalStatus>,
                                               silent: set<ChainAppIdentifier>)
    requires forall id :: id in order && id in silent ==> id in answers && answers[id] == 1
    ensures var all, some := Fold(Statuses(order, answers)), Fold(Statuses(Without(order, silent), answers));
            all == some || (some == 0 && all == 1)
  {
    if order != [] {
      var front, id := order[..|order| - 1], order[|order| - 1];
      assert order == front + [id];
      AcceptersAreNeutral(front, answers, silent);
      var status := if id in answers then answers[id] else ACCEPT;
      assert Statuses(order, answers) == Statuses(front, answers) + [status];
      if id in silent {
        assert Without(order, silent) == Without(front, silent);
      } else {
        assert Statuses(Without(order, silent), answers) == Statuses(Without(front, silent), answers) + [status];
      }
    }
  }

  ghost predicate Unanimous(answers: Answers<ProposalStatus>) {
    forall id :: id in answers ==> answers[id] == ACCEPT
  }

  ghost predicate UnknownMeetsAccept(answers: Answers<ProposalStatus>) {
    exists u, a :: u in answers && a in answers && answers[u] == UNKNOWN && answers[a] == ACCEPT
  }

  /** ACCEPT means that all contacted apps accepted, in whatever order they answer, exactly when there are not
      both an app that answers UNKNOWN and one that answers ACCEPT: an ACCEPT that comes last hides an UNKNOWN. */
  lemma AcceptMeansUnanimousIff(answers: Answers<ProposalStatus>)
    ensures !UnknownMeetsAccept(answers) <==>
            forall order, verdict :: IsOrder(order, answers.Keys) && IsVerdict(Statuses(order, answers), verdict) ==>
                                       (verdict == ACCEPT <==> Unanimous(answers))
  {
    if UnknownMeetsAccept(answers) {
      var order := UnknownHidden(answers);
    } else {
      forall order, verdict | IsOrder(order, answers.Keys) && IsVerdict(Statuses(order, answers), verdict)
        ensures verdict == ACCEPT <==> Unanimous(answers)
      {
        VerdictSound(answers, order, verdict);
      }
    }
  }

  lemma VerdictSound(answers: Answers<ProposalStatus>, order: seq<ChainAppIdentifier>, verdict: ProposalStatus)
    requires IsOrder(order, answers.Keys) && IsVerdict(Statuses(order, answers), verdict)
    requires !UnknownMeetsAccept(answers)
    ensures verdict == ACCEPT <==> Unanimous(answers)
    ensures verdict != ACCEPT ==> exists id :: id in answers && answers[id] == verdict
  {
    var statuses := Statuses(order, answers);
    assert forall i :: 0 <= i < |order| ==> order[i] in answers && statuses[i] == answers[order[i]];
    if p :| LastDissent(statuses, p) {
      assert !Unanimous(answers);
      assert p < |statuses| - 1 ==> statuses[|statuses| - 1] == ACCEPT;
      assert statuses[p] != UNKNOWN || p == |statuses| - 1;
      VerdictUnique(statuses, verdict, statuses[p]);
      assert answers[order[p]] == verdict;
    } else {
      forall id | id in answers ensures answers[id] == ACCEPT {
        var i :| 0 <= i < |order| && order[i] == id;
        NoDissent(statuses, i);
      }
    }
  }

  lemma {:induction false} NoDissent(statuses: seq<ProposalStatus>, i: nat)
    requires i < |statuses| && forall p :: !LastDissent(statuses, p)
    ensures statuses[i] == ACCEPT
    decreases |statuses| - i
  {
    forall j | i < j < |statuses| ensures statuses[j] == ACCEPT {
      NoDissent(statuses, j);
    }
    assert !LastDissent(statuses, i);
  }

  lemma UnknownHidden(answers: Answers<ProposalStatus>) returns (order: seq<ChainAppIdentifier>)
    requires UnknownMeetsAccept(answers)
    ensures !Unanimous(answers)
    ensures IsOrder(order, answers.Keys) && IsVerdict(Statuses(order, answers), ACCEPT)
  {
    var u: ChainAppIdentifier, a: ChainAppIdentifier :|
      u in answers && a in answers && answers[u] == UNKNOWN && answers[a] == ACCEPT;
    var others := OrderStartingWith([], answers.Keys - {u, a});
    order := others + [u, a];
    assert order[|others|] == u && order[|others| + 1] == a;
    assert IsOrder(order, answers.Keys);
    assert LastDissent(Statuses(order, answers), |others|);
  }

  /** Whoever does not accept and answers last has the say. */
  lemma LastWord(answers: Answers<ProposalStatus>, id: ChainAppIdentifier) returns (order: seq<ChainAppIdentifier>)
    requires id in answers && answers[id] != ACCEPT
    ensures IsOrder(order, answers.Keys) && IsVerdict(Statuses(order, answers), answers[id])
  {
    var others := OrderStartingWith([], answers.Keys - {id});
    order := others + [id];
    assert order[|others|] == id;
    assert IsOrder(order, answers.Keys);
    assert LastDissent(Statuses(order, answers), |others|);
  }

  /** All answers other than ACCEPT are the same one, and it is not UNKNOWN where somebody accepts. */
  ghost predicate Settled(answers: Answers<ProposalStatus>) {
    && (forall a, b :: a in answers && b in answers && answers[a] != ACCEPT && answers[b] != ACCEPT ==>
                         answers[a] == answers[b])
    && !UnknownMeetsAccept(answers)
  }

  /** The verdict is the same in every order of arrival exactly when the answers are settled. */
  lemma VerdictIndependentIff(answers: Answers<ProposalStatus>)
    ensures Settled(answers) <==>
            forall v1, v2 :: VerdictInSomeOrder(answers, v1) && VerdictInSomeOrder(answers, v2) ==> v1 == v2
  {
    if Settled(answers) {
      forall v1, v2 | VerdictInSomeOrder(answers, v1) && VerdictInSomeOrder(answers, v2) ensures v1 == v2 {
        SettledVerdict(answers, v1, v2);
      }
    } else {
      var v1, v2 := Unsettled(answers);
    }
  }

  lemma SettledVerdict(answers: Answers<ProposalStatus>, v1: ProposalStatus, v2: ProposalStatus)
    requires Settled(answers) && VerdictInSomeOrder(answers, v1) && VerdictInSomeOrder(answers, v2)
    ensures v1 == v2
  {
    hide IsVerdict, Statuses, UnknownMeetsAccept, IsOrder;
    var o1 :| IsOrder(o1, answers.Keys) && IsVerdict(Statuses(o1, answers), v1);
    var o2 :| IsOrder(o2, answers.Keys) && IsVerdict(Statuses(o2, answers), v2);
    VerdictSound(answers, o1, v1);
    VerdictSound(answers, o2, v2);
  }

  lemma Unsettled(answers: Answers<ProposalStatus>) returns (v1: ProposalStatus, v2: ProposalStatus)
    requires !Settled(answers)
    ensures VerdictInSomeOrder(answers, v1) && VerdictInSomeOrder(answers, v2) && v1 != v2
  {
    hide IsVerdict, Statuses, IsOrder;
    if UnknownMeetsAccept(answers) {
      var u :| u in answers && answers[u] == UNKNOWN;
      var o1 := UnknownHidden(answers);
      var o2 := LastWord(answers, u);
      v1, v2 := ACCEPT, UNKNOWN;
    } else {
      var a: ChainAppIdentifier, b: ChainAppIdentifier :|
        a in answers && b in answers && answers[a] != ACCEPT && answers[b] != ACCEPT && answers[a] != answers[b];
      var o1 := LastWord(answers, a);
      var o2 := LastWord(answers, b);
      v1, v2 := answers[a], answers[b];
    }
  }

  lemma SomeVerdict(answers: Answers<ProposalStatus>) returns (verdict: ProposalStatus)
    ensures VerdictInSomeOrder(answers, verdict)
  {
    if Unanimous(answers) {
      var order := OrderStartingWith([], answers.Keys);
      assert forall i :: 0 <= i < |order| ==> order[i] in answers;
      assert IsVerdict(Statuses(order, answers), ACCEPT);
      verdict := ACCEPT;
    } else {
      var id :| id in answers && answers[id] != ACCEPT;
      var order := LastWord(answers, id);
      verdict := answers[id];
    }
  }

  /** There is an outcome for every proposal, and a verdict when it can be routed and no app fails. */
  lemma ProposalHasOutcome<T>(env: Env<T>, apps: Apps<T>, req: RequestBlock)
    returns (apps': Apps<T>, out: Reply<ProposalStatus>)
    ensures ProposalOutcome(env, apps, req, apps', out)
    ensures out.Ok? <==> AllRoutable(apps.Keys, req.txs) && AllOk(ProposalCalls(env, apps, req))
  {
    hide AllRoutable, ProposalCalls, After, Failed, VerdictInSomeOrder;
    var calls := ProposalCalls(env, apps, req);
    if !AllRoutable(apps.Keys, req.txs) {
      apps', out := apps, Err(NoHandlerFound);
    } else if AllOk(calls) {
      var verdict := SomeVerdict(Values(calls));
      apps', out := After(apps, calls, calls.Keys), Ok(verdict);
    } else {
      var id :| id in calls && calls[id].reply.Err?;
      MayFailWith(apps, calls, id);
      apps', out := After(apps, calls, {id}), Err(calls[id].reply.error);
    }
  }

  /** What ProcessProposal returns does not depend on the schedule exactly when the proposal cannot be routed, or no app
      fails and the answers are settled, or all failing apps give one error. */
  lemma ProposalIndependentIff<T(!new)>(env: Env<T>, apps: Apps<T>, req: RequestBlock)
    ensures var calls := ProposalCalls(env, apps, req);
            (AllRoutable(apps.Keys, req.txs) ==> if AllOk(calls) then Settled(Values(calls)) else OneError(calls)) <==>
            forall apps1: Apps<T>, out1, apps2: Apps<T>, out2 ::
              ProposalOutcome(env, apps, req, apps1, out1) && ProposalOutcome(env, apps, req, apps2, out2) ==>
                out1 == out2
  {
    hide AllRoutable, ProposalCalls, Settled, VerdictInSomeOrder, OneError, Failed, After;
    var calls := ProposalCalls(env, apps, req);
    if AllRoutable(apps.Keys, req.txs) {
      SomeFails(calls);
      if AllOk(calls) {
        NoFailure(apps, calls);
        VerdictIndependentIff(Values(calls));
        if !Settled(Values(calls)) {
          var v1, v2 := Unsettled(Values(calls));
          assert ProposalOutcome(env, apps, req, After(apps, calls, calls.Keys), Ok(v1));
          assert ProposalOutcome(env, apps, req, After(apps, calls, calls.Keys), Ok(v2));
        }
      } else if OneError(calls) {
        forall apps1: Apps<T>, out1, apps2: Apps<T>, out2
          | ProposalOutcome(env, apps, req, apps1, out1) && ProposalOutcome(env, apps, req, apps2, out2)
          ensures out1 == out2
        {
          FailuresAgree(apps, calls, apps1, out1.error, apps2, out2.error);
        }
      } else {
        var a, b := TwoErrors(calls);
        MayFailWith(apps, calls, a);
        MayFailWith(apps, calls, b);
        assert ProposalOutcome(env, apps, req, After(apps, calls, {a}), Err(calls[a].reply.error));
        assert ProposalOutcome(env, apps, req, After(apps, calls, {b}), Err(calls[b].reply.error));
      }
    }
  }

  /** An accepted proposal is one that all contacted apps accept, under every schedule, exactly when not both UNKNOWN
      and ACCEPT are answered. */
  lemma AcceptedIsUnanimousIff<T(!new)>(env: Env<T>, apps: Apps<T>, req: RequestBlock)
    requires AllRoutable(apps.Keys, req.txs) && AllOk(ProposalCalls(env, apps, req))
    ensures var answers := Values(ProposalCalls(env, apps, req));
            !UnknownMeetsAccept(answers) <==>
            forall apps': Apps<T>, verdict :: ProposalOutcome(env, apps, req, apps', Ok(verdict)) ==>
                                                (verdict == ACCEPT <==> Unanimous(answers))
  {
    hide AllRoutable, ProposalCalls, IsVerdict, Statuses, Unanimous, UnknownMeetsAccept, IsOrder, After;
    var calls := ProposalCalls(env, apps, req);
    var answers := Values(calls);
    AcceptMeansUnanimousIff(answers);
    if UnknownMeetsAccept(answers) {
      var order := UnknownHidden(answers);
      assert ProposalOutcome(env, apps, req, After(apps, calls, calls.Keys), Ok(ACCEPT));
    }
  }

  /** One app does not know, the other accepts and answers last: the proposal is accepted. */
  lemma UnknownOverwritten()
    ensures IsVerdict([0, 1], 1) && IsVerdict([1, 0], 0)
  {
    assert LastDissent([UNKNOWN, ACCEPT], 0);
    assert LastDissent([ACCEPT, UNKNOWN], 1);
  }

  /** One app rejects, the other does not know: the later of the two has the say. */
  lemma RejectOverwritten()
    ensures IsVerdict([2, 0], 0) && IsVerdict([0, 2], 2)
  {
    assert LastDissent([REJECT, UNKNOWN], 1);
    assert LastDissent([UNKNOWN, REJECT], 1);
  }
}
