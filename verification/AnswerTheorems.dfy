/** Where each app's answer is found in the merged responses of FinalizeBlock and InitChain. */
module AnswerTheorems {
  import opened Abci
  import opened Orders
  import opened ChainAppIds
  import opened Routing
  import opened ChainApps
  import opened MuxSpec
  import opened MergeTheorems
  import opened MuxTheorems
  import opened RunTheorems

  /** What an app answers when it is sent its part of the block. */
  function Answer<T>(env: Env<T>, apps: Apps<T>, req: RequestBlock, id: ChainAppIdentifier): ResponseFinalizeBlock
    requires id in apps
  {
    var reply := FinalizeBlock(env, apps[id], RequestBlock(SubBlock(req.txs, id), req.info)).reply;
    if reply.Ok? then reply.value else ResponseFinalizeBlock([], [], [], [], None)
  }

  /** `whole` has the summed length of the lists, and that of `order[k]` lies in it behind those that come before. */
  ghost predicate LiesAt<X>(whole: seq<X>, order: seq<ChainAppIdentifier>, lists: map<ChainAppIdentifier, seq<X>>,
                            k: nat)
  {
    && k < |order| && order[k] in lists
    && var from := TotalLength(order[..k], lists);
       && |whole| == TotalLength(order, lists)
       && from + |lists[order[k]]| <= |whole|
       && whole[from..from + |lists[order[k]]|] == lists[order[k]]
  }

  function HashAnswers<T>(env: Env<T>, apps: Apps<T>, req: RequestBlock): map<ChainAppIdentifier, Bytes> {
    map id | id in apps :: Answer(env, apps, req, id).appHash
  }

  function UpdateAnswers<T>(env: Env<T>, apps: Apps<T>,
                            req: RequestBlock): map<ChainAppIdentifier, seq<ValidatorUpdate>>
  {
    map id | id in apps :: Answer(env, apps, req, id).validatorUpdates
  }

  function EventAnswers<T>(env: Env<T>, apps: Apps<T>, req: RequestBlock): map<ChainAppIdentifier, seq<Event>> {
    map id | id in apps :: Answer(env, apps, req, id).events
  }

  /** Each app's hash, validator updates and events stand whole in the response, the apps one after the other by
      increasing identifier. */
  lemma AnswersWhole<T>(env: Env<T>, apps: Apps<T>, req: RequestBlock, mid: Apps<T>, resp: ResponseFinalizeBlock,
                        k: nat)
    requires FinalizeOutcome(env, apps, req, mid, Ok(resp)) && k < |SortedIds(apps.Keys)|
    ensures LiesAt(resp.appHash, SortedIds(apps.Keys), HashAnswers(env, apps, req), k)
    ensures LiesAt(resp.validatorUpdates, SortedIds(apps.Keys), UpdateAnswers(env, apps, req), k)
    ensures LiesAt(resp.events, SortedIds(apps.Keys), EventAnswers(env, apps, req), k)
  {
    ListsAre(env, apps, req, mid, resp);
    var order := SortedIds(apps.Keys);
    assert order[k] in order && order[k] in apps;
    hide *;
    AnsweredByAll(env, apps, req);
    Lies(resp.appHash, order, HashAnswers(env, apps, req), k);
    Lies(resp.validatorUpdates, order, UpdateAnswers(env, apps, req), k);
    Lies(resp.events, order, EventAnswers(env, apps, req), k);
  }

  lemma AnsweredByAll<T>(env: Env<T>, apps: Apps<T>, req: RequestBlock)
    ensures HashAnswers(env, apps, req).Keys == UpdateAnswers(env, apps, req).Keys
            == EventAnswers(env, apps, req).Keys == apps.Keys
  {
    hide Answer;
  }

  lemma Lies<X>(whole: seq<X>, order: seq<ChainAppIdentifier>, lists: map<ChainAppIdentifier, seq<X>>, k: nat)
    requires whole == ConcatBy(order, lists) && k < |order| && order[k] in lists
    ensures LiesAt(whole, order, lists, k)
  {
    hide ConcatBy, TotalLength;
    ConcatSlice(order, lists, k);
  }

  lemma ListsAre<T>(env: Env<T>, apps: Apps<T>, req: RequestBlock, mid: Apps<T>, resp: ResponseFinalizeBlock)
    requires FinalizeOutcome(env, apps, req, mid, Ok(resp))
    ensures resp.appHash == ConcatBy(SortedIds(apps.Keys), HashAnswers(env, apps, req))
    ensures resp.validatorUpdates == ConcatBy(SortedIds(apps.Keys), UpdateAnswers(env, apps, req))
    ensures resp.events == ConcatBy(SortedIds(apps.Keys), EventAnswers(env, apps, req))
  {
    AnswersAre(env, apps, req, mid, resp);
    var answers := Values(FinalizeCalls(env, apps, req));
    SameLists(env, apps, req, answers);
    hide FinalizeCalls, Values, Filled, ConcatBy, SortedIds, Answer, AppHashes, Updates, EventLists;
    hide HashAnswers, UpdateAnswers, EventAnswers, AllOk, After, AllRoutable;
  }

  lemma SameLists<T>(env: Env<T>, apps: Apps<T>, req: RequestBlock, answers: Answers<ResponseFinalizeBlock>)
    requires answers.Keys == apps.Keys && forall id :: id in apps ==> answers[id] == Answer(env, apps, req, id)
    ensures AppHashes(answers) == HashAnswers(env, apps, req)
    ensures Updates(answers) == UpdateAnswers(env, apps, req)
    ensures EventLists(answers) == EventAnswers(env, apps, req)
  {
    hide Answer;
  }

  lemma AnswersAre<T>(env: Env<T>, apps: Apps<T>, req: RequestBlock, mid: Apps<T>, resp: ResponseFinalizeBlock)
    requires FinalizeOutcome(env, apps, req, mid, Ok(resp))
    ensures Values(FinalizeCalls(env, apps, req)).Keys == apps.Keys
    ensures forall id :: id in apps ==> Values(FinalizeCalls(env, apps, req))[id] == Answer(env, apps, req, id)
  {
    hide FinalizeBlock, SubBlock, AllRoutable, MergesInSomeOrder;
  }

  /** Position i of the results is what the app of transaction i answered at that transaction's place among those
      addressed to it; where the app answered too few, it is nil. */
  lemma ResultsInPlace<T>(env: Env<T>, apps: Apps<T>, req: RequestBlock, mid: Apps<T>, resp: ResponseFinalizeBlock,
                          i: nat)
    requires FinalizeOutcome(env, apps, req, mid, Ok(resp)) && i < |req.txs|
    ensures |resp.txResults| == |req.txs|
    ensures CheckHeader(req.txs[i]).None? && Owner(req.txs[i]) in apps
    ensures var results, place := Answer(env, apps, req, Owner(req.txs[i])).txResults, Rank(req.txs, i);
            resp.txResults[i] == if place < |results| then results[place] else None
  {
    AnswersAre(env, apps, req, mid, resp);
    FinalizedOk(env, apps, req, mid, resp);
    assert Routable(apps.Keys, req.txs[i]);
    hide FinalizeOutcome, FinalizeCalls, Values, Answer, Rank, AllRoutable;
  }

  /** The parameters in the response are nil only if all apps answer nil, and are otherwise some app's. */
  lemma ParamsAnswered<T>(env: Env<T>, apps: Apps<T>, req: RequestBlock, mid: Apps<T>, resp: ResponseFinalizeBlock)
    requires FinalizeOutcome(env, apps, req, mid, Ok(resp))
    ensures resp.consensusParamUpdates.None? <==>
            forall id :: id in apps ==> Answer(env, apps, req, id).consensusParamUpdates.None?
    ensures resp.consensusParamUpdates.Some? ==>
              exists id :: id in apps && Answer(env, apps, req, id).consensusParamUpdates == resp.consensusParamUpdates
  {
    AnswersAre(env, apps, req, mid, resp);
    var answers := Values(FinalizeCalls(env, apps, req));
    hide FinalizeCalls, Values, Answer, MergesInSomeOrder, After, AllOk, AllRoutable;
    ParamsMerged(req.txs, answers, resp);
  }

  lemma ParamsMerged(txs: seq<Bytes>, answers: Answers<ResponseFinalizeBlock>, resp: ResponseFinalizeBlock)
    requires MergesInSomeOrder(txs, answers, resp)
    ensures resp.consensusParamUpdates.None? <==> forall id :: id in answers ==> answers[id].consensusParamUpdates.None?
    ensures resp.consensusParamUpdates.Some? ==>
              exists id :: id in answers && answers[id].consensusParamUpdates == resp.consensusParamUpdates
  {
    hide Filled, ConcatBy, SortedIds, FirstParams;
    var order :| IsOrder(order, answers.Keys) && Merges(txs, answers, order, resp);
    FirstParamsFound(order, answers);
    SomeReport(order, answers);
  }

  // InitChain

  /** The response of InitChain when `first` answers before `second`. */
  function Joined(first: ResponseInitChain, second: ResponseInitChain): ResponseInitChain {
    ResponseInitChain(if second.consensusParams.Some? then second.consensusParams else first.consensusParams,
                      first.validators + first.validators + second.validators,
                      first.appHash + second.appHash)
  }

  /** InitChain over two chains, written out: it is one of the two. */
  lemma TwoChainInit<T>(env: Env<T>, clients: Clients, apps: Apps<T>, chain: RequestInitChain, apps': Apps<T>,
                        merged: Option<ResponseInitChain>, a: ChainAppIdentifier, b: ChainAppIdentifier)
    requires a != b && clients.Keys == apps.Keys == {a, b}
    requires InitOutcome(env, clients, apps, chain, apps', Ok(merged))
    ensures var p, q := InitChain(env, apps[a], InitRequest(clients[a], chain)).reply,
                        InitChain(env, apps[b], InitRequest(clients[b], chain)).reply;
            && p.Ok? && q.Ok?
            && (merged == Some(Joined(p.value, q.value)) || merged == Some(Joined(q.value, p.value)))
  {
    var calls := InitCalls(env, clients, apps, chain);
    assert calls.Keys == {a, b} && calls[a].reply.Ok? && calls[b].reply.Ok?;
    var answers := Values(calls);
    assert answers.Keys == {a, b};
    hide InitChain, InitMerges, InitCalls, Values;
    var order :| IsOrder(order, answers.Keys) && InitMerges(answers, order, merged);
    TwoOrders(order, a, b);
    JoinedMerge(answers, order[0], order[1], merged);
  }

  lemma TwoOrders(order: seq<ChainAppIdentifier>, a: ChainAppIdentifier, b: ChainAppIdentifier)
    requires a != b && IsOrder(order, {a, b})
    ensures order == [a, b] || order == [b, a]
  {
    OrderSize(order, {a, b});
    assert |{a, b}| == 2;
    assert order[0] in order && order[1] in order && order[0] != order[1];
    assert order == [order[0], order[1]];
  }

  lemma JoinedMerge(answers: Answers<ResponseInitChain>, a: ChainAppIdentifier, b: ChainAppIdentifier,
                    merged: Option<ResponseInitChain>)
    requires a in answers && b in answers && InitMerges(answers, [a, b], merged)
    ensures merged == Some(Joined(answers[a], answers[b]))
  {
    PairConcat(a, b, InitValidators(answers));
    PairConcat(a, b, InitHashes(answers));
    var order: seq<ChainAppIdentifier> := [a, b];
    var p, q := answers[a], answers[b];
    assert order[..1] == [a] && order[..1][..0] == [];
    assert LastParams(order[..1], answers) == p.consensusParams;
    assert LastParams(order, answers) == if q.consensusParams.Some? then q.consensusParams else p.consensusParams;
    assert p.validators + (p.validators + q.validators) == p.validators + p.validators + q.validators;
    hide ConcatBy;
  }
}
