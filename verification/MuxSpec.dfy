/** What each call on the multiplexer may do: the outcomes allowed to it, over every order in which Go may walk
    a map and every order in which the apps' replies may arrive. */
module MuxSpec {
  import opened Abci
  import opened Orders
  import opened ChainAppIds
  import opened Routing
  import opened ChainApps

  type Apps<T> = map<ChainAppIdentifier, App<T>>
  type Calls<T, R> = map<ChainAppIdentifier, Call<T, R>>
  type Answers<R> = map<ChainAppIdentifier, R>

  ghost predicate AllOk<T, R>(calls: Calls<T, R>) {
    forall id :: id in calls ==> calls[id].reply.Ok?
  }

  /** The answers of the calls that succeeded. */
  function Values<T, R>(calls: Calls<T, R>): Answers<R> {
    map id | id in calls && calls[id].reply.Ok? :: calls[id].reply.value
  }

  /** The apps once those in `called` have been called. */
  function After<T, R>(apps: Apps<T>, calls: Calls<T, R>, called: set<ChainAppIdentifier>): Apps<T> {
    map id | id in apps :: if id in called && id in calls then calls[id].app else apps[id]
  }

  /** The apps in `called` have been called, and the error of one of them is returned. */
  ghost predicate FailedAt<T, R>(apps: Apps<T>, calls: Calls<T, R>, apps': Apps<T>, error: Error,
                                 called: set<ChainAppIdentifier>)
  {
    && (exists id :: id in called && id in calls && calls[id].reply == Err(error))
    && called <= calls.Keys
    && apps' == After(apps, calls, called)
  }

  /** The error of some failing app is returned; at that moment it and possibly others have been called. */
  ghost predicate Failed<T, R>(apps: Apps<T>, calls: Calls<T, R>, apps': Apps<T>, error: Error) {
    exists called :: FailedAt(apps, calls, apps', error, called)
  }

  /** When the call returns, the workers of the apps in `late`, and no others, have yet to call them. */
  ghost predicate Behind<T, R, S>(apps: Apps<T>, calls: Calls<T, R>, apps': Apps<T>, out: Reply<S>,
                                  late: set<ChainAppIdentifier>)
  {
    && late <= calls.Keys
    && match out
       case Ok(_) => late == {}
       case Err(e) => FailedAt(apps, calls, apps', e, calls.Keys - late)
  }

  /** A goroutine that is left when its call has returned early: it has yet to call its app. */
  datatype Worker =
    | FinalizeWorker(id: ChainAppIdentifier, block: RequestBlock)
    | ProposalWorker(id: ChainAppIdentifier, block: RequestBlock)
    | InitWorker(id: ChainAppIdentifier, chain: RequestInitChain)

  /** The app once a left-over worker has called it; nobody hears the answer. */
  function CalledLate<T>(env: Env<T>, app: App<T>, w: Worker): App<T> {
    match w
    case FinalizeWorker(_, block) => FinalizeBlock(env, app, block).app
    case ProposalWorker(_, block) => ProcessProposal(env, app, block).app
    case InitWorker(_, chain) => InitChain(env, app, chain).app
  }

  function ConcatBy<X>(order: seq<ChainAppIdentifier>, lists: map<ChainAppIdentifier, seq<X>>): seq<X> {
    if |order| == 0 then []
    else
      var n := |order| - 1;
      ConcatBy(order[..n], lists) + if order[n] in lists then lists[order[n]] else []
  }

  lemma ConcatNext<X>(order: seq<ChainAppIdentifier>, n: nat, lists: map<ChainAppIdentifier, seq<X>>)
    requires n < |order| && order[n] in lists
    ensures ConcatBy(order[..n + 1], lists) == ConcatBy(order[..n], lists) + lists[order[n]]
  {
    assert order[..n + 1][..n] == order[..n];
  }

  // FinalizeBlock

  function SubRequest(req: RequestBlock, id: ChainAppIdentifier): RequestBlock {
    req.(txs := SubBlock(req.txs, id))
  }

  /** Every app is sent its sub-block, also when that is empty. */
  function FinalizeCalls<T>(env: Env<T>, apps: Apps<T>, req: RequestBlock): Calls<T, ResponseFinalizeBlock> {
    map id | id in apps :: FinalizeBlock(env, apps[id], SubRequest(req, id))
  }

  function AppHashes(answers: Answers<ResponseFinalizeBlock>): map<ChainAppIdentifier, Bytes> {
    map id | id in answers :: answers[id].appHash
  }

  function Updates(answers: Answers<ResponseFinalizeBlock>): map<ChainAppIdentifier, seq<ValidatorUpdate>> {
    map id | id in answers :: answers[id].validatorUpdates
  }

  function EventLists(answers: Answers<ResponseFinalizeBlock>): map<ChainAppIdentifier, seq<Event>> {
    map id | id in answers :: answers[id].events
  }

  /** The first consensus parameters that are not nil, in the order of arrival. */
  function FirstParams(order: seq<ChainAppIdentifier>,
                       answers: Answers<ResponseFinalizeBlock>): Option<ConsensusParams>
  {
    if |order| == 0 then None
    else
      var n := |order| - 1;
      var earlier := FirstParams(order[..n], answers);
      if earlier.None? && order[n] in answers then answers[order[n]].consensusParamUpdates else earlier
  }

  function ResultAt(results: seq<Option<ExecTxResult>>, rank: nat): Option<ExecTxResult> {
    if rank < |results| then results[rank] else None
  }

  /** Position i of `results` holds what the app of transaction i answered at that transaction's rank, for the
      apps in `done`; every other position is still nil. */
  ghost predicate Filled(txs: seq<Bytes>, done: set<ChainAppIdentifier>, answers: Answers<ResponseFinalizeBlock>,
                         results: seq<Option<ExecTxResult>>)
  {
    && |results| == |txs|
    && forall i :: 0 <= i < |txs| && CheckHeader(txs[i]).None? ==>
         results[i] == if Owner(txs[i]) in done && Owner(txs[i]) in answers
                       then ResultAt(answers[Owner(txs[i])].txResults, Rank(txs, i)) else None
  }

  /** `resp` is the merge of the apps' answers when these arrive in the given order. */
  ghost predicate Merges(txs: seq<Bytes>, answers: Answers<ResponseFinalizeBlock>, order: seq<ChainAppIdentifier>,
                         resp: ResponseFinalizeBlock)
  {
    && Filled(txs, answers.Keys, answers, resp.txResults)
    && resp.appHash == ConcatBy(SortedIds(answers.Keys), AppHashes(answers))
    && resp.validatorUpdates == ConcatBy(SortedIds(answers.Keys), Updates(answers))
    && resp.events == ConcatBy(SortedIds(answers.Keys), EventLists(answers))
    && resp.consensusParamUpdates == FirstParams(order, answers)
  }

  ghost predicate MergesInSomeOrder(txs: seq<Bytes>, answers: Answers<ResponseFinalizeBlock>,
                                    resp: ResponseFinalizeBlock)
  {
    exists order :: IsOrder(order, answers.Keys) && Merges(txs, answers, order, resp)
  }

  ghost predicate FinalizeOutcome<T>(env: Env<T>, apps: Apps<T>, req: RequestBlock,
                                     apps': Apps<T>, out: Reply<ResponseFinalizeBlock>)
  {
    var calls := FinalizeCalls(env, apps, req);
    if !AllRoutable(apps.Keys, req.txs) then out == Err(NoHandlerFound) && apps' == apps
    else
      match out
      case Ok(resp) =>
        && AllOk(calls)
        && apps' == After(apps, calls, calls.Keys)
        && MergesInSomeOrder(req.txs, Values(calls), resp)
      case Err(e) => Failed(apps, calls, apps', e)
  }

  function FinalizeWorkers(req: RequestBlock, late: set<ChainAppIdentifier>): set<Worker> {
    set id | id in late :: FinalizeWorker(id, SubRequest(req, id))
  }

  /** An outcome together with the apps whose workers are left over. */
  ghost predicate FinalizeReturns<T>(env: Env<T>, apps: Apps<T>, req: RequestBlock, apps': Apps<T>,
                                     out: Reply<ResponseFinalizeBlock>, late: set<ChainAppIdentifier>)
  {
    && FinalizeOutcome(env, apps, req, apps', out)
    && if AllRoutable(apps.Keys, req.txs) then Behind(apps, FinalizeCalls(env, apps, req), apps', out, late)
       else late == {}
  }

  /** FinalizeBlock as a step of the apps and of the goroutines that outlive their calls. */
  ghost predicate FinalizeStep<T>(env: Env<T>, apps: Apps<T>, outstanding: multiset<Worker>, req: RequestBlock,
                                  apps': Apps<T>, outstanding': multiset<Worker>, out: Reply<ResponseFinalizeBlock>)
  {
    exists late ::
      && FinalizeReturns(env, apps, req, apps', out, late)
      && outstanding' == outstanding + multiset(FinalizeWorkers(req, late))
  }

  // ProcessProposal

  /** Only apps the proposal has transactions for are asked. */
  function ProposalCalls<T>(env: Env<T>, apps: Apps<T>, req: RequestBlock): Calls<T, ProposalStatus> {
    map id | id in apps && SubBlock(req.txs, id) != [] :: ProcessProposal(env, apps[id], SubRequest(req, id))
  }

  function Statuses(order: seq<ChainAppIdentifier>, answers: Answers<ProposalStatus>): seq<ProposalStatus> {
    seq(|order|, i requires 0 <= i < |order| => if order[i] in answers then answers[order[i]] else ACCEPT)
  }

  /** The last answer that is not ACCEPT decides; an UNKNOWN does so only when nothing came after it. */
  ghost predicate IsVerdict(statuses: seq<ProposalStatus>, verdict: ProposalStatus) {
    || ((forall i :: 0 <= i < |statuses| ==> statuses[i] == ACCEPT) && verdict == ACCEPT)
    || (exists p :: LastDissent(statuses, p)
                    && verdict == if statuses[p] != UNKNOWN || p == |statuses| - 1 then statuses[p] else ACCEPT)
  }

  ghost predicate LastDissent(statuses: seq<ProposalStatus>, p: int) {
    && 0 <= p < |statuses| && statuses[p] != ACCEPT
    && forall i :: p < i < |statuses| ==> statuses[i] == ACCEPT
  }

  ghost predicate VerdictInSomeOrder(answers: Answers<ProposalStatus>, verdict: ProposalStatus) {
    exists order :: IsOrder(order, answers.Keys) && IsVerdict(Statuses(order, answers), verdict)
  }

  ghost predicate ProposalOutcome<T>(env: Env<T>, apps: Apps<T>, req: RequestBlock,
                                     apps': Apps<T>, out: Reply<ProposalStatus>)
  {
    var calls := ProposalCalls(env, apps, req);
    if !AllRoutable(apps.Keys, req.txs) then out == Err(NoHandlerFound) && apps' == apps
    else
      match out
      case Ok(verdict) =>
        && AllOk(calls)
        && apps' == After(apps, calls, calls.Keys)
        && VerdictInSomeOrder(Values(calls), verdict)
      case Err(e) => Failed(apps, calls, apps', e)
  }

  function ProposalWorkers(req: RequestBlock, late: set<ChainAppIdentifier>): set<Worker> {
    set id | id in late :: ProposalWorker(id, SubRequest(req, id))
  }

  ghost predicate ProposalReturns<T>(env: Env<T>, apps: Apps<T>, req: RequestBlock, apps': Apps<T>,
                                     out: Reply<ProposalStatus>, late: set<ChainAppIdentifier>)
  {
    && ProposalOutcome(env, apps, req, apps', out)
    && if AllRoutable(apps.Keys, req.txs) then Behind(apps, ProposalCalls(env, apps, req), apps', out, late)
       else late == {}
  }

  ghost predicate ProposalStep<T>(env: Env<T>, apps: Apps<T>, outstanding: multiset<Worker>, req: RequestBlock,
                                  apps': Apps<T>, outstanding': multiset<Worker>, out: Reply<ProposalStatus>)
  {
    exists late ::
      && ProposalReturns(env, apps, req, apps', out, late)
      && outstanding' == outstanding + multiset(ProposalWorkers(req, late))
  }

  // InitChain

  /** The caller's request with the app's own chain id and initial state in it. */
  function InitRequest(hdl: AbciHandler, chain: RequestInitChain): RequestInitChain {
    chain.(chainId := hdl.chainID, appStateBytes := hdl.initAppState)
  }

  function InitCalls<T>(env: Env<T>, clients: Clients, apps: Apps<T>,
                        chain: RequestInitChain): Calls<T, ResponseInitChain>
  {
    map id | id in apps && id in clients :: InitChain(env, apps[id], InitRequest(clients[id], chain))
  }

  function InitHashes(answers: Answers<ResponseInitChain>): map<ChainAppIdentifier, Bytes> {
    map id | id in answers :: answers[id].appHash
  }

  function InitValidators(answers: Answers<ResponseInitChain>): map<ChainAppIdentifier, seq<ValidatorUpdate>> {
    map id | id in answers :: answers[id].validators
  }

  /** The last consensus parameters that are not nil, in the order of arrival. */
  function LastParams(order: seq<ChainAppIdentifier>, answers: Answers<ResponseInitChain>): Option<ConsensusParams> {
    if |order| == 0 then None
    else
      var n := |order| - 1;
      if order[n] in answers && answers[order[n]].consensusParams.Some? then answers[order[n]].consensusParams
      else LastParams(order[..n], answers)
  }

  /** The merged response is the first reply, written to in place; its validators end up in it twice. */
  ghost predicate InitMerges(answers: Answers<ResponseInitChain>, order: seq<ChainAppIdentifier>,
                             resp: Option<ResponseInitChain>)
  {
    if |order| == 0 then resp == None
    else
      && order[0] in answers
      && resp == Some(ResponseInitChain(
                        LastParams(order, answers),
                        answers[order[0]].validators + ConcatBy(order, InitValidators(answers)),
                        ConcatBy(order, InitHashes(answers))))
  }

  ghost predicate InitMergesInSomeOrder(answers: Answers<ResponseInitChain>, response: Option<ResponseInitChain>) {
    exists order :: IsOrder(order, answers.Keys) && InitMerges(answers, order, response)
  }

  ghost predicate InitOutcome<T>(env: Env<T>, clients: Clients, apps: Apps<T>, chain: RequestInitChain,
                                 apps': Apps<T>, out: Reply<Option<ResponseInitChain>>)
  {
    var calls := InitCalls(env, clients, apps, chain);
    match out
    case Ok(resp) =>
      && AllOk(calls)
      && apps' == After(apps, calls, calls.Keys)
      && InitMergesInSomeOrder(Values(calls), resp)
    case Err(e) => Failed(apps, calls, apps', e)
  }

  function InitWorkers(clients: Clients, chain: RequestInitChain, late: set<ChainAppIdentifier>): set<Worker> {
    set id | id in late && id in clients :: InitWorker(id, InitRequest(clients[id], chain))
  }

  ghost predicate InitReturns<T>(env: Env<T>, clients: Clients, apps: Apps<T>, chain: RequestInitChain, apps': Apps<T>,
                                 out: Reply<Option<ResponseInitChain>>, late: set<ChainAppIdentifier>)
  {
    && InitOutcome(env, clients, apps, chain, apps', out)
    && Behind(apps, InitCalls(env, clients, apps, chain), apps', out, late)
  }

  ghost predicate InitStep<T>(env: Env<T>, clients: Clients, apps: Apps<T>, outstanding: multiset<Worker>,
                              chain: RequestInitChain, apps': Apps<T>, outstanding': multiset<Worker>,
                              out: Reply<Option<ResponseInitChain>>)
  {
    exists late ::
      && InitReturns(env, clients, apps, chain, apps', out, late)
      && outstanding' == outstanding + multiset(InitWorkers(clients, chain, late))
  }

  // Commit

  function CommitCalls<T>(env: Env<T>, apps: Apps<T>): Calls<T, ResponseCommit> {
    map id | id in apps :: Commit(env, apps[id])
  }

  /** Apps commit one after the other. A success has committed all of them and returns the reply of the last one
      visited; a failure has called exactly the apps visited up to the one that failed, which all others before it
      did not. */
  ghost predicate CommitOutcome<T>(env: Env<T>, apps: Apps<T>, apps': Apps<T>, out: Reply<Option<ResponseCommit>>) {
    var calls := CommitCalls(env, apps);
    match out
    case Ok(resp) =>
      && AllOk(calls)
      && apps' == After(apps, calls, calls.Keys)
      && exists visited :: IsOrder(visited, calls.Keys) && resp == LastReply(calls, visited)
    case Err(e) =>
      exists visited: seq<ChainAppIdentifier> ::
        && visited != [] && Distinct(visited)
        && (forall i :: 0 <= i < |visited| ==> visited[i] in calls)
        && calls[visited[|visited| - 1]].reply == Err(e)
        && (forall i :: 0 <= i < |visited| - 1 ==> calls[visited[i]].reply.Ok?)
        && apps' == After(apps, calls, set id | id in visited)
  }

  function LastReply<T>(calls: Calls<T, ResponseCommit>, visited: seq<ChainAppIdentifier>): Option<ResponseCommit> {
    if visited == [] then None
    else
      var id := visited[|visited| - 1];
      if id in calls && calls[id].reply.Ok? then Some(calls[id].reply.value) else None
  }

  /** An outcome together with the apps that were visited. */
  ghost predicate CommitVisits<T>(env: Env<T>, apps: Apps<T>, apps': Apps<T>, out: Reply<Option<ResponseCommit>>,
                                  visited: set<ChainAppIdentifier>)
  {
    var calls := CommitCalls(env, apps);
    && CommitOutcome(env, apps, apps', out)
    && visited <= apps.Keys && apps' == After(apps, calls, visited)
    && match out
       case Ok(_) => visited == apps.Keys
       case Err(e) => exists id :: id in visited && calls[id].reply == Err(e)
  }

  // CheckTx

  /** A transaction that is not routable is refused without a call; otherwise the app its header names is asked
      about what follows the header. */
  ghost predicate CheckTxOutcome<T>(env: Env<T>, apps: Apps<T>, tx: Bytes, apps': Apps<T>, out: Reply<ResponseCheckTx>)
    requires |tx| >= HEADER_LEN
  {
    if Routable(apps.Keys, tx) then
      var call := CheckTx(env, apps[Owner(tx)], Strip(tx));
      out == call.reply && apps' == apps[Owner(tx) := call.app]
    else
      && out == Err(CheckTxFailed(if CheckHeader(tx).Some? then InvalidMagic else InvalidChainReference))
      && apps' == apps
  }
}
