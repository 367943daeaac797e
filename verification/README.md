# Megablocks: the CosMux multiplexer and the KV store

CosMux lets several chains share one block. A transaction carries an 8-byte header (a 4-byte magic and the first
4 bytes of the SHA-1 of its chain's id); the multiplexer takes a block apart by header, calls all chain apps
concurrently, and puts their answers together again. This project models `cosmux/multiplexer.go`, the KV store app
`app/kvstore/app.go` and the header encoder of `tests/e2e/testutils.go`, and proves that each chain behaves as if it
ran alone and that neither goroutine scheduling nor Go's map order shows in the result, except in the places listed
under "Where the code falls short".

## How it is laid out

- `Abci.dfy`: requests, responses and errors. `Orders.dfy`: listings of a finite set.
- `KvStore.dfy`, `KvTheorems.dfy`: parsing, the class `KVStoreApplication`, and what its blocks mean.
- `ChainAppIds.dfy`: identifiers, `Less`, `Swap` and the sort.
- `Routing.dfy`: headers, sub-blocks, slots and ranks.
- `FanOut.dfy`, `FanOutTheorems.dfy`: workers, buffered channel, WaitGroup, waiter and receive loop as a step relation;
  `FanOut.Range` is the arbitrary scheduler behind every `for ... range channel` of the multiplexer.
- `ChainApps.dfy`: the apps behind the clients. A KV store has its modelled state; any other app is an arbitrary state
  with arbitrary answer functions.
- `MuxSpec.dfy`: the outcomes each call is allowed and the goroutines it may leave over. `FinalizeLoop.dfy`,
  `OtherLoops.dfy`: the receive loops. `Multiplexer.dfy`: the class `CometMux`, whose methods are proved against `MuxSpec`.
- `RunTheorems.dfy`, `SessionTheorems.dfy`, `StoreTheorems.dfy`, `RetryTheorems.dfy`: many calls. `MuxTheorems.dfy`,
  `PhaseTheorems.dfy`: one block. `MergeTheorems.dfy`, `CompositeTheorems.dfy`, `VerdictTheorems.dfy`,
  `InitTheorems.dfy`, `FailureTheorems.dfy`: the merge rules.
- `TransparencyTheorems.dfy`, `AnswerTheorems.dfy`, `KvOnlyTheorems.dfy`: the multiplexer from outside, in terms of what
  the apps' own answer functions are asked and answer, and of the bytes clients send and receive.
- `ScriptedApps.dfy`, `SampleTheorems.dfy`: apps that answer as they are told to, for concrete inputs.

SHA-1 is any function to 20 bytes. The database is a map with a pending write set; whether its Set, Get and Commit
succeed is an arbitrary function, and a panic of the app on a failing Set or Get is the error its caller sees. Which
runnable step comes next, which key a walk over a map visits next, how dialling an app or reading its genesis file
ends, and how other apps answer are left open, so every theorem holds for all of them. Two things are assumed of the
apps: each configured chain has a process of its own (nothing in the code keeps two chain ids from being given one
address), and a process takes one call at a time. Where a left-over goroutine runs while a later call is under way, it
therefore reaches its app either before that call does or after it.

## Where the code falls short

Each entry names the inputs that show it and the exact condition under which it does not happen.

- ProcessProposal's verdict depends on the order of arrival: an UNKNOWN is overwritten by a later ACCEPT
  (`UnknownOverwritten`), and of two different answers that are not ACCEPT the later wins (`RejectOverwritten`). It does
  not exactly under the condition of `VerdictIndependentIff`, lifted to the whole call by `ProposalIndependentIff`. ACCEPT
  means that all apps accepted exactly under that of `AcceptMeansUnanimousIff` and `AcceptedIsUnanimousIff`.
- FinalizeBlock's merged consensus parameters are the first to arrive (`ParamsFollowArrival`); the comment in the code
  assumes that all apps agree, which is the exact condition (`ParamsIndependentIff`, `FinalizeIndependentIff`).
- InitChain merges in the order of arrival, lets the last consensus parameters win, and appends the first reply's
  validators to themselves (`InitHashFollowsArrival`, `InitParamsFollowArrival`, `ValidatorDoubled`). The exact conditions
  are `ArrivalOrderFreeIff`, `LastParamsOrderFreeIff`, `ValidatorsOnceIff` and `ValidatorsOrderFreeIff`, put together in
  `InitMergeIndependentIff` and lifted to the whole call by `InitIndependentIff`.
- Commit returns the reply of the app that the walk over the map visits last (`CommitReplyFollowsVisit`,
  `CommitIndependentIff`).
- When several apps fail with different errors, the order decides which error is returned (`ErrorFollowsArrival`;
  `ProposalIndependentIff`, `FinalizeIndependentIff`, `InitIndependentIff`, `CommitIndependentIff`).
- A failing Commit may have published the blocks of the apps visited before (`CommitHalfway`, `CommitAtomicIff`).
- A goroutine left over by a failed FinalizeBlock can reach its app after the next FinalizeBlock, and Commit then
  publishes the failed block's writes (`LateWrite`; `RetryHoldsIff` for one schedule, `RetrySafeIff` for all of them).
- Equal composite app hashes do not mean equal hashes app by app (`CompositeAmbiguous`). They do exactly when no two of
  the assignments of lengths that the apps' hashes may have come to the same sum (`CompositeTellsIff`), as with fixed
  lengths (`CompositeHashSplits`).

## Model

| member | source | states |
|---|---|---|
| `SessionTheorems.SessionRefinesDirect` | cosmux/multiplexer.go:239-550 | calls of every kind in any order, failing or repeated FinalizeBlocks and left-over goroutines included: while Commit is called for an open block and succeeds, the KV stores hold what the committed blocks' transactions leave when executed one at a time |
| `SessionTheorems.QueriesSeeCommitted` | cosmux/multiplexer.go:239-256 | at every moment of such a session a query is answered from exactly the blocks committed so far |
| `SessionTheorems.SessionCodes` | cosmux/multiplexer.go:492-501 | every FinalizeBlock of a session that succeeds reports, for each KV transaction, that single transaction's code |
| `StoreTheorems.StoreInAnySession` | cosmux/multiplexer.go:415-550 | in any session at all, failing Commits and late goroutines included, a KV store holds the successive Commits that visited it, each of the last block that had reached it |
| `StoreTheorems.QueryInAnySession` | cosmux/multiplexer.go:239-256 | and every query of it is answered from those |
| `StoreTheorems.StragglersComeFrom` | cosmux/multiplexer.go:463-489 | a goroutine that reaches its app late was left over by an earlier FinalizeBlock that failed, and brings that block's part |
| `StoreTheorems.SomeVisited` | cosmux/multiplexer.go:535-547 | for every outcome of Commit there is a set of apps it has visited, which accounts for all apps' states |
| `StoreTheorems.TakenUntilRefused` | app/kvstore/app.go:95-107 | the refused transaction is the first valid one the database does not take |
| `StoreTheorems.ScanTakes` | app/kvstore/app.go:95-113 | of a block the database refuses half way exactly the transactions before the refused one are written |
| `RetryTheorems.RetryAfterFailure` | cosmux/multiplexer.go:463-489 | FinalizeBlock fails, another succeeds, Commit succeeds: a KV store holds the second block's effect, or, where a goroutine of the failed call came in between, the failed block's writes |
| `RetryTheorems.RetryHoldsIff` | cosmux/multiplexer.go:463-489 | all stores are the second block's exactly when each store reached late gets the same from both blocks; so it is when the failed call had called every app, and when the same transactions are retried |
| `RetryTheorems.RetrySafeIff` | cosmux/multiplexer.go:463-489 | the same from the moment the failed call returns: under every later schedule the stores are the second block's exactly when both blocks do the same to each store that has yet to be called |
| `RetryTheorems.LateWrite` | cosmux/multiplexer.go:463-489 | an input on which an app's error answer makes Commit publish a write that no committed block holds |
| `RunTheorems.WholeRunProjection` | cosmux/multiplexer.go:415-550 | after any run of finalized and committed blocks every app, of whatever kind, is in the state it reaches alone on its own stripped transactions, for every schedule and map order |
| `TransparencyTheorems.RemoteRunsAlone` | cosmux/multiplexer.go:415-550 | the same in terms of the app's own functions: it ends as when it is called directly with the blocks made of its payloads and, for the rest, the proposers' blocks |
| `TransparencyTheorems.OneChainFinalize` | cosmux/multiplexer.go:415-529 | over a single chain FinalizeBlock returns that chain's own response to the unwrapped block, or its own error |
| `TransparencyTheorems.OneChainProposal` | cosmux/multiplexer.go:337-409 | over a single chain ProcessProposal returns that chain's own status, and accepts an empty proposal unasked |
| `TransparencyTheorems.OneChainInit` | cosmux/multiplexer.go:279-327 | over a single chain InitChain returns that chain's own response with its validators twice |
| `TransparencyTheorems.OneChainCommit` | cosmux/multiplexer.go:532-550 | over a single chain Commit is that chain's Commit |
| `TransparencyTheorems.AskedDirectly` | cosmux/multiplexer.go:239-276 | CheckTx and Query hand on an app's own answers to the payload and to the query |
| `TransparencyTheorems.HearsTheBlock` | cosmux/multiplexer.go:358-373 | in ProcessProposal, FinalizeBlock and late goroutines an app is asked about its payloads with every other field of the block unchanged |
| `TransparencyTheorems.HearsItsGenesis` | cosmux/multiplexer.go:105-112 | in InitChain and late goroutines an app is given its own chain id and genesis state, and the caller's parameters and validators |
| `TransparencyTheorems.CalledOrWaitedFor` | cosmux/multiplexer.go:456-489 | whatever FinalizeBlock returns, each app has been called once with its part and nothing waits for it, or is untouched and one goroutine waits to call it; older goroutines are kept |
| `TransparencyTheorems.AskedOrWaitedFor` | cosmux/multiplexer.go:361-397 | the same for ProcessProposal and the apps it has transactions for |
| `TransparencyTheorems.StartedOrWaitedFor` | cosmux/multiplexer.go:292-311 | the same for InitChain |
| `TransparencyTheorems.GenesisReachesApp` | cosmux/multiplexer.go:118-169 | from start-up on: the app of a configured chain is initialised with the genesis state read for that chain |
| `AnswerTheorems.AnswersWhole` | cosmux/multiplexer.go:509-525 | each app's hash, validator updates and events stand whole in FinalizeBlock's response, one app after the other by increasing identifier, and nothing else does |
| `AnswerTheorems.ResultsInPlace` | cosmux/multiplexer.go:492-501 | position i of TxResults is what transaction i's app answered at that transaction's rank, nil where it answered too few |
| `AnswerTheorems.ParamsAnswered` | cosmux/multiplexer.go:503-507 | the consensus parameters are nil only if all apps answer nil, and otherwise some app's |
| `AnswerTheorems.TwoChainInit` | cosmux/multiplexer.go:306-324 | InitChain over two chains written out for both orders of arrival |
| `KvOnlyTheorems.WriteThenRead` | tests/e2e/basic_kv_test.go:22-54 | a client's write of key=value with the chain's header is, once its block is committed, what a query for that chain and key answers, unless the block writes the key again later; other chains may share the block |
| `KvOnlyTheorems.KvOnlyFinalize` | app/kvstore/app.go:91-118 | over KV stores alone FinalizeBlock returns one code per transaction, 0 for exactly one '=' and 1 otherwise, and nothing else; or says which of two errors it is |
| `KvOnlyTheorems.KvProposalAccepted` | app/kvstore/app.go:83-86 | a routable proposal that names KV stores only is accepted and changes nothing |
| `KvOnlyTheorems.KvHasNoSay` | cosmux/multiplexer.go:387-405 | beside other apps KV stores change the verdict at most by hiding an UNKNOWN |
| `KvOnlyTheorems.KvOnlyInit` | app/kvstore/app.go:69-72 | over KV stores alone InitChain succeeds with an empty response and changes nothing |
| `KvOnlyTheorems.KvOnlyCommit` | app/kvstore/app.go:120-127 | over KV stores alone a successful Commit returns retain height 0 in every visiting order |
| `KvOnlyTheorems.KvCheckTx` | cosmux/multiplexer.go:259-276 | CheckTx for a KV store answers 0 for exactly one '=' in the payload and 1 otherwise, and changes nothing |
| `KvOnlyTheorems.AbsentKey` | app/kvstore/app.go:38-53 | an absent key is answered with that key, no value and the note that it does not exist |
| `KvOnlyTheorems.SomePayloads` | app/kvstore/app.go:160-167 | the bytes of a=b, ab and a=b= |
| `RunTheorems.RunRefinesDirect` | cosmux/multiplexer.go:415-550 | the KV stores after a run are what executing all transactions of all blocks one at a time on the store their header names leaves, and each result is that single transaction's code |
| `RunTheorems.BlockRefinesDirect` | cosmux/multiplexer.go:426-501 | the same for one block: position i of TxResults is the validity code of transaction i's payload |
| `RunTheorems.RunsAgree` | cosmux/multiplexer.go:415-550 | two runs that address each store with the same transactions in the same order end with the same stores, however they are cut into blocks, woven together or scheduled |
| `RunTheorems.RunCodes` | cosmux/multiplexer.go:492-501 | the results of a whole run, put one block after the other, give each KV transaction the code it deserves alone, at its place in the sequence of all transactions |
| `RunTheorems.CutsAgree` | cosmux/multiplexer.go:415-550 | cutting one transaction sequence into blocks in two ways gives the same stores, and each KV transaction the same result at its place in the sequence |
| `RunTheorems.StepProjects` | cosmux/multiplexer.go:456-549 | one successful block calls every app exactly for its part, commits it once, and both calls succeeded |
| `MuxTheorems.ScheduleIndependence` | cosmux/multiplexer.go:452-528 | two complete runs on the same replies agree on failure, app states, TxResults, AppHash, ValidatorUpdates and Events, and wholly when the apps' consensus parameters agree |
| `MuxTheorems.ParamsIndependentIff` | cosmux/multiplexer.go:503-507 | the consensus parameters are independent of arrival order exactly when no two apps report different ones |
| `MuxTheorems.ReplicasAgree` | cosmux/multiplexer.go:415-550 | two replicas that start alike and go through the same blocks are in equal states after every block and give equal responses, but for the consensus parameters where apps disagree on them |
| `MuxTheorems.FinalizeIndependentIff` | cosmux/multiplexer.go:415-529 | any two outcomes of FinalizeBlock on the same apps return the same exactly when the block is not routable, or no app fails and the parameters agree, or all failing apps give one error |
| `MuxTheorems.FinalizeHasOutcome` | cosmux/multiplexer.go:415-529 | every call has an outcome, a successful one exactly when the block is routable and no app fails |
| `MuxTheorems.FirstParamsFound` | cosmux/multiplexer.go:505-507 | the parameters are those of the first app to arrive that reports any |
| `MuxTheorems.ParamsFollowArrival` | cosmux/multiplexer.go:503-507 | two disagreeing apps: each of the two orders of arrival gives a different result |
| `MuxTheorems.InterleavingInvariance` | cosmux/multiplexer.go:426-525 | reweaving a block without changing any chain's own order sends every app the same and changes neither app states nor hash, updates and events, nor the consensus parameters if the apps agree on them; TxResults are reordered as the transactions are |
| `MuxTheorems.PartnerExchanges` | cosmux/multiplexer.go:426-435 | the reordering behind that is a bijection between equal transactions |
| `PhaseTheorems.NothingVisibleBeforeCommit` | cosmux/multiplexer.go:413-414 | no FinalizeBlock, successful or failed in any way, changes a KV store's contents or query answers; the FinalizeBlock that reaches the store next replaces its pending writes; after a success no KV store lacks an ongoing block |
| `PhaseTheorems.CommitAtomicIff` | cosmux/multiplexer.go:535-541 | a failing Commit leaves all KV stores as they were, in every visiting order, exactly when no app that could commit would change its store |
| `PhaseTheorems.CommitHalfway` | cosmux/multiplexer.go:535-541 | an input on which a failing Commit has published one store's block |
| `PhaseTheorems.CommitIndependentIff` | cosmux/multiplexer.go:532-549 | what Commit returns is the same in every visiting order exactly when all replies are alike, or some apps fail and these all give one error |
| `PhaseTheorems.CommitHasOutcome` | cosmux/multiplexer.go:532-549 | every call has an outcome, a successful one exactly when no app fails |
| `SampleTheorems.CommitReplyFollowsVisit` | cosmux/multiplexer.go:535-549 | two apps with different replies: Commit may return either |
| `SampleTheorems.ErrorFollowsArrival` | cosmux/multiplexer.go:279-549 | two apps failing for different reasons: FinalizeBlock, ProcessProposal, InitChain and Commit may each return either error |
| `RetryTheorems.StragglersStayAllowed` | cosmux/multiplexer.go:463-489 | until the next call reaches them, the goroutines left over by a failed call lead only to states in which that call could have returned, with as many fewer left over |
| `PhaseTheorems.RoutingAgrees` | cosmux/multiplexer.go:259-435 | CheckTx refuses some of the transactions for routing exactly when ProcessProposal, and exactly when FinalizeBlock, refuses the block of just these transactions; these then call no app, and no app's own error can look like it; the bytes behind each header are what the block calls send, and where the block succeeds each KV transaction gets the code CheckTx gave it |
| `PhaseTheorems.SamePayloadInEveryPhase` | cosmux/multiplexer.go:259-435 | CheckTx asks the app, and about the bytes, that stand at the transaction's rank in the sub-block that ProcessProposal and FinalizeBlock send to that app |
| `PhaseTheorems.CheckTxRefusals` | cosmux/multiplexer.go:259-265 | what CheckTx answers to a transaction without the magic, or for a chain nobody is registered under; no app is called |
| `PhaseTheorems.CheckTxForetellsCode` | cosmux/multiplexer.go:259-276 | the code CheckTx gives a KV transaction is the one it gets in any block it is finalized in |
| `FanOut.Range` | cosmux/multiplexer.go:475-482 | for every scheduling the wait for the next message ends, no state is stuck, and what is received is what was sent, once |
| `FanOutTheorems.Safety` | cosmux/multiplexer.go:452-479 | in every reachable state, also after an early return: no send on the closed channel, room for every send, WaitGroup equal to the unfinished workers |
| `FanOutTheorems.Progress` | cosmux/multiplexer.go:452-482 | a reachable state has no next step exactly when all workers are done, the channel is closed and the loop has ended; then every app was called, and a loop that was not left early got each app's one reply |
| `FanOutTheorems.RunsEnd` | cosmux/multiplexer.go:452-482 | every run of n workers has at most 6n+3 steps |
| `FanOutTheorems.ClosesIffCounted` | cosmux/multiplexer.go:453-479 | the channel can be closed exactly when the WaitGroup starts at the number of workers; with more the receiver never ends |
| `MergeTheorems.FinalizeEndsIff` | cosmux/multiplexer.go:421-479 | when all identifiers are keys of the map, FinalizeBlock's receive loop can end without an error exactly when no two handlers carry the same one |
| `FanOutTheorems.CalledOnce` | cosmux/multiplexer.go:463-472 | a worker calls its app once, when it answers, and no other step calls an app |
| `FanOutTheorems.ArrivalOrders` | cosmux/multiplexer.go:475-482 | the possible orders of arrival are exactly the listings of all apps |
| `FanOutTheorems.EarlyReturn` | cosmux/multiplexer.go:482-489 | the loop can be left over the first message of any worker while any set of apps that includes that worker's has been called |
| `FanOut.DrainedComplete` | cosmux/multiplexer.go:482-513 | a receive loop that saw the channel closed has exactly one faithful reply per app |
| `Multiplexer.CometMux.FinalizeBlock` | cosmux/multiplexer.go:415-529 | under every schedule: the routing error without calling anyone, the error of a failing app, or the merge of all answers with results in their slots and hashes, updates and events by increasing id; after an early error the workers that have not called their apps stay behind on the object, each with its request |
| `FinalizeLoop.ReceiveAll` | cosmux/multiplexer.go:481-513 | the receive loop stops at an app's error or ends having heard everyone, each slot filled with its app's result at its rank |
| `FinalizeLoop.Scatter` | cosmux/multiplexer.go:492-501 | an app's results land in its own slots in order, surplus ones are dropped, nothing else is touched |
| `FinalizeLoop.MergeSorted` | cosmux/multiplexer.go:515-525 | the per-app lists are concatenated by increasing id, whatever order the keys leave the map in |
| `Multiplexer.CometMux.GroupBlock` | cosmux/multiplexer.go:418-435 | every app gets its payloads in block order, with their positions; fails exactly when some transaction has no route |
| `Multiplexer.CometMux.ProcessProposal` | cosmux/multiplexer.go:337-409 | only apps with transactions are asked, each about its own; the verdict follows the last answer that is not ACCEPT; workers that outlive an early error stay behind |
| `OtherLoops.ReceiveVerdict` | cosmux/multiplexer.go:386-405 | the receive loop of ProcessProposal computes that verdict for some order of arrival, or stops at an error |
| `VerdictTheorems.VerdictIndependentIff` | cosmux/multiplexer.go:387-405 | the verdict is the same in every order of arrival exactly when all answers other than ACCEPT are equal and not both UNKNOWN and ACCEPT are answered |
| `VerdictTheorems.ProposalIndependentIff` | cosmux/multiplexer.go:337-409 | any two outcomes of ProcessProposal on the same apps return the same exactly when the proposal is not routable, or no app fails and that condition holds, or all failing apps give one error |
| `VerdictTheorems.AcceptMeansUnanimousIff` | cosmux/multiplexer.go:387-405 | ACCEPT means that all contacted apps accepted, in every order, exactly when not both UNKNOWN and ACCEPT are answered |
| `VerdictTheorems.AcceptedIsUnanimousIff` | cosmux/multiplexer.go:337-409 | the same of all outcomes of the whole call |
| `VerdictTheorems.ProposalHasOutcome` | cosmux/multiplexer.go:337-409 | every proposal has an outcome, a verdict exactly when it is routable and no app fails |
| `VerdictTheorems.VerdictIsFold` | cosmux/multiplexer.go:387-405 | that verdict is what the loop computes over the enumeration's numbers |
| `VerdictTheorems.AcceptersAreNeutral` | cosmux/multiplexer.go:398-403 | leaving out apps that accept gives the same verdict, or UNKNOWN in the place of an ACCEPT |
| `VerdictTheorems.VerdictUnique` | cosmux/multiplexer.go:387-405 | an order of arrival determines the verdict |
| `VerdictTheorems.UnknownOverwritten` | cosmux/multiplexer.go:398-403 | UNKNOWN then ACCEPT gives ACCEPT, the other way round UNKNOWN |
| `VerdictTheorems.RejectOverwritten` | cosmux/multiplexer.go:398-403 | REJECT then UNKNOWN gives UNKNOWN, the other way round REJECT |
| `Multiplexer.CometMux.InitChain` | cosmux/multiplexer.go:279-327 | each app gets its own chain id and state in a copy, the caller's request stays as it was; hashes and validators are concatenated in order of arrival with the first reply's validators twice, parameters are the last that are not nil; workers that outlive an early error stay behind |
| `OtherLoops.InitNext` | cosmux/multiplexer.go:306-324 | one round of the receive loop keeps that closed form, the alias to the first reply included |
| `InitTheorems.InitIsolation` | cosmux/multiplexer.go:105-112 | the chain id an app is told is the one whose header leads to it, and no other app is told that one |
| `InitTheorems.InitMergeIndependentIff` | cosmux/multiplexer.go:306-324 | the merged response is the same in all orders of arrival exactly when any two hashes commute, all validator lists are the same and no two apps report different parameters |
| `InitTheorems.InitIndependentIff` | cosmux/multiplexer.go:279-327 | any two outcomes of InitChain on the same apps return the same exactly when no app fails and that condition holds, or all failing apps give one error |
| `InitTheorems.InitHasOutcome` | cosmux/multiplexer.go:279-327 | every call has an outcome, a successful one exactly when no app fails |
| `InitTheorems.ArrivalOrderFreeIff` | cosmux/multiplexer.go:307-317 | the hash is the same in all orders of arrival exactly when any two apps' hashes commute |
| `InitTheorems.ValidatorsOnceIff` | cosmux/multiplexer.go:313-323 | the merged validators are the plain concatenation exactly when the first app to answer has none |
| `InitTheorems.ValidatorDoubled` | cosmux/multiplexer.go:313-323 | one app with one validator: it is listed twice |
| `InitTheorems.ValidatorsOrderFreeIff` | cosmux/multiplexer.go:313-323 | the merged validators are the same in all orders of arrival exactly when all apps report the same list |
| `InitTheorems.LastParamsOrderFreeIff` | cosmux/multiplexer.go:319-322 | the merged parameters are the same in all orders of arrival exactly when no two apps report different ones |
| `InitTheorems.LastParamsFound` | cosmux/multiplexer.go:320-322 | the parameters are those of the last app to arrive that reports any |
| `InitTheorems.InitParamsFollowArrival` | cosmux/multiplexer.go:319-322 | two disagreeing apps: the last to answer decides |
| `InitTheorems.InitHashFollowsArrival` | cosmux/multiplexer.go:307-317 | two different one-byte hashes: the order shows |
| `Multiplexer.CometMux.Commit` | cosmux/multiplexer.go:532-550 | a success has committed every app once and returns the reply of the last one visited; a failure has called exactly the apps visited up to the failing one |
| `Multiplexer.CommitNext` | cosmux/multiplexer.go:535-547 | each round of the loop commits one more app or ends in that failure |
| `CompositeTheorems.CompositeHashSplits` | cosmux/multiplexer.go:509-525 | composite hashes over the same apps with the same lengths are equal exactly when every app's hash is |
| `MergeTheorems.ConcatInjective` | cosmux/multiplexer.go:521-525 | for any per-app lists of fixed lengths, equal merges come from equal lists only |
| `MergeTheorems.ConcatSlice` | cosmux/multiplexer.go:521-525 | a merge has the summed length of the lists, and each app's list lies whole in it, behind those of the apps before it in the order |
| `CompositeTheorems.ReadBackIff` | cosmux/multiplexer.go:521-525 | equal merges mean equal lists exactly when no two of the possible assignments of lengths have the same sum |
| `CompositeTheorems.CompositeTellsIff` | cosmux/multiplexer.go:509-525 | the same of the composite hashes of any two successful FinalizeBlocks over the same apps and what each app answered |
| `CompositeTheorems.SeparatedTells` | cosmux/multiplexer.go:509-525 | its sufficient half for apps of any kind |
| `CompositeTheorems.CompositeAmbiguous` | cosmux/multiplexer.go:521-522 | without fixed lengths two assignments of hashes give one composite |
| `ChainAppIds.AppIdStorter.Less` | cosmux/multiplexer.go:45-53 | the bytewise comparison is big-endian numeric order, hence a strict total order |
| `ChainAppIds.NumIsLexicographic` | cosmux/multiplexer.go:45-53 | that order is decided by the first differing byte |
| `ChainAppIds.NumInjective` | cosmux/multiplexer.go:45-53 | different identifiers have different numbers |
| `ChainAppIds.AppIdStorter.Swap` | cosmux/multiplexer.go:61-63 | exchanges two elements and nothing else |
| `ChainAppIds.SortChainAppIDs` | cosmux/multiplexer.go:37-42 | sorting in place through Less and Swap gives a sorted permutation |
| `ChainAppIds.SortIsCanonical` | cosmux/multiplexer.go:515-520 | from whatever order the keys leave the map, any sorted permutation of them is the one increasing listing |
| `Routing.SlotsPartition` | cosmux/multiplexer.go:426-435 | the slot lists divide a routable block: each position is in one list, once |
| `Routing.SlotsMatch` | cosmux/multiplexer.go:432-434 | slots increase strictly and hold, in order, the transactions whose payloads form the sub-block |
| `Routing.RankFindsSlot` | cosmux/multiplexer.go:492-497 | the slot at a transaction's rank in its sub-block is the transaction's own position |
| `Routing.HeaderRoundTrip` | tests/e2e/testutils.go:24-33 | the header made for a registered chain routes to that chain alone and leaves the payload; no two handlers share a chain id |
| `Routing.HeaderBytes` | tests/e2e/testutils.go:24-33 | the eight bytes of a header, and the identifier they carry |
| `Routing.HeaderVerdict` | cosmux/multiplexer.go:206-215 | which header is refused for what: shorter than eight bytes, or not beginning with the magic |
| `Multiplexer.CometMux.GetHandler` | cosmux/multiplexer.go:181-215 | finds the handler the header names, or says which check failed |
| `Multiplexer.CometMux.GetHandlerFromChainId` | cosmux/multiplexer.go:196-203 | whatever the map order, finds the handler filed under the hash of the chain id, or none has that id |
| `Multiplexer.CometMux.AddApplication` | cosmux/multiplexer.go:141-169 | registers under the hash of the chain id, ends the process on a clash or a bad genesis file, returns a dialling error |
| `Multiplexer.CometMux.NewMultiplexer` | cosmux/multiplexer.go:118-138 | comes up exactly when all apps dial, all genesis files read and no identifiers clash; then exactly the configured chains are registered, each with its app and its genesis state |
| `Multiplexer.CometMux.CheckTx` | cosmux/multiplexer.go:259-276 | an unroutable transaction is refused without a call; otherwise the header is stripped in the caller's request and the named app's answer to the rest relayed, no other app being called |
| `Multiplexer.CometMux.Query` | cosmux/multiplexer.go:239-256 | relays to the app that transactions with this chain's header reach |
| `KvStore.ParseThenPrint` | app/kvstore/app.go:101-167 | valid means exactly one '='; Split and SplitN then agree and printing the parts restores the bytes |
| `KvStore.PrintThenParse` | tests/e2e/basic_kv_test.go:22-26 | a printed pair parses back to itself exactly when neither part holds an '=' |
| `KvStore.KVStoreApplication.FinalizeBlock` | app/kvstore/app.go:91-118 | opens a new pending write set with the valid writes of the block in it, leaves the database alone, reports a failing Set |
| `KvTheorems.CommitThenQuery` | app/kvstore/app.go:38-127 | until a block is committed, and when Commit fails, queries are answered as before it; then a key's value is that of the last valid transaction on it, other keys are answered as before, and a second Commit shows in no answer |
| `KvStore.KVStoreApplication.CheckTx` | app/kvstore/app.go:63-67 | code 0 exactly for bytes with one '=' |
| `KvTheorems.ScanMeaning` | app/kvstore/app.go:95-113 | a block survives exactly when the database takes every valid transaction; its writes and codes are those of applying them one by one |
| `KvTheorems.LastWriteWins` | app/kvstore/app.go:95-127 | the last valid transaction on a key decides its value; invalid ones and other keys have no effect |
| `KvTheorems.RunMeaning` | app/kvstore/app.go:91-127 | a run of committed blocks leaves the store, and gives the codes, of its transactions applied one by one |
| `KvTheorems.BatchSplitInvariance` | app/kvstore/app.go:91-127 | cutting one transaction sequence into committed blocks in two ways gives the same store and the same codes |

## Left out

- SessionTheorems.SessionRefinesDirect: sessions in which Commit fails, or follows no open block, do not come to whole
  committed blocks; `StoreInAnySession` says what they do to each store.
- ChainAppIds.SortChainAppIDs: Go's sort.Sort switches algorithms with the length; the loops here are those of its
  insertion sort. `SortIsCanonical` holds for the result of any of them.
- KvStore.KVStoreApplication.Commit: a second Commit of the same write set changes nothing here; what badger
  answers to it is left open.
- Multiplexer.CometMux.CheckTx: a transaction shorter than a header makes the slice expression panic, so a length of at
  least 8 is required.
- Aliasing of the first reply of InitChain is modelled on values, which gives the same result since that reply is not
  read again.
- Badger's key limits and conflict detection, sockets, client start-up, logging, configuration and genesis parsing.
- Info, snapshots and vote extensions: constant answers or the last reply.
- The Cosmos SDK chain app, the mocks and the rest of the end-to-end harness.
