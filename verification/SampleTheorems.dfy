/** Inputs on which the order of events shows in what a call returns. */
module SampleTheorems {
  import opened Abci
  import opened ChainAppIds
  import opened Routing
  import opened ChainApps
  import opened MuxSpec
  import opened FailureTheorems
  import opened PhaseTheorems
  import opened ScriptedApps

  /** Two apps that keep blocks from different heights on: Commit returns the answer of the one visited last. */
  lemma CommitReplyFollowsVisit()
    ensures var a, b := [0, 0, 0, 1], [0, 0, 0, 2];
            var apps: Apps<Script> := map[a := Other(Script(0, "", [], 1)), b := Other(Script(0, "", [], 2))];
            forall height :: height == 1 || height == 2 ==>
              exists apps' :: CommitOutcome(Scripted(), apps, apps', Ok(Some(ResponseCommit(height))))
  {
    var a: ChainAppIdentifier, b: ChainAppIdentifier := [0, 0, 0, 1], [0, 0, 0, 2];
    assert a[3] != b[3];
    var apps: Apps<Script> := map[a := Other(Script(0, "", [], 1)), b := Other(Script(0, "", [], 2))];
    hide *;
    VisitedLast(apps, a, 1);
    VisitedLast(apps, b, 2);
  }

  lemma VisitedLast(apps: Apps<Script>, id: ChainAppIdentifier, height: int)
    requires forall x :: x in apps ==> apps[x].Other? && apps[x].other.failures == 0
    requires id in apps && apps[id].other.retainHeight == height
    ensures exists apps' :: CommitOutcome(Scripted(), apps, apps', Ok(Some(ResponseCommit(height))))
  {
    var calls := CommitCalls(Scripted(), apps);
    assert calls[id].reply == Ok(ResponseCommit(height));
    hide CommitOutcome, CommitCalls, Commit;
    LastReplyReturned(Scripted(), apps, id);
  }

  /** What an app that fails answers to every kind of call. */
  lemma FailingAnswers(app: App<Script>, reason: string, block: RequestBlock, chain: RequestInitChain)
    requires app == Other(FailingOnce(reason))
    ensures FinalizeBlock(Scripted(), app, block).reply == Err(AppError(reason))
    ensures ProcessProposal(Scripted(), app, block).reply == Err(AppError(reason))
    ensures InitChain(Scripted(), app, chain).reply == Err(AppError(reason))
    ensures Commit(Scripted(), app).reply == Err(AppError(reason))
  {
  }

  /** Two apps that fail for different reasons: either reason may be what a block call, InitChain or Commit returns. */
  lemma ErrorFollowsArrival(info: BlockInfo, clients: Clients, chain: RequestInitChain, p: string, q: string)
    requires clients.Keys == {[0, 0, 0, 1], [0, 0, 0, 2]}
    ensures var a, b := [0, 0, 0, 1], [0, 0, 0, 2];
            var apps: Apps<Script> := map[a := Other(FailingOnce(p)), b := Other(FailingOnce(q))];
            var req := RequestBlock([MAGIC + a, MAGIC + b], info);
            forall reason :: reason == p || reason == q ==>
              && (exists apps' :: FinalizeOutcome(Scripted(), apps, req, apps', Err(AppError(reason))))
              && (exists apps' :: ProposalOutcome(Scripted(), apps, req, apps', Err(AppError(reason))))
              && (exists apps' :: InitOutcome(Scripted(), clients, apps, chain, apps', Err(AppError(reason))))
              && (exists apps' :: CommitOutcome(Scripted(), apps, apps', Err(AppError(reason))))
  {
    var a: ChainAppIdentifier, b: ChainAppIdentifier := [0, 0, 0, 1], [0, 0, 0, 2];
    assert a[3] != b[3];
    var apps: Apps<Script> := map[a := Other(FailingOnce(p)), b := Other(FailingOnce(q))];
    var req := RequestBlock([MAGIC + a, MAGIC + b], info);
    assert MAGIC + a + [] == MAGIC + a && MAGIC + b + [] == MAGIC + b;
    Addressed(a, []);
    Addressed(b, []);
    TwoParts(a, b, [], [], req.txs, apps.Keys);
    hide *;
    OneFails(apps, req, clients, chain, a, p);
    OneFails(apps, req, clients, chain, b, q);
  }

  lemma OneFails(apps: Apps<Script>, req: RequestBlock, clients: Clients, chain: RequestInitChain,
                 id: ChainAppIdentifier, reason: string)
    requires id in apps && id in clients && apps[id] == Other(FailingOnce(reason))
    requires AllRoutable(apps.Keys, req.txs) && SubBlock(req.txs, id) != []
    ensures exists apps' :: FinalizeOutcome(Scripted(), apps, req, apps', Err(AppError(reason)))
    ensures exists apps' :: ProposalOutcome(Scripted(), apps, req, apps', Err(AppError(reason)))
    ensures exists apps' :: InitOutcome(Scripted(), clients, apps, chain, apps', Err(AppError(reason)))
    ensures exists apps' :: CommitOutcome(Scripted(), apps, apps', Err(AppError(reason)))
  {
    FailingAnswers(apps[id], reason, SubRequest(req, id), InitRequest(clients[id], chain));
    hide FinalizeBlock, ProcessProposal, InitChain, Commit, AllRoutable, SubBlock, After, Failed, Scripted;
    var finalizes, proposals := FinalizeCalls(Scripted(), apps, req), ProposalCalls(Scripted(), apps, req);
    var inits := InitCalls(Scripted(), clients, apps, chain);
    MayFailWith(apps, finalizes, id);
    MayFailWith(apps, proposals, id);
    MayFailWith(apps, inits, id);
    FirstErrorReturned(Scripted(), apps, id);
    assert FinalizeOutcome(Scripted(), apps, req, After(apps, finalizes, {id}), Err(AppError(reason)));
    assert ProposalOutcome(Scripted(), apps, req, After(apps, proposals, {id}), Err(AppError(reason)));
    assert InitOutcome(Scripted(), clients, apps, chain, After(apps, inits, {id}), Err(AppError(reason)));
  }
}
