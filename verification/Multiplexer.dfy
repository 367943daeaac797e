/** The ABCI++ block multiplexer (cosmux/multiplexer.go). */
module Multiplexer {
  import opened Abci
  import opened Orders
  import opened ChainAppIds
  import opened Routing
  import opened ChainApps
  import opened MuxSpec
  import opened FanOut
  import opened FinalizeLoop
  import opened OtherLoops

  /** A configured chain, with what dialling its app and reading its genesis file give. */
  datatype MegaBlockApp<T> = MegaBlockApp(chainID: Bytes, dial: Reply<App<T>>, genesis: Reply<Bytes>)

  /** Fatal is the end of the process. */
  datatype Registration = Added | Refused(error: Error) | Fatal

  class RequestCheckTx {
    var tx: Bytes

    constructor (tx: Bytes)
      ensures this.tx == tx
    {
      this.tx := tx;
    }
  }

  function Ids<T>(sha1: Hash, config: seq<MegaBlockApp<T>>): seq<ChainAppIdentifier> {
    seq(|config|, i requires 0 <= i < |config| => AppId(sha1, config[i].chainID))
  }

  /** The configured chains are registered with their ids, genesis states and apps, and no others are. */
  ghost predicate Enrolled<T>(ids: seq<ChainAppIdentifier>, config: seq<MegaBlockApp<T>>, clients: Clients,
                              apps: Apps<T>)
  {
    && |ids| == |config|
    && (forall id :: id in clients ==> id in ids)
    && (forall i :: 0 <= i < |ids| ==>
          && ids[i] in clients && clients[ids[i]].id == ids[i]
          && clients[ids[i]].chainID == config[i].chainID && Ok(clients[ids[i]].initAppState) == config[i].genesis
          && ids[i] in apps && Ok(apps[ids[i]]) == config[i].dial)
  }

  ghost predicate Addable<T>(config: seq<MegaBlockApp<T>>, n: nat)
    requires n <= |config|
  {
    forall i :: 0 <= i < n ==> config[i].dial.Ok? && config[i].genesis.Ok?
  }

  /** Every app can be dialled, every genesis file can be read, and no two chains share an identifier. */
  ghost predicate ComesUp<T>(sha1: Hash, config: seq<MegaBlockApp<T>>) {
    Addable(config, |config|) && Distinct(Ids(sha1, config))
  }

  /** The first `n` chains of the configuration have been registered. */
  ghost predicate EnrolledSoFar<T>(sha1: Hash, config: seq<MegaBlockApp<T>>, n: nat, clients: Clients, apps: Apps<T>)
    requires n <= |config|
  {
    && Addable(config, n)
    && Distinct(Ids(sha1, config[..n]))
    && Enrolled(Ids(sha1, config[..n]), config[..n], clients, apps)
  }

  lemma NoneEnrolled<T>(sha1: Hash, config: seq<MegaBlockApp<T>>)
    ensures EnrolledSoFar(sha1, config, 0, map[], map[])
  {
  }

  lemma EnrolledNext<T>(sha1: Hash, config: seq<MegaBlockApp<T>>, n: nat, clients: Clients, apps: Apps<T>)
    requires n < |config| && EnrolledSoFar(sha1, config, n, clients, apps)
    requires AppId(sha1, config[n].chainID) !in clients && config[n].dial.Ok? && config[n].genesis.Ok?
    ensures var app, id := config[n], AppId(sha1, config[n].chainID);
            EnrolledSoFar(sha1, config, n + 1, clients[id := AbciHandler(id, app.chainID, app.genesis.value)],
                          apps[id := app.dial.value])
  {
    var id := AppId(sha1, config[n].chainID);
    var ids := Ids(sha1, config[..n]);
    assert Ids(sha1, config[..n + 1]) == ids + [id];
  }

  /** Registering stops at a chain that clashes with an earlier one, does not dial, or has no genesis state. */
  lemma NotEnrolled<T>(sha1: Hash, config: seq<MegaBlockApp<T>>, n: nat, clients: Clients, apps: Apps<T>)
    requires n < |config| && EnrolledSoFar(sha1, config, n, clients, apps)
    requires AppId(sha1, config[n].chainID) in clients || config[n].dial.Err? || config[n].genesis.Err?
    ensures !ComesUp(sha1, config)
  {
    var id, ids := AppId(sha1, config[n].chainID), Ids(sha1, config[..n]);
    if id in clients {
      var i :| 0 <= i < n && ids[i] == id;
      assert Ids(sha1, config)[i] == Ids(sha1, config)[n];
    }
  }

  lemma AllEnrolled<T>(sha1: Hash, config: seq<MegaBlockApp<T>>, clients: Clients, apps: Apps<T>)
    requires EnrolledSoFar(sha1, config, |config|, clients, apps)
    ensures ComesUp(sha1, config) && Enrolled(Ids(sha1, config), config, clients, apps)
  {
    assert config[..|config|] == config;
  }

  ghost predicate Known(workers: multiset<Worker>, ids: set<ChainAppIdentifier>) {
    forall w :: w in workers ==> w.id in ids
  }

  lemma FinalizeKnown(workers: multiset<Worker>, req: RequestBlock, late: set<ChainAppIdentifier>,
                      ids: set<ChainAppIdentifier>)
    requires Known(workers, ids) && late <= ids
    ensures Known(workers + multiset(FinalizeWorkers(req, late)), ids)
  {
  }

  lemma ProposalKnown(workers: multiset<Worker>, req: RequestBlock, late: set<ChainAppIdentifier>,
                      ids: set<ChainAppIdentifier>)
    requires Known(workers, ids) && late <= ids
    ensures Known(workers + multiset(ProposalWorkers(req, late)), ids)
  {
  }

  lemma InitKnown(workers: multiset<Worker>, clients: Clients, chain: RequestInitChain, late: set<ChainAppIdentifier>)
    requires Known(workers, clients.Keys)
    ensures Known(workers + multiset(InitWorkers(clients, chain, late)), clients.Keys)
  {
  }

  class CometMux<T(!new)> {
    const sha1: Hash
    const env: Env<T>
    var clients: Clients
    var apps: Apps<T> // the processes the clients are connected to
    var outstanding: multiset<Worker> // goroutines that outlive the calls they were started by

    ghost predicate Unchanged(clients: Clients, apps: Apps<T>)
      reads this
    {
      this.clients == clients && this.apps == apps
    }

    ghost predicate Valid()
      reads this
    {
      Registered(sha1, clients) && clients.Keys == apps.Keys && Known(outstanding, clients.Keys)
    }

    constructor (sha1: Hash, env: Env<T>)
      ensures Valid() && this.sha1 == sha1 && this.env == env
      ensures clients == map[] && apps == map[] && outstanding == multiset{}
    {
      this.sha1 := sha1;
      this.env := env;
      this.clients := map[];
      this.apps := map[];
      this.outstanding := multiset{};
    }

    method AddApplication(app: MegaBlockApp<T>) returns (result: Registration)
      requires Valid()
      modifies this`clients, this`apps
      ensures Valid()
      ensures var id := AppId(sha1, app.chainID);
              match result
              case Added =>
                && id !in old(clients) && app.dial.Ok? && app.genesis.Ok?
                && clients == old(clients)[id := AbciHandler(id, app.chainID, app.genesis.value)]
                && apps == old(apps)[id := app.dial.value]
              case Refused(e) => id !in old(clients) && app.dial == Err(e) && Unchanged(old(clients), old(apps))
              case Fatal =>
                && (id in old(clients) || (app.dial.Ok? && app.genesis.Err?))
                && Unchanged(old(clients), old(apps))
    {
      var appId := AppId(sha1, app.chainID);
      if appId in clients {
        return Fatal;
      }
      if app.dial.Err? {
        return Refused(app.dial.error);
      }
      if app.genesis.Err? {
        return Fatal;
      }
      clients := clients[appId := AbciHandler(appId, app.chainID, app.genesis.value)];
      apps := apps[appId := app.dial.value];
      result := Added;
    }

    /** `up` is false when the process has ended. */
    static method NewMultiplexer(sha1: Hash, env: Env<T>, config: seq<MegaBlockApp<T>>)
      returns (mux: CometMux<T>, up: bool)
      ensures fresh(mux) && mux.Valid() && mux.sha1 == sha1 && mux.env == env
      ensures up <==> ComesUp(sha1, config)
      ensures up ==> Enrolled(Ids(sha1, config), config, mux.clients, mux.apps) && mux.outstanding == multiset{}
    {
      NoneEnrolled(sha1, config);
      hide EnrolledSoFar, Enrolled, Ids, Registered, ComesUp, Known;
      mux := new CometMux(sha1, env);
      for n := 0 to |config|
        invariant fresh(mux) && mux.Valid() && mux.sha1 == sha1 && mux.env == env && mux.outstanding == multiset{}
        invariant EnrolledSoFar(sha1, config, n, mux.clients, mux.apps)
      {
        ghost var clients, apps := mux.clients, mux.apps;
        var result := mux.AddApplication(config[n]);
        if result != Added {
          NotEnrolled(sha1, config, n, clients, apps);
          return mux, false;
        }
        EnrolledNext(sha1, config, n, clients, apps);
      }
      AllEnrolled(sha1, config, mux.clients, mux.apps);
      up := true;
    }

    method GetHandler(header: Bytes) returns (out: Reply<AbciHandler>)
      requires Valid()
      ensures out.Ok? <==> Routable(clients.Keys, header)
      ensures out.Ok? ==> Names(header, out.value.id) && out.value.id in clients && out.value == clients[out.value.id]
      ensures out.Err? ==> out.error == (match CheckHeader(header) case Some(e) => e case None => InvalidChainReference)
    {
      var err := CheckHeader(header);
      if err.Some? {
        return Err(err.value);
      }
      var appId := header[4..8];
      if appId !in clients {
        return Err(InvalidChainReference);
      }
      out := Ok(clients[appId]);
    }

    /** The walk over the map may take any order; by the hash only one handler can match. */
    method GetHandlerFromChainId(chainID: Bytes) returns (out: Reply<AbciHandler>)
      requires Valid()
      ensures match out
              case Ok(h) =>
                h.chainID == chainID && h.id == AppId(sha1, chainID) && h.id in clients && h == clients[h.id]
              case Err(e) => e == NoHandlerForChainId && forall id :: id in clients ==> clients[id].chainID != chainID
    {
      var rest := clients.Keys;
      while rest != {}
        invariant rest <= clients.Keys
        invariant forall id :: id in clients && id !in rest ==> clients[id].chainID != chainID
        decreases |rest|
      {
        var id :| id in rest;
        if clients[id].chainID == chainID {
          return Ok(clients[id]);
        }
        rest := rest - {id};
      }
      out := Err(NoHandlerForChainId);
    }

    method Query(req: RequestQuery) returns (out: Reply<ResponseQuery>)
      requires Valid()
      ensures var id := AppId(sha1, req.chainId);
              out == if id in clients && clients[id].chainID == req.chainId then ChainApps.Query(env, apps[id], req)
                     else Err(QueryFailed(NoHandlerForChainId))
    {
      var hdlr := GetHandlerFromChainId(req.chainId);
      if hdlr.Err? {
        return Err(QueryFailed(hdlr.error));
      }
      out := ChainApps.Query(env, apps[hdlr.value.id], req);
    }

    /** The slice expression panics on a transaction shorter than a header. The caller's request is left with
        the stripped transaction in it. */
    method CheckTx(check: RequestCheckTx) returns (out: Reply<ResponseCheckTx>)
      requires Valid()
      requires |check.tx| >= HEADER_LEN
      modifies this`apps, check
      ensures Valid()
      ensures CheckTxOutcome(env, old(apps), old(check.tx), apps, out)
      ensures check.tx == if Routable(clients.Keys, old(check.tx)) then Strip(old(check.tx)) else old(check.tx)
    {
      assert check.tx[..HEADER_LEN][..4] == check.tx[..4];
      assert check.tx[..HEADER_LEN][4..8] == check.tx[4..8];
      var hdlr := GetHandler(check.tx[..HEADER_LEN]);
      if hdlr.Err? {
        return Err(CheckTxFailed(hdlr.error));
      }
      check.tx := check.tx[HEADER_LEN..];
      var call := ChainApps.CheckTx(env, apps[hdlr.value.id], check.tx);
      apps := apps[hdlr.value.id := call.app];
      out := call.reply;
    }

    method PrepareProposal(txs: seq<Bytes>) returns (out: seq<Bytes>)
      ensures out == txs
    {
      out := txs;
    }

    /** A left-over goroutine calls its app. This may happen at any time before or after a later call reaches that
        app. */
    method LetWorkerRun(w: Worker)
      requires Valid() && w in outstanding
      modifies this`apps, this`outstanding
      ensures Valid() && outstanding == old(outstanding) - multiset{w}
      ensures apps == old(apps)[w.id := CalledLate(env, old(apps[w.id]), w)]
    {
      hide Registered, CalledLate;
      apps := apps[w.id := CalledLate(env, apps[w.id], w)];
      outstanding := outstanding - multiset{w};
    }

    /** Every handler starts with an empty list, so that an app without transactions is called as well. */
    method EmptyGroups() returns (handlerTxs: map<ChainAppIdentifier, seq<Bytes>>)
      requires Valid()
      ensures handlerTxs == map id | id in clients :: []
    {
      handlerTxs := map[];
      var rest := clients.Keys;
      while rest != {}
        invariant rest <= clients.Keys
        invariant handlerTxs.Keys == clients.Keys - rest
        invariant forall id :: id in handlerTxs ==> handlerTxs[id] == []
        decreases |rest|
      {
        var id :| id in rest;
        handlerTxs := handlerTxs[clients[id].id := []];
        rest := rest - {id};
      }
    }

    /** Takes a block apart: each handler's payloads in order, and the position each came from. */
    method GroupBlock(txs: seq<Bytes>)
      returns (ok: bool, handlerTxs: map<ChainAppIdentifier, seq<Bytes>>,
               responseSlots: map<ChainAppIdentifier, seq<nat>>)
      requires Valid()
      ensures ok <==> AllRoutable(clients.Keys, txs)
      ensures ok ==> Grouped(clients.Keys, txs, handlerTxs, responseSlots)
    {
      handlerTxs := EmptyGroups();
      responseSlots := map[];
      assert Grouped(clients.Keys, txs[..0], handlerTxs, responseSlots);
      for idx := 0 to |txs|
        invariant AllRoutable(clients.Keys, txs[..idx])
        invariant Grouped(clients.Keys, txs[..idx], handlerTxs, responseSlots)
      {
        hide Grouped;
        var hdlr := GetHandler(txs[idx]);
        if hdlr.Err? {
          return false, handlerTxs, responseSlots;
        }
        var id := hdlr.value.id;
        GroupNext(clients.Keys, txs, idx, id, handlerTxs, responseSlots);
        handlerTxs := handlerTxs[id := handlerTxs[id] + [txs[idx][HEADER_LEN..]]];
        responseSlots := responseSlots[id := SlotsOf(responseSlots, id) + [idx]];
      }
      assert txs[..|txs|] == txs;
      ok := true;
    }

    /** Sends every app its part of the block and merges the answers. The schedule of the workers, the order in
        which their replies come out of the channel, and the order of every walk over a map are arbitrary. */
    method FinalizeBlock(req: RequestBlock) returns (out: Reply<ResponseFinalizeBlock>)
      requires Valid()
      modifies this`apps, this`outstanding
      ensures Valid()
      ensures FinalizeStep(env, old(apps), old(outstanding), req, apps, outstanding, out)
    {
      hide FinalizeStep, AllRoutable, After, Values, FinalizeCalls, Registered, Grouped, Known, Counted, Surplus,
           FinalizeWorkers, PlanAnswers, MergesInSomeOrder, Slots;
      var ok, handlerTxs, responseSlots := GroupBlock(req.txs);
      if !ok {
        FinalizeUnrouted(env, apps, outstanding, req);
        return Err(NoHandlerFound);
      }
      var calls, c := Dispatch(env, clients, apps, req, handlerTxs, responseSlots);
      var err, called, resp := Collect(c, |req.txs|, req.txs, Values(calls));
      if err.Some? {
        FinalizeFails(env, apps, outstanding, req, calls, called, err.value);
        FinalizeKnown(outstanding, req, calls.Keys - called, clients.Keys);
        outstanding := outstanding + multiset(FinalizeWorkers(req, calls.Keys - called));
        apps := After(apps, calls, called);
        return Err(err.value);
      }
      FinalizeSucceeds(env, apps, outstanding, req, calls, resp);
      apps := After(apps, calls, called);
      out := Ok(resp);
    }

    /** Takes a proposal apart. Only handlers that a transaction names appear. */
    method GroupProposal(txs: seq<Bytes>) returns (ok: bool, handlerTxs: map<ChainAppIdentifier, seq<Bytes>>)
      requires Valid()
      ensures ok <==> AllRoutable(clients.Keys, txs)
      ensures ok ==> GroupedByName(clients.Keys, txs, handlerTxs)
    {
      handlerTxs := map[];
      assert GroupedByName(clients.Keys, txs[..0], handlerTxs);
      for idx := 0 to |txs|
        invariant AllRoutable(clients.Keys, txs[..idx])
        invariant GroupedByName(clients.Keys, txs[..idx], handlerTxs)
      {
        hide GroupedByName;
        var hdlr := GetHandler(txs[idx]);
        if hdlr.Err? {
          return false, handlerTxs;
        }
        var id := hdlr.value.id;
        GroupByNameNext(clients.Keys, txs, idx, id, handlerTxs);
        handlerTxs := handlerTxs[id := TxsOf(handlerTxs, id) + [txs[idx][HEADER_LEN..]]];
      }
      assert txs[..|txs|] == txs;
      ok := true;
    }

    method ProcessProposal(proposal: RequestBlock) returns (out: Reply<ProposalStatus>)
      requires Valid()
      modifies this`apps, this`outstanding
      ensures Valid()
      ensures ProposalStep(env, old(apps), old(outstanding), proposal, apps, outstanding, out)
    {
      hide ProposalStep, AllRoutable, After, ProposalCalls, Registered, GroupedByName, Counted, Surplus, Known,
           ProposalWorkers;
      var ok, handlerTxs := GroupProposal(proposal.txs);
      if !ok {
        ProposalUnrouted(env, apps, outstanding, proposal);
        return Err(NoHandlerFound);
      }
      var calls, c := DispatchProposal(env, clients, apps, proposal, handlerTxs);
      var err, called, verdict := ReceiveVerdict(c);
      ProposalEnds(env, apps, outstanding, proposal, calls, c.plan, err, called, verdict);
      ProposalKnown(outstanding, proposal, calls.Keys - called, clients.Keys);
      outstanding := outstanding + multiset(ProposalWorkers(proposal, calls.Keys - called));
      apps := After(apps, calls, called);
      out := if err.Some? then Err(err.value) else Ok(verdict);
    }

    /** The response is nil when there are no apps. */
    method InitChain(chain: InitChainRequest) returns (out: Reply<Option<ResponseInitChain>>)
      requires Valid()
      modifies this`apps, this`outstanding
      ensures Valid()
      ensures InitStep(env, clients, old(apps), old(outstanding), old(chain.message), apps, outstanding, out)
      ensures chain.message == old(chain.message)
    {
      hide InitStep, After, InitCalls, Registered, Counted, Surplus, Known, InitWorkers;
      var calls, c := DispatchInit(env, clients, apps, chain);
      var err, called, response := ReceiveInit(c);
      InitEnds(env, clients, apps, outstanding, chain.message, calls, c.plan, err, called, response);
      InitKnown(outstanding, clients, chain.message, calls.Keys - called);
      outstanding := outstanding + multiset(InitWorkers(clients, chain.message, calls.Keys - called));
      apps := After(apps, calls, called);
      out := if err.Some? then Err(err.value) else Ok(response);
    }

    method Commit() returns (out: Reply<Option<ResponseCommit>>)
      requires Valid()
      modifies this`apps
      ensures Valid()
      ensures CommitOutcome(env, old(apps), apps, out)
    {
      ghost var before, calls := apps, CommitCalls(env, apps);
      ghost var visited: seq<ChainAppIdentifier> := [];
      var response: Option<ResponseCommit> := None;
      var rest := clients.Keys;
      CommitStart(env, apps);
      hide CommittedSoFar, Registered, CommitOutcome, CommitCalls, Known;
      assert clients.Keys - rest == {};
      while rest != {}
        invariant rest <= clients.Keys == apps.Keys
        invariant CommittedSoFar(before, calls, visited, clients.Keys - rest, apps, response)
        decreases |rest|
      {
        var id :| id in rest;
        CommitNext(env, before, calls, visited, clients.Keys - rest, id, apps, response);
        var call := ChainApps.Commit(env, apps[id]);
        apps := apps[id := call.app];
        if call.reply.Err? {
          return Err(call.reply.error);
        }
        response := Some(call.reply.value);
        visited := visited + [id];
        assert clients.Keys - (rest - {id}) == clients.Keys - rest + {id};
        rest := rest - {id};
      }
      assert clients.Keys - rest == calls.Keys;
      CommitEnd(env, before, visited, apps, response);
      out := Ok(response);
    }
  }

  /** The state of the loop of Commit once the apps in `visited` have committed. */
  ghost predicate CommittedSoFar<T>(before: Apps<T>, calls: Calls<T, ResponseCommit>, visited: seq<ChainAppIdentifier>,
                                    done: set<ChainAppIdentifier>, apps: Apps<T>, response: Option<ResponseCommit>)
  {
    && IsOrder(visited, done) && done <= calls.Keys
    && (forall i :: 0 <= i < |visited| ==> calls[visited[i]].reply.Ok?)
    && apps == After(before, calls, done)
    && (if visited == [] then response == None else response == Some(calls[visited[|visited| - 1]].reply.value))
  }

  lemma CommitStart<T>(env: Env<T>, apps: Apps<T>)
    ensures CommitCalls(env, apps).Keys == apps.Keys
    ensures CommittedSoFar(apps, CommitCalls(env, apps), [], {}, apps, None)
  {
    assert apps == After(apps, CommitCalls(env, apps), {});
  }

  lemma CommitEnd<T>(env: Env<T>, before: Apps<T>, visited: seq<ChainAppIdentifier>, apps: Apps<T>,
                     response: Option<ResponseCommit>)
    requires var calls := CommitCalls(env, before); CommittedSoFar(before, calls, visited, calls.Keys, apps, response)
    ensures CommitOutcome(env, before, apps, Ok(response))
  {
    hide ChainApps.Commit;
    var calls := CommitCalls(env, before);
    assert response == LastReply(calls, visited);
    assert forall id :: id in calls ==> id in visited;
  }

  /** The next app commits, or fails to. */
  lemma CommitNext<T>(env: Env<T>, before: Apps<T>, calls: Calls<T, ResponseCommit>, visited: seq<ChainAppIdentifier>,
                      done: set<ChainAppIdentifier>, id: ChainAppIdentifier, apps: Apps<T>,
                      response: Option<ResponseCommit>)
    requires calls == CommitCalls(env, before) && CommittedSoFar(before, calls, visited, done, apps, response)
    requires id in calls && id !in done
    ensures id in apps && ChainApps.Commit(env, apps[id]) == calls[id]
    ensures apps[id := calls[id].app].Keys == apps.Keys
    ensures match calls[id].reply
            case Ok(value) =>
              CommittedSoFar(before, calls, visited + [id], done + {id}, apps[id := calls[id].app], Some(value))
            case Err(e) => CommitOutcome(env, before, apps[id := calls[id].app], Err(e))
  {
    hide ChainApps.Commit;
    assert apps[id := calls[id].app] == After(before, calls, done + {id});
    OneMoreVisited(visited, done, id);
    hide CommitCalls, IsOrder;
    if calls[id].reply.Ok? {
      CommitsOneMore(before, calls, visited, done, id, apps, response);
    } else {
      CommitFails(env, before, calls, visited, done, id, apps, response);
    }
  }

  lemma OneMoreVisited<K>(visited: seq<K>, done: set<K>, id: K)
    requires IsOrder(visited, done) && id !in done
    ensures IsOrder(visited + [id], done + {id})
    ensures (set x | x in visited + [id]) == done + {id}
  {
    var longer := visited + [id];
    assert forall i :: 0 <= i < |visited| ==> longer[i] == visited[i] && visited[i] in done;
    assert longer[|visited|] == id;
    assert forall x :: x in done ==> x in visited;
  }

  lemma CommitsOneMore<T>(before: Apps<T>, calls: Calls<T, ResponseCommit>, visited: seq<ChainAppIdentifier>,
                          done: set<ChainAppIdentifier>, id: ChainAppIdentifier, apps: Apps<T>,
                      response: Option<ResponseCommit>)
    requires CommittedSoFar(before, calls, visited, done, apps, response) && id in calls && calls[id].reply.Ok?
    requires IsOrder(visited + [id], done + {id})
    requires apps[id := calls[id].app] == After(before, calls, done + {id})
    ensures CommittedSoFar(before, calls, visited + [id], done + {id}, apps[id := calls[id].app],
              Some(calls[id].reply.value))
  {
    hide IsOrder, After;
    var longer := visited + [id];
    assert forall i :: 0 <= i < |visited| ==> longer[i] == visited[i];
    assert longer[|longer| - 1] == id;
  }

  lemma CommitFails<T>(env: Env<T>, before: Apps<T>, calls: Calls<T, ResponseCommit>, visited: seq<ChainAppIdentifier>,
                       done: set<ChainAppIdentifier>, id: ChainAppIdentifier, apps: Apps<T>,
                       response: Option<ResponseCommit>)
    requires CommittedSoFar(before, calls, visited, done, apps, response) && id in calls && calls[id].reply.Err?
    requires calls == CommitCalls(env, before)
    requires IsOrder(visited + [id], done + {id}) && (set x | x in visited + [id]) == done + {id}
    requires apps[id := calls[id].app] == After(before, calls, done + {id})
    ensures CommitOutcome(env, before, apps[id := calls[id].app], Err(calls[id].reply.error))
  {
    hide CommitCalls, After;
    var longer := visited + [id];
    assert Distinct(longer);
    assert forall x :: x in visited ==> x in calls;
    assert forall i :: 0 <= i < |visited| ==> longer[i] == visited[i] && visited[i] in visited;
    assert longer[|longer| - 1] == id;
  }
}
