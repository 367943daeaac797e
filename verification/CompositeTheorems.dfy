/** The merged app hash: what it keeps of the apps' hashes, and exactly when it tells all of them. */
module CompositeTheorems {
  import opened Abci
  import opened ChainAppIds
  import opened Routing
  import opened ChainApps
  import opened MuxSpec
  import opened MuxTheorems
  import opened MergeTheorems
  import opened ScriptedApps

  /** The hash an app answers with when it is sent its part of the block. */
  function AnsweredHash<T>(env: Env<T>, apps: Apps<T>, req: RequestBlock, id: ChainAppIdentifier): Bytes
    requires id in apps
  {
    var reply := FinalizeBlock(env, apps[id], SubRequest(req, id)).reply;
    if reply.Ok? then reply.value.appHash else []
  }

  function Hashes<T>(env: Env<T>, apps: Apps<T>, req: RequestBlock): map<ChainAppIdentifier, Bytes> {
    map id | id in apps :: AnsweredHash(env, apps, req, id)
  }

  lemma CompositeHashSplits<T>(env: Env<T>, apps1: Apps<T>, req1: RequestBlock, mid1: Apps<T>,
                               resp1: ResponseFinalizeBlock,
                               apps2: Apps<T>, req2: RequestBlock, mid2: Apps<T>, resp2: ResponseFinalizeBlock)
    requires FinalizeOutcome(env, apps1, req1, mid1, Ok(resp1)) && FinalizeOutcome(env, apps2, req2, mid2, Ok(resp2))
    requires apps1.Keys == apps2.Keys
    requires forall id :: id in apps1 ==> |AnsweredHash(env, apps1, req1, id)| == |AnsweredHash(env, apps2, req2, id)|
    ensures resp1.appHash == resp2.appHash <==>
            forall id :: id in apps1 ==> AnsweredHash(env, apps1, req1, id) == AnsweredHash(env, apps2, req2, id)
  {
    hide FinalizeOutcome, ConcatBy, AnsweredHash;
    HashIsComposite(env, apps1, req1, mid1, resp1);
    HashIsComposite(env, apps2, req2, mid2, resp2);
    ConcatInjective(SortedIds(apps1.Keys), Hashes(env, apps1, req1), Hashes(env, apps2, req2));
    assert forall id :: id in apps1 ==> id in SortedIds(apps1.Keys);
  }

  lemma HashIsComposite<T>(env: Env<T>, apps: Apps<T>, req: RequestBlock, mid: Apps<T>, resp: ResponseFinalizeBlock)
    requires FinalizeOutcome(env, apps, req, mid, Ok(resp))
    ensures resp.appHash == ConcatBy(SortedIds(apps.Keys), Hashes(env, apps, req))
  {
    hide Filled, AllRoutable, FinalizeCalls, ConcatBy, SortedIds, Values, AppHashes, AllOk, Hashes, After;
    AnsweredHashes(env, apps, req);
  }

  lemma AnsweredHashes<T>(env: Env<T>, apps: Apps<T>, req: RequestBlock)
    requires AllOk(FinalizeCalls(env, apps, req))
    ensures Values(FinalizeCalls(env, apps, req)).Keys == apps.Keys
    ensures AppHashes(Values(FinalizeCalls(env, apps, req))) == Hashes(env, apps, req)
  {
    hide FinalizeBlock;
    assert Values(FinalizeCalls(env, apps, req)).Keys == apps.Keys;
  }

  // Which lengths the hashes may have

  type Lengths = map<ChainAppIdentifier, nat>

  function SumOf(order: seq<ChainAppIdentifier>, lengths: Lengths): nat {
    if |order| == 0 then 0
    else
      var n := |order| - 1;
      SumOf(order[..n], lengths) + if order[n] in lengths then lengths[order[n]] else 0
  }

  ghost predicate Cover(order: seq<ChainAppIdentifier>, profiles: iset<Lengths>) {
    forall p, id :: p in profiles && id in order ==> id in p
  }

  /** The lists of the apps in `order` have the lengths of one of the profiles. */
  ghost predicate Fits<X>(order: seq<ChainAppIdentifier>, lists: map<ChainAppIdentifier, seq<X>>, p: Lengths) {
    forall id :: id in order ==> id in lists && id in p && |lists[id]| == p[id]
  }

  /** Profiles of the same total length are the same. */
  ghost predicate Separated(order: seq<ChainAppIdentifier>, profiles: iset<Lengths>)
    requires Cover(order, profiles)
  {
    forall p, q :: p in profiles && q in profiles && SumOf(order, p) == SumOf(order, q) ==>
                     forall id :: id in order ==> p[id] == q[id]
  }

  /** Lists whose lengths fit the profiles can be read off their merge. */
  ghost predicate ReadBack<X(!new)>(order: seq<ChainAppIdentifier>, profiles: iset<Lengths>) {
    forall l1: map<ChainAppIdentifier, seq<X>>, l2: map<ChainAppIdentifier, seq<X>>, p, q ::
      && p in profiles && q in profiles && Fits(order, l1, p) && Fits(order, l2, q)
      && ConcatBy(order, l1) == ConcatBy(order, l2) ==>
        forall id :: id in order ==> l1[id] == l2[id]
  }

  lemma {:induction false} FittingLength<X>(order: seq<ChainAppIdentifier>, lists: map<ChainAppIdentifier, seq<X>>,
                                            p: Lengths)
    requires Fits(order, lists, p)
    ensures |ConcatBy(order, lists)| == SumOf(order, p)
  {
    if order != [] {
      var n := |order| - 1;
      assert order == order[..n] + [order[n]];
      FittingLength(order[..n], lists, p);
    }
  }

  lemma SeparatedReads<X>(order: seq<ChainAppIdentifier>, profiles: iset<Lengths>,
                          l1: map<ChainAppIdentifier, seq<X>>, l2: map<ChainAppIdentifier, seq<X>>,
                          p: Lengths, q: Lengths)
    requires Cover(order, profiles) && Separated(order, profiles) && p in profiles && q in profiles
    requires Fits(order, l1, p) && Fits(order, l2, q) && ConcatBy(order, l1) == ConcatBy(order, l2)
    ensures forall id :: id in order ==> l1[id] == l2[id]
  {
    hide ConcatBy, SumOf;
    FittingLength(order, l1, p);
    FittingLength(order, l2, q);
    ConcatInjective(order, l1, l2);
  }

  /** Lists of nothing but `x`, with the lengths of a profile. */
  function Uniform<X>(order: seq<ChainAppIdentifier>, x: X, p: Lengths): map<ChainAppIdentifier, seq<X>> {
    map id | id in order && id in p :: seq(p[id], _ => x)
  }

  lemma {:induction false} UniformConcat<X>(order: seq<ChainAppIdentifier>, lists: map<ChainAppIdentifier, seq<X>>,
                                            x: X, p: Lengths)
    requires forall id :: id in order ==> id in p && id in lists && lists[id] == seq(p[id], _ => x)
    ensures ConcatBy(order, lists) == seq(SumOf(order, p), _ => x)
  {
    if order != [] {
      var n := |order| - 1;
      assert order == order[..n] + [order[n]];
      UniformConcat(order[..n], lists, x, p);
    }
  }

  /** Two profiles whose uniform lists have the same merge. */
  lemma Confused<X>(order: seq<ChainAppIdentifier>, profiles: iset<Lengths>, x: X)
    returns (p: Lengths, q: Lengths, id: ChainAppIdentifier)
    requires Cover(order, profiles) && !Separated(order, profiles)
    ensures p in profiles && q in profiles && id in order
    ensures Fits(order, Uniform(order, x, p), p) && Fits(order, Uniform(order, x, q), q)
    ensures ConcatBy(order, Uniform(order, x, p)) == ConcatBy(order, Uniform(order, x, q))
    ensures Uniform(order, x, p).Keys == Uniform(order, x, q).Keys == set k | k in order
    ensures |Uniform(order, x, p)[id]| != |Uniform(order, x, q)[id]|
  {
    p, q :| p in profiles && q in profiles && SumOf(order, p) == SumOf(order, q)
            && exists id :: id in order && p[id] != q[id];
    id :| id in order && p[id] != q[id];
    hide SumOf, ConcatBy;
    UniformConcat(order, Uniform(order, x, p), x, p);
    UniformConcat(order, Uniform(order, x, q), x, q);
  }

  /** Which lengths the apps' lists may have decides whether a merge tells every list: exactly when no two of the
      possible assignments of lengths have the same sum. */
  lemma ReadBackIff<X(!new)>(order: seq<ChainAppIdentifier>, profiles: iset<Lengths>, x: X)
    requires Cover(order, profiles)
    ensures Separated(order, profiles) <==> ReadBack<X>(order, profiles)
  {
    hide SumOf, ConcatBy, Separated, Uniform;
    if Separated(order, profiles) {
      forall l1: map<ChainAppIdentifier, seq<X>>, l2: map<ChainAppIdentifier, seq<X>>, p, q
        | && p in profiles && q in profiles && Fits(order, l1, p) && Fits(order, l2, q)
          && ConcatBy(order, l1) == ConcatBy(order, l2)
        ensures forall id :: id in order ==> l1[id] == l2[id]
      {
        SeparatedReads(order, profiles, l1, l2, p, q);
      }
    } else {
      var p, q, id := Confused(order, profiles, x);
      assert Uniform(order, x, p)[id] != Uniform(order, x, q)[id];
    }
  }

  /** A FinalizeBlock that succeeded: the apps before and after it, the request and the response. */
  datatype Finalized<T> = Finalized(apps: Apps<T>, req: RequestBlock, mid: Apps<T>, resp: ResponseFinalizeBlock)

  function HashesIn<T>(env: Env<T>, f: Finalized<T>): map<ChainAppIdentifier, Bytes> {
    Hashes(env, f.apps, f.req)
  }

  ghost predicate Happened<T>(env: Env<T>, f: Finalized<T>, ids: set<ChainAppIdentifier>) {
    f.apps.Keys == ids && FinalizeOutcome(env, f.apps, f.req, f.mid, Ok(f.resp))
  }

  /** Two calls whose composite hashes are equal had equal hashes from every app, given what lengths are possible. */
  ghost predicate CompositeTells<T(!new)>(ids: set<ChainAppIdentifier>, profiles: iset<Lengths>) {
    forall env: Env<T>, f1: Finalized<T>, f2: Finalized<T>, p, q ::
      && Happened(env, f1, ids) && Happened(env, f2, ids)
      && p in profiles && q in profiles
      && Fits(SortedIds(ids), HashesIn(env, f1), p) && Fits(SortedIds(ids), HashesIn(env, f2), q)
      && f1.resp.appHash == f2.resp.appHash ==>
        HashesIn(env, f1) == HashesIn(env, f2)
  }

  lemma CompositeOf<T>(env: Env<T>, f: Finalized<T>, ids: set<ChainAppIdentifier>)
    requires Happened(env, f, ids)
    ensures HashesIn(env, f).Keys == ids && f.resp.appHash == ConcatBy(SortedIds(ids), HashesIn(env, f))
  {
    hide FinalizeOutcome, ConcatBy, SortedIds, AnsweredHash;
    HashIsComposite(env, f.apps, f.req, f.mid, f.resp);
  }

  /** For apps of any kind. */
  lemma SeparatedTells<T(!new)>(ids: set<ChainAppIdentifier>, profiles: iset<Lengths>)
    requires Cover(SortedIds(ids), profiles) && Separated(SortedIds(ids), profiles)
    ensures CompositeTells<T>(ids, profiles)
  {
    hide FinalizeOutcome, ConcatBy, Fits, Separated, HashesIn, Happened;
    forall env: Env<T>, f1: Finalized<T>, f2: Finalized<T>, p, q
      | && Happened(env, f1, ids) && Happened(env, f2, ids)
        && p in profiles && q in profiles
        && Fits(SortedIds(ids), HashesIn(env, f1), p) && Fits(SortedIds(ids), HashesIn(env, f2), q)
        && f1.resp.appHash == f2.resp.appHash
      ensures HashesIn(env, f1) == HashesIn(env, f2)
    {
      CompositeOf(env, f1, ids);
      CompositeOf(env, f2, ids);
      SeparatedReads(SortedIds(ids), profiles, HashesIn(env, f1), HashesIn(env, f2), p, q);
      assert forall id :: id in ids ==> id in SortedIds(ids);
    }
  }

  /** The composite hash tells every app's hash exactly when no two of the possible assignments of hash lengths to the
      apps have the same sum; fixed lengths are the case of a single assignment. */
  lemma CompositeTellsIff(ids: set<ChainAppIdentifier>, profiles: iset<Lengths>, info: BlockInfo)
    requires Cover(SortedIds(ids), profiles)
    ensures Separated(SortedIds(ids), profiles) <==> CompositeTells<Script>(ids, profiles)
  {
    hide Separated, CompositeTells;
    if Separated(SortedIds(ids), profiles) {
      SeparatedTells<Script>(ids, profiles);
    } else {
      NotTold(ids, profiles, info);
    }
  }

  lemma NotTold(ids: set<ChainAppIdentifier>, profiles: iset<Lengths>, info: BlockInfo)
    requires Cover(SortedIds(ids), profiles) && !Separated(SortedIds(ids), profiles)
    ensures !CompositeTells<Script>(ids, profiles)
  {
    var order, zero: byte := SortedIds(ids), 0;
    assert (set k | k in order) == ids;
    hide *;
    var p, q, id := Confused(order, profiles, zero);
    var l1, l2 := Uniform(order, zero, p), Uniform(order, zero, q);
    var f1 := HashesAsTold(ids, l1, info);
    var f2 := HashesAsTold(ids, l2, info);
    CompositeOf(Scripted(), f1, ids);
    CompositeOf(Scripted(), f2, ids);
    Mistaken(Scripted(), ids, profiles, f1, f2, p, q, id);
  }

  lemma Mistaken<T(!new)>(env: Env<T>, ids: set<ChainAppIdentifier>, profiles: iset<Lengths>, f1: Finalized<T>,
                          f2: Finalized<T>, p: Lengths, q: Lengths, id: ChainAppIdentifier)
    requires Happened(env, f1, ids) && Happened(env, f2, ids) && p in profiles && q in profiles
    requires Fits(SortedIds(ids), HashesIn(env, f1), p) && Fits(SortedIds(ids), HashesIn(env, f2), q)
    requires f1.resp.appHash == f2.resp.appHash
    requires id in HashesIn(env, f1) && id in HashesIn(env, f2) && |HashesIn(env, f1)[id]| != |HashesIn(env, f2)[id]|
    ensures !CompositeTells<T>(ids, profiles)
  {
    hide Happened, Fits, HashesIn;
  }

  /** Apps that answer an empty block with any hashes one may wish for. */
  lemma HashesAsTold(ids: set<ChainAppIdentifier>, hashes: map<ChainAppIdentifier, Bytes>, info: BlockInfo)
    returns (f: Finalized<Script>)
    requires hashes.Keys == ids
    ensures Happened(Scripted(), f, ids) && HashesIn(Scripted(), f) == hashes
  {
    var apps: Apps<Script> := map id | id in ids :: Other(Hashing(hashes[id]));
    var req := RequestBlock([], info);
    hide FinalizeBlock, Scripted, FinalizeOutcome, AnsweredHash, SubRequest;
    forall id | id in ids
      ensures FinalizeBlock(Scripted(), apps[id], SubRequest(req, id)).reply.Ok?
      ensures AnsweredHash(Scripted(), apps, req, id) == hashes[id]
    {
      Told(apps, req, id, hashes[id]);
    }
    assert Hashes(Scripted(), apps, req) == hashes;
    hide Hashes, Hashing;
    f := SucceedsWith(Scripted(), apps, req);
  }

  lemma SucceedsWith<T>(env: Env<T>, apps: Apps<T>, req: RequestBlock) returns (f: Finalized<T>)
    requires req.txs == []
    requires forall id :: id in apps ==> FinalizeBlock(env, apps[id], SubRequest(req, id)).reply.Ok?
    ensures Happened(env, f, apps.Keys) && f.apps == apps && f.req == req
  {
    hide FinalizeBlock, FinalizeOutcome, SubRequest;
    assert AllOk(FinalizeCalls(env, apps, req));
    hide FinalizeCalls, AllOk;
    var mid, out := FinalizeHasOutcome(env, apps, req);
    f := Finalized(apps, req, mid, out.value);
  }

  lemma Told(apps: Apps<Script>, req: RequestBlock, id: ChainAppIdentifier, hash: Bytes)
    requires id in apps && apps[id] == Other(Hashing(hash))
    ensures FinalizeBlock(Scripted(), apps[id], SubRequest(req, id)).reply.Ok?
    ensures AnsweredHash(Scripted(), apps, req, id) == hash
  {
    hide SubBlock;
  }

  /** Without fixed lengths the composite hash can be read in two ways. */
  lemma CompositeAmbiguous()
    ensures var a, b := [0, 0, 0, 1], [0, 0, 0, 2];
            var h1: map<ChainAppIdentifier, Bytes> := map[a := [7], b := [8, 9]];
            var h2: map<ChainAppIdentifier, Bytes> := map[a := [7, 8], b := [9]];
            ConcatBy([a, b], h1) == ConcatBy([a, b], h2) && h1[a] != h2[a]
  {
    var a: ChainAppIdentifier, b: ChainAppIdentifier := [0, 0, 0, 1], [0, 0, 0, 2];
    assert a[3] != b[3];
    var h1: map<ChainAppIdentifier, Bytes> := map[a := [7], b := [8, 9]];
    var h2: map<ChainAppIdentifier, Bytes> := map[a := [7, 8], b := [9]];
    PairConcat(a, b, h1);
    PairConcat(a, b, h2);
    assert h1[a] + h1[b] == [7, 8, 9] == h2[a] + h2[b];
    assert |h1[a]| != |h2[a]|;
  }
}
