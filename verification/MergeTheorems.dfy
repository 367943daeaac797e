/** What the merge of FinalizeBlock keeps of the apps' answers, and what its coming to an end rests on. */
module MergeTheorems {
  import opened ChainAppIds
  import opened Routing
  import opened MuxSpec
  import opened FanOut
  import opened FanOutTheorems

  // Concatenated lists

  lemma {:induction false} ConcatSplit<X>(a: seq<ChainAppIdentifier>, b: seq<ChainAppIdentifier>,
                                          lists: map<ChainAppIdentifier, seq<X>>)
    ensures ConcatBy(a + b, lists) == ConcatBy(a, lists) + ConcatBy(b, lists)
  {
    if b == [] {
      assert a + b == a;
    } else {
      var n := |b| - 1;
      assert (a + b)[..|a + b| - 1] == a + b[..n];
      ConcatSplit(a, b[..n], lists);
    }
  }

  lemma SingleConcat<X>(x: ChainAppIdentifier, lists: map<ChainAppIdentifier, seq<X>>)
    requires x in lists
    ensures ConcatBy([x], lists) == lists[x]
  {
    assert [x][..0] == [];
    assert [] + lists[x] == lists[x];
  }

  lemma PairConcat<X>(a: ChainAppIdentifier, b: ChainAppIdentifier, lists: map<ChainAppIdentifier, seq<X>>)
    requires a in lists && b in lists
    ensures ConcatBy([a, b], lists) == lists[a] + lists[b]
  {
    SingleConcat(a, lists);
    assert [a, b][..1] == [a];
  }

  function TotalLength<X>(order: seq<ChainAppIdentifier>, lists: map<ChainAppIdentifier, seq<X>>): nat {
    if |order| == 0 then 0
    else
      var n := |order| - 1;
      TotalLength(order[..n], lists) + if order[n] in lists then |lists[order[n]]| else 0
  }

  /** A merge has the summed length of the lists, and each app's list lies whole in it, behind those of the apps that
      come earlier in the order. */
  lemma {:induction false} ConcatSlice<X>(order: seq<ChainAppIdentifier>, lists: map<ChainAppIdentifier, seq<X>>,
                                          k: nat)
    requires k < |order| && order[k] in lists
    ensures |ConcatBy(order, lists)| == TotalLength(order, lists)
    ensures var start := TotalLength(order[..k], lists);
            && start + |lists[order[k]]| <= |ConcatBy(order, lists)|
            && ConcatBy(order, lists)[start..start + |lists[order[k]]|] == lists[order[k]]
    decreases |order|
  {
    var n := |order| - 1;
    var front := order[..n];
    ConcatLength(front, lists);
    if k < n {
      assert front[..k] == order[..k];
      ConcatSlice(front, lists, k);
    }
  }

  lemma {:induction false} ConcatLength<X>(order: seq<ChainAppIdentifier>, lists: map<ChainAppIdentifier, seq<X>>)
    ensures |ConcatBy(order, lists)| == TotalLength(order, lists)
  {
    if order != [] {
      ConcatLength(order[..|order| - 1], lists);
    }
  }

  /** The merged app hash loses nothing: two merges over the same apps, with hashes of the same length app by app, are
      equal exactly when every app's hash is. The same goes for validator updates and events. */
  lemma {:induction false} ConcatInjective<X>(order: seq<ChainAppIdentifier>, l1: map<ChainAppIdentifier, seq<X>>,
                                              l2: map<ChainAppIdentifier, seq<X>>)
    requires forall id :: id in order ==> id in l1 && id in l2 && |l1[id]| == |l2[id]|
    ensures |ConcatBy(order, l1)| == |ConcatBy(order, l2)|
    ensures ConcatBy(order, l1) == ConcatBy(order, l2) <==> forall id :: id in order ==> l1[id] == l2[id]
  {
    if order != [] {
      var n := |order| - 1;
      var c1, c2 := ConcatBy(order[..n], l1), ConcatBy(order[..n], l2);
      ConcatInjective(order[..n], l1, l2);
      assert order == order[..n] + [order[n]];
      assert (c1 + l1[order[n]])[..|c1|] == c1 && (c1 + l1[order[n]])[|c1|..] == l1[order[n]];
      assert (c2 + l2[order[n]])[..|c2|] == c2 && (c2 + l2[order[n]])[|c2|..] == l2[order[n]];
    }
  }

  // The WaitGroup of FinalizeBlock

  ghost predicate DistinctIds(clients: Clients) {
    forall a, b :: a in clients && b in clients && clients[a].id == clients[b].id ==> a == b
  }

  ghost predicate IdsAreKeys(clients: Clients) {
    forall k :: k in clients ==> clients[k].id in clients
  }

  /** FinalizeBlock starts the WaitGroup at the number of handlers but one worker per identifier. Its receive loop
      can end without an error, by the closing of the channel, exactly when no two handlers have the same identifier.
      An identifier that is no key of the map stops the call before the loop, at a nil handler. Registration rules
      out both. */
  lemma FinalizeEndsIff<M(!new)>(clients: Clients, c: Config<ChainAppIdentifier, M>)
    requires IdsAreKeys(clients)
    requires c.plan.Keys == (set k | k in clients :: clients[k].id)
    requires c.added == c.capacity == |clients| && !c.perSpawn
    ensures DistinctIds(clients) <==>
            exists s: State<ChainAppIdentifier, M> :: Reachable(c, s) && s.waiter == Closed
  {
    hide Reachable, IdsAreKeys;
    ImageSize(clients, clients.Keys);
    assert c.plan.Keys == set k | k in clients.Keys :: clients[k].id;
    assert |c.plan| == |c.plan.Keys| && |clients| == |clients.Keys|;
    ClosesIffCounted(c);
  }

  lemma {:induction false} ImageSize(clients: Clients, keys: set<ChainAppIdentifier>)
    requires keys <= clients.Keys
    ensures var image := set k | k in keys :: clients[k].id;
            && |image| <= |keys|
            && (|image| == |keys| <==>
                forall a, b :: a in keys && b in keys && clients[a].id == clients[b].id ==> a == b)
  {
    if keys != {} {
      var x :| x in keys;
      var rest := keys - {x};
      ImageSize(clients, rest);
      var image, smaller := set k | k in keys :: clients[k].id, set k | k in rest :: clients[k].id;
      assert image == smaller + {clients[x].id};
      if clients[x].id in smaller {
        assert image == smaller;
      } else {
        assert |image| == |smaller| + 1;
      }
    }
  }
}
