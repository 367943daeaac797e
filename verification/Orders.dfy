/** Listings of a finite set, one element after the other: the shape both of a walk over a Go map and of
    the arrival of replies from concurrent workers. */
module Orders {

  /** `order` lists every element of `s` once. */
  ghost predicate IsOrder<K>(order: seq<K>, s: set<K>) {
    && (forall k :: k in order ==> k in s)
    && (forall k :: k in s ==> k in order)
    && Distinct(order)
  }

  ghost predicate Distinct<K>(order: seq<K>) {
    forall i, j :: 0 <= i < j < |order| ==> order[i] != order[j]
  }

  lemma TwiceInMultiset<K>(s: seq<K>, i: nat, j: nat)
    requires i < j < |s| && s[i] == s[j]
    ensures multiset(s)[s[i]] >= 2
  {
    assert s == s[..j] + s[j..];
    assert s[i] in multiset(s[..j]) by { assert s[..j][i] == s[i]; }
    assert s[j] in multiset(s[j..]) by { assert s[j..][0] == s[j]; }
  }

  lemma {:induction false} OnceInMultiset<K>(s: seq<K>, k: K)
    requires forall i, j :: 0 <= i < j < |s| ==> s[i] != s[j]
    ensures multiset(s)[k] <= 1
  {
    if s != [] {
      assert s == [s[0]] + s[1..];
      OnceInMultiset(s[1..], k);
      if s[0] == k {
        assert k !in s[1..];
      }
    }
  }

  /** Any listing can be arranged to begin with `front`. */
  lemma {:induction false} OrderStartingWith<K>(front: seq<K>, s: set<K>) returns (order: seq<K>)
    requires Distinct(front)
    requires forall k :: k in front ==> k in s
    ensures IsOrder(order, s)
    ensures front <= order
    decreases |s| - |front|
  {
    var named := set k | k in front;
    OrderSize(front, named);
    if s == named {
      order := front;
    } else {
      assert named <= s;
      SmallerSubset(named, s);
      var k :| k in s && k !in named;
      order := OrderStartingWith(front + [k], s);
    }
  }

  /** Any element can come last. */
  lemma EndingWith<K>(k: K, s: set<K>) returns (order: seq<K>)
    requires k in s
    ensures IsOrder(order, s) && order != [] && order[|order| - 1] == k
  {
    var others := OrderStartingWith([], s - {k});
    order := others + [k];
    assert order[|others|] == k;
  }

  lemma SmallerSubset<K>(a: set<K>, b: set<K>)
    requires a <= b && a != b
    ensures |a| < |b|
    ensures exists k :: k in b && k !in a
  {
    assert |b| == |a| + |b - a|;
    assert b == a + (b - a);
    assert b - a != {};
    var k :| k in b - a;
  }

  lemma {:induction false} OrderSize<K>(order: seq<K>, s: set<K>)
    requires IsOrder(order, s)
    ensures |order| == |s|
  {
    if order != [] {
      var k, rest := order[0], order[1..];
      forall x | x in s - {k} ensures x in rest {
        assert x in order;
      }
      OrderSize(rest, s - {k});
    }
  }
}
