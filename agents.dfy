/**
 * What every agent variant shares: a stable handle per sheep and the snapshot of the
 * sheep transforms that one physics tick reads.
 */
module Agents {
  import opened Geometry

  /** Stable handle of a sheep; object identity (`neighbor == this`) is handle equality. */
  type AgentId = nat

  /** A sheep's `transform`: its `position` and its `forward` heading. */
  datatype Pose = Pose(position: Vec3, forward: Vec3)

  /**
   * The transforms of all sheep as they stand during one tick. Physics integrates
   * velocities only after every `FixedUpdate` of the tick, so all agents of a tick
   * read the same snapshot.
   */
  type World = AgentId -> Pose

  predicate NoDups<T(==)>(s: seq<T>) {
    forall i, j :: 0 <= i < j < |s| ==> s[i] != s[j]
  }

  /** `a` occurs in `s` before some occurrence of `b`. */
  ghost predicate OrderedPair<T>(s: seq<T>, a: T, b: T) {
    exists p, q :: 0 <= p < q < |s| && s[p] == a && s[q] == b
  }

  /** Any two entries of `r` occur in `s` in the same relative order. */
  ghost predicate KeepsOrder<T>(r: seq<T>, s: seq<T>) {
    forall i, j :: 0 <= i < j < |r| ==> OrderedPair(s, r[i], r[j])
  }

  /**
   * Order is kept when one more entry joins the end of `s`, and also when it joins the
   * end of `r` as well, provided every entry of `r` comes from `s`.
   */
  lemma KeepsOrderExtend<T>(r: seq<T>, s: seq<T>, x: T)
    requires KeepsOrder(r, s) && forall y :: y in r ==> y in s
    ensures KeepsOrder(r, s + [x]) && KeepsOrder(r + [x], s + [x])
  {
    forall a, b | OrderedPair(s, a, b)
      ensures OrderedPair(s + [x], a, b)
    {
      var p, q :| 0 <= p < q < |s| && s[p] == a && s[q] == b;
      assert (s + [x])[p] == a && (s + [x])[q] == b;
    }
    forall i | 0 <= i < |r|
      ensures OrderedPair(s + [x], r[i], x)
    {
      assert r[i] in s;
      var p :| 0 <= p < |s| && s[p] == r[i];
      assert (s + [x])[p] == r[i] && (s + [x])[|s|] == x;
    }
    assert forall i :: 0 <= i < |r| ==> (r + [x])[i] == r[i];
  }

  lemma NoDupsPrefix<T>(s: seq<T>, n: nat)
    requires NoDups(s) && n <= |s|
    ensures NoDups(s[..n])
  {
  }

  /** In a sequence without duplicates every element occurs exactly once. */
  lemma {:induction false} NoDupsOccursOnce<T>(s: seq<T>, a: T)
    requires NoDups(s) && a in s
    ensures multiset(s)[a] == 1
  {
    var n := |s|;
    var init, last := s[..n - 1], s[n - 1];
    assert s == init + [last];
    assert NoDups(init);
    if a == last {
      assert a !in init;
      assert multiset(init)[a] == 0;
    } else {
      assert a in init;
      NoDupsOccursOnce(init, a);
    }
    assert multiset(s) == multiset(init) + multiset{last};
  }

  /** Two lists without duplicates that hold the same elements are permutations of each other. */
  lemma NoDupsSameMembers<T>(a: seq<T>, b: seq<T>)
    requires NoDups(a) && NoDups(b)
    requires forall x :: x in a <==> x in b
    ensures multiset(a) == multiset(b)
  {
    forall x
      ensures multiset(a)[x] == multiset(b)[x]
    {
      if x in a {
        NoDupsOccursOnce(a, x);
        NoDupsOccursOnce(b, x);
      }
    }
  }

  lemma NoDupsAppend<T>(a: seq<T>, b: seq<T>)
    requires NoDups(a) && NoDups(b)
    requires forall x :: x in a ==> x !in b
    ensures NoDups(a + b)
  {
    var s := a + b;
    forall i, j | 0 <= i < j < |s|
      ensures s[i] != s[j]
    {
      if i < |a| && j >= |a| {
        assert s[i] in a && s[j] == b[j - |a|];
      }
    }
  }
}
