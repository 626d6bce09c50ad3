/** Facts about sequences of process, descriptor and page indices that the queue proofs share. */
module Sequences {

  ghost predicate NoDup<T>(s: seq<T>) {
    forall i, j :: 0 <= i < j < |s| ==> s[i] != s[j]
  }

  function ToSet<T>(s: seq<T>): set<T> {
    set x | x in s
  }

  /** `s` without the members of `dead`, in the same order. */
  function Minus(s: seq<nat>, dead: set<nat>): (r: seq<nat>)
    ensures forall x :: x in r <==> x in s && x !in dead
    ensures |r| <= |s|
  {
    if s == [] then []
    else if s[0] in dead then Minus(s[1..], dead)
    else [s[0]] + Minus(s[1..], dead)
  }

  lemma {:induction false} MinusAppend(s: seq<nat>, t: seq<nat>, dead: set<nat>)
    ensures Minus(s + t, dead) == Minus(s, dead) + Minus(t, dead)
  {
    if s == [] {
      assert s + t == t;
    } else {
      assert (s + t)[1..] == s[1..] + t;
      MinusAppend(s[1..], t, dead);
    }
  }

  lemma {:induction false} MinusNone(s: seq<nat>, dead: set<nat>)
    requires forall x :: x in s ==> x !in dead
    ensures Minus(s, dead) == s
  {
    if s != [] {
      MinusNone(s[1..], dead);
    }
  }

  lemma {:induction false} MinusMinus(s: seq<nat>, a: set<nat>, b: set<nat>)
    ensures Minus(Minus(s, a), b) == Minus(s, a + b)
  {
    if s != [] {
      MinusMinus(s[1..], a, b);
      if s[0] !in a {
        assert ([s[0]] + Minus(s[1..], a))[1..] == Minus(s[1..], a);
      }
    }
  }

  lemma {:induction false} MinusNoDup(s: seq<nat>, dead: set<nat>)
    requires NoDup(s)
    ensures NoDup(Minus(s, dead))
  {
    if s != [] {
      MinusNoDup(s[1..], dead);
    }
  }

  /** Taking one element out of a duplicate-free sequence splices its position out. */
  lemma {:induction false} MinusAt(s: seq<nat>, k: nat)
    requires NoDup(s) && k < |s|
    ensures Minus(s, {s[k]}) == s[..k] + s[k + 1..]
  {
    assert s == s[..k] + ([s[k]] + s[k + 1..]);
    MinusAppend(s[..k], [s[k]] + s[k + 1..], {s[k]});
    MinusAppend([s[k]], s[k + 1..], {s[k]});
    MinusNone(s[..k], {s[k]});
    MinusNone(s[k + 1..], {s[k]});
  }

  lemma {:induction false} MinusAllGone(s: seq<nat>, dead: set<nat>)
    requires forall x :: x in s ==> x in dead
    ensures Minus(s, dead) == []
  {
    if s != [] {
      MinusAllGone(s[1..], dead);
    }
  }

  /** Dropping a prefix's members from a sequence leaves the rest. */
  lemma MinusPrefix(s: seq<nat>, j: nat, dead: set<nat>)
    requires j <= |s|
    requires forall x :: x in s[..j] ==> x in dead
    requires forall x :: x in s[j..] ==> x !in dead
    ensures Minus(s, dead) == s[j..]
  {
    assert s == s[..j] + s[j..];
    MinusAppend(s[..j], s[j..], dead);
    MinusAllGone(s[..j], dead);
    MinusNone(s[j..], dead);
  }

  lemma {:induction false} NoDupCardinality<T>(s: seq<T>)
    requires NoDup(s)
    ensures |ToSet(s)| == |s|
  {
    if s == [] {
      assert ToSet(s) == {};
    } else {
      NoDupCardinality(s[1..]);
      assert ToSet(s) == {s[0]} + ToSet(s[1..]);
    }
  }

  function Below(n: nat): (r: set<nat>)
    ensures forall i: nat :: i in r <==> i < n
    ensures |r| == n
  {
    if n == 0 then {} else Below(n - 1) + {n - 1}
  }

  lemma SubsetCardinality<T>(a: set<T>, b: set<T>)
    requires a <= b
    ensures |a| <= |b|
  {
    assert b == a + (b - a);
  }

  lemma HeadLeaves(s: seq<nat>)
    requires NoDup(s) && s != []
    ensures NoDup(s[1..]) && forall x: nat :: x in s[1..] <==> x in s && x != s[0]
  {
  }

  lemma NoDupAppend(s: seq<nat>, t: seq<nat>)
    requires NoDup(s) && NoDup(t) && forall x: nat :: x in s ==> x !in t
    ensures NoDup(s + t)
  {
    forall i, j | 0 <= i < j < |s + t|
      ensures (s + t)[i] != (s + t)[j]
    {
      if i < |s| <= j {
        assert (s + t)[i] in s && (s + t)[j] in t;
      }
    }
  }
}
