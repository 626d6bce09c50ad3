/**
 The intrusive circular lists of os/include/os/list.h and os/include/os/util.h.

 A list_head cell lives either inside a table entry (`Elem(i)`) or on its own as a list's sentinel
 (`Head(h)`). The class keeps the cells as the C program does, and a ghost map `rings` that says
 which sequence of table entries each sentinel's list holds. Every operation is specified by what it
 does to that one sequence; all other lists keep theirs.
 */
module Lists {
  import opened Options
  import opened Sequences

  datatype Addr<H> = Null | Elem(i: nat) | Head(h: H)

  datatype Cell<H> = Cell(next: Addr<H>, prev: Addr<H>)

  type Memory<H(==)> = map<Addr<H>, Cell<H>>

  /** The k-th address met on the closed walk from sentinel `h` through `s` and back. */
  function AddressAt<H>(h: H, s: seq<nat>, k: int): Addr<H> {
    if 1 <= k <= |s| then Elem(s[k - 1]) else Head(h)
  }

  ghost predicate Linked<H>(m: Memory<H>, a: Addr<H>, b: Addr<H>) {
    a in m && b in m && m[a].next == b && m[b].prev == a
  }

  /** The cells form one circular list: `h`, then `s` in order, then `h` again. */
  ghost predicate Ring<H>(m: Memory<H>, h: H, s: seq<nat>) {
    && NoDup(s)
    && forall k, l :: 0 <= k <= |s| && l == k + 1 ==> Linked(m, AddressAt(h, s, k), AddressAt(h, s, l))
  }

  /** No table entry is on two lists. */
  ghost predicate Disjoint<H>(rings: map<H, seq<nat>>) {
    forall g, h, x :: g in rings && h in rings && x in rings[g] && x in rings[h] ==> g == h
  }

  ghost predicate OnSome<H>(rings: map<H, seq<nat>>, x: nat) {
    exists h :: h in rings && x in rings[h]
  }

  ghost predicate WellFormed<H>(m: Memory<H>, rings: map<H, seq<nat>>) {
    && (forall h :: h in rings ==> Ring(m, h, rings[h]))
    && Disjoint(rings)
  }

  /** The four stores of __list_add, in the program's order. */
  function Spliced<H(==)>(m: Memory<H>, x: nat, p: Addr<H>, n: Addr<H>): Memory<H>
    requires p in m && n in m && Elem(x) in m
  {
    var m1 := m[n := m[n].(prev := Elem(x))];
    var m2 := m1[Elem(x) := m1[Elem(x)].(next := n)];
    var m3 := m2[Elem(x) := m2[Elem(x)].(prev := p)];
    m3[p := m3[p].(next := Elem(x))]
  }

  /** The two stores of __list_del, in the program's order. */
  function Bridged<H(==)>(m: Memory<H>, p: Addr<H>, n: Addr<H>): Memory<H>
    requires p in m && n in m
  {
    var m1 := m[n := m[n].(prev := p)];
    m1[p := m1[p].(next := n)]
  }

  lemma RingAddresses<H>(m: Memory<H>, h: H, s: seq<nat>, k: nat)
    requires Ring(m, h, s) && k <= |s|
    ensures AddressAt(h, s, k) in m && m[AddressAt(h, s, k)].next == AddressAt(h, s, k + 1)
    ensures AddressAt(h, s, k + 1) in m && m[AddressAt(h, s, k + 1)].prev == AddressAt(h, s, k)
  {
  }

  /** Splicing an unlisted entry in after position `k` inserts it there. */
  lemma SpliceInserts<H>(m: Memory<H>, h: H, s: seq<nat>, k: nat, x: nat)
    requires Ring(m, h, s) && k <= |s| && x !in s && Elem(x) in m
    requires AddressAt(h, s, k) in m && AddressAt(h, s, k + 1) in m
    ensures Ring(Spliced(m, x, AddressAt(h, s, k), AddressAt(h, s, k + 1)), h, s[..k] + [x] + s[k..])
  {
    var t := s[..k] + [x] + s[k..];
    var m' := Spliced(m, x, AddressAt(h, s, k), AddressAt(h, s, k + 1));
    forall i, j | 0 <= i <= |t| && j == i + 1
      ensures Linked(m', AddressAt(h, t, i), AddressAt(h, t, j))
    {
      if i < k {
        RingAddresses(m, h, s, i);
      } else if i > k + 1 {
        RingAddresses(m, h, s, i - 1);
      }
    }
  }

  /** Bridging over position `k` removes the entry there. */
  lemma BridgeRemoves<H>(m: Memory<H>, h: H, s: seq<nat>, k: nat)
    requires Ring(m, h, s) && k < |s|
    requires AddressAt(h, s, k) in m && AddressAt(h, s, k + 2) in m
    ensures Ring(Bridged(m, AddressAt(h, s, k), AddressAt(h, s, k + 2)), h, s[..k] + s[k + 1..])
  {
    var t := s[..k] + s[k + 1..];
    var m' := Bridged(m, AddressAt(h, s, k), AddressAt(h, s, k + 2));
    forall i, j | 0 <= i <= |t| && j == i + 1
      ensures Linked(m', AddressAt(h, t, i), AddressAt(h, t, j))
    {
      if i < k {
        RingAddresses(m, h, s, i);
      } else if i > k {
        RingAddresses(m, h, s, i + 1);
      }
    }
  }

  /** A list none of whose cells were written keeps its contents. */
  lemma RingFrame<H>(m: Memory<H>, m': Memory<H>, h: H, s: seq<nat>)
    requires Ring(m, h, s)
    requires forall a :: (a == Head(h) || (a.Elem? && a.i in s)) && a in m ==> a in m' && m'[a] == m[a]
    ensures Ring(m', h, s)
  {
  }

  /** Rewriting the list of `h` alone: every other list stays put when its cells do. */
  lemma OthersKept<H>(m: Memory<H>, m': Memory<H>, rings: map<H, seq<nat>>, h: H, t: seq<nat>)
    requires WellFormed(m, rings) && Ring(m', h, t)
    requires forall x, g :: x in t && g in rings && x in rings[g] ==> g == h
    requires m.Keys <= m'.Keys
    requires forall a :: a in m && m'[a] != m[a] ==>
      || a == Head(h)
      || (a.Elem? && forall g :: g in rings && a.i in rings[g] ==> g == h)
    ensures WellFormed(m', rings[h := t])
  {
  }

  /** Entries on no list, other than `loose`, have null pointers. */
  ghost predicate TidyIn<H>(m: Memory<H>, rings: map<H, seq<nat>>, loose: set<nat>) {
    forall x: nat :: Elem(x) in m && x !in loose && !OnSome(rings, x) ==> m[Elem(x)] == Cell(Null, Null)
  }

  lemma TidyAfter<H>(m: Memory<H>, m': Memory<H>, rings: map<H, seq<nat>>, h: H, t: seq<nat>, loose: set<nat>, loose': set<nat>)
    requires TidyIn(m, rings, loose)
    requires forall x: nat :: Elem(x) in m' <==> Elem(x) in m
    requires forall x: nat :: Elem(x) in m && x !in t && (h in rings ==> x !in rings[h]) ==> m'[Elem(x)] == m[Elem(x)]
    requires forall x :: h in rings && x in rings[h] && x !in t ==> x in loose'
    requires forall x :: x in loose && x !in loose' ==> x in t
    ensures TidyIn(m', rings[h := t], loose')
  {
    forall x: nat | Elem(x) in m' && x !in loose' && !OnSome(rings[h := t], x)
      ensures m'[Elem(x)] == Cell(Null, Null)
    {
      assert x !in t by {
        assert h in rings[h := t];
      }
      assert forall g :: g in rings && x in rings[g] ==> g == h || g in rings[h := t];
      assert !OnSome(rings, x);
    }
  }

  class Links<H(==)> {
    var cells: Memory<H>
    ghost var rings: map<H, seq<nat>>

    ghost predicate Valid()
      reads this
    {
      WellFormed(cells, rings)
    }

    /** Both pointers of the entry's cell are NULL (list_null). */
    predicate IsNull(x: nat)
      reads this
    {
      Elem(x) in cells && cells[Elem(x)] == Cell(Null, Null)
    }

    ghost predicate Tidy(loose: set<nat>)
      reads this
    {
      TidyIn(cells, rings, loose)
    }

    /** Static storage: `n` table entries and the given sentinels, all zero. */
    constructor (n: nat, heads: set<H>)
      ensures Valid() && rings == map[]
      ensures Tidy({}) && forall x: nat :: x < n ==> Elem(x) in cells
      ensures forall h :: h in heads ==> Head(h) in cells
    {
      cells := (map i: nat | i < n :: Elem(i) := Cell(Null, Null)) + (map h | h in heads :: Head(h) := Cell(Null, Null));
      rings := map[];
    }

    /** INIT_LIST_HEAD. Whatever the sentinel's list held is on no list afterwards. */
    method InitListHead(h: H)
      requires Valid() && Head(h) in cells
      modifies this
      ensures Valid() && rings == old(rings)[h := []]
      ensures cells.Keys == old(cells.Keys)
      ensures (h in old(rings) ==> old(rings[h]) == []) && old(Tidy({})) ==> Tidy({})
    {
      ghost var m := cells;
      cells := cells[Head(h) := cells[Head(h)].(next := Head(h))];
      cells := cells[Head(h) := cells[Head(h)].(prev := Head(h))];
      assert Ring(cells, h, []);
      OthersKept(m, cells, rings, h, []);
      if (h in rings ==> rings[h] == []) && TidyIn(m, rings, {}) {
        TidyAfter(m, cells, rings, h, [], {}, {});
      }
      rings := rings[h := []];
    }

    /** __list_add between positions `k` and `k + 1` of the list of `h`. */
    method InsertBetween(x: nat, p: Addr<H>, n: Addr<H>, ghost h: H, ghost k: nat)
      requires Valid() && h in rings && k <= |rings[h]|
      requires p == AddressAt(h, rings[h], k) && n == AddressAt(h, rings[h], k + 1)
      requires Elem(x) in cells && !OnSome(rings, x)
      modifies this
      ensures Valid() && cells.Keys == old(cells.Keys)
      ensures rings == old(rings)[h := old(rings[h])[..k] + [x] + old(rings[h])[k..]]
      ensures old(Tidy({})) ==> Tidy({})
    {
      ghost var m, s := cells, rings[h];
      RingAddresses(m, h, s, k);
      assert x !in s;
      cells := cells[n := cells[n].(prev := Elem(x))];
      cells := cells[Elem(x) := cells[Elem(x)].(next := n)];
      cells := cells[Elem(x) := cells[Elem(x)].(prev := p)];
      cells := cells[p := cells[p].(next := Elem(x))];
      assert cells == Spliced(m, x, p, n);
      SpliceInserts(m, h, s, k, x);
      OthersKept(m, cells, rings, h, s[..k] + [x] + s[k..]);
      if TidyIn(m, rings, {}) {
        TidyAfter(m, cells, rings, h, s[..k] + [x] + s[k..], {}, {});
      }
      rings := rings[h := s[..k] + [x] + s[k..]];
    }

    /** list_add: the entry becomes the first of the list. */
    method ListAdd(x: nat, h: H)
      requires Valid() && h in rings
      requires Elem(x) in cells && !OnSome(rings, x)
      modifies this
      ensures Valid() && cells.Keys == old(cells.Keys)
      ensures rings == old(rings)[h := [x] + old(rings[h])]
      ensures old(Tidy({})) ==> Tidy({})
    {
      RingAddresses(cells, h, rings[h], 0);
      assert rings[h][..0] + [x] + rings[h][0..] == [x] + rings[h];
      InsertBetween(x, Head(h), cells[Head(h)].next, h, 0);
    }

    /** list_add_tail: the entry becomes the last of the list. */
    method ListAddTail(x: nat, h: H)
      requires Valid() && h in rings
      requires Elem(x) in cells && !OnSome(rings, x)
      modifies this
      ensures Valid() && cells.Keys == old(cells.Keys)
      ensures rings == old(rings)[h := old(rings[h]) + [x]]
      ensures old(Tidy({})) ==> Tidy({})
    {
      ghost var s := rings[h];
      RingAddresses(cells, h, s, |s|);
      assert s[..|s|] + [x] + s[|s|..] == s + [x];
      InsertBetween(x, cells[Head(h)].prev, Head(h), h, |s|);
    }

    /** list_del: the entry's neighbours are joined; its own pointers are left as they were. */
    method ListDel(x: nat, ghost h: H)
      requires Valid() && h in rings && x in rings[h]
      modifies this
      ensures Valid() && cells.Keys == old(cells.Keys)
      ensures rings == old(rings)[h := Minus(old(rings[h]), {x})]
      ensures Elem(x) in cells
      ensures old(Tidy({})) ==> Tidy({x})
    {
      ghost var m, s := cells, rings[h];
      ghost var k :| 0 <= k < |s| && s[k] == x;
      RingAddresses(m, h, s, k);
      RingAddresses(m, h, s, k + 1);
      var p, n := cells[Elem(x)].prev, cells[Elem(x)].next;
      cells := cells[n := cells[n].(prev := p)];
      cells := cells[p := cells[p].(next := n)];
      assert cells == Bridged(m, p, n);
      BridgeRemoves(m, h, s, k);
      MinusAt(s, k);
      OthersKept(m, cells, rings, h, Minus(s, {x}));
      if TidyIn(m, rings, {}) {
        TidyAfter(m, cells, rings, h, Minus(s, {x}), {}, {x});
      }
      rings := rings[h := Minus(s, {x})];
    }

    lemma OnListNotNull(x: nat, h: H)
      requires Valid() && h in rings && x in rings[h]
      ensures Elem(x) in cells && !IsNull(x)
    {
      var k :| 0 <= k < |rings[h]| && rings[h][k] == x;
      RingAddresses(cells, h, rings[h], k + 1);
    }

    /** list_sdel: takes the entry off the list it is on, if any, and clears its pointers. */
    method ListSdel(x: nat, ghost h: H)
      requires Valid() && Elem(x) in cells && h in rings
      requires IsNull(x) || x in rings[h]
      modifies this
      ensures Valid() && cells.Keys == old(cells.Keys) && IsNull(x)
      ensures rings == old(rings)[h := Minus(old(rings[h]), {x})]
      ensures old(Tidy({})) ==> Tidy({})
    {
      if !IsNull(x) {
        ListDel(x, h);
        SetNull(x);
      } else {
        if x in rings[h] {
          OnListNotNull(x, h);
        }
        MinusNone(rings[h], {x});
        assert rings == rings[h := rings[h]];
      }
    }

    /** LIST_HEAD_NULL on an entry that is on no list. */
    method SetNull(x: nat)
      requires Valid() && Elem(x) in cells && !OnSome(rings, x)
      modifies this`cells
      ensures Valid() && IsNull(x) && cells.Keys == old(cells.Keys)
      ensures old(Tidy({x})) ==> Tidy({})
    {
      ghost var m := cells;
      cells := cells[Elem(x) := Cell(Null, Null)];
      forall g | g in rings
        ensures Ring(cells, g, rings[g])
      {
        RingFrame(m, cells, g, rings[g]);
      }
    }

    method ListEmpty(h: H) returns (r: bool)
      requires Valid() && h in rings
      ensures r <==> rings[h] == []
    {
      RingAddresses(cells, h, rings[h], 0);
      r := cells[Head(h)].next == Head(h);
    }

    /** list_next on a sentinel: the first entry, or NULL when the list is empty. */
    method ListNext(h: H) returns (r: Option<nat>)
      requires Valid() && h in rings
      ensures r == if rings[h] == [] then None else Some(rings[h][0])
    {
      RingAddresses(cells, h, rings[h], 0);
      var empty := ListEmpty(h);
      r := if empty then None else Some(cells[Head(h)].next.i);
    }

    /** list_search: the first entry of the list that satisfies the comparison, or NULL. */
    method ListSearch(h: H, matches: nat -> bool) returns (r: Option<nat>)
      requires Valid() && h in rings
      ensures r.None? ==> forall x :: x in rings[h] ==> !matches(x)
      ensures r.Some? ==> exists k :: 0 <= k < |rings[h]| && rings[h][k] == r.value && matches(r.value)
                                     && forall j :: 0 <= j < k ==> !matches(rings[h][j])
    {
      ghost var s := rings[h];
      ghost var k := 0;
      RingAddresses(cells, h, s, 0);
      var iter := cells[Head(h)].next;
      while iter != Head(h)
        invariant 0 <= k <= |s| && iter == AddressAt(h, s, k + 1)
        invariant forall j :: 0 <= j < k ==> !matches(s[j])
        decreases |s| - k
      {
        if matches(iter.i) {
          return Some(iter.i);
        }
        RingAddresses(cells, h, s, k + 1);
        iter := cells[iter].next;
        k := k + 1;
      }
      r := None;
    }

    method ListContains(x: nat, h: H) returns (r: bool)
      requires Valid() && h in rings
      ensures r <==> x in rings[h]
    {
      var found := ListSearch(h, y => y == x);
      r := found.Some?;
    }

    method ListSize(h: H) returns (res: nat)
      requires Valid() && h in rings
      ensures res == |rings[h]|
    {
      ghost var s := rings[h];
      res := 0;
      RingAddresses(cells, h, s, 0);
      var iter := cells[Head(h)].next;
      while iter != Head(h)
        invariant res <= |s| && iter == AddressAt(h, s, res + 1)
        decreases |s| - res
      {
        RingAddresses(cells, h, s, res + 1);
        iter := cells[iter].next;
        res := res + 1;
      }
    }
  }
}
