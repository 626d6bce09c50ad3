/**
 Which frames page faults take, and where the pages in them go, for any pool and any number of U-procs,
 disciplined or not.
 */
module Replacement {
  import opened Arithmetic
  import opened Options
  import opened Paging

  /** The frames loaded by the page faults of a run, in order. */
  ghost function Loads(s: Machine, es: seq<Event>): seq<nat>
    requires Possible(s, es)
    decreases |es|
  {
    if es == [] then []
    else (if es[0].PageFault? then [Victim(s)] else []) + Loads(Step(s, es[0]), es[1..])
  }

  /** Events that do not end a U-proc; TLB modifications never arise (Protection.StoresPassWhereLoadsDo). */
  predicate Survived(e: Event) { !e.Terminate? && !e.Modification? && (e.PageFault? ==> e.io.Works?) }

  predicate NoneTerminates(es: seq<Event>) {
    forall i :: 0 <= i < |es| ==> Survived(es[i])
  }

  /** After `m` loads since the pool was empty. */
  ghost predicate Rotated(s: Machine, m: nat)
    requires Shaped(s)
  {
    && (m < |s.pool| ==> s.next == -1 && forall f :: 0 <= f < |s.pool| ==> (s.pool[f].Held? <==> f < m))
    && (m >= |s.pool| ==> (s.next + 1) % |s.pool| == m % |s.pool| && forall f :: 0 <= f < |s.pool| ==> s.pool[f].Held?)
  }

  lemma ModStep(n: nat, m: nat, x: int)
    requires 0 < n && m % n == x
    ensures (x + 1) % n == (m + 1) % n
  {
    DivMod(m, n);
    AddMultiple(x + 1, n, m / n);
  }

  lemma ModIs(n: nat, q: int, r: nat)
    requires r < n
    ensures (n * q + r) % n == r
  {
    DivideBy(n * q + r, n, q, r);
  }

  lemma SmallMod(n: nat, x: nat)
    requires x < n
    ensures x % n == x
  {
    ModIs(n, 0, x);
  }

  lemma VictimIs(s: Machine, m: nat)
    requires Shaped(s) && Rotated(s, m)
    ensures Victim(s) == m % |s.pool|
  {
    var free := FreeFrom(s.pool, 0);
    if m < |s.pool| {
      SmallMod(|s.pool|, m);
      assert s.pool[m].Unoccupied?;
    }
  }

  lemma FaultPool(s: Machine, u: nat, p: nat)
    requires Shaped(s) && u < |s.tables| && p < MAX_PAGES
    ensures Fault(s, u, p, Works).pool == s.pool[Victim(s) := Held(u, p)]
    ensures Fault(s, u, p, Works).next == Pick(s.pool, s.next).1
  {
  }

  lemma FaultRotates(s: Machine, u: nat, p: nat, m: nat)
    requires Shaped(s) && u < |s.tables| && p < MAX_PAGES && Rotated(s, m)
    ensures Shaped(Fault(s, u, p, Works)) && Rotated(Fault(s, u, p, Works), m + 1)
  {
    FaultShaped(s, u, p, Works);
    FaultPool(s, u, p);
    VictimIs(s, m);
    var n := |s.pool|;
    if m >= n {
      ModStep(n, m, m % n);
    } else if m + 1 == n {
      ModIs(n, 1, 0);
      ModIs(n, 0, 0);
      SmallMod(n, m);
    } else {
      SmallMod(n, m);
    }
  }

  lemma QuietPool(s: Machine, e: Event)
    requires Shaped(s) && Enabled(s, e) && Survived(e) && !e.PageFault?
    ensures Step(s, e).pool == s.pool && Step(s, e).next == s.next
  {
  }

  lemma StepRotates(s: Machine, e: Event, m: nat)
    requires Shaped(s) && Enabled(s, e) && Rotated(s, m) && Survived(e)
    ensures Shaped(Step(s, e)) && |Step(s, e).pool| == |s.pool|
    ensures Rotated(Step(s, e), if e.PageFault? then m + 1 else m)
  {
    StepShaped(s, e);
    if e.PageFault? {
      FaultRotates(s, e.u, e.p, m);
      FaultPool(s, e.u, e.p);
    } else {
      QuietPool(s, e);
    }
  }

  predicate RotatesFrom(loads: seq<nat>, m: nat, n: nat)
    requires 0 < n
  {
    forall j :: 0 <= j < |loads| ==> loads[j] == (m + j) % n
  }

  lemma RotatesCons(f: nat, rest: seq<nat>, m: nat, n: nat)
    requires 0 < n && f == m % n && RotatesFrom(rest, m + 1, n)
    ensures RotatesFrom([f] + rest, m, n)
  {
    var all := [f] + rest;
    forall j | 0 <= j < |all| ensures all[j] == (m + j) % n {
      if j > 0 {
        assert all[j] == rest[j - 1];
      }
    }
  }

  lemma {:induction false} LoadsRotate(s: Machine, es: seq<Event>, m: nat)
    requires Possible(s, es) && NoneTerminates(es) && Rotated(s, m)
    ensures RotatesFrom(Loads(s, es), m, |s.pool|)
    decreases |es|
  {
    if es != [] {
      var e := es[0];
      var r := Step(s, e);
      assert Survived(es[0]);
      StepRotates(s, e, m);
      assert NoneTerminates(es[1..]);
      if e.PageFault? {
        LoadsRotate(r, es[1..], m + 1);
        VictimIs(s, m);
        RotatesCons(Victim(s), Loads(r, es[1..]), m, |s.pool|);
      } else {
        LoadsRotate(r, es[1..], m);
        assert Loads(s, es) == Loads(r, es[1..]);
      }
    }
  }

  /** From an empty pool the j-th load goes to frame j modulo the size of the pool. */
  lemma RoundRobin(base: nat, frames: seq<Block>, flash: seq<seq<Block>>, text: seq<nat>, es: seq<Event>)
    requires base % 4096 == 0 && frames != [] && |text| == |flash| < MAX_ASID
    requires forall u :: 0 <= u < |flash| ==> |flash[u]| == MAX_PAGES
    requires Possible(Boot(base, frames, flash, text), es) && NoneTerminates(es)
    ensures var loads := Loads(Boot(base, frames, flash, text), es);
      forall j :: 0 <= j < |loads| ==> loads[j] == j % |frames|
  {
    var s := Boot(base, frames, flash, text);
    BootShaped(base, frames, flash, text);
    LoadsRotate(s, es, 0);
    assert RotatesFrom(Loads(s, es), 0, |frames|);
  }

  /** The frame of load `j` was last loaded before every other frame was. */
  ghost predicate LoadedLongestAgo(loads: seq<nat>, j: nat, n: nat)
    requires j < |loads|
  {
    exists i :: LastLoad(loads, i, j) && AllIn(loads[i + 1..j], n, loads[j])
  }

  /** Every frame but `except` is among `loads`. */
  ghost predicate AllIn(loads: seq<nat>, n: nat, except: nat) {
    forall f: nat :: f < n && f != except ==> f in loads
  }

  /** `i` is the last load before `j` of the frame that load `j` takes. */
  predicate LastLoad(loads: seq<nat>, i: int, j: nat)
    requires j < |loads|
  {
    0 <= i < j && loads[i] == loads[j] && loads[j] !in loads[i + 1..j]
  }

  lemma WindowOfMods(n: nat, j: nat, i: nat)
    requires 0 < n && i < j < i + n
    ensures i % n != j % n
  {
    assert i == n * (i / n) + i % n && j == n * (j / n) + j % n;
    Multiple(n, j / n - i / n);
    assert n * (j / n - i / n) == n * (j / n) - n * (i / n);
  }

  /** Among `n - 1` consecutive numbers before `j` every remainder but that of `j` occurs. */
  lemma WindowHasAll(n: nat, j: nat, f: nat) returns (i: nat)
    requires n <= j && f < n && f != j % n
    ensures j - n < i < j && i % n == f
  {
    var r := j % n;
    if f < r {
      i := j - (r - f);
      assert i == n * (j / n) + f;
      ModIs(n, j / n, f);
    } else {
      i := j - (r + n - f);
      assert j == n * (j / n) + r;
      assert i == n * (j / n) - n + f == n * (j / n - 1) + f;
      ModIs(n, j / n - 1, f);
    }
  }

  /** While no U-proc terminates, a load after the pool has filled up takes the frame loaded longest ago. */
  lemma FirstInFirstOut(base: nat, frames: seq<Block>, flash: seq<seq<Block>>, text: seq<nat>, es: seq<Event>, j: nat)
    requires base % 4096 == 0 && frames != [] && |text| == |flash| < MAX_ASID
    requires forall u :: 0 <= u < |flash| ==> |flash[u]| == MAX_PAGES
    requires Possible(Boot(base, frames, flash, text), es) && NoneTerminates(es)
    requires |frames| <= j < |Loads(Boot(base, frames, flash, text), es)|
    ensures LoadedLongestAgo(Loads(Boot(base, frames, flash, text), es), j, |frames|)
  {
    RoundRobin(base, frames, flash, text, es);
    OldestOfRotation(Loads(Boot(base, frames, flash, text), es), j, |frames|);
  }

  lemma OldestOfRotation(loads: seq<nat>, j: nat, n: nat)
    requires 0 < n <= j < |loads| && forall i :: 0 <= i < |loads| ==> loads[i] == i % n
    ensures LoadedLongestAgo(loads, j, n)
  {
    var i := j - n;
    assert j == n * (j / n) + j % n && i == n * (j / n - 1) + j % n;
    ModIs(n, j / n - 1, j % n);
    forall k | i < k < j ensures loads[k] != loads[j] {
      WindowOfMods(n, j, k);
    }
    assert LastLoad(loads, i, j);
    var window := loads[i + 1..j];
    forall f: nat | f < n && f != loads[j] ensures f in window {
      var k := WindowHasAll(n, j, f);
      assert window[k - (i + 1)] == f;
    }
    assert AllIn(window, n, loads[j]);
  }

  /** A completed transfer between a frame and block `block` of the flash device of `u`. */
  datatype Transferred = ReadIn(frame: nat, u: nat, block: nat) | WrittenBack(frame: nat, u: nat, block: nat)

  /** The transfers a step completes. */
  function Traffic(s: Machine, e: Event): seq<Transferred>
    requires Shaped(s) && Enabled(s, e)
  {
    if !e.PageFault? then []
    else
      var v := Victim(s);
      var dirty := s.pool[v].Held?;
      if e.io.WriteFails? && dirty then []
      else (if dirty then [WrittenBack(v, s.pool[v].owner, s.pool[v].page)] else [])
           + (if e.io.ReadFails? then [] else [ReadIn(v, e.u, e.p)])
  }

  /** Transfers change what they name: a fault's flash and frames are those before it, after its traffic. */
  function Apply(ram: seq<Block>, flash: seq<seq<Block>>, ts: seq<Transferred>): (seq<Block>, seq<seq<Block>>)
    decreases |ts|
  {
    if ts == [] then (ram, flash)
    else if ts[0].u >= |flash| || ts[0].block >= |flash[ts[0].u]| || ts[0].frame >= |ram| then (ram, flash)
    else
      match ts[0]
      case ReadIn(f, u, b) => Apply(ram[f := flash[u][b]], flash, ts[1..])
      case WrittenBack(f, u, b) => Apply(ram, SetBlock(flash, u, b, ram[f]), ts[1..])
  }

  /**
   What a fault does to frames and flash: its completed transfers and nothing else, except that a failed
   write leaves any contents in the block of the victim's page and a failed read in the victim frame.
   */
  lemma FaultTransfers(s: Machine, e: Event)
    requires Shaped(s) && Enabled(s, e) && e.PageFault?
    ensures var v, r := Victim(s), Step(s, e);
      var (ram, flash) := Apply(s.ram, s.flash, Traffic(s, e));
      && r.ram == (if e.io.ReadFails? then s.ram[v := e.io.left] else ram)
      && r.flash == if e.io.WriteFails? && s.pool[v].Held?
                    then SetBlock(s.flash, s.pool[v].owner, s.pool[v].page, e.io.left) else flash
  {
    var v := Victim(s);
    var read := [ReadIn(v, e.u, e.p)];
    if s.pool[v].Held? {
      var flash := SetBlock(s.flash, s.pool[v].owner, s.pool[v].page, s.ram[v]);
      assert Apply(s.ram, flash, []) == (s.ram, flash);
      assert Apply(s.ram, flash, read) == (s.ram[v := flash[e.u][e.p]], flash);
      if e.io.Works? {
        assert Traffic(s, e)[1..] == read;
      } else if e.io.ReadFails? {
        assert Traffic(s, e)[1..] == [];
      }
    } else if !e.io.ReadFails? {
      assert Traffic(s, e) == read;
    }
  }

  /** The block last read into frame `f`. */
  function Origin(ts: seq<Transferred>, f: nat): Option<(nat, nat)>
    decreases |ts|
  {
    if ts == [] then None
    else
      var t := ts[|ts| - 1];
      if t.ReadIn? && t.frame == f then Some((t.u, t.block)) else Origin(ts[..|ts| - 1], f)
  }

  /** Every frame is written back to the block it was last read from. */
  ghost predicate GoesBackWhereItCameFrom(ts: seq<Transferred>) {
    forall i :: 0 <= i < |ts| && ts[i].WrittenBack? ==> Origin(ts[..i], ts[i].frame) == Some((ts[i].u, ts[i].block))
  }

  ghost function TrafficOf(s: Machine, es: seq<Event>): seq<Transferred>
    requires Possible(s, es)
    decreases |es|
  {
    if es == [] then [] else Traffic(s, es[0]) + TrafficOf(Step(s, es[0]), es[1..])
  }

  /** Every occupied frame was last read from the block its slot names. */
  ghost predicate Sourced(s: Machine, ts: seq<Transferred>) {
    forall f: nat :: f < |s.pool| && s.pool[f].Held? ==> Origin(ts, f) == Some((s.pool[f].owner, s.pool[f].page))
  }

  lemma OriginAfter(ts: seq<Transferred>, t: Transferred, f: nat)
    ensures Origin(ts + [t], f) == if t.ReadIn? && t.frame == f then Some((t.u, t.block)) else Origin(ts, f)
  {
    assert (ts + [t])[..|ts|] == ts;
  }

  lemma GoesBackAfter(ts: seq<Transferred>, t: Transferred)
    requires GoesBackWhereItCameFrom(ts) && (t.WrittenBack? ==> Origin(ts, t.frame) == Some((t.u, t.block)))
    ensures GoesBackWhereItCameFrom(ts + [t])
  {
    var all := ts + [t];
    forall i | 0 <= i < |all| && all[i].WrittenBack? ensures Origin(all[..i], all[i].frame) == Some((all[i].u, all[i].block)) {
      assert all[..i] == ts[..i];
      if i == |ts| {
        assert ts[..i] == ts;
      }
    }
  }

  /** The pool after a step: a slot is freed, stays, or is that of a block just read. */
  lemma SlotsAfter(s: Machine, e: Event, f: nat)
    requires Shaped(s) && Enabled(s, e) && f < |s.pool|
    ensures |Step(s, e).pool| == |s.pool|
    ensures var slot := Step(s, e).pool[f];
      slot.Held? ==> slot == s.pool[f] || (e.PageFault? && !e.io.ReadFails? && f == Victim(s) && slot == Held(e.u, e.p))
    ensures e.PageFault? && ReadIn(f, e.u, e.p) in Traffic(s, e) ==> Step(s, e).pool[f] == Held(e.u, e.p)
  {
  }

  lemma WriteSourced(s: Machine, ts: seq<Transferred>, w: Transferred)
    requires Sourced(s, ts) && GoesBackWhereItCameFrom(ts)
    requires w.WrittenBack? && w.frame < |s.pool| && s.pool[w.frame] == Held(w.u, w.block)
    ensures Sourced(s, ts + [w]) && GoesBackWhereItCameFrom(ts + [w])
  {
    GoesBackAfter(ts, w);
    forall f: nat | f < |s.pool| ensures Origin(ts + [w], f) == Origin(ts, f) {
      OriginAfter(ts, w, f);
    }
  }

  lemma SlotsSourced(s: Machine, r: Machine, ts: seq<Transferred>, read: seq<Transferred>)
    requires Sourced(s, ts) && GoesBackWhereItCameFrom(ts) && |r.pool| == |s.pool|
    requires |read| <= 1 && (read != [] ==> read[0].ReadIn?)
    requires forall f: nat :: f < |r.pool| && r.pool[f].Held? ==>
      if read != [] && f == read[0].frame then r.pool[f] == Held(read[0].u, read[0].block) else r.pool[f] == s.pool[f]
    ensures Sourced(r, ts + read) && GoesBackWhereItCameFrom(ts + read)
  {
    if read == [] {
      assert ts + read == ts;
    } else {
      assert read == [read[0]];
      GoesBackAfter(ts, read[0]);
      forall f: nat | f < |r.pool| && r.pool[f].Held?
        ensures Origin(ts + read, f) == Some((r.pool[f].owner, r.pool[f].page))
      {
        OriginAfter(ts, read[0], f);
      }
    }
  }

  lemma StepSourced(s: Machine, e: Event, ts: seq<Transferred>)
    requires Shaped(s) && Enabled(s, e) && Sourced(s, ts) && GoesBackWhereItCameFrom(ts)
    ensures Sourced(Step(s, e), ts + Traffic(s, e)) && GoesBackWhereItCameFrom(ts + Traffic(s, e))
  {
    var t, r := Traffic(s, e), Step(s, e);
    forall f: nat | f < |s.pool|
      ensures |r.pool| == |s.pool|
      ensures r.pool[f].Held? ==>
        if t != [] && t[|t| - 1].ReadIn? && f == t[|t| - 1].frame then r.pool[f] == Held(e.u, e.p) else r.pool[f] == s.pool[f]
    {
      SlotsAfter(s, e, f);
    }
    if t != [] && t[0].WrittenBack? {
      var read := t[1..];
      WriteSourced(s, ts, t[0]);
      SlotsSourced(s, r, ts + [t[0]], read);
      Regroup(ts, [t[0]], read);
      assert t == [t[0]] + read;
    } else {
      SlotsSourced(s, r, ts, t);
    }
  }

  lemma Regroup<T>(a: seq<T>, b: seq<T>, c: seq<T>)
    ensures (a + b) + c == a + (b + c)
  {
  }

  lemma {:induction false} RunSourced(s: Machine, es: seq<Event>, ts: seq<Transferred>)
    requires Possible(s, es) && Sourced(s, ts) && GoesBackWhereItCameFrom(ts)
    ensures GoesBackWhereItCameFrom(ts + TrafficOf(s, es))
    decreases |es|
  {
    if es == [] {
      assert ts + TrafficOf(s, es) == ts;
    } else {
      var first, rest := Traffic(s, es[0]), TrafficOf(Step(s, es[0]), es[1..]);
      StepSourced(s, es[0], ts);
      RunSourced(Step(s, es[0]), es[1..], ts + first);
      assert TrafficOf(s, es) == first + rest;
      Regroup(ts, first, rest);
    }
  }

  /** In every run, with I/O errors, exits and stolen frames, evictions write to the block that was read. */
  lemma EvictionsGoBack(base: nat, frames: seq<Block>, flash: seq<seq<Block>>, text: seq<nat>, es: seq<Event>)
    requires |text| == |flash| && Possible(Boot(base, frames, flash, text), es)
    ensures GoesBackWhereItCameFrom(TrafficOf(Boot(base, frames, flash, text), es))
  {
    var s := Boot(base, frames, flash, text);
    RunSourced(s, es, []);
    assert [] + TrafficOf(s, es) == TrafficOf(s, es);
  }
}
