/** The process identifiers of os/include/os/scheduler_impl.h, in 32-bit unsigned arithmetic. */
module Pid {
  import opened Bits

  /** MAX_PROC_BITS is 5 here, so that 32 slots and 2^27 recycle counts share a word. */
  type Word = w: nat | w < 0x1_0000_0000

  const NULL_PID: Word := 0

  function Add(x: Word, y: Word): Word { (x + y) % 0x1_0000_0000 }

  function Sub(x: Word, y: Word): Word { (x - y) % 0x1_0000_0000 }

  function ShiftLeft5(x: Word): Word { (x * 32) % 0x1_0000_0000 }

  function ShiftRight5(x: Word): Word { x / 32 }

  /** make_pid: the slot in the low bits, the recycle count above them, plus one. */
  function MakePid(id: nat, recycle: Word): Word
    requires id < 32
  {
    OrBelowShift(id, ShiftLeft5(recycle) / 32);
    Add(BitOr(id, ShiftLeft5(recycle)), 1)
  }

  /** mask_pid_id */
  function MaskPidId(pid: Word): nat { BitAnd(Sub(pid, 1), 32 - 1) }

  /** mask_recycle */
  function MaskRecycle(pid: Word): Word { ShiftRight5(Sub(pid, 1)) }

  lemma OrBelowShift(id: nat, q: nat)
    requires id < 32
    ensures BitOr(id, 32 * q) == id + 32 * q
  {
    assert Pow2(5) == 32 by { assert Pow2(2) == 4; assert Pow2(4) == 16; }
    OrBelow(id, q, 5);
  }

  lemma AndMask(x: nat)
    ensures BitAnd(x, 32 - 1) == x % 32
  {
    assert Pow2(5) == 32 by { assert Pow2(2) == 4; assert Pow2(4) == 16; }
    AndBelow(x, 5);
  }

  lemma MaskValues(pid: Word)
    ensures MaskPidId(pid) == if pid == 0 then 31 else (pid - 1) % 32
    ensures pid != 0 ==> MaskRecycle(pid) == (pid - 1) / 32
  {
    AndMask(Sub(pid, 1));
  }

  lemma PidValue(id: nat, recycle: Word)
    requires id < 31
    ensures MakePid(id, recycle) == id + 32 * (recycle % 0x800_0000) + 1
  {
    var q := recycle % 0x800_0000;
    assert ShiftLeft5(recycle) == 32 * q;
    OrBelowShift(id, q);
  }

  /**
   A pid made for a slot of a table smaller than 2^MAX_PROC_BITS gives the slot back, gives the
   recycle count back modulo 2^27 whatever that count is, and is never the reserved NULL_PID.
   */
  lemma PidRoundTrip(id: nat, recycle: Word)
    requires id < 31
    ensures MaskPidId(MakePid(id, recycle)) == id
    ensures MaskRecycle(MakePid(id, recycle)) == recycle % 0x800_0000
    ensures MakePid(id, recycle) != NULL_PID
  {
    var q := recycle % 0x800_0000;
    PidValue(id, recycle);
    MaskValues(id + 32 * q + 1);
    Packed(id, q);
  }

  lemma Packed(id: nat, q: nat)
    requires id < 32
    ensures (id + 32 * q) % 32 == id && (id + 32 * q) / 32 == q
  {
  }

  /** Two pids of the same table are equal exactly when slot and recycle count (modulo 2^27) are. */
  lemma PidsCollide(i: nat, r: Word, j: nat, s: Word)
    requires i < 31 && j < 31
    ensures MakePid(i, r) == MakePid(j, s) <==> i == j && r % 0x800_0000 == s % 0x800_0000
  {
    PidValue(i, r);
    PidValue(j, s);
  }

  lemma LastPidWraps()
    ensures MakePid(31, 0x7FF_FFFF) == NULL_PID
  {
    assert ShiftLeft5(0x7FF_FFFF) == 32 * 0x7FF_FFFF;
    OrBelowShift(31, 0x7FF_FFFF);
    assert BitOr(31, 32 * 0x7FF_FFFF) == 0xFFFF_FFFF;
  }

  /**
   How large the process table may be. The README allows MAX_PROC up to 2^MAX_PROC_BITS; the
   reserved pid stays outside the table, both as a lookup and as a generated pid, exactly when
   MAX_PROC is strictly smaller than that.
   */
  lemma ReservedPidNeedsSpareSlot(maxProc: nat)
    requires maxProc <= 32
    ensures maxProc < 32 <==> MaskPidId(NULL_PID) >= maxProc
    ensures maxProc < 32 <==> forall id: nat, r: Word :: id < maxProc ==> MakePid(id, r) != NULL_PID
  {
    MaskValues(NULL_PID);
    if maxProc < 32 {
      forall id: nat, r: Word | id < maxProc
        ensures MakePid(id, r) != NULL_PID
      {
        PidValue(id, r);
      }
    } else {
      LastPidWraps();
    }
  }
}
