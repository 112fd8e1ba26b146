/** What the trainer's operations compute, as functions of the target's
    memory: the address constants, the two pointer chains, the cooldown slot
    table, and the calls each operation makes. */
module TrainerSpec {
  import opened Wrappers
  import opened Words
  import opened RemoteMemory
  import opened SimOs

  const SUN_BASE_ADDR: u32 := 0x0075_5E0C
  const SUN_OFFSET_1: u32 := 0x868
  const SUN_OFFSET_2: u32 := 0x5578

  const COOLDOWN_BASE_ADDR: u32 := 0x0075_5E0C
  const COOLDOWN_OFFSET_1: u32 := 0x868
  const COOLDOWN_OFFSET_2: u32 := 0x15C
  const COOLDOWN_OFFSET_3: u32 := 0x70

  /** The cooldown slot table: ten slots 0x50 bytes apart, each set to 1. */
  const SLOT_COUNT: nat := 10
  const SLOT_STRIDE: u32 := 0x50
  const NO_COOLDOWN: i32 := 1

  /** Two reads from the base reach the sun cell. */
  const SUN_CHAIN: seq<u32> := [SUN_OFFSET_1, SUN_OFFSET_2]
  /** Three reads from the base reach the first cooldown slot. */
  const COOLDOWN_CHAIN: seq<u32> := [COOLDOWN_OFFSET_1, COOLDOWN_OFFSET_2, COOLDOWN_OFFSET_3]

  /** A handle that OpenProcess produced and that is not the invalid one. */
  predicate Opens(o: Option<Handle>) {
    o.Some? && o.value.Handle?
  }

  /** The sun value a read finds: the chain resolved strictly, then the i32 at
      its end. */
  function SunRead(m: Memory): Option<i32> {
    match Resolve(m, SUN_BASE_ADDR, SUN_CHAIN)
    case None => None
    case Some(t) =>
      match m.Load(t)
      case None => None
      case Some(v) => Some(AsI32(v))
  }

  /** The addresses a sun read reads, up to and including the first failure. */
  function SunReadAddrs(m: Memory): seq<u32> {
    ResolveReads(m, SUN_BASE_ADDR, SUN_CHAIN) +
      match Resolve(m, SUN_BASE_ADDR, SUN_CHAIN)
      case None => []
      case Some(t) => [t]
  }

  /** The address a sun write targets: the chain walked leniently. */
  function SunTarget(m: Memory): u32 {
    Walk(m, SUN_BASE_ADDR, SUN_CHAIN)
  }

  /** The memory after a sun write of `v`. */
  function SunWrite(m: Memory, v: i32): Memory {
    m.Put(SunTarget(m), AsU32(v))
  }

  /** The address of cooldown slot 0: the cooldown chain walked leniently. */
  function SlotBase(m: Memory): u32 {
    Walk(m, COOLDOWN_BASE_ADDR, COOLDOWN_CHAIN)
  }

  function SlotAddr(b: u32, i: nat): u32
    requires i < SLOT_COUNT
  {
    Add32(b, i * SLOT_STRIDE)
  }

  /** The first `n` slot addresses, in the order they are written. */
  function SlotAddrs(b: u32, n: nat): seq<u32>
    requires n <= SLOT_COUNT
  {
    seq(n, i requires 0 <= i < n => SlotAddr(b, i))
  }

  /** The memory after the first `n` slot writes of one freeze cycle. */
  function Frozen(m: Memory, b: u32, n: nat): (r: Memory)
    requires n <= SLOT_COUNT
    ensures r.readable == m.readable && r.writable == m.writable
    decreases n
  {
    if n == 0 then m else Frozen(m, b, n - 1).Put(SlotAddr(b, n - 1), AsU32(NO_COOLDOWN))
  }

  /** One write call per slot address, in order. */
  function SlotWrites(addrs: seq<u32>): seq<Call> {
    seq(|addrs|, i requires 0 <= i < |addrs| => WriteCall(addrs[i], AsU32(NO_COOLDOWN)))
  }

  /** The calls a sun read makes after OpenProcess returned `o`. */
  function ReadSunCalls(pid: u32, o: Option<Handle>, m: Memory): seq<Call> {
    [OpenCall(pid)] +
      if Opens(o) then ReadCalls(SunReadAddrs(m)) + [CloseCall(o.value)] else []
  }

  /** The calls a sun write of `v` makes after OpenProcess returned `o`. */
  function WriteSunCalls(pid: u32, o: Option<Handle>, m: Memory, v: i32): seq<Call> {
    [OpenCall(pid)] +
      if Opens(o)
      then ReadCalls(WalkReads(m, SUN_BASE_ADDR, SUN_CHAIN)) +
           [WriteCall(SunTarget(m), AsU32(v)), CloseCall(o.value)]
      else []
  }

  /** The calls one freeze cycle makes after OpenProcess returned `o`. */
  function FreezeCalls(pid: u32, o: Option<Handle>, m: Memory): seq<Call> {
    [OpenCall(pid)] +
      if Opens(o)
      then ReadCalls(WalkReads(m, COOLDOWN_BASE_ADDR, COOLDOWN_CHAIN)) +
           SlotWrites(SlotAddrs(SlotBase(m), SLOT_COUNT)) + [CloseCall(o.value)]
      else []
  }

  /** A sun read succeeds exactly when the base cell, the cell 0x868 past the
      pointer found there, and the cell 0x5578 past the pointer found there
      can all be read; it then finds `mem[mem[mem[base] + 0x868] + 0x5578]`.
      The last offset is added, not dereferenced. */
  lemma SunReadChain(m: Memory)
    ensures var a1 := Add32(m.LoadOrZero(SUN_BASE_ADDR), SUN_OFFSET_1);
            var a2 := Add32(m.LoadOrZero(a1), SUN_OFFSET_2);
            && (SunRead(m).Some? <==>
                  m.Load(SUN_BASE_ADDR).Some? && m.Load(a1).Some? && m.Load(a2).Some?)
            && (SunRead(m).Some? ==>
                  SunRead(m).value == AsI32(m.cells[a2]) &&
                  a1 == Add32(m.cells[SUN_BASE_ADDR], SUN_OFFSET_1) &&
                  a2 == Add32(m.cells[a1], SUN_OFFSET_2))
            && SunReadAddrs(m) ==
                 [SUN_BASE_ADDR] +
                 if m.Load(SUN_BASE_ADDR).None? then []
                 else [a1] + if m.Load(a1).None? then [] else [a2]
  {
    var a1 := Add32(m.LoadOrZero(SUN_BASE_ADDR), SUN_OFFSET_1);
    var a2 := Add32(m.LoadOrZero(a1), SUN_OFFSET_2);
    var rest: seq<u32> := [SUN_OFFSET_2];
    assert SUN_CHAIN[0] == SUN_OFFSET_1 && SUN_CHAIN[1..] == rest && rest[1..] == [];
    if m.Load(SUN_BASE_ADDR).Some? {
      assert Resolve(m, SUN_BASE_ADDR, SUN_CHAIN) == Resolve(m, a1, rest);
      assert ResolveReads(m, SUN_BASE_ADDR, SUN_CHAIN) == [SUN_BASE_ADDR] + ResolveReads(m, a1, rest);
      if m.Load(a1).Some? {
        assert Resolve(m, a1, rest) == Resolve(m, a2, []) == Some(a2);
        assert ResolveReads(m, a1, rest) == [a1] + ResolveReads(m, a2, []) == [a1];
      } else {
        assert ResolveReads(m, a1, rest) == [a1];
      }
    }
  }

  /** A sun write walks the two pointer cells whatever their reads return,
      going on from 0 after a failed read. */
  lemma SunTargetChain(m: Memory)
    ensures var a1 := Add32(m.LoadOrZero(SUN_BASE_ADDR), SUN_OFFSET_1);
            && WalkReads(m, SUN_BASE_ADDR, SUN_CHAIN) == [SUN_BASE_ADDR, a1]
            && SunTarget(m) == Add32(m.LoadOrZero(a1), SUN_OFFSET_2)
  {
    var a1 := Add32(m.LoadOrZero(SUN_BASE_ADDR), SUN_OFFSET_1);
    var a2 := Add32(m.LoadOrZero(a1), SUN_OFFSET_2);
    var rest: seq<u32> := [SUN_OFFSET_2];
    assert SUN_CHAIN[0] == SUN_OFFSET_1 && SUN_CHAIN[1..] == rest && rest[1..] == [];
    assert WalkReads(m, a1, rest) == [a1] + WalkReads(m, a2, []) == [a1];
    assert Walk(m, a1, rest) == Walk(m, a2, []) == a2;
  }

  /** A freeze cycle walks the three pointer cells whatever their reads
      return, and slot 0 sits 0x70 past the last pointer. */
  lemma SlotBaseChain(m: Memory)
    ensures var a1 := Add32(m.LoadOrZero(COOLDOWN_BASE_ADDR), COOLDOWN_OFFSET_1);
            var a2 := Add32(m.LoadOrZero(a1), COOLDOWN_OFFSET_2);
            && WalkReads(m, COOLDOWN_BASE_ADDR, COOLDOWN_CHAIN) == [COOLDOWN_BASE_ADDR, a1, a2]
            && SlotBase(m) == Add32(m.LoadOrZero(a2), COOLDOWN_OFFSET_3)
  {
    var a1 := Add32(m.LoadOrZero(COOLDOWN_BASE_ADDR), COOLDOWN_OFFSET_1);
    var a2 := Add32(m.LoadOrZero(a1), COOLDOWN_OFFSET_2);
    var a3 := Add32(m.LoadOrZero(a2), COOLDOWN_OFFSET_3);
    var rest2: seq<u32> := [COOLDOWN_OFFSET_2, COOLDOWN_OFFSET_3];
    var rest3: seq<u32> := [COOLDOWN_OFFSET_3];
    assert COOLDOWN_CHAIN[0] == COOLDOWN_OFFSET_1 && COOLDOWN_CHAIN[1..] == rest2;
    assert rest2[1..] == rest3 && rest3[1..] == [];
    assert WalkReads(m, a2, rest3) == [a2] + WalkReads(m, a3, []) == [a2];
    assert WalkReads(m, a1, rest2) == [a1] + WalkReads(m, a2, rest3) == [a1, a2];
    assert Walk(m, a2, rest3) == Walk(m, a3, []) == a3;
    assert WalkReads(m, COOLDOWN_BASE_ADDR, COOLDOWN_CHAIN) == [COOLDOWN_BASE_ADDR] + WalkReads(m, a1, rest2);
    assert SlotBase(m) == Walk(m, a1, rest2) == Walk(m, a2, rest3);
  }

  /** Round trip: when both pointer reads succeed, and the sun cell is
      readable, writable and not one of the two pointer cells, a read after a
      write of `v` finds `v`. */
  lemma SunWriteThenRead(m: Memory, v: i32)
    requires Resolve(m, SUN_BASE_ADDR, SUN_CHAIN).Some?
    requires SunTarget(m) !in ResolveReads(m, SUN_BASE_ADDR, SUN_CHAIN)
    requires SunTarget(m) in m.readable && SunTarget(m) in m.writable
    ensures SunRead(SunWrite(m, v)) == Some(v)
  {
    WalkAgreesWithResolve(m, SUN_BASE_ADDR, SUN_CHAIN);
    ResolveIgnoresOtherWrites(m, SunTarget(m), AsU32(v), SUN_BASE_ADDR, SUN_CHAIN);
  }

  /** Slot `j` is `(j - i) * 0x50` bytes past slot `i` and, wrapping, at least
      0x50 bytes before it: the ten 4-byte slots are pairwise distinct and do
      not overlap, wherever slot 0 lies. */
  lemma SlotsApart(b: u32, i: nat, j: nat)
    requires i < j < SLOT_COUNT
    ensures SlotAddr(b, i) != SlotAddr(b, j)
    ensures Diff32(SlotAddr(b, j), SlotAddr(b, i)) == (j - i) * SLOT_STRIDE
    ensures Diff32(SlotAddr(b, i), SlotAddr(b, j)) == U32_MODULUS - (j - i) * SLOT_STRIDE
    ensures Diff32(SlotAddr(b, i), SlotAddr(b, j)) >= SLOT_STRIDE
  {
  }

  /** After the first `n` slot writes, a writable slot holds 1 and every
      other cell is as it was. */
  lemma {:induction false} FrozenAt(m: Memory, b: u32, n: nat, a: u32)
    requires n <= SLOT_COUNT
    ensures Frozen(m, b, n).Cell(a) ==
              if a in SlotAddrs(b, n) && a in m.writable then Some(AsU32(NO_COOLDOWN)) else m.Cell(a)
    decreases n
  {
    if n > 0 {
      FrozenAt(m, b, n - 1, a);
      assert SlotAddrs(b, n) == SlotAddrs(b, n - 1) + [SlotAddr(b, n - 1)];
    }
  }
}
