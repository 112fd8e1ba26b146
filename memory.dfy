/** The address space of the target process as the trainer sees it, and the
    two ways the trainer walks a pointer chain through it. */
module RemoteMemory {
  import opened Wrappers
  import opened Words

  /** 4-byte cells keyed by address, with the addresses a 4-byte read or write
      may touch. */
  datatype Memory = Memory(cells: map<u32, u32>, readable: set<u32>, writable: set<u32>)
  {
    /** A 4-byte read: succeeds only at a readable address that holds a cell. */
    function Load(a: u32): Option<u32> {
      if a in readable && a in cells then Some(cells[a]) else None
    }

    /** What a read into a zero-initialised local leaves behind: the cell, or 0
        when the read failed. */
    function LoadOrZero(a: u32): u32 {
      match Load(a)
      case Some(v) => v
      case None => 0
    }

    /** A 4-byte write: changes the cell only at a writable address. */
    function Put(a: u32, v: u32): Memory {
      if a in writable then this.(cells := cells[a := v]) else this
    }

    /** The cell at `a`, readable or not. */
    function Cell(a: u32): Option<u32> {
      if a in cells then Some(cells[a]) else None
    }
  }

  /** Strict resolution of a pointer chain: every offset is added to a value
      freshly read at the current address, and the first failed read aborts
      the whole chain. */
  function Resolve(m: Memory, base: u32, offsets: seq<u32>): Option<u32>
    decreases |offsets|
  {
    if offsets == [] then Some(base)
    else
      match m.Load(base)
      case None => None
      case Some(v) => Resolve(m, Add32(v, offsets[0]), offsets[1..])
  }

  /** The addresses strict resolution reads, in order. */
  function ResolveReads(m: Memory, base: u32, offsets: seq<u32>): seq<u32>
    decreases |offsets|
  {
    if offsets == [] then []
    else
      [base] + match m.Load(base)
               case None => []
               case Some(v) => ResolveReads(m, Add32(v, offsets[0]), offsets[1..])
  }

  /** Lenient walk of a pointer chain: a failed read is ignored and the walk
      goes on from the zero it left behind. */
  function Walk(m: Memory, base: u32, offsets: seq<u32>): u32
    decreases |offsets|
  {
    if offsets == [] then base
    else Walk(m, Add32(m.LoadOrZero(base), offsets[0]), offsets[1..])
  }

  /** The addresses the lenient walk reads, in order. */
  function WalkReads(m: Memory, base: u32, offsets: seq<u32>): seq<u32>
    decreases |offsets|
  {
    if offsets == [] then []
    else [base] + WalkReads(m, Add32(m.LoadOrZero(base), offsets[0]), offsets[1..])
  }

  /** Strict resolution reads at most one address per offset; every read but
      the last succeeded, so nothing is read after a failure; it succeeds
      exactly when it has read once per offset and the last read succeeded. */
  lemma {:induction false} ResolveReadsShape(m: Memory, base: u32, offsets: seq<u32>)
    ensures |ResolveReads(m, base, offsets)| <= |offsets|
    ensures forall i :: 0 <= i < |ResolveReads(m, base, offsets)| - 1 ==>
              m.Load(ResolveReads(m, base, offsets)[i]).Some?
    ensures Resolve(m, base, offsets).Some? <==>
              |ResolveReads(m, base, offsets)| == |offsets| &&
              (offsets == [] || m.Load(ResolveReads(m, base, offsets)[|offsets| - 1]).Some?)
    ensures Resolve(m, base, offsets).None? ==>
              ResolveReads(m, base, offsets) != [] &&
              m.Load(ResolveReads(m, base, offsets)[|ResolveReads(m, base, offsets)| - 1]).None?
    decreases |offsets|
  {
    if offsets != [] {
      match m.Load(base)
      case None =>
      case Some(v) =>
        var next := Add32(v, offsets[0]);
        ResolveReadsShape(m, next, offsets[1..]);
        var tail := ResolveReads(m, next, offsets[1..]);
        assert ResolveReads(m, base, offsets) == [base] + tail;
    }
  }

  /** Where strict resolution succeeds, the lenient walk reads the same
      addresses and reaches the same address. */
  lemma {:induction false} WalkAgreesWithResolve(m: Memory, base: u32, offsets: seq<u32>)
    requires Resolve(m, base, offsets).Some?
    ensures Walk(m, base, offsets) == Resolve(m, base, offsets).value
    ensures WalkReads(m, base, offsets) == ResolveReads(m, base, offsets)
    decreases |offsets|
  {
    if offsets != [] {
      WalkAgreesWithResolve(m, Add32(m.LoadOrZero(base), offsets[0]), offsets[1..]);
    }
  }

  /** The lenient walk reads exactly one address per offset. */
  lemma {:induction false} WalkReadsLength(m: Memory, base: u32, offsets: seq<u32>)
    ensures |WalkReads(m, base, offsets)| == |offsets|
    decreases |offsets|
  {
    if offsets != [] {
      WalkReadsLength(m, Add32(m.LoadOrZero(base), offsets[0]), offsets[1..]);
    }
  }

  /** A write to an address the chain does not read leaves its resolution,
      and what it reads, as they were. */
  lemma {:induction false} ResolveIgnoresOtherWrites(m: Memory, a: u32, v: u32, base: u32, offsets: seq<u32>)
    requires a !in ResolveReads(m, base, offsets)
    ensures Resolve(m.Put(a, v), base, offsets) == Resolve(m, base, offsets)
    ensures ResolveReads(m.Put(a, v), base, offsets) == ResolveReads(m, base, offsets)
    decreases |offsets|
  {
    if offsets != [] {
      assert base != a;
      assert m.Put(a, v).Load(base) == m.Load(base);
      match m.Load(base)
      case None =>
      case Some(w) =>
        ResolveIgnoresOtherWrites(m, a, v, Add32(w, offsets[0]), offsets[1..]);
    }
  }
}
