/** A simulated target process standing in for the Win32 calls the trainer
    makes: the window lookup, OpenProcess, ReadProcessMemory,
    WriteProcessMemory and CloseHandle. Every call is recorded in `trace`. */
module SimOs {
  import opened Wrappers
  import opened Words
  import opened RemoteMemory

  /** What a successful OpenProcess hands back: a handle that may still be
      the invalid one. */
  datatype Handle = InvalidHandle | Handle(id: nat)

  /** What OpenProcess yields for the right process id. */
  datatype Access = Denied | NullHandle | Granted

  datatype Call =
    | FindWindowCall
    | OpenCall(pid: u32)
    | ReadCall(addr: u32)
    | WriteCall(addr: u32, value: u32)
    | CloseCall(handle: Handle)

  /** One read call per address, in order. */
  function ReadCalls(addrs: seq<u32>): seq<Call> {
    seq(|addrs|, i requires 0 <= i < |addrs| => ReadCall(addrs[i]))
  }

  class SimProcess {
    /** The pid of the window with the trainer's class and title, if any. */
    var window: Option<u32>
    /** The pid of the running target. */
    var pid: u32
    var access: Access
    var memory: Memory
    /** Handles currently open, and the id the next one gets. */
    var live: set<nat>
    var nextHandle: nat
    var trace: seq<Call>

    ghost predicate Valid()
      reads this
    {
      forall h :: h in live ==> h < nextHandle
    }

    constructor (window: Option<u32>, pid: u32, access: Access, memory: Memory)
      ensures Valid()
      ensures this.window == window && this.pid == pid && this.access == access
      ensures this.memory == memory && live == {} && nextHandle == 0 && trace == []
    {
      this.window := window;
      this.pid := pid;
      this.access := access;
      this.memory := memory;
      live := {};
      nextHandle := 0;
      trace := [];
    }

    /** What OpenProcess(id) returns in the current state. */
    function OpenOutcome(id: u32): Option<Handle>
      reads this
    {
      if id != pid || access == Denied then None
      else if access == NullHandle then Some(InvalidHandle)
      else Some(Handle(nextHandle))
    }

    /** FindWindowW followed by GetWindowThreadProcessId. */
    method FindWindow() returns (found: Option<u32>)
      modifies this`trace
      ensures found == window
      ensures trace == old(trace) + [FindWindowCall]
    {
      found := window;
      trace := trace + [FindWindowCall];
    }

    method OpenProcess(id: u32) returns (r: Option<Handle>)
      requires Valid()
      modifies this`live, this`nextHandle, this`trace
      ensures Valid()
      ensures r == old(OpenOutcome(id))
      ensures trace == old(trace) + [OpenCall(id)]
      ensures r.Some? && r.value.Handle? ==> r.value.id !in old(live) && live == old(live) + {r.value.id}
      ensures !(r.Some? && r.value.Handle?) ==> live == old(live)
    {
      r := OpenOutcome(id);
      if r.Some? && r.value.Handle? {
        live := live + {nextHandle};
        nextHandle := nextHandle + 1;
      }
      trace := trace + [OpenCall(id)];
    }

    /** A 4-byte read; fails on a handle that is not open. */
    method ReadProcessMemory(h: Handle, addr: u32) returns (r: Option<u32>)
      modifies this`trace
      ensures r == if h.Handle? && h.id in live then memory.Load(addr) else None
      ensures trace == old(trace) + [ReadCall(addr)]
    {
      r := if h.Handle? && h.id in live then memory.Load(addr) else None;
      trace := trace + [ReadCall(addr)];
    }

    /** A 4-byte write; fails on a handle that is not open. */
    method WriteProcessMemory(h: Handle, addr: u32, value: u32) returns (ok: bool)
      modifies this`memory, this`trace
      ensures ok == (h.Handle? && h.id in live && addr in old(memory).writable)
      ensures memory == if h.Handle? && h.id in live then old(memory).Put(addr, value) else old(memory)
      ensures trace == old(trace) + [WriteCall(addr, value)]
    {
      ok := h.Handle? && h.id in live && addr in memory.writable;
      if h.Handle? && h.id in live {
        memory := memory.Put(addr, value);
      }
      trace := trace + [WriteCall(addr, value)];
    }

    /** Releases an open handle; fails on one that is not open. */
    method CloseHandle(h: Handle) returns (ok: bool)
      modifies this`live, this`trace
      ensures ok == (h.Handle? && h.id in old(live))
      ensures live == if h.Handle? then old(live) - {h.id} else old(live)
      ensures trace == old(trace) + [CloseCall(h)]
    {
      ok := h.Handle? && h.id in live;
      if h.Handle? {
        live := live - {h.id};
      }
      trace := trace + [CloseCall(h)];
    }
  }
}
