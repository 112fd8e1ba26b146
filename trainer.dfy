/** The trainer engine: the connection state machine, the sun read and
    write, and the cooldown freeze, stated over a modelled target process. */
module Trainer {
  import opened Wrappers
  import opened Words
  import opened RemoteMemory
  import opened IntParse
  import opened SimOs
  import opened TrainerSpec

  datatype GameStatus = NotRunning | Running | InLevel

  /** The status line, as a tag instead of its localized wording. */
  datatype StatusMessage =
    | WaitingForGame
    | GameRunning(pid: u32)
    | GameNotRunning
    | CannotOpenEnterLevel
    | CannotOpenProcess
    | SunWritten(value: i32)
    | InvalidNumber
    | CooldownStopped
    | CooldownActivated

  /** The flag shared between the trainer and its freeze loop. */
  class CancelFlag {
    var active: bool

    constructor ()
      ensures !active
    {
      active := false;
    }
  }

  /** The freeze loop started by a toggle: it holds the shared flag and the
      pid captured when it was started. */
  class FreezeTask {
    const flag: CancelFlag
    const pid: u32

    constructor (flag: CancelFlag, pid: u32)
      ensures this.flag == flag && this.pid == pid
    {
      this.flag := flag;
      this.pid := pid;
    }

    /** One turn of the loop: stop if the flag is clear; otherwise open the
        process, walk the cooldown chain ignoring failed reads, write 1 to
        each of the ten slots ignoring failed writes, and close the handle. */
    method Step(p: SimProcess) returns (running: bool)
      requires p.Valid()
      modifies p`memory, p`live, p`nextHandle, p`trace
      ensures p.Valid() && p.live == old(p.live)
      ensures running == flag.active
      ensures !running ==> p.memory == old(p.memory) && p.trace == old(p.trace)
      ensures running ==>
                p.trace == old(p.trace) + FreezeCalls(pid, old(p.OpenOutcome(pid)), old(p.memory))
      ensures running ==>
                p.memory == if Opens(old(p.OpenOutcome(pid)))
                            then Frozen(old(p.memory), SlotBase(old(p.memory)), SLOT_COUNT)
                            else old(p.memory)
    {
      if !flag.active {
        return false;
      }
      var outcome := p.OpenProcess(pid);
      if outcome.Some? && outcome.value.Handle? {
        var handle := outcome.value;
        var slots := ResolveSlots(p, handle);
        WriteSlots(p, handle, slots);
        var closed := p.CloseHandle(handle);
      }
      return true;
    }
  }

  /** The three reads of a freeze cycle: walk the cooldown chain through an
      open handle, ignoring failed reads, to the address of slot 0. */
  method ResolveSlots(p: SimProcess, handle: Handle) returns (slots: u32)
    requires handle.Handle? && handle.id in p.live
    modifies p`trace
    ensures slots == SlotBase(p.memory)
    ensures p.trace == old(p.trace) + ReadCalls(WalkReads(p.memory, COOLDOWN_BASE_ADDR, COOLDOWN_CHAIN))
  {
    SlotBaseChain(p.memory);
    var r := p.ReadProcessMemory(handle, COOLDOWN_BASE_ADDR);
    var baseValue: u32 := if r.Some? then r.value else 0;
    r := p.ReadProcessMemory(handle, Add32(baseValue, COOLDOWN_OFFSET_1));
    var offset1Value: u32 := if r.Some? then r.value else 0;
    r := p.ReadProcessMemory(handle, Add32(offset1Value, COOLDOWN_OFFSET_2));
    var offset2Value: u32 := if r.Some? then r.value else 0;
    slots := Add32(offset2Value, COOLDOWN_OFFSET_3);
  }

  /** The `for i in 0..10` loop of a freeze cycle: writes 1 to each slot
      through an open handle, whether or not each write succeeds. */
  method WriteSlots(p: SimProcess, handle: Handle, slots: u32)
    requires handle.Handle? && handle.id in p.live
    modifies p`memory, p`trace
    ensures p.memory == Frozen(old(p.memory), slots, SLOT_COUNT)
    ensures p.trace == old(p.trace) + SlotWrites(SlotAddrs(slots, SLOT_COUNT))
  {
    for i := 0 to SLOT_COUNT
      invariant p.memory == Frozen(old(p.memory), slots, i)
      invariant p.trace == old(p.trace) + SlotWrites(SlotAddrs(slots, i))
    {
      var addr := Add32(slots, i * SLOT_STRIDE);
      var written := p.WriteProcessMemory(handle, addr, AsU32(NO_COOLDOWN));
      assert SlotWrites(SlotAddrs(slots, i + 1)) ==
               SlotWrites(SlotAddrs(slots, i)) + [WriteCall(addr, AsU32(NO_COOLDOWN))];
    }
  }

  /** The body of a sun write once the handle is open: walk the chain
      ignoring failed reads, then write `value` where it leads. */
  method WriteSunCell(p: SimProcess, handle: Handle, value: i32) returns (written: bool)
    requires handle.Handle? && handle.id in p.live
    modifies p`memory, p`trace
    ensures written == (SunTarget(old(p.memory)) in old(p.memory).writable)
    ensures p.memory == SunWrite(old(p.memory), value)
    ensures p.trace == old(p.trace) + ReadCalls(WalkReads(old(p.memory), SUN_BASE_ADDR, SUN_CHAIN)) +
                         [WriteCall(SunTarget(old(p.memory)), AsU32(value))]
  {
    SunTargetChain(p.memory);
    var r := p.ReadProcessMemory(handle, SUN_BASE_ADDR);
    var baseValue: u32 := if r.Some? then r.value else 0;
    r := p.ReadProcessMemory(handle, Add32(baseValue, SUN_OFFSET_1));
    var offset1Value: u32 := if r.Some? then r.value else 0;
    written := p.WriteProcessMemory(handle, Add32(offset1Value, SUN_OFFSET_2), AsU32(value));
  }

  class ZomKillApp {
    var gameStatus: GameStatus
    var processId: u32
    var currentSun: i32
    /** The text field holding the value to write. */
    var newSunValue: string
    const noCooldownActive: CancelFlag
    var statusMessage: StatusMessage
    var showAbout: bool

    constructor ()
      ensures gameStatus == NotRunning && processId == 0 && currentSun == 0
      ensures newSunValue == "9990" && statusMessage == WaitingForGame && !showAbout
      ensures fresh(noCooldownActive) && !noCooldownActive.active
    {
      gameStatus := NotRunning;
      processId := 0;
      currentSun := 0;
      newSunValue := "9990";
      noCooldownActive := new CancelFlag();
      statusMessage := WaitingForGame;
      showAbout := false;
    }

    /** Looks for the game window: found, the game is running under the
        window's pid; not found, it is not running and the pid is 0. No path
        reports `InLevel`. */
    method CheckGameStatus(p: SimProcess)
      modifies this`gameStatus, this`processId, this`statusMessage, p`trace
      ensures gameStatus == if p.window.Some? then Running else NotRunning
      ensures processId == if p.window.Some? then p.window.value else 0
      ensures statusMessage == if p.window.Some? then GameRunning(p.window.value) else GameNotRunning
      ensures p.trace == old(p.trace) + [FindWindowCall]
    {
      var found := p.FindWindow();
      match found
      case Some(pid) =>
        processId := pid;
        gameStatus := Running;
        statusMessage := GameRunning(pid);
      case None =>
        gameStatus := NotRunning;
        processId := 0;
        statusMessage := GameNotRunning;
    }

    /** Reads the sun value through its pointer chain, stopping at the first
        failed read; only a complete read updates `currentSun`. A handle that
        was opened is closed on every path. */
    method ReadSunValue(p: SimProcess) returns (ok: bool)
      requires p.Valid()
      modifies this`currentSun, this`statusMessage, p`live, p`nextHandle, p`trace
      ensures p.Valid() && p.live == old(p.live)
      ensures ok == (Opens(old(p.OpenOutcome(processId))) && SunRead(p.memory).Some?)
      ensures currentSun == if ok then SunRead(p.memory).value else old(currentSun)
      ensures statusMessage ==
                if old(p.OpenOutcome(processId)) == Some(InvalidHandle) then CannotOpenEnterLevel
                else old(statusMessage)
      ensures p.trace == old(p.trace) + ReadSunCalls(processId, old(p.OpenOutcome(processId)), p.memory)
    {
      var outcome := p.OpenProcess(processId);
      if outcome.Some? {
        var handle := outcome.value;
        if handle.InvalidHandle? {
          statusMessage := CannotOpenEnterLevel;
          return false;
        }
        ghost var t := p.trace;
        SunReadChain(p.memory);
        var r := p.ReadProcessMemory(handle, SUN_BASE_ADDR);
        if r.None? {
          var closed := p.CloseHandle(handle);
          return false;
        }
        var baseValue := r.value;
        r := p.ReadProcessMemory(handle, Add32(baseValue, SUN_OFFSET_1));
        if r.None? {
          var closed := p.CloseHandle(handle);
          return false;
        }
        var offset1Value := r.value;
        r := p.ReadProcessMemory(handle, Add32(offset1Value, SUN_OFFSET_2));
        if r.Some? {
          currentSun := AsI32(r.value);
          var closed := p.CloseHandle(handle);
          return true;
        }
        var closed := p.CloseHandle(handle);
      }
      return false;
    }

    /** Writes the text field's value to the sun cell. Text that is not an
        `i32` is rejected before any call to the process. Otherwise the chain
        is walked ignoring failed reads, and only a successful write updates
        `currentSun`. A handle that was opened is closed on every path. */
    method WriteSunValue(p: SimProcess) returns (ok: bool)
      requires p.Valid()
      modifies this`currentSun, this`statusMessage, p`memory, p`live, p`nextHandle, p`trace
      ensures p.Valid() && p.live == old(p.live)
      ensures ParseI32(newSunValue).None? ==>
                && !ok && statusMessage == InvalidNumber && currentSun == old(currentSun)
                && p.memory == old(p.memory) && p.trace == old(p.trace)
                && p.nextHandle == old(p.nextHandle)
      ensures ParseI32(newSunValue).Some? ==>
                var v := ParseI32(newSunValue).value;
                var o := old(p.OpenOutcome(processId));
                && ok == (Opens(o) && SunTarget(old(p.memory)) in old(p.memory).writable)
                && p.memory == (if Opens(o) then SunWrite(old(p.memory), v) else old(p.memory))
                && currentSun == (if ok then v else old(currentSun))
                && statusMessage == (if ok then SunWritten(v)
                                     else if o == Some(InvalidHandle) then CannotOpenProcess
                                     else old(statusMessage))
                && p.trace == old(p.trace) + WriteSunCalls(processId, o, old(p.memory), v)
    {
      var parsed := ParseI32(newSunValue);
      if parsed.None? {
        statusMessage := InvalidNumber;
        return false;
      }
      var value := parsed.value;
      var outcome := p.OpenProcess(processId);
      if outcome.Some? {
        var handle := outcome.value;
        if handle.InvalidHandle? {
          statusMessage := CannotOpenProcess;
          return false;
        }
        var written := WriteSunCell(p, handle, value);
        if written {
          currentSun := value;
          statusMessage := SunWritten(value);
          var closed := p.CloseHandle(handle);
          return true;
        }
        var closed := p.CloseHandle(handle);
      }
      return false;
    }

    /** Flips the freeze flag. Turning it on starts a freeze loop for the
        current pid; turning it off only clears the flag, which the running
        loop sees on its next turn. */
    method ToggleNoCooldown() returns (task: FreezeTask?)
      modifies noCooldownActive, this`statusMessage
      ensures noCooldownActive.active == !old(noCooldownActive.active)
      ensures statusMessage == if old(noCooldownActive.active) then CooldownStopped else CooldownActivated
      ensures old(noCooldownActive.active) ==> task == null
      ensures !old(noCooldownActive.active) ==>
                task != null && fresh(task) && task.flag == noCooldownActive && task.pid == processId
    {
      var currentActive := noCooldownActive.active;
      if currentActive {
        noCooldownActive.active := false;
        statusMessage := CooldownStopped;
        task := null;
      } else {
        noCooldownActive.active := true;
        statusMessage := CooldownActivated;
        task := new FreezeTask(noCooldownActive, processId);
      }
    }

    /** The engine part of one refresh: check the game window, then read the
        sun value only if the game is running. */
    method Update(p: SimProcess)
      requires p.Valid()
      modifies this`gameStatus, this`processId, this`statusMessage, this`currentSun
      modifies p`live, p`nextHandle, p`trace
      ensures p.Valid() && p.live == old(p.live)
      ensures gameStatus == if p.window.Some? then Running else NotRunning
      ensures processId == if p.window.Some? then p.window.value else 0
      ensures p.window.None? ==>
                && p.trace == old(p.trace) + [FindWindowCall]
                && currentSun == old(currentSun) && statusMessage == GameNotRunning
      ensures p.window.Some? ==>
                var o := old(p.OpenOutcome(p.window.value));
                && p.trace == old(p.trace) + [FindWindowCall] + ReadSunCalls(processId, o, p.memory)
                && currentSun == (if Opens(o) && SunRead(p.memory).Some? then SunRead(p.memory).value
                                  else old(currentSun))
                && statusMessage == (if o == Some(InvalidHandle) then CannotOpenEnterLevel
                                     else GameRunning(processId))
    {
      CheckGameStatus(p);
      if gameStatus != NotRunning {
        var ok := ReadSunValue(p);
      }
    }
  }

  /** Starting and then stopping the freeze leaves a loop that stops on its
      next turn without touching the process. */
  method ToggleTwiceStopsFreeze(app: ZomKillApp, p: SimProcess) returns (running: bool)
    requires !app.noCooldownActive.active && p.Valid()
    modifies app, app.noCooldownActive, p`memory, p`live, p`nextHandle, p`trace
    ensures !running && !app.noCooldownActive.active
    ensures p.memory == old(p.memory) && p.trace == old(p.trace)
  {
    var task := app.ToggleNoCooldown();
    var none := app.ToggleNoCooldown();
    assert none == null;
    running := task.Step(p);
  }
}
