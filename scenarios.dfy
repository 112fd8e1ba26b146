/** End-to-end clients of the engine over a simulated process, proved from
    the operations' contracts alone. */
module Scenarios {
  import opened Wrappers
  import opened Words
  import opened RemoteMemory
  import opened IntParse
  import opened SimOs
  import opened TrainerSpec
  import opened Trainer

  /** A target whose sun chain leads through 0x1000 and 0x2000 to a cell
      holding 9990. */
  function SampleMemory(): Memory {
    var cells := map[SUN_BASE_ADDR := 0x1000, 0x1868 := 0x2000, 0x7578 := 9990];
    Memory(cells, cells.Keys, cells.Keys)
  }

  /** The sample's chain resolves to 0x7578, which holds 9990. */
  lemma SampleChain()
    ensures Resolve(SampleMemory(), SUN_BASE_ADDR, SUN_CHAIN) == Some(0x7578)
    ensures ResolveReads(SampleMemory(), SUN_BASE_ADDR, SUN_CHAIN) == [SUN_BASE_ADDR, 0x1868]
    ensures SunRead(SampleMemory()) == Some(9990)
    ensures SunTarget(SampleMemory()) == 0x7578
  {
    var m := SampleMemory();
    SunReadChain(m);
    assert m.Load(SUN_BASE_ADDR) == Some(0x1000) && m.Load(0x1868) == Some(0x2000);
    assert m.Load(0x7578) == Some(9990);
    ResolveReadsShape(m, SUN_BASE_ADDR, SUN_CHAIN);
    WalkAgreesWithResolve(m, SUN_BASE_ADDR, SUN_CHAIN);
  }

  /** Connected: the refresh reads 9990. */
  method ReadsSample() {
    var p := new SimProcess(Some(42), 42, Granted, SampleMemory());
    var app := new ZomKillApp();
    SampleChain();
    app.Update(p);
    assert app.gameStatus == Running && app.currentSun == 9990 && p.live == {};
  }

  /** On any target whose sun chain resolves to a readable, writable cell
      that is not one of its pointer cells, writing text that parses to `v`
      succeeds and a following read finds `v`. */
  method WriteThenRead(m: Memory, text: string, v: i32)
    requires ParseI32(text) == Some(v)
    requires Resolve(m, SUN_BASE_ADDR, SUN_CHAIN).Some?
    requires SunTarget(m) !in ResolveReads(m, SUN_BASE_ADDR, SUN_CHAIN)
    requires SunTarget(m) in m.readable && SunTarget(m) in m.writable
  {
    var p := new SimProcess(Some(42), 42, Granted, m);
    var app := new ZomKillApp();
    app.CheckGameStatus(p);
    app.newSunValue := text;
    var written := app.WriteSunValue(p);
    assert written && app.currentSun == v && app.statusMessage == SunWritten(v);
    SunWriteThenRead(m, v);
    app.currentSun := 0;
    var ok := app.ReadSunValue(p);
    assert ok && app.currentSun == v && p.live == {};
  }

  /** On the sample target, writing "5000" and reading back finds 5000. */
  method WriteThenReadSample() {
    SampleChain();
    ParsePresets();
    WriteThenRead(SampleMemory(), "5000", 5000);
  }

  /** Disconnected: the refresh finds no window, reports the game as not
      running, and never opens the process. */
  method Disconnected() {
    var p := new SimProcess(None, 42, Granted, SampleMemory());
    var app := new ZomKillApp();
    app.Update(p);
    assert app.gameStatus == NotRunning && app.processId == 0;
    assert p.trace == [FindWindowCall];
  }

  /** Invalid input: "abc" is rejected and the process is never called. */
  method RejectsText() {
    var p := new SimProcess(Some(42), 42, Granted, SampleMemory());
    var app := new ZomKillApp();
    app.newSunValue := "abc";
    ParseRejectsLetters();
    var ok := app.WriteSunValue(p);
    assert !ok && app.statusMessage == InvalidNumber && p.trace == [];
  }

  /** One freeze cycle started by a toggle sets all ten slots to 1; stopping
      the freeze leaves them as last written. */
  method FreezeOnce(m: Memory, slot: nat)
    requires slot < SLOT_COUNT
    requires forall i :: 0 <= i < SLOT_COUNT ==> SlotAddr(SlotBase(m), i) in m.writable
  {
    var p := new SimProcess(Some(7), 7, Granted, m);
    var app := new ZomKillApp();
    app.CheckGameStatus(p);
    var task := app.ToggleNoCooldown();
    var running := task.Step(p);
    assert running;
    var a := SlotAddr(SlotBase(m), slot);
    assert SlotAddrs(SlotBase(m), SLOT_COUNT)[slot] == a;
    FrozenAt(m, SlotBase(m), SLOT_COUNT, a);
    assert p.memory.Cell(a) == Some(AsU32(NO_COOLDOWN));
    var none := app.ToggleNoCooldown();
    running := task.Step(p);
    assert !running && p.memory.Cell(a) == Some(AsU32(NO_COOLDOWN));
  }
}
