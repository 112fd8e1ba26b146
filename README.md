# ZomKill trainer engine, modelled in Dafny

ZomKill is a trainer for *Plants vs. Zombies*. It finds the game window, opens
the game process, and follows pointer chains through the game's memory. With
them it reads and rewrites the sun counter, and it runs a background loop that
keeps the ten seed-packet cooldowns at 1 ("no cooldown"). This project models
that engine, the non-UI part of `ZomKillApp` in `src/main.rs`. It is stated over a
modelled target process instead of Win32, and proves what each operation
reads, writes and changes.

Files and modules:

- `words.dfy`: `Wrappers` (an `Option`). `Words`: the `u32`/`i32` types, wrapping
  `u32` addition, and the two's-complement view of a 4-byte cell.
- `memory.dfy`: `RemoteMemory`. The target's memory as 4-byte cells with
  readable and writable address sets. Two ways to walk a pointer chain:
  `Resolve` is strict and stops at the first failed read. `Walk` is lenient and
  goes on from the zero a failed read leaves behind.
- `parse.dfy`: `IntParse`. The `str::parse::<i32>` the write uses, and decimal
  rendering.
- `process.dfy`: `SimOs`. `SimProcess`, a class standing in for `FindWindowW` +
  `GetWindowThreadProcessId`, `OpenProcess`, `ReadProcessMemory`,
  `WriteProcessMemory` and `CloseHandle`. It holds the window lookup result, the
  target pid, what `OpenProcess` yields, the memory, the set of open handles
  and a trace of every call.
- `trainer_spec.dfy`: `TrainerSpec`. The address constants, the sun and cooldown
  chains, the slot table, and the functions giving the result, the new memory
  and the call sequence of each operation. Also the lemmas about them.
- `trainer.dfy`: `Trainer`. `GameStatus`, the status-message tags,
  `CancelFlag` (the shared `Arc<Mutex<bool>>`), `FreezeTask` (the spawned loop)
  and the `ZomKillApp` class. Its methods are proved against the
  `TrainerSpec` functions.
- `scenarios.dfy`: `Scenarios`. Client methods proved from the contracts alone:
  - the refresh reads 9990 from a sample target;
  - writing "5000" and reading it back finds 5000;
  - a missing window leads to no `OpenProcess`;
  - "abc" leads to no process call;
  - one freeze cycle sets the slots to 1, and stopping leaves them as written.

Modelling choices:

- `u32` addition (`base_value + SUN_OFFSET_1` and the rest) wraps modulo 2^32,
  as a release build does. No precondition rules overflow out.
- A failed `ReadProcessMemory` into one of the zero-initialised locals leaves 0
  there (`Memory.LoadOrZero`). The write and the freeze cycle go on from that 0.
- `OpenProcess` has three outcomes, and the code treats each differently:
  `Err`, `Ok` with an invalid handle, and `Ok` with a valid handle
  (`SimProcess.access`). It succeeds only for the target's own pid.
- A pointer chain adds each offset to a freshly read value:
  - the sun chain `[0x868, 0x5578]` makes two pointer reads, then an `i32` read
    at its end;
  - the cooldown chain `[0x868, 0x15C, 0x70]` makes three reads and ends at slot 0.
  The code reads at the base address first, so a chain of k offsets makes k
  reads.
- The status line is a `StatusMessage` tag that carries the pid or value the
  text shows.
- The freeze loop is a `FreezeTask` object that `ToggleNoCooldown` creates. It
  shares the `CancelFlag` and captures the pid. `FreezeTask.Step` is one turn of
  `while *active.lock().unwrap()`: the flag check plus the body.

## Model

| member | source | states |
|---|---|---|
| `Words.Add32` | src/main.rs:156 | `u32` addition wraps: the result is the sum or the sum less 2^32 |
| `Words.AsI32` | src/main.rs:168-178 | the `i32` read from a cell has the cell's bits (equal to it modulo 2^32) |
| `Words.AsU32` | src/main.rs:231 | the cell written for an `i32` reads back as the same `i32` |
| `RemoteMemory.Memory.Load` | src/main.rs:139-146 | definition without a contract of its own: a 4-byte read succeeds only at a readable address holding a cell, and yields that cell. Used by `SimOs.SimProcess.ReadProcessMemory` |
| `RemoteMemory.Memory.LoadOrZero` | src/main.rs:206-225 | definition without a contract of its own: what a read leaves in a zero-initialised local, the cell or 0 on failure. Used by `Walk`; see `TrainerSpec.SunTargetChain` |
| `RemoteMemory.Memory.Put` | src/main.rs:228-235 | definition without a contract of its own: a 4-byte write changes only that cell, and only at a writable address. Used by `SimOs.SimProcess.WriteProcessMemory`; see `TrainerSpec.FrozenAt` |
| `RemoteMemory.Resolve` | src/main.rs:137-171 | definition without a contract of its own: the strict chain, each offset added to a freshly read value, aborting at the first failed read. Characterised by `ResolveReadsShape`, `WalkAgreesWithResolve`, `ResolveIgnoresOtherWrites` |
| `RemoteMemory.ResolveReads` | src/main.rs:137-165 | definition without a contract of its own: the addresses the strict chain reads. Characterised by `ResolveReadsShape` |
| `RemoteMemory.Walk` | src/main.rs:206-225 | definition without a contract of its own: the lenient chain, continuing from 0 after a failed read. Characterised by `WalkAgreesWithResolve`, `TrainerSpec.SunTargetChain`, `TrainerSpec.SlotBaseChain` |
| `RemoteMemory.WalkReads` | src/main.rs:280-307 | definition without a contract of its own: the addresses the lenient chain reads, one per offset. Characterised by `WalkReadsLength`, `WalkAgreesWithResolve` |
| `RemoteMemory.ResolveReadsShape` | src/main.rs:137-165 | strict resolution reads at most one address per offset, and every read but the last succeeded (nothing is read after a failure). It succeeds iff it read once per offset and the last read succeeded. A failed resolution ends on a failed read, and an empty chain reads nothing |
| `RemoteMemory.WalkAgreesWithResolve` | src/main.rs:206-225 | where strict resolution succeeds, the read-failure-ignoring walk reads the same addresses and reaches the same address |
| `RemoteMemory.WalkReadsLength` | src/main.rs:206-225 | the lenient walk always reads exactly one address per offset |
| `RemoteMemory.ResolveIgnoresOtherWrites` | src/main.rs:139-171 | a write to an address the chain does not read changes neither the chain's resolution nor the addresses it reads |
| `IntParse.ParseFormatRoundTrip` | src/main.rs:196 | parsing the decimal rendering of any `i32` gives it back |
| `IntParse.ParseRejectsLetters` | src/main.rs:196 | "abc" and "12a" do not parse |
| `IntParse.ParseRejectsEmpty` | src/main.rs:196 | the empty text and a lone sign do not parse |
| `IntParse.ParseI32` | src/main.rs:196 | definition without a contract of its own: one optional sign, then ASCII digits only, and the value must fit in an `i32`. Characterised by `ParseNatText`, `ParseFormatRoundTrip`, `ParseRejectsLetters`, `ParseRejectsEmpty`, `ParseRange` |
| `IntParse.ParseNatText` | src/main.rs:196 | the decimal text of any natural number parses to it iff it is below 2^31; with a minus sign in front it parses to its negation iff that is at least -2^31; otherwise it is rejected |
| `IntParse.ParseRange` | src/main.rs:196 | the text of 2^31 (2147483648) is out of range; the same text with a minus sign (-2147483648) parses |
| `IntParse.ParsePresets` | src/main.rs:494-514 | the preset texts "9990", "8000" and "5000" parse to those values |
| `SimOs.SimProcess.FindWindow` | src/main.rs:101-106 | the window lookup yields the window's pid, or nothing if there is no window |
| `SimOs.SimProcess.OpenProcess` | src/main.rs:128-134 | opening yields an error, the invalid handle or a fresh handle, as the target allows; only a fresh handle joins the open set |
| `SimOs.SimProcess.OpenOutcome` | src/main.rs:128-134 | definition without a contract of its own: what opening the process returns in the current state: an error for a wrong pid or denied access, the invalid (null) handle, or the next fresh handle. Used by `OpenProcess` and by the `ensures` of `Trainer.ZomKillApp.ReadSunValue`, `WriteSunValue` and `Trainer.FreezeTask.Step` to name the handle each one opened |
| `SimOs.SimProcess.ReadProcessMemory` | src/main.rs:139-146 | a read succeeds only through an open handle at a readable address, and returns that cell |
| `SimOs.SimProcess.WriteProcessMemory` | src/main.rs:228-235 | a write succeeds only through an open handle at a writable address, and changes only that cell |
| `SimOs.SimProcess.CloseHandle` | src/main.rs:148 | closing removes the handle from the open set |
| `TrainerSpec.SunRead` | src/main.rs:137-181 | definition without a contract of its own: the sun value a read finds, the sun chain resolved strictly and the `i32` at its end. Characterised by `SunReadChain`, `SunWriteThenRead` |
| `TrainerSpec.SunTarget` | src/main.rs:206-230 | definition without a contract of its own: the address the write targets, the sun chain walked leniently. Characterised by `SunTargetChain` |
| `TrainerSpec.SunWrite` | src/main.rs:228-237 | definition without a contract of its own: the memory after writing the value's bits at `SunTarget`. Characterised by `SunWriteThenRead`; used by `Trainer.WriteSunCell` |
| `TrainerSpec.SlotBase` | src/main.rs:277-314 | definition without a contract of its own: the address of slot 0, the cooldown chain walked leniently. Characterised by `SlotBaseChain` |
| `TrainerSpec.SlotAddr` | src/main.rs:314 | definition without a contract of its own: slot i at slot 0 plus i*0x50, wrapping. Characterised by `SlotsApart` |
| `TrainerSpec.SunReadAddrs` | src/main.rs:139-171 | definition without a contract of its own: the addresses a sun read reads, the strict chain's reads and then the final target, stopping at the first failed read. Characterised by `SunReadChain`; used by `ReadSunCalls` |
| `TrainerSpec.SlotAddrs` | src/main.rs:313-323 | definition without a contract of its own: the first n slot addresses, in the order the `for i in 0..10` loop writes them. Used by `FrozenAt` and by `Trainer.WriteSlots`; see `SlotsApart` |
| `TrainerSpec.SlotWrites` | src/main.rs:313-323 | definition without a contract of its own: one write call of 1 per slot address, in order. Used by the loop invariant and `ensures` of `Trainer.WriteSlots` |
| `TrainerSpec.ReadSunCalls` | src/main.rs:128-183 | definition without a contract of its own: a sun read makes the open call; if it yields a valid handle, one read per address of `SunReadAddrs` (none after a failed read) and then exactly one close of that handle; otherwise nothing more. Stated of `Trainer.ZomKillApp.ReadSunValue` and `Trainer.ZomKillApp.Update` |
| `TrainerSpec.WriteSunCalls` | src/main.rs:198-243 | definition without a contract of its own: a sun write makes the open call; if it yields a valid handle, the two lenient chain reads, the write at `SunTarget` and exactly one close of that handle; otherwise nothing more. Stated of `Trainer.ZomKillApp.WriteSunValue` |
| `TrainerSpec.FreezeCalls` | src/main.rs:275-325 | definition without a contract of its own: one freeze cycle makes the open call; if it yields a valid handle, the three lenient chain reads, the ten slot writes in order and exactly one close of that handle; otherwise nothing more. Stated of `Trainer.FreezeTask.Step` |
| `TrainerSpec.Frozen` | src/main.rs:313-323 | the slot writes change neither which addresses are readable nor which are writable |
| `TrainerSpec.SunReadChain` | src/main.rs:137-181 | a sun read succeeds iff the base cell, the cell 0x868 past its pointer and the cell 0x5578 past that pointer are all readable. It then yields `mem[mem[mem[0x00755E0C] + 0x868] + 0x5578]`: the last offset is added, not dereferenced. It reads those addresses in order, up to the first failure |
| `TrainerSpec.SunTargetChain` | src/main.rs:206-230 | the sun write reads the base cell and the cell 0x868 past its pointer, whatever the reads return. It targets 0x5578 past the second pointer, with 0 standing in for a failed read |
| `TrainerSpec.SlotBaseChain` | src/main.rs:277-314 | the freeze cycle reads the three pointer cells of the cooldown chain whatever the reads return. Slot 0 is 0x70 past the third pointer |
| `TrainerSpec.SunWriteThenRead` | src/main.rs:169-240 | round trip: if both pointer reads succeed, and the sun cell is readable, writable and not a pointer cell, a read after writing `v` yields `v` |
| `TrainerSpec.SlotsApart` | src/main.rs:313-314 | slot j lies (j-i)*0x50 bytes after slot i and, wrapping, at least 0x50 bytes before it. So the ten 4-byte slots are pairwise distinct and do not overlap |
| `TrainerSpec.FrozenAt` | src/main.rs:309-323 | after the slot writes, every writable slot holds 1, and every other cell is exactly as before |
| `Trainer.FreezeTask.constructor` | src/main.rs:271-272 | the loop shares the trainer's flag and the pid captured at start |
| `Trainer.FreezeTask.Step` | src/main.rs:274-329 | with the flag clear, the loop stops without touching the process. Otherwise one cycle: open, walk the cooldown chain, write 1 to the ten slots, close. The memory becomes `Frozen` when the handle opened, and is unchanged otherwise. The call sequence is `FreezeCalls`, and the open-handle set is unchanged |
| `Trainer.ResolveSlots` | src/main.rs:277-307 | the three chain reads of a cycle reach `SlotBase` and make exactly those read calls |
| `Trainer.WriteSlots` | src/main.rs:309-323 | the `for i in 0..10` loop leaves the memory `Frozen` and makes one write call per slot, in order |
| `Trainer.WriteSunCell` | src/main.rs:206-234 | the write walks the chain ignoring failed reads, then writes the value's bits at `SunTarget`. It succeeds iff that address is writable |
| `Trainer.CancelFlag.constructor` | src/main.rs:75 | the flag starts clear |
| `Trainer.ZomKillApp.constructor` | src/main.rs:68-80 | the initial state: not running, pid 0, sun 0, text "9990", freeze off, waiting message |
| `Trainer.ZomKillApp.CheckGameStatus` | src/main.rs:90-118 | window found: `Running` with the window's pid. Not found: `NotRunning` with pid 0. `InLevel` is never assigned, and the only call is the window lookup |
| `Trainer.ZomKillApp.ReadSunValue` | src/main.rs:126-187 | true iff a valid handle opened and `SunRead` succeeds, and only then does `currentSun` change (to that value). An invalid handle sets the "enter a level" message. The calls are `ReadSunCalls`: open, the chain reads up to the first failure, and one close of the handle. The open-handle set ends as it started |
| `Trainer.ZomKillApp.WriteSunValue` | src/main.rs:195-250 | text that does not parse sets the "enter a valid number" message and makes no process call, changing neither memory nor `currentSun`. Otherwise an invalid handle sets the "cannot open process" message and leaves the memory and `currentSun` unchanged, and with a valid handle the memory becomes `SunWrite`. True iff that write succeeded, and only then does `currentSun` change and the "sun written" message appear. The call sequence is `WriteSunCalls` (one close), and the open-handle set ends as it started |
| `Trainer.ZomKillApp.ToggleNoCooldown` | src/main.rs:258-333 | negates the flag and sets the matching message. Only a false-to-true flip starts a loop, which shares the flag and holds the current pid |
| `Trainer.ZomKillApp.Update` | src/main.rs:342-349 | the window check, then a sun read only when the status is not `NotRunning`. With no window, the only call is the window lookup |
| `Trainer.ToggleTwiceStopsFreeze` | src/main.rs:260-274 | starting then stopping the freeze leaves a loop whose next turn stops without any process call |

## Left out

- The egui/eframe presentation: fonts, panels, buttons, colours and `main`. `update` is modelled only for lines 344-349.
- The Win32 calls: they are the `SimProcess` oracle methods. The bytes they
  report moved (`bytes_read`, `bytes_written`) are never checked by the code and
  are not modelled.
- Concurrency: the spawned thread, the mutex and the 100 ms sleep are not
  modelled. The restart race (a stopped loop that sees the flag set again
  before its next check) is not modelled either. The flag flip and single loop
  turns are modelled, in sequence.
- The non-Windows stubs, which only return false or set a message.
- Byte-level aliasing: memory is a map of independent 4-byte cells, so cells 1
  byte apart do not overlap in the model. `TrainerSpec.SlotsApart` shows that
  the ten slot cells are at least 0x50 apart. `TrainerSpec.SunWriteThenRead`
  assumes only that the sun cell is not one of the two pointer cells, not that
  it is disjoint from them byte by byte.
- The wording of the status messages: a tag stands in for each message.
- `show_about`: kept as a field; only the UI reads or sets it.
- Debug-build overflow panics: addition wraps, as in a release build.
