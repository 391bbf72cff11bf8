/** Runs of `emulateCycle`: what repeated cycles keep, and an end-to-end property of a
    two-instruction program. A host loop calling `emulateCycle` is not part of the Go code;
    `RunCycles` states what such a loop would observe. */
module Runs {
  import opened MathFuncs
  import opened Opcodes
  import opened Decoder
  import opened Machine

  /** `n` calls of `emulateCycle` in a row, as a host loop makes them, stopping at the first
      panic. Not part of the Go code: it states what repeated cycles do. However many cycles
      run, memory, the registers, I, the stack, the timers, the keypad and the verbose flag
      keep their values: in this snapshot a cycle writes only `ins`, `pc` and `display`. */
  function RunCycles(s: State, n: nat): (r: Transition)
    requires s.Valid()
    ensures r.state == s.(ins := r.state.ins, pc := r.state.pc, display := r.state.display)
    decreases n
  {
    if n == 0 then Transition(s, Ok)
    else
      var t := Cycle(s);
      if t.status != Ok then t else RunCycles(t.state, n - 1)
  }

  /** A cycle at 0x200 over the word 00E0: CLS changes nothing, so only `ins` and pc move. */
  lemma ClearStep(s: State)
    requires s.Valid() && s.pc == 0x200
    requires s.memory[0x200] == 0x00 && s.memory[0x201] == 0xE0
    ensures Cycle(s) == Transition(s.(ins := 0x00E0, pc := 0x202), Ok)
  {
    assert Fetched(s) == 0x00E0;
  }

  /** A cycle at 0x202 over the word 1200: JP sets pc back to 0x200 without the advance. */
  lemma JumpStep(s: State)
    requires s.Valid() && s.pc == 0x202
    requires s.memory[0x202] == 0x12 && s.memory[0x203] == 0x00
    ensures Cycle(s) == Transition(s.(ins := 0x1200, pc := 0x200), Ok)
  {
    assert Fetched(s) == 0x1200;
    assert Last3Digits(0x1200) == 0x200;
  }

  /** A run of n > 0 cycles whose first cycle completes is that cycle followed by n - 1 more. */
  lemma RunCyclesUnfold(s: State, n: nat)
    requires s.Valid() && n > 0
    ensures Cycle(s).status == Ok ==> RunCycles(s, n) == RunCycles(Cycle(s).state, n - 1)
  {
  }

  /** Memory holds the program 00E0 1200 (CLS, then JP 0x200) at 0x200. */
  predicate HoldsClearJump(s: State)
    requires s.Valid()
  {
    s.memory[0x200] == 0x00 && s.memory[0x201] == 0xE0 &&
    s.memory[0x202] == 0x12 && s.memory[0x203] == 0x00
  }

  /** Two cycles over 00E0 1200 at 0x200 bring the machine back to pc 0x200 with only
      `ins` changed, so a run of m + 2 cycles is a run of m cycles from there. */
  lemma ClearJumpRound(s: State, m: nat)
    requires s.Valid() && s.pc == 0x200 && HoldsClearJump(s)
    ensures RunCycles(s, m + 2) == RunCycles(s.(ins := 0x1200), m)
  {
    ClearStep(s);
    var s1 := s.(ins := 0x00E0, pc := 0x202);
    JumpStep(s1);
    RunCyclesUnfold(s, m + 2);
    RunCyclesUnfold(s1, m + 1);
  }

  /** The program 00E0 1200 at 0x200 loops forever: any positive even number of cycles
      completes without a panic and leaves the machine where it started, at pc 0x200 with
      memory, display and registers unchanged, with the JP word as the last instruction. */
  lemma {:induction false} ClearJumpLoop(s: State, n: nat)
    requires s.Valid() && s.pc == 0x200 && HoldsClearJump(s) && n > 0
    ensures RunCycles(s, 2 * n) == Transition(s.(ins := 0x1200), Ok)
    decreases n
  {
    var m := 2 * (n - 1);
    ClearJumpRound(s, m);
    assert m + 2 == 2 * n;
    if n > 1 {
      ClearJumpLoop(s.(ins := 0x1200), n - 1);
    }
  }

  /** From any state: initialise, load the two-instruction program 00E0 1200 and run an even
      number of cycles. Nothing panics, pc is back at 0x200 and the display is still blank,
      because CLS does not touch the display and `initialise` blanked it. */
  lemma BootClearJump(s: State, verbose: bool, n: nat)
    requires s.Valid()
    ensures var loaded := Loaded(Initialised(s, verbose), [0x00, 0xE0, 0x12, 0x00]);
            && loaded.status == Ok
            && var r := RunCycles(loaded.state, 2 * n);
            && r.status == Ok
            && r.state.pc == 0x200
            && r.state.display == Zeros(DisplaySize, 0)
  {
    var rom: seq<Uint8> := [0x00, 0xE0, 0x12, 0x00];
    var booted := Loaded(Initialised(s, verbose), rom).state;
    assert HoldsClearJump(booted) by {
      forall i | 0 <= i < 4 ensures booted.memory[0x200 + i] == rom[i] { }
    }
    if n > 0 {
      ClearJumpLoop(booted, n);
    }
  }
}
