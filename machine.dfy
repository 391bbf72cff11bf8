/** The `chip8` struct of `chip8.go` as a value, and the effect of each of its operations
    as a function from the old state to the new one. The class in `emulator.dfy` is proved
    to change its fields exactly as these functions say; the lemmas here state what the
    operations promise, singly and over runs of cycles. */
module Machine {
  import opened MathFuncs
  import opened Opcodes
  import opened Decoder

  const MemorySize := 4096
  const RegisterCount := 16
  const DisplaySize := 64 * 32
  const StackSize := 16
  const KeyCount := 16
  /** Where programs are loaded and where execution starts. */
  const ProgramStart := 0x200

  /** One snapshot of the machine. The Go arrays have fixed lengths; here they are
      sequences whose lengths `Valid` fixes. */
  datatype State = State(
    memory: seq<Uint8>,
    V: seq<Uint8>,
    display: seq<Uint8>,
    ins: Uint16,
    I: Uint16,
    pc: Uint16,
    delayTimer: Uint8,
    soundTimer: Uint8,
    stack: seq<Uint16>,
    sp: Uint16,
    key: seq<Uint8>,
    verbose: bool)
  {
    predicate Valid()
    {
      |memory| == MemorySize && |V| == RegisterCount && |display| == DisplaySize &&
      |stack| == StackSize && |key| == KeyCount
    }
  }

  /** Why a Go operation panics: an instruction the decoder does not recognise, or an
      array index at or past the end of `memory`. */
  datatype Fault = InvalidInstruction(ins: Uint16) | IndexOutOfRange(index: int)

  datatype Status = Ok | Panic(fault: Fault)

  /** The state an operation leaves behind, and whether it finished or panicked. */
  datatype Transition = Transition(state: State, status: Status)

  function Zeros<T>(n: nat, zero: T): seq<T>
  {
    seq(n, _ => zero)
  }

  /** The zero value `chip8{}` that Go gives a fresh struct. */
  function ZeroState(): (s: State)
    ensures s.Valid()
    ensures s.ins == 0 && s.I == 0 && s.pc == 0 && s.sp == 0
    ensures s.delayTimer == 0 && s.soundTimer == 0 && !s.verbose
    ensures forall i :: 0 <= i < MemorySize ==> s.memory[i] == 0
    ensures forall i :: 0 <= i < RegisterCount ==> s.V[i] == 0
    ensures forall i :: 0 <= i < DisplaySize ==> s.display[i] == 0
    ensures forall i :: 0 <= i < StackSize ==> s.stack[i] == 0
    ensures forall i :: 0 <= i < KeyCount ==> s.key[i] == 0
  {
    State(Zeros(MemorySize, 0), Zeros(RegisterCount, 0), Zeros(DisplaySize, 0),
          0, 0, 0, 0, 0, Zeros(StackSize, 0), 0, Zeros(KeyCount, 0), false)
  }

  /** `initialise(verbose)`: every field is reset except the keypad, which it does not touch. */
  function Initialised(s: State, verbose: bool): (t: State)
    requires s.Valid()
    ensures t.Valid()
    ensures t.pc == 0x200
    ensures t.ins == 0 && t.I == 0 && t.sp == 0 && t.delayTimer == 0 && t.soundTimer == 0
    ensures t.verbose == verbose
    ensures forall i :: 0 <= i < DisplaySize ==> t.display[i] == 0
    ensures forall i :: 0 <= i < StackSize ==> t.stack[i] == 0
    ensures forall i :: 0 <= i < RegisterCount ==> t.V[i] == 0
    ensures forall i :: 0 <= i < MemorySize ==> t.memory[i] == 0
    ensures t.key == s.key
  {
    State(Zeros(MemorySize, 0), Zeros(RegisterCount, 0), Zeros(DisplaySize, 0),
          0, 0, 0x200, 0, 0, Zeros(StackSize, 0), 0, s.key, verbose)
  }

  /** `loadGame(rom)`: copies the ROM byte by byte to `memory[0x200..]`. A ROM longer than
      the 4096 - 0x200 bytes that fit is copied up to the end of memory, and the next write,
      at index 4096, panics. */
  function Loaded(s: State, rom: seq<Uint8>): (r: Transition)
    requires s.Valid()
    ensures r.state.Valid()
    ensures r.status == Ok <==> |rom| <= MemorySize - ProgramStart
    ensures r.status != Ok ==> r.status == Panic(IndexOutOfRange(MemorySize))
    ensures forall i :: 0 <= i < |rom| && ProgramStart + i < MemorySize ==>
              r.state.memory[ProgramStart + i] == rom[i]
    ensures forall a :: 0 <= a < MemorySize && !(ProgramStart <= a < ProgramStart + |rom|) ==>
              r.state.memory[a] == s.memory[a]
    ensures r.state == s.(memory := r.state.memory)
  {
    var n := if |rom| <= MemorySize - ProgramStart then |rom| else MemorySize - ProgramStart;
    var memory := s.memory[..ProgramStart] + rom[..n] + s.memory[ProgramStart + n..];
    Transition(s.(memory := memory),
               if n == |rom| then Ok else Panic(IndexOutOfRange(MemorySize)))
  }

  /** The memory `loadGame` leaves is the only one with the ROM at 0x200, as far as it fits,
      and the old contents everywhere else. */
  lemma LoadedMemory(s: State, rom: seq<Uint8>, memory: seq<Uint8>)
    requires s.Valid() && |memory| == MemorySize
    requires forall i :: 0 <= i < |rom| && ProgramStart + i < MemorySize ==>
               memory[ProgramStart + i] == rom[i]
    requires forall a :: 0 <= a < MemorySize && !(ProgramStart <= a < ProgramStart + |rom|) ==>
               memory[a] == s.memory[a]
    ensures Loaded(s, rom).state.memory == memory
  {
    var loaded := Loaded(s, rom).state.memory;
    forall a | 0 <= a < MemorySize
      ensures loaded[a] == memory[a]
    {
      if ProgramStart <= a < ProgramStart + |rom| {
        assert loaded[ProgramStart + (a - ProgramStart)] == rom[a - ProgramStart];
      }
    }
  }

  /** `clearDisplay`: every display cell becomes 0 and nothing else changes. */
  function DisplayCleared(s: State): (t: State)
    requires s.Valid()
    ensures t.Valid()
    ensures forall i :: 0 <= i < DisplaySize ==> t.display[i] == 0
    ensures t == s.(display := t.display)
  {
    s.(display := Zeros(DisplaySize, 0))
  }

  /** `execute(opcode, ins)`: DRW clears the display, JP sets pc to the low twelve bits of
      the word, and every other tag leaves the state as it is. */
  function Executed(s: State, op: Opcode, ins: Uint16): (t: State)
    requires s.Valid()
    ensures t.Valid()
    ensures t == s.(pc := t.pc, display := t.display)
    ensures op == JP ==> t.pc == Last3Digits(ins) && t.pc < 0x1000
    ensures op != JP ==> t.pc == s.pc
    ensures op == DRW ==> forall i :: 0 <= i < DisplaySize ==> t.display[i] == 0
    ensures op != DRW ==> t.display == s.display
  {
    if op == DRW then DisplayCleared(s)
    else if op == JP then s.(pc := Last3Digits(ins))
    else s
  }

  /** The word `emulateCycle` fetches at pc, when both of its bytes lie inside memory:
      `uint16(memory[pc])<<8 | uint16(memory[pc+1])`. The low byte of the shifted value is
      zero, so the or is an addition. */
  function Fetched(s: State): (w: Uint16)
    requires s.Valid() && s.pc + 1 < MemorySize
    ensures w / 0x100 == s.memory[s.pc] && w % 0x100 == s.memory[s.pc + 1]
  {
    s.memory[s.pc] as int * 0x100 + s.memory[s.pc + 1]
  }

  /** The fetch is big-endian: the byte at pc is the top byte of the word and the byte at
      pc+1 its low byte. */
  lemma FetchedBigEndian(s: State)
    requires s.Valid() && s.pc + 1 < MemorySize
    ensures First2Digits(Fetched(s)) == s.memory[s.pc]
    ensures Last2Digits(Fetched(s)) == s.memory[s.pc + 1]
  {
  }

  /** `emulateCycle`: fetch the word at pc, decode it, panic on ERROR, execute it and,
      unless it is JP, advance pc by 2 with 16-bit wrap-around. Reading `memory[pc]` or
      `memory[pc+1]` past the end of memory panics before anything changes. Only `ins`,
      `pc` and `display` can change; the lemmas below say how. */
  function Cycle(s: State): (r: Transition)
    requires s.Valid()
    ensures r.state.Valid()
    ensures r.state == s.(ins := r.state.ins, pc := r.state.pc, display := r.state.display)
  {
    if s.pc >= MemorySize then Transition(s, Panic(IndexOutOfRange(s.pc)))
    else if s.pc + 1 >= MemorySize then Transition(s, Panic(IndexOutOfRange(s.pc + 1)))
    else
      var ins := Fetched(s);
      var opcode := DecodeOpcode(ins);
      if opcode == ERROR then Transition(s.(ins := ins), Panic(InvalidInstruction(ins)))
      else
        var t := Executed(s.(ins := ins), opcode, ins);
        Transition(if opcode != JP then t.(pc := Add16(t.pc, 2)) else t, Ok)
  }

  /** Proof step: the cycle of a recognised word unfolded into its parts (set `ins`,
      execute, then advance pc unless the word is JP), for the class method to follow. */
  lemma CycleCompletes(s: State)
    requires s.Valid() && s.pc + 1 < MemorySize
    requires DecodeOpcode(Fetched(s)) != ERROR
    ensures var ins := Fetched(s);
            var t := Executed(s.(ins := ins), DecodeOpcode(ins), ins);
            Cycle(s) == Transition(if DecodeOpcode(ins) != JP then t.(pc := Add16(t.pc, 2)) else t, Ok)
  {
  }

  /** The fetch panics, and nothing changes, exactly when pc or pc+1 is past the end of memory. */
  lemma CycleFetchOutOfRange(s: State)
    requires s.Valid()
    ensures s.pc + 1 >= MemorySize <==> Cycle(s).status.Panic? && Cycle(s).status.fault.IndexOutOfRange?
    ensures s.pc + 1 >= MemorySize ==> Cycle(s).state == s
  {
  }

  /** A fetched word that decodes to ERROR panics after `ins` is set, before anything is
      executed and before pc moves; every other word completes the cycle. */
  lemma CycleInvalidInstruction(s: State)
    requires s.Valid() && s.pc + 1 < MemorySize
    ensures Cycle(s).state.ins == Fetched(s)
    ensures Cycle(s).status == Panic(InvalidInstruction(Fetched(s))) <==> DecodeOpcode(Fetched(s)) == ERROR
    ensures DecodeOpcode(Fetched(s)) == ERROR ==> Cycle(s).state == s.(ins := Fetched(s))
    ensures DecodeOpcode(Fetched(s)) != ERROR ==> Cycle(s).status == Ok
  {
  }

  /** A JP word leaves pc at its low twelve bits, so pc stays inside the 4096-byte address space. */
  lemma CycleJump(s: State)
    requires s.Valid() && s.pc + 1 < MemorySize
    requires DecodeOpcode(Fetched(s)) == JP
    ensures Cycle(s).status == Ok
    ensures Cycle(s).state.pc == Last3Digits(Fetched(s))
    ensures Cycle(s).state.pc < MemorySize
  {
  }

  /** Every other recognised word advances pc by 2. The Go addition wraps modulo 0x10000,
      but the fetch guard keeps pc below 4095, so the wrap never happens. */
  lemma CycleAdvance(s: State)
    requires s.Valid() && s.pc + 1 < MemorySize
    requires DecodeOpcode(Fetched(s)) != JP && DecodeOpcode(Fetched(s)) != ERROR
    ensures Cycle(s).status == Ok
    ensures Cycle(s).state.pc == Add16(s.pc, 2)
    ensures Cycle(s).state.pc == s.pc + 2
  {
  }

  /** A completed cycle blanks the display exactly when the word is DRW, and keeps it otherwise. */
  lemma CycleDisplay(s: State)
    requires s.Valid() && s.pc + 1 < MemorySize
    requires DecodeOpcode(Fetched(s)) != ERROR
    ensures DecodeOpcode(Fetched(s)) == DRW ==> forall i :: 0 <= i < DisplaySize ==> Cycle(s).state.display[i] == 0
    ensures DecodeOpcode(Fetched(s)) != DRW ==> Cycle(s).state.display == s.display
  {
  }

  /** Clearing an already cleared display changes nothing. */
  lemma DisplayClearedIdempotent(s: State)
    requires s.Valid()
    ensures DisplayCleared(DisplayCleared(s)) == DisplayCleared(s)
  {
  }
}
