/** The `chip8` struct of `chip8.go` as an object whose methods update its fields in place.
    The fixed-size Go arrays are arrays allocated once by the constructor; every method is
    proved to leave the object in the state the matching function of `Machine` describes. */
module Emulator {
  import opened MathFuncs
  import opened Opcodes
  import opened Decoder
  import opened Machine

  class Chip8 {
    const memory: array<Uint8>     // 4 KiB of memory
    const V: array<Uint8>          // registers V0-VF
    const display: array<Uint8>    // 64 x 32 cells
    var ins: Uint16                // the instruction being executed
    var I: Uint16                // index register
    var pc: Uint16               // program counter
    var delayTimer: Uint8
    var soundTimer: Uint8
    const stack: array<Uint16>
    var sp: Uint16
    const key: array<Uint8>        // keypad state
    var verbose: bool

    /** The arrays have the Go lengths and are distinct, as fields of one struct are. */
    ghost predicate Valid()
      reads this
    {
      memory.Length == MemorySize && V.Length == RegisterCount &&
      display.Length == DisplaySize && stack.Length == StackSize && key.Length == KeyCount &&
      memory != V && memory != display && memory != key &&
      V != display && V != key && display != key &&
      stack as object !in {memory, V, display, key}
    }

    /** The value of every field at this moment. */
    ghost function Abstract(): State
      reads this, memory, V, display, stack, key
    {
      State(memory[..], V[..], display[..], ins, I, pc, delayTimer, soundTimer,
            stack[..], sp, key[..], verbose)
    }

    /** A fresh struct, `chip8{}`: every field zero. */
    constructor ()
      ensures Valid() && Abstract() == ZeroState()
      ensures fresh(memory) && fresh(V) && fresh(display) && fresh(stack) && fresh(key)
    {
      memory := new Uint8[MemorySize](_ => 0);
      V := new Uint8[RegisterCount](_ => 0);
      display := new Uint8[DisplaySize](_ => 0);
      stack := new Uint16[StackSize](_ => 0);
      key := new Uint8[KeyCount](_ => 0);
      ins, I, pc, sp := 0, 0, 0, 0;
      delayTimer, soundTimer := 0, 0;
      verbose := false;
      new;
      assert memory[..] == Zeros(MemorySize, 0);
      assert V[..] == Zeros(RegisterCount, 0);
      assert display[..] == Zeros(DisplaySize, 0);
      assert stack[..] == Zeros<Uint16>(StackSize, 0);
      assert key[..] == Zeros(KeyCount, 0);
    }

    /** `initialise(verbose)`: sets the scalar fields, then zeroes display, stack, registers
        and memory, in that order, each with its own loop (one method per loop here). The
        keypad is not touched. */
    method Initialise(verbose: bool)
      requires Valid()
      modifies this, memory, V, display, stack
      ensures Valid()
      ensures Abstract() == Initialised(old(Abstract()), verbose)
    {
      this.verbose := verbose;
      pc := 0x200;
      ins := 0;
      I := 0;
      sp := 0;
      delayTimer := 0;
      soundTimer := 0;
      ClearDisplay();
      ClearStack();
      ClearRegisters();
      ClearMemory();
    }

    /** The stack loop of `initialise`. */
    method ClearStack()
      requires Valid()
      modifies stack
      ensures Valid()
      ensures Abstract() == old(Abstract()).(stack := Zeros(StackSize, 0))
    {
      for i := 0 to stack.Length
        invariant forall j :: 0 <= j < i ==> stack[j] == 0
      {
        stack[i] := 0;
      }
      assert stack[..] == Zeros<Uint16>(StackSize, 0);
    }

    /** The register loop of `initialise`. */
    method ClearRegisters()
      requires Valid()
      modifies V
      ensures Valid()
      ensures Abstract() == old(Abstract()).(V := Zeros(RegisterCount, 0))
    {
      for i := 0 to V.Length
        invariant forall j :: 0 <= j < i ==> V[j] == 0
      {
        V[i] := 0;
      }
      assert V[..] == Zeros(RegisterCount, 0);
    }

    /** The memory loop of `initialise`. */
    method ClearMemory()
      requires Valid()
      modifies memory
      ensures Valid()
      ensures Abstract() == old(Abstract()).(memory := Zeros(MemorySize, 0))
    {
      for i := 0 to memory.Length
        invariant forall j :: 0 <= j < i ==> memory[j] == 0
      {
        memory[i] := 0;
      }
      assert memory[..] == Zeros(MemorySize, 0);
    }

    /** `loadGame(rom)`: copies `rom[i]` to `memory[0x200 + i]` for each i in turn; the write
        past the end of memory, for a ROM longer than 4096 - 0x200 bytes, panics. */
    method LoadGame(rom: seq<Uint8>) returns (status: Status)
      requires Valid()
      modifies memory
      ensures Valid()
      ensures Transition(Abstract(), status) == Loaded(old(Abstract()), rom)
    {
      ghost var s := Abstract();
      var size := |rom|;
      for i := 0 to size
        invariant ProgramStart + i <= memory.Length
        invariant forall j :: 0 <= j < i ==> memory[ProgramStart + j] == rom[j]
        invariant forall a :: 0 <= a < memory.Length && !(ProgramStart <= a < ProgramStart + i) ==>
                    memory[a] == old(memory[a])
      {
        if i + ProgramStart >= memory.Length {
          LoadedMemory(s, rom, memory[..]);
          status := Panic(IndexOutOfRange(i + ProgramStart));
          return;
        }
        memory[i + ProgramStart] := rom[i];
      }
      LoadedMemory(s, rom, memory[..]);
      status := Ok;
    }

    /** `clearDisplay`: zeroes every display cell in turn. */
    method ClearDisplay()
      requires Valid()
      modifies display
      ensures Valid()
      ensures Abstract() == DisplayCleared(old(Abstract()))
    {
      for i := 0 to display.Length
        invariant forall j :: 0 <= j < i ==> display[j] == 0
      {
        display[i] := 0;
      }
      assert display[..] == Zeros(DisplaySize, 0);
    }

    /** `execute(opcode, ins)`: DRW clears the display, JP jumps to the low twelve bits. */
    method Execute(opcode: Opcode, ins: Uint16)
      requires Valid()
      modifies this, display
      ensures Valid()
      ensures Abstract() == Executed(old(Abstract()), opcode, ins)
    {
      if opcode == DRW {
        ClearDisplay();
      } else if opcode == JP {
        pc := Last3Digits(ins);
      }
    }

    /** `emulateCycle`: fetch big-endian at pc, decode, panic on ERROR, execute, and advance
        pc by 2 unless the instruction was JP. */
    method EmulateCycle() returns (status: Status)
      requires Valid()
      modifies this, display
      ensures Valid()
      ensures Transition(Abstract(), status) == Cycle(old(Abstract()))
    {
      ghost var s := Abstract();
      if pc >= memory.Length {
        assert Cycle(s) == Transition(s, Panic(IndexOutOfRange(pc)));
        return Panic(IndexOutOfRange(pc));
      }
      if pc + 1 >= memory.Length {
        assert Cycle(s) == Transition(s, Panic(IndexOutOfRange(pc + 1)));
        return Panic(IndexOutOfRange(pc + 1));
      }
      var word: Uint16 := memory[pc] as int * 0x100 + memory[pc + 1];
      ins := word;
      assert word == Fetched(s) && Abstract() == s.(ins := word);
      var opcode := DecodeOpcode(word);
      if opcode == ERROR {
        return Panic(InvalidInstruction(word));
      }
      CycleCompletes(s);
      Execute(opcode, word);
      if opcode != JP {
        pc := Add16(pc, 2);
      }
      status := Ok;
    }
  }
}
