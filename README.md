# CHIP-8 interpreter core in Dafny

This project models the core of a small CHIP-8 interpreter written in Go and proves
properties of the model. In this snapshot the interpreter recognises six instructions.

The core consists of:

- the instruction-word helpers of `mathFuncs.go`: nibble and byte extractors on a
  16-bit word;
- the decoder `decodeOpcode` of `chip8.go`. It maps every 16-bit word to an opcode tag
  of `opcodes.go`: CLS, JP, LD, ADD, LD_I, DRW or ERROR;
- the `chip8` struct and its operations: `initialise`, `loadGame`, `clearDisplay`,
  `execute` and `emulateCycle`. The struct holds 4 KiB of memory, sixteen registers,
  a 64 x 32 display, `ins`, `I`, `pc`, two timers, a sixteen-entry stack, `sp`, the
  keypad and a `verbose` flag.

The project has six modules:

- `MathFuncs` (`math_funcs.dfy`): Go's `byte` and `uint16` as bounded integers; the
  digit helpers with their bounds and reconstruction lemmas; the wrapping `uint16`
  addition.
- `Opcodes` (`opcodes.dfy`): the opcode tags as a datatype with one constructor per
  constant. The decoder returns `LD_Vx`, which `opcodes.go` declares as `LD`; both are
  the one tag `LD` here.
- `Decoder` (`decoder.dfy`): `DecodeOpcode`, specified case by case in both
  directions. Its partner `Assemble` builds the word for a tag and operand; decoding
  undoes assembling and assembling undoes decoding.
- `Machine` (`machine.dfy`): the struct as a value `State`, and each operation as a
  function from the old state to the new one. The cycle lemmas state what one
  `emulateCycle` does.
- `Runs` (`runs.dfy`): `RunCycles` runs cycles in a row, as a host loop would. It is
  not part of the Go code. It states what any run of cycles keeps, and it is used to
  state the end-to-end property. That property is: the program 00E0 1200 loaded at
  0x200 loops forever without a panic, with pc back at 0x200 and the display blank
  after every second cycle.
- `Emulator` (`emulator.dfy`): the struct as a class. The Go arrays become array
  fields, and the methods update them in place with the same loops. Each method is
  proved to leave the object in exactly the state that the matching `Machine`
  function describes. `initialise` has four loops, and each loop here is its own
  method, called in the same order. `clearDisplay`'s method serves as the first of
  them, since that loop is the same loop.

Go panics are not process termination here. An operation that would panic returns a
`Status` of `Panic(fault)`, and the state it leaves is the one reached at the point of
the panic. The two faults are:

- an ERROR word in `emulateCycle`;
- an index past the end of `memory`, either in the fetch or in `loadGame` for a ROM
  longer than 4096 - 0x200 bytes.

The model keeps these behaviours of the code, several of which differ from standard
CHIP-8 as described in Cowgod's technical reference (where 00E0 clears the screen and
DXYN draws a sprite):

- `execute` clears the display on DRW. CLS changes nothing.
- Only JP moves pc inside `execute`. `emulateCycle` then adds 2 for every other
  recognised word.
- An ERROR word panics; it is not handed back to a caller.
- Only the six tags above are decoded. Every other word, including every 0nnn word
  other than 00E0, is ERROR.
- `initialise` leaves the keypad as it was.

## Model

| member | source | states |
|---|---|---|
| MathFuncs.FirstDigit | mathFuncs.go:3-5 | the top nibble `w >> 12` is below 16 |
| MathFuncs.First2Digits | mathFuncs.go:7-9 | the top byte `w >> 8` is below 256 |
| MathFuncs.Last3Digits | mathFuncs.go:11-13 | the low twelve bits `w & 0x0fff` are below 0x1000 |
| MathFuncs.Last2Digits | mathFuncs.go:15-17 | the low byte `w & 0x00ff` is below 256 |
| MathFuncs.SecondDigit | mathFuncs.go:19-22 | the second nibble `(w & 0x0f00) >> 8` is below 16 |
| MathFuncs.SecondDigitOfFirst2Digits | mathFuncs.go:7-22 | the second nibble is the low nibble of the top byte |
| MathFuncs.FirstDigitLast3Digits | mathFuncs.go:3-13 | top nibble times 0x1000 plus the low twelve bits gives the word back |
| MathFuncs.First2DigitsLast2Digits | mathFuncs.go:7-17 | top byte times 0x100 plus the low byte gives the word back |
| MathFuncs.WordFromDigits | mathFuncs.go:3-22 | top nibble, second nibble and low byte together give the word back |
| MathFuncs.Add16 | chip8.go:68 | the `uint16` `pc += 2` is the plain sum below 0x10000 and wraps by 0x10000 above it |
| Decoder.DecodeOpcode | chip8.go:103-120 | CLS exactly for 00E0; JP, LD, ADD, LD_I, DRW exactly for top nibble 1, 6, 7, A, D; ERROR exactly for every other word; ERROR exactly when the tag is not a recognised one |
| Decoder.Assemble | chip8.go:103-120 | for each recognised tag and twelve-bit operand, the assembled word decodes to that tag and carries the operand in its low twelve bits |
| Decoder.AssembleDecoded | chip8.go:103-120 | every recognised word other than 00E0 is rebuilt from its tag and its low twelve bits: decoding loses only the operand |
| Machine.Initialised | chip8.go:20-45 | pc is 0x200; ins, I, sp and both timers are 0; verbose is the argument; every display, stack, register and memory cell is 0; the keypad is unchanged |
| Machine.Loaded | chip8.go:72-80 | status is Ok exactly when the ROM fits in 4096 - 0x200 bytes, otherwise a panic at index 4096; `memory[0x200+i] == rom[i]` wherever that fits; every other memory cell and every other field is unchanged |
| Machine.LoadedMemory | chip8.go:77-79 | the memory after `loadGame` is the only memory with those two properties |
| Machine.DisplayCleared | chip8.go:86-90 | every display cell is 0 and no other field changes |
| Machine.DisplayClearedIdempotent | chip8.go:86-90 | clearing twice is clearing once |
| Machine.Executed | chip8.go:92-101 | only pc and display can change; JP sets pc to the low twelve bits of the word, so below 0x1000, and every other tag keeps pc; DRW zeroes the display and every other tag keeps it |
| Machine.ZeroState | chip8.go:5-18 | every field at its Go zero value, arrays at their Go lengths |
| Machine.Fetched | chip8.go:49 | the word whose top byte is `memory[pc]` and whose low byte is `memory[pc+1]`, defined when pc+1 < 4096 |
| Machine.FetchedBigEndian | chip8.go:49 | the fetched word has the byte at pc as its top byte and the byte at pc+1 as its low byte |
| Machine.Cycle | chip8.go:47-70 | a cycle keeps the state well formed and changes nothing but ins, pc and display |
| Machine.CycleFetchOutOfRange | chip8.go:49 | the fetch panics with an index fault exactly when pc+1 is past the end of memory, and then nothing changes |
| Machine.CycleInvalidInstruction | chip8.go:49-57 | ins is the fetched word; the cycle panics with an invalid-instruction fault exactly when the word decodes to ERROR, with ins as the only change; otherwise it completes |
| Machine.CycleJump | chip8.go:63-69 | a JP word completes with pc equal to its low twelve bits, inside memory |
| Machine.CycleAdvance | chip8.go:63-69 | every other recognised word completes with pc advanced by 2 under `uint16` wrap-around, which never wraps because the fetch bounds pc |
| Machine.CycleDisplay | chip8.go:63-69 | a completed cycle blanks the display exactly for DRW and keeps it for every other word |
| Runs.RunCycles | chip8.go:47-70 | any number of cycles in a row leaves memory, registers, I, stack, sp, timers, keypad and verbose unchanged |
| Runs.ClearStep | chip8.go:47-70 | at pc 0x200 over 00E0 a cycle completes, sets ins and moves pc to 0x202, and changes nothing else |
| Runs.JumpStep | chip8.go:47-70 | at pc 0x202 over 1200 a cycle completes, sets ins and moves pc back to 0x200, and changes nothing else |
| Runs.ClearJumpLoop | chip8.go:47-70 | with 00E0 1200 at 0x200, every positive even number of cycles completes and leaves the starting state with ins = 0x1200 |
| Runs.BootClearJump | chip8.go:20-80 | initialise, then load 00E0 1200: the load succeeds, and after any even number of cycles there is no panic, pc is 0x200 and the display is blank |
| Emulator.Chip8.constructor | chip8.go:5-18 | a fresh struct holds the Go zero value in every field, with arrays of the Go lengths |
| Emulator.Chip8.Initialise | chip8.go:20-45 | the object's new state is `Initialised` of its old state |
| Emulator.Chip8.ClearStack | chip8.go:32-35 | the stack loop leaves every stack cell 0 and nothing else changed |
| Emulator.Chip8.ClearRegisters | chip8.go:36-39 | the register loop leaves every register 0 and nothing else changed |
| Emulator.Chip8.ClearMemory | chip8.go:40-43 | the memory loop leaves every memory cell 0 and nothing else changed |
| Emulator.Chip8.LoadGame | chip8.go:72-80 | the copy loop leaves the state and the status that `Loaded` gives |
| Emulator.Chip8.ClearDisplay | chip8.go:86-90 | the loop leaves the state `DisplayCleared` gives |
| Emulator.Chip8.Execute | chip8.go:92-101 | the object's new state is `Executed` of its old state |
| Emulator.Chip8.EmulateCycle | chip8.go:47-70 | the new state and the status are those `Cycle` gives for the old state |

## Left out

- Verbose output: the `fmt` printing at chip8.go:51-53, 58-60 and 74-76 is console output only. The `verbose` field is kept.
- `setKeys` (chip8.go:82-84) has an empty body. The keypad is host input, and no operation here writes it.
- Timers: chip8.go:65 is only a comment, and no code decrements them. The timer fields are kept and only `initialise` writes them.
- Font loading is a TODO at chip8.go:44, with no code.
- `main` in run.go only prints, builds `chip8{}` (the constructor) and calls `initialise` with no argument, which does not match its signature.
- The second copies of `firstDigit`, `first2Digits` and `last3Digits` at chip8.go:122-132 are identical to those in mathFuncs.go and are modelled once.
- The string labels of opcodes.go are not modelled. Only the identity of each constant matters to the code.
- Go `panic` ends the process. Here it is a `Panic` status, and the model says nothing about what follows it.
- Shifts and masks are written as division and remainder by powers of two on non-negative integers below 2^16. These agree with the Go bit operations on such values, but this agreement is not proved in Dafny.
- As written, the Go package would not build: `LD_Vx` is undeclared, and the digit helpers are declared twice. The model reads `LD_Vx` as `LD`.
