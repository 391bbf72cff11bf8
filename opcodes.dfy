/** The opcode tags of `opcodes.go`. The Go code compares string constants; here each
    constant is one constructor, so two tags are equal exactly when they are the same
    constant, as with the Go strings (all of them are distinct). */
module Opcodes {

  datatype Opcode =
    | CLS    // clear screen
    | JP     // jump to nnn
    | LD     // Vx := kk (named LD_Vx where the decoder returns it)
    | ADD    // Vx += kk
    | LD_I   // I := nnn
    | DRW    // draw
    | ERROR  // the word is not a recognised instruction
    | SET    // Vx := Vy
    | OR
    | AND
    | XOR
    | ADD_V  // Vx += Vy
    | SUB_V
    | SHFT
    | JP_O   // jump with offset
    | RND
    | SRD    // subroutines
    | SKP
    | SKPIF  // skip if key
    | TIMER
    | ADD_I  // I += Vx
    | KEY
    | FC     // font character
    | BCDC   // binary-coded decimal conversion
    | STORE
    | LOAD

  /** The tags the decoder can produce for a recognised word; the remaining tags are
      declared but nothing produces them yet. */
  predicate Decodable(op: Opcode)
  {
    op == CLS || op == JP || op == LD || op == ADD || op == LD_I || op == DRW
  }
}
