/** `decodeOpcode` of `chip8.go`: a total map from instruction words to opcode tags,
    and an assembler that is its inverse on the recognised words. */
module Decoder {
  import opened MathFuncs
  import opened Opcodes

  /** Classifies a word: the exact word 0x00E0 first, then the top nibble 1, 6, 7, A or D;
      every other word, including every other 0nnn word, is ERROR. */
  function DecodeOpcode(ins: Uint16): (op: Opcode)
    ensures op == CLS <==> ins == 0x00E0
    ensures op == JP <==> FirstDigit(ins) == 0x1
    ensures op == LD <==> FirstDigit(ins) == 0x6
    ensures op == ADD <==> FirstDigit(ins) == 0x7
    ensures op == LD_I <==> FirstDigit(ins) == 0xA
    ensures op == DRW <==> FirstDigit(ins) == 0xD
    ensures op == ERROR <==> ins != 0x00E0 && FirstDigit(ins) !in {0x1, 0x6, 0x7, 0xA, 0xD}
    ensures Decodable(op) != (op == ERROR)
  {
    if ins == 0x00E0 then CLS
    else if FirstDigit(ins) == 0x1 then JP
    else if FirstDigit(ins) == 0x6 then LD
    else if FirstDigit(ins) == 0x7 then ADD
    else if FirstDigit(ins) == 0xA then LD_I
    else if FirstDigit(ins) == 0xD then DRW
    else ERROR
  }

  /** The top nibble of the words the decoder maps to a recognised tag other than CLS. */
  function Family(op: Opcode): (d: Uint16)
    requires Decodable(op) && op != CLS
    ensures d < 0x10
  {
    match op
    case JP => 0x1
    case LD => 0x6
    case ADD => 0x7
    case LD_I => 0xA
    case DRW => 0xD
  }

  /** The instruction word for a recognised tag: 00E0 for CLS, otherwise the family's
      top nibble followed by the twelve-bit operand `nnn`. */
  function Assemble(op: Opcode, nnn: Uint16): (w: Uint16)
    requires Decodable(op) && nnn < 0x1000
    ensures DecodeOpcode(w) == op
    ensures op != CLS ==> Last3Digits(w) == nnn
  {
    if op == CLS then 0x00E0 else Family(op) * 0x1000 + nnn
  }

  /** Decoding loses only the operand: re-assembling a decoded word from its tag and its
      low twelve bits gives the word back. */
  lemma AssembleDecoded(ins: Uint16)
    requires DecodeOpcode(ins) != ERROR
    ensures DecodeOpcode(ins) == CLS || Assemble(DecodeOpcode(ins), Last3Digits(ins)) == ins
  {
  }
}
