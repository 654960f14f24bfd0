/** Instruction encoding of the 8-bit machine: the opcode bytes, the operand
    count held in the two high bits, the ALU marker bit, and the table that
    sends every other opcode to its handler. */
module Opcodes {

  const HLT: int := 0x01   // 0b00000001
  const LDI: int := 0x82   // 0b10000010
  const PRN: int := 0x47   // 0b01000111
  const PUSH: int := 0x45  // 0b01000101
  const MUL: int := 0xA2   // 0b10100010
  const POP: int := 0x46   // 0b01000110
  const ADD: int := 0xA0   // 0b10100000
  const JMP: int := 0x54   // 0b01010100
  const JEQ: int := 0x55   // 0b01010101
  const JNE: int := 0x56   // 0b01010110
  const CMP: int := 0xA7   // 0b10100111

  /** The handlers reachable through the branch table. */
  datatype Handler =
    | Halt | LoadImmediate | PrintRegister | PushRegister | PopRegister
    | Jump | JumpIfEqual | JumpIfNotEqual

  /** Where the decoder sends an opcode. */
  datatype Route = ToAlu | ToHandler(handler: Handler) | Unknown

  /** `IR >> 6`: the number of operand bytes that follow the opcode. Python's
      shift rounds toward minus infinity, and so does Dafny's division by a
      positive constant, also for opcodes outside the byte range. */
  function OperandCount(ir: int): (n: int)
    ensures n * 64 <= ir < n * 64 + 64
    ensures 0 <= ir < 256 ==> 0 <= n < 4
  {
    ir / 64
  }

  /** `((IR >> 5) & 1) == 1`: bit 5 of the opcode, the ALU marker. */
  predicate IsAluOp(ir: int): (b: bool)
    ensures 0 <= ir < 256 ==> (b <==> ir % 64 >= 32)
  {
    (ir / 32) % 2 == 1
  }

  /** The non-ALU part of the branch table. Its ADD, MUL and CMP entries are
      never looked up, since those opcodes have bit 5 set and go to the ALU. */
  const BranchTable: map<int, Handler> := map[
    HLT := Halt,
    LDI := LoadImmediate,
    PRN := PrintRegister,
    JMP := Jump,
    JEQ := JumpIfEqual,
    JNE := JumpIfNotEqual,
    PUSH := PushRegister,
    POP := PopRegister
  ]

  /** Decoding: bit 5 selects the ALU; every other opcode is looked up in the
      branch table, and one missing from it is an invalid instruction. */
  function Decode(ir: int): (r: Route)
    ensures r == ToAlu <==> IsAluOp(ir)
    ensures r == Unknown <==> !IsAluOp(ir) && ir !in {HLT, LDI, PRN, PUSH, POP, JMP, JEQ, JNE}
    ensures r.ToHandler? ==> ir in {HLT, LDI, PRN, PUSH, POP, JMP, JEQ, JNE} && r.handler == BranchTable[ir]
  {
    if IsAluOp(ir) then ToAlu
    else if ir in BranchTable then ToHandler(BranchTable[ir])
    else Unknown
  }

  /** The number of operand bytes each handler uses. */
  function OperandsUsed(h: Handler): nat {
    match h
    case Halt => 0
    case LoadImmediate => 2
    case PrintRegister | PushRegister | PopRegister | Jump | JumpIfEqual | JumpIfNotEqual => 1
  }

  /** The handlers that may overwrite the program counter. */
  predicate IsBranch(h: Handler) {
    h == Jump || h == JumpIfEqual || h == JumpIfNotEqual
  }
}
