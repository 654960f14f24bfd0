/** The machine's behaviour as functions over a value of its whole state:
    one function per instruction handler, the ALU, one fetch-decode-execute
    step, and the run loop with a step budget. The class in cpu.dfy is proved
    to follow these functions. */
module Machine {
  import opened Opcodes

  const RamSize: int := 256
  const RegisterCount: int := 8
  /** R7 is the stack pointer. */
  const SP: int := 7
  /** The initial stack pointer, the top of the descending stack. */
  const StackTop: int := 0xF4
  /** The flags value CMP writes when its operands are equal. */
  const FlagEqual: int := 0x01
  const FlagGreater: int := 0x02
  const FlagLess: int := 0x04

  datatype Option<T> = None | Some(value: T)

  /** Why a run stops abnormally. Each is a Python exception raised by `cpu.py`. */
  datatype Error =
    | AddressOutOfRange(address: int)  // IndexError on the RAM list
    | InvalidRegister(index: int)      // IndexError on the register list
    | InvalidInstruction(opcode: int)  // KeyError on the branch table
    | UnsupportedAluOp(opcode: int)    // "Unsupported ALU operation"

  /** RAM and register cells hold Python integers: nothing masks them to a byte. */
  datatype State = State(
    ram: seq<int>,
    regs: seq<int>,
    pc: int,
    flags: int,
    running: bool,
    output: seq<int>)
  {
    predicate Valid() {
      |ram| == RamSize && |regs| == RegisterCount
    }
  }

  /** The state after a transition, or the error it raised together with the
      state as it stood when the error was raised. */
  datatype Outcome = Ok(state: State) | Fault(error: Error, state: State)

  predicate ValidAddress(address: int) {
    0 <= address < RamSize
  }

  predicate ValidRegister(index: int) {
    0 <= index < RegisterCount
  }

  /** A freshly constructed CPU: memory and registers zero except the stack
      pointer, pc and flags zero. `running` exists only once `run` starts;
      it is false here. */
  function Initial(): (s: State)
    ensures s.Valid()
    ensures forall i :: 0 <= i < RamSize ==> s.ram[i] == 0
    ensures forall r :: 0 <= r < RegisterCount ==> s.regs[r] == (if r == SP then StackTop else 0)
    ensures s.pc == 0 && s.flags == 0 && !s.running && s.output == []
  {
    State(seq(RamSize, _ => 0), [0, 0, 0, 0, 0, 0, 0, StackTop], 0, 0, false, [])
  }

  /** Writes a program image into consecutive cells from address 0. An image
      longer than memory raises at the first address past the end, once the
      cells before it are written. */
  function Load(s: State, image: seq<int>): (o: Outcome)
    requires s.Valid()
    ensures o.state.Valid()
    ensures o.Ok? <==> |image| <= RamSize
    ensures o.Fault? ==> o.error == AddressOutOfRange(RamSize)
    ensures forall i :: 0 <= i < RamSize ==>
              o.state.ram[i] == if i < |image| then image[i] else s.ram[i]
    ensures o.state == s.(ram := o.state.ram)
  {
    var ram := seq(RamSize, i requires 0 <= i < RamSize => if i < |image| then image[i] else s.ram[i]);
    if |image| <= RamSize then Ok(s.(ram := ram))
    else Fault(AddressOutOfRange(RamSize), s.(ram := ram))
  }

  /** The flags value CMP writes for operands `x` and `y`. */
  function CmpFlags(x: int, y: int): (f: int)
    ensures f == FlagEqual || f == FlagGreater || f == FlagLess
    ensures f == FlagLess <==> x < y
    ensures f == FlagGreater <==> x > y
    ensures f == FlagEqual <==> x == y
  {
    if x == y then FlagEqual else if x > y then FlagGreater else FlagLess
  }

  /** The first register index that is out of range: `alu` reads register
      `a` before register `b`. */
  function BadRegister(a: int, b: int): (e: Error)
    requires !ValidRegister(a) || !ValidRegister(b)
    ensures !ValidRegister(a) ==> e == InvalidRegister(a)
    ensures ValidRegister(a) ==> e == InvalidRegister(b) && !ValidRegister(b)
  {
    if !ValidRegister(a) then InvalidRegister(a) else InvalidRegister(b)
  }

  /** `alu(op, reg_a, reg_b)`: ADD and MUL update register `a` without
      masking, CMP replaces the flags, anything else is unsupported. */
  function Alu(s: State, op: int, a: int, b: int): (o: Outcome)
    requires s.Valid()
    ensures o.state.Valid()
  {
    if op != ADD && op != MUL && op != CMP then Fault(UnsupportedAluOp(op), s)
    else if !ValidRegister(a) || !ValidRegister(b) then Fault(BadRegister(a, b), s)
    else if op == ADD then Ok(s.(regs := s.regs[a := s.regs[a] + s.regs[b]]))
    else if op == MUL then Ok(s.(regs := s.regs[a := s.regs[a] * s.regs[b]]))
    else Ok(s.(flags := CmpFlags(s.regs[a], s.regs[b])))
  }

  function Hlt(s: State): (o: Outcome)
    requires s.Valid()
    ensures o.state.Valid()
  {
    Ok(s.(running := false))
  }

  function Ldi(s: State, a: int, b: int): (o: Outcome)
    requires s.Valid()
    ensures o.state.Valid()
  {
    if !ValidRegister(a) then Fault(InvalidRegister(a), s)
    else Ok(s.(regs := s.regs[a := b]))
  }

  /** PRN: the printed value is appended to the output. */
  function Prn(s: State, a: int): (o: Outcome)
    requires s.Valid()
    ensures o.state.Valid()
  {
    if !ValidRegister(a) then Fault(InvalidRegister(a), s)
    else Ok(s.(output := s.output + [s.regs[a]]))
  }

  /** PUSH decrements R7 first; the register read and the RAM write that
      follow may then raise with R7 already decremented. */
  function Push(s: State, a: int): (o: Outcome)
    requires s.Valid()
    ensures o.state.Valid()
  {
    var dec := s.(regs := s.regs[SP := s.regs[SP] - 1]);
    if !ValidRegister(a) then Fault(InvalidRegister(a), dec)
    else
      var value := dec.regs[a];
      var sp := dec.regs[SP];
      if !ValidAddress(sp) then Fault(AddressOutOfRange(sp), dec)
      else Ok(dec.(ram := dec.ram[sp := value]))
  }

  /** POP reads the cell at R7, then (discarding it) the cell at pc + 1, then
      stores into register `a` and increments R7, in that order. */
  function Pop(s: State, a: int): (o: Outcome)
    requires s.Valid()
    ensures o.state.Valid()
  {
    var sp := s.regs[SP];
    if !ValidAddress(sp) then Fault(AddressOutOfRange(sp), s)
    else if !ValidAddress(s.pc + 1) then Fault(AddressOutOfRange(s.pc + 1), s)
    else if !ValidRegister(a) then Fault(InvalidRegister(a), s)
    else
      var stored := s.regs[a := s.ram[sp]];
      Ok(s.(regs := stored[SP := stored[SP] + 1]))
  }

  function Jmp(s: State, a: int): (o: Outcome)
    requires s.Valid()
    ensures o.state.Valid()
  {
    if !ValidRegister(a) then Fault(InvalidRegister(a), s)
    else Ok(s.(pc := s.regs[a]))
  }

  /** JEQ compares the whole flags value with 1 and touches the register
      only when it branches. */
  function Jeq(s: State, a: int): (o: Outcome)
    requires s.Valid()
    ensures o.state.Valid()
  {
    if s.flags == FlagEqual then Jmp(s, a) else Ok(s)
  }

  function Jne(s: State, a: int): (o: Outcome)
    requires s.Valid()
    ensures o.state.Valid()
  {
    if s.flags != FlagEqual then Jmp(s, a) else Ok(s)
  }

  /** `branch_table[IR](operand_a, operand_b)`. */
  function Execute(h: Handler, s: State, a: int, b: int): (o: Outcome)
    requires s.Valid()
    ensures o.state.Valid()
  {
    match h
    case Halt => Hlt(s)
    case LoadImmediate => Ldi(s, a, b)
    case PrintRegister => Prn(s, a)
    case PushRegister => Push(s, a)
    case PopRegister => Pop(s, a)
    case Jump => Jmp(s, a)
    case JumpIfEqual => Jeq(s, a)
    case JumpIfNotEqual => Jne(s, a)
  }

  /** Fetch succeeds when the opcode and both operand bytes are in memory;
      all three are read whatever the operand count. */
  predicate CanFetch(s: State): (b: bool)
    ensures b <==> 0 <= s.pc <= RamSize - 3
  {
    ValidAddress(s.pc) && ValidAddress(s.pc + 1) && ValidAddress(s.pc + 2)
  }

  /** The first of the three fetched addresses that is outside memory. */
  function FetchError(s: State): (e: Error)
    requires !CanFetch(s)
    ensures e.AddressOutOfRange? && !ValidAddress(e.address)
    ensures s.pc <= e.address <= s.pc + 2
    ensures forall k :: s.pc <= k < e.address ==> ValidAddress(k)
  {
    if !ValidAddress(s.pc) then AddressOutOfRange(s.pc)
    else if !ValidAddress(s.pc + 1) then AddressOutOfRange(s.pc + 1)
    else AddressOutOfRange(s.pc + 2)
  }

  /** The state after the fetch has moved pc past the opcode and its operands. */
  function Advanced(s: State): (t: State)
    requires s.Valid() && CanFetch(s)
    ensures t.Valid() && t == s.(pc := t.pc)
    ensures var skipped := t.pc - s.pc - 1;
            skipped * 64 <= s.ram[s.pc] < skipped * 64 + 64
    ensures 0 <= s.ram[s.pc] < 256 ==> s.pc + 1 <= t.pc <= s.pc + 4
  {
    s.(pc := s.pc + 1 + OperandCount(s.ram[s.pc]))
  }

  /** The decode at the end of the loop body: bit 5 sends the opcode to the
      ALU, anything else goes through the branch table, where a missing key
      raises. */
  function Dispatch(s: State, ir: int, a: int, b: int): (o: Outcome)
    requires s.Valid()
    ensures o.state.Valid()
  {
    match Decode(ir)
    case ToAlu => Alu(s, ir, a, b)
    case ToHandler(h) => Execute(h, s, a, b)
    case Unknown => Fault(InvalidInstruction(ir), s)
  }

  /** One iteration of the run loop: fetch, advance pc, dispatch. */
  function Step(s: State): (o: Outcome)
    requires s.Valid()
    ensures o.state.Valid()
  {
    if !CanFetch(s) then Fault(FetchError(s), s)
    else Dispatch(Advanced(s), s.ram[s.pc], s.ram[s.pc + 1], s.ram[s.pc + 2])
  }

  /** The run loop with a budget of `fuel` iterations: it stops when
      `running` is false, when the budget is spent, or at the first error. */
  function Exec(s: State, fuel: nat): (o: Outcome)
    requires s.Valid()
    ensures o.state.Valid()
    decreases fuel
  {
    if !s.running || fuel == 0 then Ok(s)
    else
      match Step(s)
      case Ok(t) => Exec(t, fuel - 1)
      case Fault(e, t) => Fault(e, t)
  }

  /** A halted machine, or a spent budget, takes no step. */
  lemma ExecStopped(s: State, fuel: nat)
    requires s.Valid() && (!s.running || fuel == 0)
    ensures Exec(s, fuel) == Ok(s)
  {
  }

  /** A running machine's budget is spent one step at a time. */
  lemma ExecUnfold(s: State, t: State, fuel: nat)
    requires s.Valid() && s.running && Step(s) == Ok(t)
    ensures Exec(s, fuel + 1) == Exec(t, fuel)
  {
  }

  /** A raising step ends the run with that error. */
  lemma ExecFault(s: State, e: Error, t: State, fuel: nat)
    requires s.Valid() && s.running && Step(s) == Fault(e, t)
    ensures Exec(s, fuel + 1) == Fault(e, t)
  {
  }

  /** `run`: set `running`, then loop. */
  function Run(s: State, fuel: nat): (o: Outcome)
    requires s.Valid()
    ensures o.state.Valid()
  {
    Exec(s.(running := true), fuel)
  }
}
