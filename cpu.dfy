/** The CPU class: memory and register file as arrays updated in place, and
    the program counter, flags, running flag and printed output as fields.
    Every method is proved to leave the object in the state the matching
    function of module Machine computes from the state before the call. */
module Cpu {
  import opened Opcodes
  import opened Machine

  class CPU {
    var ram: array<int>
    var registers: array<int>
    var pc: int
    var flags: int
    var running: bool
    /** The values PRN has printed, in order. */
    var output: seq<int>

    ghost predicate Valid()
      reads this
    {
      ram.Length == RamSize && registers.Length == RegisterCount && ram != registers
    }

    /** The whole machine state as a value. */
    function Snapshot(): (s: State)
      reads this, ram, registers
      requires Valid()
      ensures s.Valid()
    {
      State(ram[..], registers[..], pc, flags, running, output)
    }

    /** The outcome a method reports: its error, if any, and the state now. */
    function Report(err: Option<Error>): Outcome
      reads this, ram, registers
      requires Valid()
    {
      if err.None? then Ok(Snapshot()) else Fault(err.value, Snapshot())
    }

    constructor ()
      ensures Valid() && fresh(ram) && fresh(registers)
      ensures Snapshot() == Initial()
    {
      ram := new int[RamSize](_ => 0);
      registers := new int[RegisterCount](_ => 0);
      pc := 0;
      flags := 0;
      running := false;
      output := [];
      new;
      registers[SP] := StackTop;
      assert registers[..] == Initial().regs;
      assert ram[..] == Initial().ram;
    }

    /** Writes the program image from address 0 onward. */
    method Load(image: seq<int>) returns (err: Option<Error>)
      requires Valid()
      modifies ram
      ensures Valid()
      ensures Report(err) == Machine.Load(old(Snapshot()), image)
    {
      var address := 0;
      while address < |image|
        invariant 0 <= address <= |image| && address <= RamSize
        invariant forall i :: 0 <= i < RamSize ==> ram[i] == if i < address then image[i] else old(ram[i])
      {
        if address == RamSize {
          return Some(AddressOutOfRange(RamSize));
        }
        ram[address] := image[address];
        address := address + 1;
      }
      return None;
    }

    method RamRead(mar: int) returns (value: int, err: Option<Error>)
      requires Valid()
      ensures err == if ValidAddress(mar) then None else Some(AddressOutOfRange(mar))
      ensures err.None? ==> value == ram[mar]
    {
      if !ValidAddress(mar) {
        return 0, Some(AddressOutOfRange(mar));
      }
      return ram[mar], None;
    }

    method RamWrite(mar: int, mdr: int) returns (err: Option<Error>)
      requires Valid()
      modifies ram
      ensures err == if ValidAddress(mar) then None else Some(AddressOutOfRange(mar))
      ensures ram[..] == if ValidAddress(mar) then old(ram[..])[mar := mdr] else old(ram[..])
    {
      if !ValidAddress(mar) {
        return Some(AddressOutOfRange(mar));
      }
      ram[mar] := mdr;
      return None;
    }

    method Alu(op: int, a: int, b: int) returns (err: Option<Error>)
      requires Valid()
      modifies this, registers
      ensures Valid() && ram == old(ram) && registers == old(registers)
      ensures Report(err) == Machine.Alu(old(Snapshot()), op, a, b)
    {
      if op != ADD && op != MUL && op != CMP {
        return Some(UnsupportedAluOp(op));
      }
      if !ValidRegister(a) || !ValidRegister(b) {
        return Some(BadRegister(a, b));
      }
      if op == ADD {
        registers[a] := registers[a] + registers[b];
      } else if op == MUL {
        registers[a] := registers[a] * registers[b];
      } else {
        if registers[a] < registers[b] {
          flags := FlagLess;
        }
        if registers[a] > registers[b] {
          flags := FlagGreater;
        }
        if registers[a] == registers[b] {
          flags := FlagEqual;
        }
      }
      return None;
    }

    method Hlt()
      requires Valid()
      modifies this
      ensures Valid() && ram == old(ram) && registers == old(registers)
      ensures Report(None) == Machine.Hlt(old(Snapshot()))
    {
      running := false;
    }

    method Ldi(a: int, b: int) returns (err: Option<Error>)
      requires Valid()
      modifies registers
      ensures Report(err) == Machine.Ldi(old(Snapshot()), a, b)
    {
      if !ValidRegister(a) {
        return Some(InvalidRegister(a));
      }
      registers[a] := b;
      return None;
    }

    method Prn(a: int) returns (err: Option<Error>)
      requires Valid()
      modifies this
      ensures Valid() && ram == old(ram) && registers == old(registers)
      ensures Report(err) == Machine.Prn(old(Snapshot()), a)
    {
      if !ValidRegister(a) {
        return Some(InvalidRegister(a));
      }
      output := output + [registers[a]];
      return None;
    }

    method Push(a: int) returns (err: Option<Error>)
      requires Valid()
      modifies ram, registers
      ensures Report(err) == Machine.Push(old(Snapshot()), a)
    {
      registers[SP] := registers[SP] - 1;
      if !ValidRegister(a) {
        return Some(InvalidRegister(a));
      }
      var value := registers[a];
      var sp := registers[SP];
      err := RamWrite(sp, value);
    }

    method Pop(a: int) returns (err: Option<Error>)
      requires Valid()
      modifies registers
      ensures Report(err) == Machine.Pop(old(Snapshot()), a)
    {
      var sp := registers[SP];
      var value, unused;
      value, err := RamRead(sp);
      if err.Some? {
        return;
      }
      // `pop` reads the cell after pc here and never uses the value
      unused, err := RamRead(pc + 1);
      if err.Some? {
        return;
      }
      if !ValidRegister(a) {
        return Some(InvalidRegister(a));
      }
      registers[a] := value;
      registers[SP] := registers[SP] + 1;
    }

    method Jmp(a: int) returns (err: Option<Error>)
      requires Valid()
      modifies this
      ensures Valid() && ram == old(ram) && registers == old(registers)
      ensures Report(err) == Machine.Jmp(old(Snapshot()), a)
    {
      if !ValidRegister(a) {
        return Some(InvalidRegister(a));
      }
      pc := registers[a];
      return None;
    }

    method Jeq(a: int) returns (err: Option<Error>)
      requires Valid()
      modifies this
      ensures Valid() && ram == old(ram) && registers == old(registers)
      ensures Report(err) == Machine.Jeq(old(Snapshot()), a)
    {
      err := None;
      if flags == FlagEqual {
        err := Jmp(a);
      }
    }

    method Jne(a: int) returns (err: Option<Error>)
      requires Valid()
      modifies this
      ensures Valid() && ram == old(ram) && registers == old(registers)
      ensures Report(err) == Machine.Jne(old(Snapshot()), a)
    {
      err := None;
      if flags != FlagEqual {
        err := Jmp(a);
      }
    }

    /** Calls the handler the branch table names. */
    method Execute(h: Handler, a: int, b: int) returns (err: Option<Error>)
      requires Valid()
      modifies this, ram, registers
      ensures Valid() && ram == old(ram) && registers == old(registers)
      ensures Report(err) == Machine.Execute(h, old(Snapshot()), a, b)
    {
      match h
      case Halt => Hlt(); err := None;
      case LoadImmediate => err := Ldi(a, b);
      case PrintRegister => err := Prn(a);
      case PushRegister => err := Push(a);
      case PopRegister => err := Pop(a);
      case Jump => err := Jmp(a);
      case JumpIfEqual => err := Jeq(a);
      case JumpIfNotEqual => err := Jne(a);
    }

    /** One iteration of the run loop. */
    method Step() returns (err: Option<Error>)
      requires Valid()
      modifies this, ram, registers
      ensures Valid() && ram == old(ram) && registers == old(registers)
      ensures Report(err) == Machine.Step(old(Snapshot()))
    {
      var ir, operandA, operandB;
      ir, err := RamRead(pc);
      if err.Some? {
        return;
      }
      operandA, err := RamRead(pc + 1);
      if err.Some? {
        return;
      }
      operandB, err := RamRead(pc + 2);
      if err.Some? {
        return;
      }
      ghost var fetched := Snapshot();
      pc := pc + 1 + OperandCount(ir);
      assert Snapshot() == Advanced(fetched);
      err := Dispatch(ir, operandA, operandB);
    }

    /** Sends a fetched instruction to the ALU or through the branch table. */
    method Dispatch(ir: int, a: int, b: int) returns (err: Option<Error>)
      requires Valid()
      modifies this, ram, registers
      ensures Valid() && ram == old(ram) && registers == old(registers)
      ensures Report(err) == Machine.Dispatch(old(Snapshot()), ir, a, b)
    {
      match Decode(ir)
      case ToAlu => err := Alu(ir, a, b);
      case ToHandler(h) => err := Execute(h, a, b);
      case Unknown => err := Some(InvalidInstruction(ir));
    }

    /** One iteration of the run loop, seen against the whole run: when
        `goal` is where `budget` more iterations lead, it is where the
        remaining `budget - 1` lead after this one, or this one raised. */
    method Iterate(budget: nat, ghost goal: Outcome) returns (err: Option<Error>)
      requires Valid() && running && budget > 0
      requires Machine.Exec(Snapshot(), budget) == goal
      modifies this, ram, registers
      ensures Valid() && ram == old(ram) && registers == old(registers)
      ensures err.Some? ==> Report(err) == goal
      ensures err.None? ==> Machine.Exec(Snapshot(), budget - 1) == goal
    {
      ghost var before := Snapshot();
      err := Step();
      if err.Some? {
        ExecFault(before, err.value, Snapshot(), budget - 1);
      } else {
        ExecUnfold(before, Snapshot(), budget - 1);
      }
    }

    /** `run`, bounded by a budget of `fuel` loop iterations. */
    method Run(fuel: nat) returns (err: Option<Error>)
      requires Valid()
      modifies this, ram, registers
      ensures Valid() && ram == old(ram) && registers == old(registers)
      ensures Report(err) == Machine.Run(old(Snapshot()), fuel)
    {
      running := true;
      assert Snapshot() == old(Snapshot()).(running := true);
      err := Loop(fuel);
    }

    /** The `while self.running` loop, for at most `fuel` iterations. */
    method Loop(fuel: nat) returns (err: Option<Error>)
      requires Valid()
      modifies this, ram, registers
      ensures Valid() && ram == old(ram) && registers == old(registers)
      ensures Report(err) == Machine.Exec(old(Snapshot()), fuel)
    {
      hide Machine.Step;
      ghost var goal := Machine.Exec(Snapshot(), fuel);
      var budget := fuel;
      while running && budget > 0
        invariant Valid() && ram == old(ram) && registers == old(registers)
        invariant Machine.Exec(Snapshot(), budget) == goal
        decreases budget
      {
        err := Iterate(budget, goal);
        if err.Some? {
          return;
        }
        budget := budget - 1;
      }
      ExecStopped(Snapshot(), budget);
      return None;
    }
  }
}
