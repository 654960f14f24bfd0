/** Properties of the machine semantics: decoding, the order of the pc
    advance and the handler, the flags CMP writes, the stack, the
    conditional branches, halting, and a few whole programs. */
module Properties {
  import opened Opcodes
  import opened Machine

  /** The opcode table: operand counts, ALU marker and handler of every
      opcode the machine defines. */
  lemma OpcodeTable()
    ensures Decode(ADD) == ToAlu && OperandCount(ADD) == 2
    ensures Decode(MUL) == ToAlu && OperandCount(MUL) == 2
    ensures Decode(CMP) == ToAlu && OperandCount(CMP) == 2
    ensures Decode(HLT) == ToHandler(Halt) && OperandCount(HLT) == 0
    ensures Decode(LDI) == ToHandler(LoadImmediate) && OperandCount(LDI) == 2
    ensures Decode(PRN) == ToHandler(PrintRegister) && OperandCount(PRN) == 1
    ensures Decode(PUSH) == ToHandler(PushRegister) && OperandCount(PUSH) == 1
    ensures Decode(POP) == ToHandler(PopRegister) && OperandCount(POP) == 1
    ensures Decode(JMP) == ToHandler(Jump) && OperandCount(JMP) == 1
    ensures Decode(JEQ) == ToHandler(JumpIfEqual) && OperandCount(JEQ) == 1
    ensures Decode(JNE) == ToHandler(JumpIfNotEqual) && OperandCount(JNE) == 1
  {
  }

  /** The branch table maps the eight non-ALU opcodes, and only them, to
      distinct handlers. */
  lemma BranchTableEntries()
    ensures BranchTable.Keys == {HLT, LDI, PRN, PUSH, POP, JMP, JEQ, JNE}
    ensures forall ir :: ir in BranchTable ==> !IsAluOp(ir)
    ensures forall x, y :: x in BranchTable && y in BranchTable && x != y ==> BranchTable[x] != BranchTable[y]
  {
  }

  /** The pc advance skips exactly the operand bytes the handler uses. */
  lemma AdvanceMatchesOperands(ir: int)
    requires Decode(ir).ToHandler?
    ensures OperandCount(ir) == OperandsUsed(Decode(ir).handler)
  {
    OpcodeTable();
  }

  /** A fetch that leaves memory raises before anything changes. */
  lemma StepFetchFault(s: State)
    requires s.Valid() && !CanFetch(s)
    ensures Step(s) == Fault(FetchError(s), s)
    ensures s.pc < 0 || s.pc + 2 >= RamSize
  {
  }

  /** The decoder's errors: an unknown opcode and a bit-5 opcode other than
      ADD, MUL and CMP both raise after pc has been advanced, and change
      nothing else. */
  lemma StepDecodeFaults(s: State)
    requires s.Valid() && CanFetch(s)
    ensures var ir := s.ram[s.pc];
            IsAluOp(ir) && ir != ADD && ir != MUL && ir != CMP ==>
              Step(s) == Fault(UnsupportedAluOp(ir), Advanced(s))
    ensures var ir := s.ram[s.pc];
            !IsAluOp(ir) && ir !in BranchTable ==>
              Step(s) == Fault(InvalidInstruction(ir), Advanced(s))
  {
  }

  /** pc is advanced by 1 + (IR >> 6) before the handler runs: a handler
      that does not branch leaves it there even when it raises, JMP
      overwrites it, and JEQ and JNE overwrite it exactly when they branch. */
  lemma StepPc(s: State)
    requires s.Valid() && CanFetch(s)
    ensures var ir, a := s.ram[s.pc], s.ram[s.pc + 1];
            var next := s.pc + 1 + OperandCount(ir);
            var o := Step(s);
            && (!(Decode(ir).ToHandler? && IsBranch(Decode(ir).handler)) ==> o.state.pc == next)
            && (Decode(ir) == ToHandler(Jump) && o.Ok? ==> o.state.pc == s.regs[a])
            && (Decode(ir) == ToHandler(JumpIfEqual) && o.Ok? ==>
                  o.state.pc == if s.flags == FlagEqual then s.regs[a] else next)
            && (Decode(ir) == ToHandler(JumpIfNotEqual) && o.Ok? ==>
                  o.state.pc == if s.flags != FlagEqual then s.regs[a] else next)
  {
  }

  /** Only HLT clears `running`; every other transition, and every error,
      leaves it as it was. */
  lemma StepRunning(s: State)
    requires s.Valid()
    ensures Step(s).state.running <==>
              s.running && !(CanFetch(s) && Decode(s.ram[s.pc]) == ToHandler(Halt))
  {
  }

  /** CMP changes only the flags, to the one-hot value of the relation
      between the two registers, whatever the flags held before. */
  lemma CmpSetsFlags(s: State, a: int, b: int)
    requires s.Valid() && ValidRegister(a) && ValidRegister(b)
    ensures var o := Alu(s, CMP, a, b);
            && o.Ok?
            && o.state == s.(flags := o.state.flags)
            && (o.state.flags == FlagLess <==> s.regs[a] < s.regs[b])
            && (o.state.flags == FlagGreater <==> s.regs[a] > s.regs[b])
            && (o.state.flags == FlagEqual <==> s.regs[a] == s.regs[b])
            && o.state.flags in {FlagLess, FlagGreater, FlagEqual}
  {
  }

  /** ADD and MUL change only register `a`, to the unmasked sum or product. */
  lemma AddMulChangeOnlyTarget(s: State, a: int, b: int)
    requires s.Valid() && ValidRegister(a) && ValidRegister(b)
    ensures var o := Alu(s, ADD, a, b);
            o.Ok? && o.state.regs[a] == s.regs[a] + s.regs[b] &&
            o.state == s.(regs := o.state.regs) &&
            forall r :: 0 <= r < RegisterCount && r != a ==> o.state.regs[r] == s.regs[r]
    ensures var o := Alu(s, MUL, a, b);
            o.Ok? && o.state.regs[a] == s.regs[a] * s.regs[b] &&
            o.state == s.(regs := o.state.regs) &&
            forall r :: 0 <= r < RegisterCount && r != a ==> o.state.regs[r] == s.regs[r]
  {
  }

  /** An out-of-range register index in an ALU instruction raises and
      changes nothing. */
  lemma AluRegisterFault(s: State, op: int, a: int, b: int)
    requires s.Valid() && (op == ADD || op == MUL || op == CMP)
    requires !ValidRegister(a) || !ValidRegister(b)
    ensures Alu(s, op, a, b) == Fault(BadRegister(a, b), s)
  {
  }

  /** LDI sets register `a` to the immediate and changes nothing else. */
  lemma LdiSetsRegister(s: State, a: int, b: int)
    requires s.Valid()
    ensures var o := Ldi(s, a, b);
            (o.Ok? <==> ValidRegister(a)) &&
            (o.Ok? ==> o.state.regs[a] == b && o.state == s.(regs := o.state.regs) &&
                       forall r :: 0 <= r < RegisterCount && r != a ==> o.state.regs[r] == s.regs[r]) &&
            (o.Fault? ==> o == Fault(InvalidRegister(a), s))
  {
  }

  /** PRN appends register `a` to the output and changes nothing else. */
  lemma PrnAppends(s: State, a: int)
    requires s.Valid()
    ensures var o := Prn(s, a);
            (o.Ok? <==> ValidRegister(a)) &&
            (o.Ok? ==> o.state == s.(output := s.output + [s.regs[a]])) &&
            (o.Fault? ==> o == Fault(InvalidRegister(a), s))
  {
  }

  /** JMP sets pc to register `a` and changes nothing else; a bad index
      raises and changes nothing. */
  lemma JmpSetsPc(s: State, a: int)
    requires s.Valid()
    ensures var o := Jmp(s, a);
            && (o.Ok? <==> ValidRegister(a))
            && (o.Ok? ==> o.state == s.(pc := s.regs[a]))
            && (o.Fault? ==> o == Fault(InvalidRegister(a), s))
  {
  }

  /** PUSH decrements R7 to sp whether or not it then raises, and writes
      register `a` (read after the decrement) to ram[sp]; no other cell or
      register changes. A bad register index raises with R7 decremented. */
  lemma PushWritesOneCell(s: State, a: int)
    requires s.Valid()
    ensures var sp := s.regs[SP] - 1;
            var o := Push(s, a);
            && (o.Ok? <==> ValidRegister(a) && ValidAddress(sp))
            && o.state.regs == s.regs[SP := sp]
            && (!ValidRegister(a) ==> o == Fault(InvalidRegister(a), s.(regs := s.regs[SP := sp])))
            && (ValidRegister(a) && !ValidAddress(sp) ==> o.error == AddressOutOfRange(sp))
            && (o.Ok? ==> o.state.ram[sp] == if a == SP then sp else s.regs[a])
            && (forall i :: 0 <= i < RamSize && i != sp ==> o.state.ram[i] == s.ram[i])
            && o.state == s.(regs := o.state.regs, ram := o.state.ram)
  {
  }

  /** POP succeeds exactly when R7, the cell after pc (read and discarded)
      and the target register are all in range, and changes nothing when it
      raises. It stores the top of the stack before incrementing R7, so
      `POP R7` leaves R7 one above the popped value. */
  lemma PopReadsTop(s: State, a: int)
    requires s.Valid()
    ensures var sp := s.regs[SP];
            var o := Pop(s, a);
            && (o.Ok? <==> ValidAddress(sp) && ValidAddress(s.pc + 1) && ValidRegister(a))
            && (o.Fault? ==> o.state == s)
            && (!ValidAddress(sp) ==> o.error == AddressOutOfRange(sp))
            && (ValidAddress(sp) && !ValidAddress(s.pc + 1) ==> o.error == AddressOutOfRange(s.pc + 1))
            && (ValidAddress(sp) && ValidAddress(s.pc + 1) && !ValidRegister(a) ==> o.error == InvalidRegister(a))
            && (o.Ok? && a != SP ==> o.state.regs[a] == s.ram[sp] && o.state.regs[SP] == sp + 1)
            && (o.Ok? && a == SP ==> o.state.regs[SP] == s.ram[sp] + 1)
            && (o.Ok? ==> forall r :: 0 <= r < RegisterCount && r != a && r != SP ==> o.state.regs[r] == s.regs[r])
            && o.state == s.(regs := o.state.regs)
  {
  }

  /** POP into any register but R7 right after a PUSH restores the pushed
      value and returns R7 to its value before the PUSH; memory keeps the
      pushed cell and every register other than the target is as before. */
  lemma PushPopRoundTrip(s: State, a: int, c: int)
    requires s.Valid() && ValidRegister(a) && ValidRegister(c) && c != SP
    requires ValidAddress(s.regs[SP] - 1) && ValidAddress(s.pc + 1)
    ensures Push(s, a).Ok? && Pop(Push(s, a).state, c).Ok?
    ensures var t := Pop(Push(s, a).state, c).state;
            && t.regs[c] == (if a == SP then s.regs[SP] - 1 else s.regs[a])
            && t.regs[SP] == s.regs[SP]
            && (forall r :: 0 <= r < RegisterCount && r != c ==> t.regs[r] == s.regs[r])
            && t.ram == Push(s, a).state.ram
            && t == s.(regs := t.regs, ram := t.ram)
  {
    PushWritesOneCell(s, a);
    var u := Push(s, a).state;
    var sp := s.regs[SP] - 1;
    assert u.regs[SP] == sp && u.pc == s.pc;
    var t := Pop(u, c).state;
    assert t.regs == u.regs[c := u.ram[sp]][SP := sp + 1];
  }

  /** After a CMP of registers `a` and `b`, JEQ branches exactly when they
      were equal and JNE exactly when they were not: exactly one of the two
      takes the branch. */
  lemma CmpThenBranch(s: State, a: int, b: int, j: int)
    requires s.Valid() && ValidRegister(a) && ValidRegister(b) && ValidRegister(j)
    ensures var t := Alu(s, CMP, a, b).state;
            var taken := t.(pc := t.regs[j]);
            && Jeq(t, j) == (if s.regs[a] == s.regs[b] then Ok(taken) else Ok(t))
            && Jne(t, j) == (if s.regs[a] == s.regs[b] then Ok(t) else Ok(taken))
  {
    CmpSetsFlags(s, a, b);
  }

  /** JEQ and JNE are complementary: on any state exactly one of them acts
      as JMP, and the other leaves the state as it is. */
  lemma BranchesComplementary(s: State, j: int)
    requires s.Valid()
    ensures || (Jeq(s, j) == Jmp(s, j) && Jne(s, j) == Ok(s))
            || (Jne(s, j) == Jmp(s, j) && Jeq(s, j) == Ok(s))
  {
  }

  /** A halted machine takes no further step, whatever the budget. */
  lemma ExecHalted(s: State, fuel: nat)
    requires s.Valid() && !s.running
    ensures Exec(s, fuel) == Ok(s)
  {
  }

  /** Running m + n iterations is running m, then n more from where the
      first m stopped (unless they raised). */
  lemma {:induction false} ExecAdditive(s: State, m: nat, n: nat)
    requires s.Valid()
    ensures Exec(s, m + n) == match Exec(s, m)
                              case Ok(t) => Exec(t, n)
                              case Fault(e, t) => Fault(e, t)
    decreases m
  {
    hide Step;
    if m == 0 || !s.running {
      assert Exec(s, m) == Ok(s);
    } else {
      match Step(s)
      case Ok(t) =>
        assert Exec(s, m + n) == Exec(t, (m - 1) + n);
        ExecAdditive(t, m - 1, n);
      case Fault(e, t) =>
    }
  }

  /** Once a run has halted or raised, a larger budget changes nothing:
      after HLT no further instruction is fetched. */
  lemma {:induction false} ExecStopsForGood(s: State, m: nat, n: nat)
    requires s.Valid() && m <= n
    requires Exec(s, m).Fault? || !Exec(s, m).state.running
    ensures Exec(s, n) == Exec(s, m)
  {
    hide Step;
    ExecAdditive(s, m, n - m);
    if Exec(s, m).Ok? {
      ExecHalted(Exec(s, m).state, n - m);
    }
  }

  /** A step that executes HLT ends the run on that very step. */
  lemma HltEndsRun(s: State, fuel: nat)
    requires s.Valid() && s.running && fuel > 0
    requires CanFetch(s) && s.ram[s.pc] == HLT
    ensures Exec(s, fuel) == Ok(s.(pc := s.pc + 1, running := false))
  {
    OpcodeTable();
    ExecHalted(s.(pc := s.pc + 1, running := false), fuel - 1);
  }

  /** A state whose memory starts with `program` and is otherwise arbitrary. */
  predicate Holds(s: State, program: seq<int>)
  {
    |program| <= |s.ram| && s.ram[..|program|] == program
  }

  /** A fetched instruction: opcode and operand bytes at pc. */
  predicate At(s: State, ir: int, a: int, b: int)
    requires s.Valid()
  {
    CanFetch(s) && s.ram[s.pc] == ir && s.ram[s.pc + 1] == a && s.ram[s.pc + 2] == b
  }

  /** A trace of successful steps through running states uses up one unit
      of budget per step. */
  lemma {:induction false} ExecTrace(trace: seq<State>, fuel: nat)
    requires |trace| > 0
    requires forall i :: 0 <= i < |trace| ==> trace[i].Valid()
    requires forall i :: 0 <= i < |trace| - 1 ==> trace[i].running && Step(trace[i]) == Ok(trace[i + 1])
    ensures Exec(trace[0], fuel + |trace| - 1) == Exec(trace[|trace| - 1], fuel)
    decreases |trace|
  {
    hide Step;
    if |trace| > 1 {
      var rest := trace[1..];
      assert forall i :: 0 <= i < |rest| ==> rest[i] == trace[i + 1];
      assert trace[0].running && Step(trace[0]) == Ok(trace[1]);
      ExecUnfold(trace[0], trace[1], fuel + |rest| - 1);
      ExecTrace(rest, fuel);
    }
  }

  /** One whole step of LDI. */
  lemma StepLdi(s: State, a: int, b: int)
    requires s.Valid() && At(s, LDI, a, b) && ValidRegister(a)
    ensures Step(s) == Ok(s.(pc := s.pc + 3, regs := s.regs[a := b]))
  {
    OpcodeTable();
  }

  /** One whole step of PRN. */
  lemma StepPrn(s: State, a: int, b: int)
    requires s.Valid() && At(s, PRN, a, b) && ValidRegister(a)
    ensures Step(s) == Ok(s.(pc := s.pc + 2, output := s.output + [s.regs[a]]))
  {
    OpcodeTable();
  }

  /** One whole step of ADD. */
  lemma StepAdd(s: State, a: int, b: int)
    requires s.Valid() && At(s, ADD, a, b) && ValidRegister(a) && ValidRegister(b)
    ensures Step(s) == Ok(s.(pc := s.pc + 3, regs := s.regs[a := s.regs[a] + s.regs[b]]))
  {
    OpcodeTable();
  }

  /** One whole step of HLT. */
  lemma StepHlt(s: State, a: int, b: int)
    requires s.Valid() && At(s, HLT, a, b)
    ensures Step(s) == Ok(s.(pc := s.pc + 1, running := false))
  {
    OpcodeTable();
  }

  /** `LDI R0, 8; PRN R0; HLT` prints 8 and halts after three steps, for any
      budget of at least three. */
  lemma LdiPrnProgram(s: State, fuel: nat)
    requires s.Valid() && s.pc == 0 && fuel >= 3
    requires Holds(s, [LDI, 0, 8, PRN, 0, HLT])
    ensures var o := Run(s, fuel);
            o.Ok? && !o.state.running && o.state.output == s.output + [8]
  {
    hide Step;
    var p := [LDI, 0, 8, PRN, 0, HLT];
    assert forall i :: 0 <= i < |p| ==> s.ram[i] == p[i];
    var s0 := s.(running := true);
    StepLdi(s0, 0, 8);
    var s1 := s0.(pc := 3, regs := s0.regs[0 := 8]);
    StepPrn(s1, 0, HLT);
    var s2 := s1.(pc := 5, output := s1.output + [8]);
    StepHlt(s2, s.ram[6], s.ram[7]);
    var s3 := s2.(pc := 6, running := false);
    assert Exec(s0, fuel) == Exec(s3, fuel - 3) by {
      ExecTrace([s0, s1, s2, s3], fuel - 3);
    }
    ExecHalted(s3, fuel - 3);
    assert s3.output == s.output + [8];
  }

  /** `LDI R0, 255; LDI R1, 2; ADD R0, R1; PRN R0; HLT` prints 257 and halts
      after five steps, for any budget of at least five: the addition is not
      reduced to a byte. */
  lemma AddDoesNotWrapProgram(s: State, fuel: nat)
    requires s.Valid() && s.pc == 0 && fuel >= 5
    requires Holds(s, [LDI, 0, 255, LDI, 1, 2, ADD, 0, 1, PRN, 0, HLT])
    ensures var o := Run(s, fuel);
            o.Ok? && !o.state.running && o.state.output == s.output + [257]
  {
    hide Step;
    var p := [LDI, 0, 255, LDI, 1, 2, ADD, 0, 1, PRN, 0, HLT];
    assert s.ram[0] == LDI && s.ram[1] == 0 && s.ram[2] == 255 && s.ram[3] == LDI && s.ram[4] == 1
        && s.ram[5] == 2 && s.ram[6] == ADD && s.ram[7] == 0 && s.ram[8] == 1 && s.ram[9] == PRN
        && s.ram[10] == 0 && s.ram[11] == HLT by {
      assert forall i :: 0 <= i < |p| ==> s.ram[i] == p[i];
    }
    var s0 := s.(running := true);
    var s3 := s0.(pc := 9, regs := s0.regs[0 := 255][1 := 2][0 := 257]);
    AddProgramLoads(s0, fuel - 3);
    AddProgramPrints(s3, fuel - 3);
  }

  /** The first three steps of the program above. */
  lemma AddProgramLoads(s: State, fuel: nat)
    requires s.Valid() && s.pc == 0 && s.running
    requires s.ram[0] == LDI && s.ram[1] == 0 && s.ram[2] == 255
    requires s.ram[3] == LDI && s.ram[4] == 1 && s.ram[5] == 2
    requires s.ram[6] == ADD && s.ram[7] == 0 && s.ram[8] == 1
    ensures Exec(s, fuel + 3) == Exec(s.(pc := 9, regs := s.regs[0 := 255][1 := 2][0 := 257]), fuel)
  {
    hide Step;
    StepLdi(s, 0, 255);
    var s1 := s.(pc := 3, regs := s.regs[0 := 255]);
    StepLdi(s1, 1, 2);
    var s2 := s1.(pc := 6, regs := s1.regs[1 := 2]);
    StepAdd(s2, 0, 1);
    var s3 := s2.(pc := 9, regs := s2.regs[0 := 257]);
    ExecTrace([s, s1, s2, s3], fuel);
  }

  /** The last two steps of the program above. */
  lemma AddProgramPrints(s: State, fuel: nat)
    requires s.Valid() && s.pc == 9 && s.running && s.regs[0] == 257 && fuel >= 2
    requires s.ram[9] == PRN && s.ram[10] == 0 && s.ram[11] == HLT
    ensures var o := Exec(s, fuel);
            o.Ok? && !o.state.running && o.state.output == s.output + [257]
  {
    hide Step;
    StepPrn(s, 0, HLT);
    var s4 := s.(pc := 11, output := s.output + [257]);
    StepHlt(s4, s.ram[12], s.ram[13]);
    var s5 := s4.(pc := 12, running := false);
    ExecTrace([s, s4, s5], fuel - 2);
    ExecHalted(s5, fuel - 2);
    assert Exec(s, fuel) == Ok(s5);
  }

  /** The unused read in POP is of the cell three past the POP opcode, the
      cell after the next opcode: a POP at 253 with every operand in range
      still raises, at address 256. */
  lemma PopAtEndRaises(s: State)
    requires s.Valid() && s.pc == 253 && s.ram[253] == POP
    requires ValidRegister(s.ram[254]) && ValidAddress(s.regs[SP])
    ensures Step(s) == Fault(AddressOutOfRange(RamSize), s.(pc := 255))
  {
    OpcodeTable();
  }

  /** A byte that is not an opcode stops the run with InvalidInstruction. */
  lemma UnknownOpcodeProgram(s: State)
    requires s.Valid() && s.pc == 0 && Holds(s, [0, 0, 0])
    ensures Run(s, 1) == Fault(InvalidInstruction(0), s.(running := true, pc := 1))
  {
    assert s.ram[0] == 0 && s.ram[1] == 0 && s.ram[2] == 0;
  }
}
