# LS-8 CPU emulator, modelled in Dafny

This project models the CPU of a small 8-bit virtual machine, the `CPU` class in
`cpu.py`. The machine has 256 cells of RAM, eight registers with R7 as a
descending stack pointer that starts at 0xF4, a program counter, a flags byte
and a `running` flag. Its `run` loop handles one instruction per iteration:

1. It fetches the opcode and the two bytes after it.
2. It advances the program counter by `1 + (IR >> 6)`.
3. It sends opcodes with bit 5 set to the ALU (ADD, MUL, CMP).
4. It sends every other opcode through the branch table, to HLT, LDI, PRN,
   PUSH, POP, JMP, JEQ or JNE.

The project has four files:

- `opcodes.dfy` (module `Opcodes`): the opcode constants, the operand-count field
  `IR >> 6`, the ALU bit, the branch table and the decoder.
- `machine.dfy` (module `Machine`): the semantics as functions over a value
  `State`. It holds RAM, registers, pc, flags, `running` and the printed output.
  There is one function per handler, plus `Alu`, `Dispatch`, `Step` (one loop
  iteration), `Exec` (the loop with a step budget) and `Run`. Every
  transition gives an `Outcome`: either `Ok(state)`, or
  `Fault(error, state)` with the state as it stood when the source raised.
- `cpu.dfy` (module `Cpu`): the class `CPU`. RAM and the register file are
  `array<int>` updated in place; pc, flags, `running` and the output are
  fields. Every method has the source's steps in the source's order. Its
  contract says that the object ends in the state (and reports the error) that
  the matching `Machine` function computes from the state before the call.
- `properties.dfy` (module `Properties`): the lemmas about the semantics.

Errors are values of `Machine.Error`:

- `AddressOutOfRange`: an `IndexError` on the RAM list.
- `InvalidRegister`: an `IndexError` on the register list.
- `InvalidInstruction`: the `KeyError` from `branch_table[IR]`.
- `UnsupportedAluOp`: the "Unsupported ALU operation" exception.

In these places the code departs from what an 8-bit machine usually does, and the model follows the code:

- ADD and MUL are not reduced modulo 256. Registers and memory cells hold
  unbounded integers, as Python's do. `Properties.AddDoesNotWrapProgram` proves
  that `LDI R0,255; LDI R1,2; ADD R0,R1; PRN R0` prints 257, not 1.
- JEQ and JNE compare the whole flags value with 1. They do not read bit 0 alone.
  After a CMP this makes no difference, because CMP writes exactly one bit. Before
  any CMP the flags are 0, so JNE branches.
- The fetch always reads `pc + 1` and `pc + 2`. So any instruction, HLT included,
  raises when `pc + 2` is past the end of memory.
- POP reads `ram[pc + 1]` and discards the value (the dead read in `pop`). The
  model keeps only its bounds check, which can raise. Since `pop` runs after
  the fetch has moved pc past POP and its operand, this is the cell after the
  next opcode (POP's address + 3), so a POP at 253 raises at 256.
  `Properties.PopReadsTop` states this fault and `Properties.PopAtEndRaises`
  the case at 253.
- PUSH decrements R7 before it reads the source register. So `PUSH R7` pushes the
  decremented value. POP stores into the target register before it increments
  R7. So `POP R7` leaves R7 one above the popped value.
- `running` is only set by `run`. The constructor leaves it false, and `Run` sets
  it true before looping, so running again after a HLT resumes at the next
  instruction.

## Model

| member | source | states |
|---|---|---|
| `Opcodes.OperandCount` | cpu.py:121 | The result is `IR >> 6`, i.e. `n*64 <= IR < n*64 + 64` for every integer opcode, and it lies in 0..3 for a byte |
| `Opcodes.Decode` | cpu.py:123-127 | Bit 5 set iff the ALU route; otherwise a branch-table opcode goes to its table entry, and any other opcode is unknown (the KeyError) |
| `Opcodes.IsAluOp` | cpu.py:123 | For an opcode byte, the ALU marker is set iff the low six bits are at least 32, i.e. bit 5 is 1 |
| `Properties.BranchTableEntries` | cpu.py:27-39 | The table maps exactly HLT, LDI, PRN, PUSH, POP, JMP, JEQ and JNE, none of which has the ALU bit, each to a different handler |
| `Properties.OpcodeTable` | cpu.py:5-15 | Each of the eleven opcodes has its operand count, ALU route or branch-table handler |
| `Machine.CanFetch` | cpu.py:118-120 | The three fetches stay in memory iff `0 <= pc <= 253` |
| `Machine.FetchError` | cpu.py:118-120 | The error names the first of pc, pc + 1, pc + 2 that lies outside memory; the addresses before it are in range |
| `Machine.Advanced` | cpu.py:121-122 | Only pc changes. It moves past the opcode and `n` more bytes, where `n` is the opcode's two high bits (`n*64 <= IR < n*64 + 64`), so by 1 to 4 for an opcode byte |
| `Properties.AdvanceMatchesOperands` | cpu.py:121-122 | For every opcode in the branch table, the pc advance skips exactly the operand bytes its handler uses |
| `Machine.Initial` | cpu.py:20-26 | 256 zero RAM cells, registers all zero except R7 = 0xF4, pc = 0, flags = 0, empty output, not running |
| `Cpu.CPU.constructor` | cpu.py:20-26 | The new object's state is `Machine.Initial()`, with fresh arrays |
| `Machine.Load` | cpu.py:59-65 | Cells below the image length hold the image and the others keep their values. An image longer than 256 cells raises at address 256 once the first 256 are written. Nothing else changes |
| `Cpu.CPU.Load` | cpu.py:59-65 | The loop of single-cell writes leaves the state, and reports the error, that `Machine.Load` gives |
| `Cpu.CPU.RamRead` | cpu.py:70-71 | Returns `ram[mar]` for an address in 0..255; reports AddressOutOfRange otherwise |
| `Cpu.CPU.RamWrite` | cpu.py:73-74 | Sets exactly `ram[mar]` for an address in 0..255; otherwise reports AddressOutOfRange and leaves RAM unchanged |
| `Machine.CmpFlags` | cpu.py:83-89 | The result is 0b100, 0b010 or 0b001, and each is chosen exactly when the first operand is less than, greater than or equal to the second |
| `Machine.Alu` | cpu.py:76-91 | Specification of `alu`, used by `Cpu.CPU.Alu`. Its contract only keeps the state well formed; its behaviour is proved in the Properties lemmas on CMP, ADD, MUL and decode faults |
| `Cpu.CPU.Alu` | cpu.py:76-91 | In-place ALU; ends in the state and error of `Machine.Alu` |
| `Properties.CmpSetsFlags` | cpu.py:83-89 | CMP succeeds and changes only flags. It wholly replaces the old flags with the one-hot value of a<b, a>b or a==b |
| `Properties.AddMulChangeOnlyTarget` | cpu.py:79-82 | ADD and MUL change only register a, to the unmasked sum or product of the old values |
| `Machine.BadRegister` | cpu.py:79-89 | Names register `a` when `a` is out of range, and otherwise register `b`, which is then out of range: `alu` reads `a` before `b` |
| `Properties.AluRegisterFault` | cpu.py:79-89 | An ADD, MUL or CMP with a register index outside 0..7 raises InvalidRegister for the first bad index and changes nothing |
| `Machine.Hlt` | cpu.py:130-131 | Specification of `hlt`; properties in `Properties.StepRunning` and `Properties.HltEndsRun` |
| `Cpu.CPU.Hlt` | cpu.py:130-131 | Clears `running`; ends in the state of `Machine.Hlt` |
| `Machine.Ldi` | cpu.py:133-134 | Specification of `ldi`; properties in `Properties.LdiSetsRegister` |
| `Cpu.CPU.Ldi` | cpu.py:133-134 | Ends in the state and error of `Machine.Ldi` |
| `Properties.LdiSetsRegister` | cpu.py:133-134 | LDI succeeds iff the register index is valid. Then it sets only that register, to the immediate. On error it raises InvalidRegister(a) and nothing changes |
| `Machine.Prn` | cpu.py:136-137 | Specification of `prn`; properties in `Properties.PrnAppends` |
| `Cpu.CPU.Prn` | cpu.py:136-137 | Ends in the state and error of `Machine.Prn` |
| `Properties.PrnAppends` | cpu.py:136-137 | PRN succeeds iff the register index is valid. Then it appends that register to the output and changes nothing else. On error it raises InvalidRegister(a) and nothing changes |
| `Machine.Push` | cpu.py:139-143 | Specification of `push`; properties in `Properties.PushWritesOneCell` and `Properties.PushPopRoundTrip` |
| `Cpu.CPU.Push` | cpu.py:139-143 | Decrement R7, read, write, in that order; ends in the state and error of `Machine.Push` |
| `Properties.PushWritesOneCell` | cpu.py:139-143 | PUSH always decrements R7 and changes no other register, also when it raises. A bad register index raises InvalidRegister with R7 already decremented; a valid index with the new R7 outside memory raises AddressOutOfRange for the new R7. It succeeds iff the register index is valid and the new R7 is an address, then writes the pushed value (the decremented R7 for `PUSH R7`) to that cell. No other cell changes |
| `Machine.Pop` | cpu.py:145-150 | Specification of `pop`; properties in `Properties.PopReadsTop` and `Properties.PushPopRoundTrip` |
| `Cpu.CPU.Pop` | cpu.py:145-150 | Reads, performs the dead read's bounds check, stores, increments R7; ends in the state and error of `Machine.Pop` |
| `Properties.PopReadsTop` | cpu.py:145-150 | POP succeeds iff R7, pc + 1 and the target index are in range. When it raises, nothing changes. The error is AddressOutOfRange(R7) for an out-of-range R7, else AddressOutOfRange(pc + 1) for an out-of-range pc + 1, else InvalidRegister(a). On success the target gets `ram[R7]` and R7 is incremented; `POP R7` leaves R7 at the popped value + 1; other registers and all else are unchanged |
| `Properties.PushPopRoundTrip` | cpu.py:139-150 | When R7 - 1 and pc + 1 are addresses, a PUSH and then a POP into any register other than R7 both succeed. The target then holds the pushed value, R7 is back to its value before the PUSH, other registers are unchanged, and pc, flags, output and `running` are unchanged |
| `Machine.Jmp` | cpu.py:152-153 | Specification of `jmp`; properties in `Properties.JmpSetsPc` |
| `Cpu.CPU.Jmp` | cpu.py:152-153 | Ends in the state and error of `Machine.Jmp` |
| `Properties.JmpSetsPc` | cpu.py:152-153 | JMP succeeds iff the register index is valid. Then it sets pc to that register and changes nothing else. On error it raises InvalidRegister(a) and nothing changes |
| `Machine.Jeq` | cpu.py:155-157 | Specification of `jeq`; properties in `Properties.CmpThenBranch` |
| `Cpu.CPU.Jeq` | cpu.py:155-157 | Ends in the state and error of `Machine.Jeq` |
| `Machine.Jne` | cpu.py:159-161 | Specification of `jne`; properties in `Properties.CmpThenBranch` |
| `Cpu.CPU.Jne` | cpu.py:159-161 | Ends in the state and error of `Machine.Jne` |
| `Properties.BranchesComplementary` | cpu.py:152-161 | On every state, one of JEQ and JNE acts as JMP (including its error) and the other leaves the state unchanged |
| `Properties.CmpThenBranch` | cpu.py:83-161 | Combines CMP (lines 83-89) with `jeq` and `jne` (lines 155-161): after CMP a, b, JEQ branches iff the registers were equal and JNE iff they were not, so exactly one of the two branches |
| `Machine.Execute` | cpu.py:127 | Specification of the branch-table call, routing each handler to its function |
| `Cpu.CPU.Execute` | cpu.py:127 | Ends in the state and error of `Machine.Execute` |
| `Machine.Dispatch` | cpu.py:123-127 | Specification of the ALU / branch-table dispatch; a missing table key raises InvalidInstruction |
| `Cpu.CPU.Dispatch` | cpu.py:123-127 | Ends in the state and error of `Machine.Dispatch` |
| `Machine.Step` | cpu.py:118-127 | Specification of one loop iteration; its properties are the Step lemmas below |
| `Cpu.CPU.Step` | cpu.py:118-127 | Fetch three cells, advance pc, dispatch; ends in the state and error of `Machine.Step` |
| `Properties.StepFetchFault` | cpu.py:118-120 | A fetch of the opcode or of either operand cell outside memory raises AddressOutOfRange and changes nothing |
| `Properties.StepDecodeFaults` | cpu.py:123-127 | A bit-5 opcode other than ADD, MUL and CMP raises UnsupportedAluOp. A non-ALU opcode outside the table raises InvalidInstruction. Either way only pc has changed, to its advanced value |
| `Properties.StepPc` | cpu.py:118-122 | A non-branch instruction leaves pc at `old(pc) + 1 + (IR >> 6)`, even when it raises. JMP sets pc to the register. JEQ and JNE set it to the register when they branch and leave the advanced value otherwise |
| `Properties.StepRunning` | cpu.py:115-131 | After a step, `running` is true iff it was true before and the step did not execute HLT |
| `Properties.StepLdi` | cpu.py:118-134 | A whole LDI step: pc advances by 3 and only the target register changes |
| `Properties.StepPrn` | cpu.py:118-137 | A whole PRN step: pc advances by 2 and only the output changes |
| `Properties.StepAdd` | cpu.py:118-125 | A whole ADD step: pc advances by 3 and only register a changes, to the sum |
| `Properties.StepHlt` | cpu.py:118-131 | A whole HLT step: pc advances by 1 and `running` becomes false |
| `Machine.Exec` | cpu.py:117-127 | The `while self.running` loop with a step budget; the result is always well formed |
| `Machine.ExecStopped` | cpu.py:117 | With `running` false or no budget left, the loop does not run |
| `Machine.ExecUnfold` | cpu.py:117-127 | On a running machine, a successful step uses one unit of the budget |
| `Machine.ExecFault` | cpu.py:117-127 | On a running machine, a raising step ends the loop with that step's error and state |
| `Machine.Run` | cpu.py:113-127 | `run` sets `running`, then runs the loop; the result is always well formed |
| `Cpu.CPU.Run` | cpu.py:113-127 | Sets `running`, then loops; ends in the state and error of `Machine.Run` |
| `Cpu.CPU.Loop` | cpu.py:117-127 | The while loop over `Step`; ends in the state and error of `Machine.Exec` |
| `Cpu.CPU.Iterate` | cpu.py:117-127 | One pass of the loop. It ends in the whole run's result when the step raises; otherwise that result is what the remaining budget gives |
| `Properties.ExecHalted` | cpu.py:117 | A halted machine stays put for any budget |
| `Properties.ExecAdditive` | cpu.py:117-127 | Running m + n iterations is m iterations, then n more from where they stopped, unless they raised |
| `Properties.ExecStopsForGood` | cpu.py:117-131 | Once a run has halted or raised, a larger budget gives the same result: after HLT nothing more is fetched |
| `Properties.ExecTrace` | cpu.py:117-127 | A chain of successful steps through running states uses one unit of budget per step |
| `Properties.HltEndsRun` | cpu.py:130-131 | Running a HLT ends the loop at once with pc + 1 and `running` false, whatever the remaining budget |
| `Properties.LdiPrnProgram` | cpu.py:133-137 | `LDI R0,8; PRN R0; HLT` halts and prints exactly 8, for any budget of at least 3, whatever the two cells after HLT hold |
| `Properties.AddDoesNotWrapProgram` | cpu.py:79-80 | `LDI R0,255; LDI R1,2; ADD R0,R1; PRN R0; HLT` halts and prints exactly 257, for any budget of at least 5, whatever the two cells after HLT hold |
| `Properties.AddProgramLoads` | cpu.py:79-80 | The first three steps of that program leave pc = 9 and R0 = 257 |
| `Properties.AddProgramPrints` | cpu.py:136-137 | The last two steps of that program print R0 and halt |
| `Properties.PopAtEndRaises` | cpu.py:145-148 | A POP at address 253 with a valid register operand and an in-range R7 raises AddressOutOfRange(256) with pc at 255: the unused read is of POP's address + 3 |
| `Properties.UnknownOpcodeProgram` | cpu.py:127 | Opcode 0 is not in the branch table: the run stops with InvalidInstruction after advancing pc to 1 |

## Left out

- `load`'s file handling is not modelled: reading `sys.argv`, opening the file, parsing binary text lines and `sys.exit` are I/O. The image comes in as a parameter of `Load`.
- `trace` is not modelled: it is debug printing only, and it refers to an attribute `reg` that does not exist.
- PRN's console output is not modelled. The printed values are recorded in the `output` sequence instead.
- Python's negative list indices are not modelled. The source accepts a register index or address from -8 or -256 up to -1 and counts it from the end of the list. The model reports `InvalidRegister` or `AddressOutOfRange` for every index below 0. Such indices arise, for example, when R7 drops below 0 after a PUSH.
- Termination of `run` is not modelled: the source loops forever on a program that never halts. `Run` takes a budget of loop iterations (`fuel`) and returns the state reached when the budget is spent. `Properties.ExecStopsForGood` shows that the budget does not change the result of a run that halts or raises within it.
- Python's `TypeError` from calling `alu` through the branch table is not modelled. The table lists ADD, MUL and CMP as well, but those opcodes have bit 5 set, so that entry is never reached. `Opcodes.BranchTable` holds only the eight reachable entries.
- Machine.Alu: its contract only says that the result is well formed; its behaviour is stated in Properties.CmpSetsFlags, Properties.AddMulChangeOnlyTarget and Properties.AluRegisterFault.
- Machine.Hlt: its contract only says that the result is well formed; its behaviour is stated in Properties.StepHlt, Properties.StepRunning and Properties.HltEndsRun.
- Machine.Ldi: its contract only says that the result is well formed; its behaviour is stated in Properties.LdiSetsRegister.
- Machine.Prn: its contract only says that the result is well formed; its behaviour is stated in Properties.PrnAppends.
- Machine.Push: its contract only says that the result is well formed; its behaviour is stated in Properties.PushWritesOneCell.
- Machine.Pop: its contract only says that the result is well formed; its behaviour is stated in Properties.PopReadsTop and Properties.PushPopRoundTrip.
- Machine.Jmp: its contract only says that the result is well formed; its behaviour is stated in Properties.JmpSetsPc and Properties.StepPc.
- Machine.Jeq: its contract only says that the result is well formed; its behaviour is stated in Properties.BranchesComplementary and Properties.CmpThenBranch.
- Machine.Jne: its contract only says that the result is well formed; its behaviour is stated in Properties.BranchesComplementary and Properties.CmpThenBranch.
- Machine.Execute: its contract only says that the result is well formed; its behaviour is stated in the per-handler lemmas.
- Machine.Dispatch: its contract only says that the result is well formed; its behaviour is stated in Properties.StepDecodeFaults.
- Machine.Step: its contract only says that the result is well formed; its behaviour is stated in Properties.StepPc, Properties.StepRunning, Properties.StepFetchFault and Properties.StepDecodeFaults.
- Machine.Exec: its contract only says that the result is well formed; its behaviour is stated in Properties.ExecAdditive, Properties.ExecStopsForGood and Properties.ExecTrace.
- Machine.Run: its contract only says that the result is well formed; its behaviour is stated in the program lemmas.
