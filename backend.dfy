/** The execution engine (src/backend/mod.rs): an accumulator, a register
    file of fixed size, an immutable program and an instruction counter.
    `Step` is the state-transition function one `execute_command` performs;
    the `Runtime` class is the engine itself, updating its fields in place,
    and each of its methods is proved to perform `Step`. */
module Backend {
  import opened Base
  import opened Nibbles
  import opened Commands

  /** `StatusBits`: the accumulator's three flags. */
  datatype StatusBits = StatusBits(carry: bool, negative: bool, zero: bool)

  /** What the engine holds besides its program. */
  datatype MachineState = MachineState(accumulator: Nibble, register: seq<Nibble>, pc: nat)

  /** The state `Runtime::new` builds. */
  function Initial(registerSize: nat): (s: MachineState)
    ensures s.accumulator.raw == 0 && s.pc == 0
    ensures |s.register| == registerSize
    ensures forall i :: 0 <= i < registerSize ==> s.register[i].raw == 0
  {
    MachineState(FromUsize(0), seq(registerSize, _ => FromUsize(0)), 0)
  }

  /** The command at the instruction counter exists and, when it names a
      register, so does the register; otherwise the source panics on an
      out-of-range index. */
  predicate CanExecute(ram: seq<Command>, s: MachineState) {
    s.pc < |ram| && (UsesRegister(ram[s.pc].instruction) ==> ram[s.pc].operant < |s.register|)
  }

  /** The flag a branch opcode tests. */
  predicate BranchTaken(i: Instruction, acc: Nibble)
    requires i in {BRZ, BRC, BRN}
  {
    match i
    case BRZ => acc.IsZero()
    case BRC => acc.HasCarry()
    case BRN => acc.HasNegative()
  }

  /** `execute_command` on the state: run the command at the counter. */
  function Step(ram: seq<Command>, s: MachineState): (t: MachineState)
    requires CanExecute(ram, s)
    ensures |t.register| == |s.register|
  {
    var c := ram[s.pc];
    match c.instruction
    case NOP => s.(pc := s.pc + 1)
    case LoadFix => s.(accumulator := FromUsize(c.operant), pc := s.pc + 1)
    case LoadFromRegister => s.(accumulator := s.register[c.operant], pc := s.pc + 1)
    case SaveToRegister => s.(register := s.register[c.operant := s.accumulator], pc := s.pc + 1)
    case AddFix => s.(accumulator := Add(s.accumulator, FromUsize(c.operant)), pc := s.pc + 1)
    case AddFromRegister => s.(accumulator := Add(s.accumulator, s.register[c.operant]), pc := s.pc + 1)
    case SubFix => s.(accumulator := Sub(s.accumulator, FromUsize(c.operant)), pc := s.pc + 1)
    case SubFromRegister => s.(accumulator := Sub(s.accumulator, s.register[c.operant]), pc := s.pc + 1)
    case JMP => s.(pc := c.operant)
    case BRZ => s.(pc := if s.accumulator.IsZero() then s.pc + c.operant else s.pc + 1)
    case BRC => s.(pc := if s.accumulator.HasCarry() then s.pc + c.operant else s.pc + 1)
    case BRN => s.(pc := if s.accumulator.HasNegative() then s.pc + c.operant else s.pc + 1)
  }

  /** `get_next_line` on the state: the source line of the next command, or
      the program length once the counter has run past the end. */
  function NextLine(ram: seq<Command>, s: MachineState): (line: nat)
    ensures s.pc >= |ram| ==> line == |ram|
    ensures s.pc < |ram| ==> line == ram[s.pc].line
  {
    if s.pc >= |ram| then |ram| else ram[s.pc].line
  }

  /** `get_status_bits` on the state. */
  function StatusOf(s: MachineState): (bits: StatusBits)
    ensures bits.carry == s.accumulator.HasCarry()
    ensures bits.negative <==> s.accumulator.GetValue() >= 8
    ensures bits.zero <==> s.accumulator.GetValue() == 0
    ensures !(bits.zero && bits.negative)
  {
    StatusBits(s.accumulator.HasCarry(), s.accumulator.HasNegative(), s.accumulator.IsZero())
  }

  /** Straight-line opcodes move the counter by exactly one. */
  lemma StepAdvances(ram: seq<Command>, s: MachineState)
    requires CanExecute(ram, s)
    requires ram[s.pc].instruction !in {JMP, BRZ, BRC, BRN}
    ensures Step(ram, s).pc == s.pc + 1
  {
  }

  /** Control-flow opcodes change only the counter: a jump sets it to the
      operand whatever the flags, a branch adds the operand when its flag is
      set and one otherwise. */
  lemma StepControl(ram: seq<Command>, s: MachineState)
    requires CanExecute(ram, s)
    requires ram[s.pc].instruction in {JMP, BRZ, BRC, BRN}
    ensures Step(ram, s).accumulator == s.accumulator
    ensures Step(ram, s).register == s.register
    ensures ram[s.pc].instruction == JMP ==> Step(ram, s).pc == ram[s.pc].operant
    ensures ram[s.pc].instruction != JMP ==>
      Step(ram, s).pc == s.pc + (if BranchTaken(ram[s.pc].instruction, s.accumulator) then ram[s.pc].operant else 1)
  {
  }

  /** Storing writes one register with the accumulator and nothing else. */
  lemma StepStore(ram: seq<Command>, s: MachineState)
    requires CanExecute(ram, s)
    requires ram[s.pc].instruction == SaveToRegister
    ensures Step(ram, s).accumulator == s.accumulator
    ensures var r := ram[s.pc].operant;
      Step(ram, s).register[r] == s.accumulator &&
      forall i :: 0 <= i < |s.register| && i != r ==> Step(ram, s).register[i] == s.register[i]
  {
  }

  /** Loads and arithmetic change only the accumulator. */
  lemma StepAccumulator(ram: seq<Command>, s: MachineState)
    requires CanExecute(ram, s)
    requires ram[s.pc].instruction in {LoadFix, LoadFromRegister, AddFix, AddFromRegister, SubFix, SubFromRegister}
    ensures Step(ram, s).register == s.register
    ensures var c := ram[s.pc];
      var operand := if UsesRegister(c.instruction) then s.register[c.operant] else FromUsize(c.operant);
      Step(ram, s).accumulator ==
        match c.instruction
        case LoadFix => operand
        case LoadFromRegister => operand
        case AddFix => Add(s.accumulator, operand)
        case AddFromRegister => Add(s.accumulator, operand)
        case SubFix => Sub(s.accumulator, operand)
        case SubFromRegister => Sub(s.accumulator, operand)
  {
  }

  /** Running the program from `s` until the counter leaves the program,
      for at most `budget` commands: nothing when the budget runs out first
      or a command would index out of range. */
  function Run(ram: seq<Command>, s: MachineState, budget: nat): (r: Option<MachineState>)
    ensures r.Some? ==> r.value.pc >= |ram| && |r.value.register| == |s.register|
    decreases budget
  {
    if s.pc >= |ram| then Some(s)
    else if budget == 0 || !CanExecute(ram, s) then None
    else Run(ram, Step(ram, s), budget - 1)
  }

  /** The register-seeding and carry-checking program of
      src/backend/test.rs, with its four seed values. */
  function TestProgram(a: nat, b: nat, c: nat, d: nat): seq<Command> {
    [ Command(LoadFix, a, 0), Command(SaveToRegister, 12, 1),
      Command(LoadFix, b, 2), Command(SaveToRegister, 13, 3),
      Command(LoadFix, c, 4), Command(SaveToRegister, 14, 5),
      Command(LoadFix, d, 6), Command(SaveToRegister, 15, 7),
      Command(LoadFromRegister, 13, 8), Command(AddFromRegister, 15, 9),
      Command(BRC, 4, 10), Command(SaveToRegister, 15, 1),
      Command(LoadFix, 0, 2), Command(JMP, 16, 3),
      Command(SaveToRegister, 15, 4), Command(LoadFix, 1, 5),
      Command(AddFromRegister, 12, 6), Command(AddFromRegister, 14, 7),
      Command(SaveToRegister, 14, 8), Command(NOP, 0, 9) ]
  }

  /** The runtime holds the state and the program. */
  class Runtime {
    var accumulator: Nibble
    const register: array<Nibble>
    const ram: seq<Command>
    var instructionCounter: nat

    /** The state the fields hold. */
    function State(): MachineState
      reads this, register
    {
      MachineState(accumulator, register[..], instructionCounter)
    }

    /** `Runtime::new`: accumulator 0, `registerSize` zero registers,
        counter 0. */
    constructor (registerSize: nat, ram: seq<Command>)
      ensures State() == Initial(registerSize) && this.ram == ram
      ensures fresh(register)
    {
      accumulator := FromUsize(0);
      register := new Nibble[registerSize](_ => FromUsize(0));
      this.ram := ram;
      instructionCounter := 0;
    }

    /** `get_next_line`. */
    function GetNextLine(): (line: nat)
      reads this
      ensures line == NextLine(ram, MachineState(accumulator, [], instructionCounter))
    {
      if instructionCounter >= |ram| then |ram| else ram[instructionCounter].line
    }

    /** `get_accumulator`. */
    function GetAccumulator(): Nibble
      reads this
    {
      accumulator
    }

    /** `get_register_value`; the source panics out of range. */
    function GetRegisterValue(index: nat): (n: Nibble)
      requires index < register.Length
      reads this, register
      ensures n == State().register[index]
    {
      register[index]
    }

    /** `get_register`: the whole register file. */
    function GetRegister(): (regs: seq<Nibble>)
      reads this, register
      ensures regs == State().register
    {
      register[..]
    }

    /** `get_status_bits`. */
    function GetStatusBits(): (bits: StatusBits)
      reads this
      ensures bits == StatusOf(MachineState(accumulator, [], instructionCounter))
    {
      StatusBits(accumulator.HasCarry(), accumulator.HasNegative(), accumulator.IsZero())
    }

    /** `load_into_accumulator`. */
    method LoadIntoAccumulator(value: Nibble)
      modifies this
      ensures accumulator == value && instructionCounter == old(instructionCounter)
    {
      accumulator := value;
    }

    /** `set_register_value`: one register is overwritten. */
    method SetRegisterValue(index: nat, value: Nibble)
      requires index < register.Length
      modifies register
      ensures register[..] == old(register[..])[index := value]
    {
      register[index] := value;
    }

    /** `increase_instruction_counter`. */
    method IncreaseInstructionCounter(steps: nat)
      modifies this
      ensures instructionCounter == old(instructionCounter) + steps
      ensures accumulator == old(accumulator)
    {
      instructionCounter := instructionCounter + steps;
    }

    /** `set_instruction_counter`. */
    method SetInstructionCounter(value: nat)
      modifies this
      ensures instructionCounter == value && accumulator == old(accumulator)
    {
      instructionCounter := value;
    }

    /** `execute_command`: one step of the machine. */
    method ExecuteCommand()
      requires CanExecute(ram, State())
      modifies this, register
      ensures State() == Step(ram, old(State()))
    {
      var command := ram[instructionCounter];
      match command.instruction {
        case NOP =>
        case LoadFix =>
          LoadIntoAccumulator(FromUsize(command.operant));
        case LoadFromRegister =>
          LoadIntoAccumulator(GetRegisterValue(command.operant));
        case SaveToRegister =>
          SetRegisterValue(command.operant, GetAccumulator());
        case AddFix =>
          LoadIntoAccumulator(Add(GetAccumulator(), FromUsize(command.operant)));
        case AddFromRegister =>
          LoadIntoAccumulator(Add(GetAccumulator(), GetRegisterValue(command.operant)));
        case SubFix =>
          LoadIntoAccumulator(Sub(GetAccumulator(), FromUsize(command.operant)));
        case SubFromRegister =>
          LoadIntoAccumulator(Sub(GetAccumulator(), GetRegisterValue(command.operant)));
        case JMP =>
          SetInstructionCounter(command.operant);
          return;
        case BRZ =>
          if accumulator.IsZero() {
            IncreaseInstructionCounter(command.operant);
          } else {
            IncreaseInstructionCounter(1);
          }
          return;
        case BRC =>
          if accumulator.HasCarry() {
            IncreaseInstructionCounter(command.operant);
          } else {
            IncreaseInstructionCounter(1);
          }
          return;
        case BRN =>
          if accumulator.HasNegative() {
            IncreaseInstructionCounter(command.operant);
          } else {
            IncreaseInstructionCounter(1);
          }
          return;
      }
      IncreaseInstructionCounter(1);
    }

    /** `tick`: one step, then whether the counter is still inside the
        program; once it is not, the next line reads as the program length. */
    method Tick() returns (running: bool)
      requires CanExecute(ram, State())
      modifies this, register
      ensures State() == Step(ram, old(State()))
      ensures running <==> instructionCounter < |ram|
      ensures !running ==> GetNextLine() == |ram|
    {
      ExecuteCommand();
      running := instructionCounter < |ram|;
    }
  }
}
