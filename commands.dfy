/** The executable unit of the simulator (src/commands.rs): an opcode, an
    unsigned operand and the source line it came from; its text rendering;
    and the per-mnemonic table of legal operand kinds that the parser and the
    resolver share. */
module Commands {
  import opened Base
  import opened Operants

  /** The twelve opcodes, in declaration order. */
  datatype Instruction =
    | NOP
    | LoadFix
    | LoadFromRegister
    | SaveToRegister
    | AddFix
    | AddFromRegister
    | SubFix
    | SubFromRegister
    | JMP
    | BRZ
    | BRC
    | BRN

  /** The explicit discriminants `NOP = 0` ... `BRN = 11`. */
  function Discriminant(i: Instruction): (d: nat)
    ensures d < 12
  {
    match i
    case NOP => 0
    case LoadFix => 1
    case LoadFromRegister => 2
    case SaveToRegister => 3
    case AddFix => 4
    case AddFromRegister => 5
    case SubFix => 6
    case SubFromRegister => 7
    case JMP => 8
    case BRZ => 9
    case BRC => 10
    case BRN => 11
  }

  /** The opcode with a given discriminant, if there is one. */
  function FromDiscriminant(d: nat): (r: Option<Instruction>)
    ensures r.Some? <==> d < 12
  {
    if d == 0 then Some(NOP)
    else if d == 1 then Some(LoadFix)
    else if d == 2 then Some(LoadFromRegister)
    else if d == 3 then Some(SaveToRegister)
    else if d == 4 then Some(AddFix)
    else if d == 5 then Some(AddFromRegister)
    else if d == 6 then Some(SubFix)
    else if d == 7 then Some(SubFromRegister)
    else if d == 8 then Some(JMP)
    else if d == 9 then Some(BRZ)
    else if d == 10 then Some(BRC)
    else if d == 11 then Some(BRN)
    else None
  }

  /** The discriminants are exactly 0..11, one per opcode: the two maps are
      mutually inverse. */
  lemma DiscriminantBijection(i: Instruction, d: nat)
    ensures FromDiscriminant(Discriminant(i)) == Some(i)
    ensures d < 12 ==> Discriminant(FromDiscriminant(d).value) == d
  {
  }

  /** Distinct opcodes have distinct discriminants. */
  lemma DiscriminantInjective(i: Instruction, j: Instruction)
    requires Discriminant(i) == Discriminant(j)
    ensures i == j
  {
    DiscriminantBijection(i, 0);
    DiscriminantBijection(j, 0);
  }

  /** `Command`: the derived `PartialEq` compares all three fields, which is
      Dafny's datatype equality. */
  datatype Command = Command(instruction: Instruction, operant: nat, line: nat)

  /** `Command::new`: the fields are stored unchanged. */
  function NewCommand(instruction: Instruction, operant: nat, line: nat): (c: Command)
    ensures c.instruction == instruction && c.operant == operant && c.line == line
  {
    Command(instruction, operant, line)
  }

  /** The assembly mnemonic an opcode is written with. */
  function Mnemonic(i: Instruction): (m: string)
    ensures |m| == 3
  {
    match i
    case NOP => "NOP"
    case LoadFix => "LDA"
    case LoadFromRegister => "LDA"
    case SaveToRegister => "STA"
    case AddFix => "ADD"
    case AddFromRegister => "ADD"
    case SubFix => "SUB"
    case SubFromRegister => "SUB"
    case JMP => "JMP"
    case BRZ => "BRZ"
    case BRC => "BRC"
    case BRN => "BRN"
  }

  /** Opcodes whose operand is a register index. */
  predicate UsesRegister(i: Instruction) {
    i == LoadFromRegister || i == SaveToRegister || i == AddFromRegister || i == SubFromRegister
  }

  /** `Display for Command`. */
  function Display(c: Command): (s: string)
    ensures |s| >= 3 && s[..3] == Mnemonic(c.instruction)
    ensures c.instruction == NOP <==> |s| == 3
  {
    var n := NatToString(c.operant);
    match c.instruction
    case NOP => "NOP"
    case LoadFix => "LDA #" + n
    case LoadFromRegister => "LDA (" + n + ")"
    case SaveToRegister => "STA (" + n + ")"
    case AddFix => "ADD #" + n
    case AddFromRegister => "ADD (" + n + ")"
    case SubFix => "SUB #" + n
    case SubFromRegister => "SUB (" + n + ")"
    case JMP => "JMP " + n
    case BRZ => "BRZ #" + n
    case BRC => "BRC #" + n
    case BRN => "BRN #" + n
  }

  /** The three shapes of the rendering: immediate operands after `#`,
      register operands in parentheses, the jump target bare. */
  lemma DisplayShapes(c: Command)
    ensures c.instruction == NOP ==> Display(c) == "NOP"
    ensures c.instruction in {LoadFix, AddFix, SubFix, BRZ, BRC, BRN} ==>
      Display(c) == Mnemonic(c.instruction) + " #" + NatToString(c.operant)
    ensures UsesRegister(c.instruction) ==>
      Display(c) == Mnemonic(c.instruction) + " (" + NatToString(c.operant) + ")"
    ensures c.instruction == JMP ==> Display(c) == "JMP " + NatToString(c.operant)
  {
  }

  /** The rendering identifies the opcode, and the operand of every opcode
      but NOP (whose rendering ignores it).  The line is not rendered. */
  lemma DisplayInjective(c: Command, d: Command)
    requires Display(c) == Display(d)
    ensures c.instruction == d.instruction
    ensures c.instruction != NOP ==> c.operant == d.operant
  {
    var s := Display(c);
    var m, n := NatToString(c.operant), NatToString(d.operant);
    DisplayShapes(c);
    DisplayShapes(d);
    if c.instruction != NOP {
      assert s[3] == ' ';
      if c.instruction == JMP {
        assert s[4..] == m == n;
      } else if UsesRegister(c.instruction) {
        assert s[4] == '(' && s[4] == Display(d)[4];
        assert s[5..|s| - 1] == m == n;
      } else {
        assert s[4] == '#' && s[4] == Display(d)[4];
        assert s[5..] == m == n;
      }
      NatToStringInjective(c.operant, d.operant);
    }
  }

  /** `InstructionAttribute`: which operand forms a mnemonic accepts. */
  datatype InstructionAttribute = InstructionAttribute(
    noOperant: bool,
    fixedNumber: bool,
    address: bool,
    labelName: bool)
  {
    predicate AllowNoOperant() { noOperant }
    predicate AllowFixedNumber() { fixedNumber }
    predicate AllowAddress() { address }
    predicate AllowLabel() { labelName }

    predicate Allows(kind: OperantKind) {
      match kind
      case Fixed => AllowFixedNumber()
      case Address => AllowAddress()
      case Label => AllowLabel()
    }
  }

  /** The nine mnemonics, upper-case. */
  const MNEMONICS: seq<string> := ["NOP", "LDA", "STA", "ADD", "SUB", "JMP", "BRZ", "BRC", "BRN"]

  /** The instruction table: the opcode a mnemonic takes with an operand
      of the given kind, or nothing when that combination is illegal.  Both
      the parser's legality check and the resolver's opcode choice read it. */
  function Opcode(mnemonic: string, kind: OperantKind): (r: Option<Instruction>)
    ensures r.Some? ==> Mnemonic(r.value) == mnemonic && r.value != NOP
    ensures r.Some? ==> (UsesRegister(r.value) <==> kind == Address)
  {
    match kind
    case Fixed =>
      if mnemonic == "LDA" then Some(LoadFix)
      else if mnemonic == "ADD" then Some(AddFix)
      else if mnemonic == "SUB" then Some(SubFix)
      else if mnemonic == "JMP" then Some(JMP)
      else if mnemonic == "BRZ" then Some(BRZ)
      else if mnemonic == "BRC" then Some(BRC)
      else if mnemonic == "BRN" then Some(BRN)
      else None
    case Address =>
      if mnemonic == "LDA" then Some(LoadFromRegister)
      else if mnemonic == "STA" then Some(SaveToRegister)
      else if mnemonic == "ADD" then Some(AddFromRegister)
      else if mnemonic == "SUB" then Some(SubFromRegister)
      else None
    case Label =>
      if mnemonic == "JMP" then Some(JMP) else None
  }

  /** A row of the attribute table: a mnemonic and the forms it accepts. */
  datatype AttributeRow = AttributeRow(mnemonic: string, attributes: InstructionAttribute)

  /** The attribute table, one row per mnemonic in the order of
      `MNEMONICS`. */
  const ATTRIBUTE_TABLE: seq<AttributeRow> := [
    AttributeRow("NOP", InstructionAttribute(true, false, false, false)),
    AttributeRow("LDA", InstructionAttribute(false, true, true, false)),
    AttributeRow("STA", InstructionAttribute(false, false, true, false)),
    AttributeRow("ADD", InstructionAttribute(false, true, true, false)),
    AttributeRow("SUB", InstructionAttribute(false, true, true, false)),
    AttributeRow("JMP", InstructionAttribute(false, true, false, true)),
    AttributeRow("BRZ", InstructionAttribute(false, true, false, false)),
    AttributeRow("BRC", InstructionAttribute(false, true, false, false)),
    AttributeRow("BRN", InstructionAttribute(false, true, false, false))
  ]

  /** The attribute table lists exactly the mnemonics, and each row agrees
      with the instruction table: NOP alone takes no operand, and every
      other mnemonic accepts exactly the forms that have an opcode. */
  lemma AttributeTableAgrees()
    ensures |ATTRIBUTE_TABLE| == |MNEMONICS|
    ensures forall k :: 0 <= k < |MNEMONICS| ==> ATTRIBUTE_TABLE[k].mnemonic == MNEMONICS[k]
    ensures forall k :: 0 <= k < |MNEMONICS| ==>
      (ATTRIBUTE_TABLE[k].attributes.AllowNoOperant() <==> MNEMONICS[k] == "NOP")
    ensures forall k, kind :: 0 <= k < |MNEMONICS| ==>
      (ATTRIBUTE_TABLE[k].attributes.Allows(kind) <==> Opcode(MNEMONICS[k], kind).Some?)
  {
    forall k, kind | 0 <= k < |MNEMONICS|
      ensures ATTRIBUTE_TABLE[k].attributes.Allows(kind) <==> Opcode(MNEMONICS[k], kind).Some?
    {
      RowAgrees(k, kind);
    }
  }

  /** One row of the attribute table against the instruction table. */
  lemma RowAgrees(k: nat, kind: OperantKind)
    requires k < |MNEMONICS|
    ensures ATTRIBUTE_TABLE[k].attributes.Allows(kind) <==> Opcode(MNEMONICS[k], kind).Some?
  {
    if k < 5 {
      AccumulatorRows();
      // one case per row
      if k == 0 {} else if k == 1 {} else if k == 2 {} else if k == 3 {} else {}
    } else {
      ControlRows();
      BranchRows();
      // one case per row
      if k == 5 {} else if k == 6 {} else if k == 7 {} else {}
    }
  }

  /** The attribute of the first row naming the mnemonic. */
  function FindAttribute(rows: seq<AttributeRow>, mnemonic: string): Option<InstructionAttribute> {
    if rows == [] then None
    else if rows[0].mnemonic == mnemonic then Some(rows[0].attributes)
    else FindAttribute(rows[1..], mnemonic)
  }

  /** The search finds an attribute exactly when some row names the
      mnemonic, and then it is that row's. */
  lemma {:induction false} FindAttributeFinds(rows: seq<AttributeRow>, mnemonic: string)
    ensures var r := FindAttribute(rows, mnemonic);
      && (r.None? <==> forall k :: 0 <= k < |rows| ==> rows[k].mnemonic != mnemonic)
      && (r.Some? ==> exists k :: 0 <= k < |rows| && rows[k] == AttributeRow(mnemonic, r.value))
  {
    if rows != [] && rows[0].mnemonic != mnemonic {
      FindAttributeFinds(rows[1..], mnemonic);
      assert forall k :: 1 <= k < |rows| ==> rows[k] == rows[1..][k - 1];
      var r := FindAttribute(rows, mnemonic);
      if r.Some? {
        var k :| 0 <= k < |rows[1..]| && rows[1..][k] == AttributeRow(mnemonic, r.value);
        assert rows[k + 1] == AttributeRow(mnemonic, r.value);
      }
    }
  }

  /** `get_instruction_attribute`: the attribute of an upper-case mnemonic
      from the table; nothing for an unknown one.  A mnemonic has an
      attribute exactly when it is one of the nine; NOP alone takes no
      operand, and every mnemonic allows exactly the operand kinds the
      instruction table has an opcode for. */
  function GetInstructionAttribute(mnemonic: string): (r: Option<InstructionAttribute>)
    ensures r.Some? <==> mnemonic in MNEMONICS
    ensures r.Some? ==> (r.value.AllowNoOperant() <==> mnemonic == "NOP")
    ensures r.Some? ==> forall kind :: r.value.Allows(kind) <==> Opcode(mnemonic, kind).Some?
  {
    AttributeTableAgrees();
    FindAttributeFinds(ATTRIBUTE_TABLE, mnemonic);
    FindAttribute(ATTRIBUTE_TABLE, mnemonic)
  }

  /** Every mnemonic other than NOP accepts at least one operand form, and
      each opcode but NOP is reachable from its own mnemonic. */
  lemma TableCovers(i: Instruction)
    ensures i != NOP ==> exists kind :: Opcode(Mnemonic(i), kind) == Some(i)
    ensures forall m :: m in MNEMONICS && m != "NOP" ==> exists kind :: Opcode(m, kind).Some?
  {
    if i != NOP {
      var kind := if UsesRegister(i) then Address else Fixed;
      assert Opcode(Mnemonic(i), kind) == Some(i);
    }
    forall m | m in MNEMONICS && m != "NOP"
      ensures exists kind :: Opcode(m, kind).Some?
    {
      var kind := if m == "STA" then Address else Fixed;
      assert Opcode(m, kind).Some?;
    }
  }

  /** The matrix of legal forms for the accumulator mnemonics. */
  lemma AccumulatorRows()
    ensures Opcode("LDA", Fixed) == Some(LoadFix) && Opcode("LDA", Address) == Some(LoadFromRegister)
    ensures Opcode("LDA", Label) == None
    ensures Opcode("STA", Fixed) == None && Opcode("STA", Address) == Some(SaveToRegister)
    ensures Opcode("STA", Label) == None
    ensures Opcode("ADD", Fixed) == Some(AddFix) && Opcode("ADD", Address) == Some(AddFromRegister)
    ensures Opcode("ADD", Label) == None
    ensures Opcode("SUB", Fixed) == Some(SubFix) && Opcode("SUB", Address) == Some(SubFromRegister)
    ensures Opcode("SUB", Label) == None
  {
  }

  /** The matrix of legal forms for NOP and JMP. */
  lemma ControlRows()
    ensures Opcode("NOP", Fixed) == None && Opcode("NOP", Address) == None && Opcode("NOP", Label) == None
    ensures Opcode("JMP", Fixed) == Some(JMP) && Opcode("JMP", Address) == None
    ensures Opcode("JMP", Label) == Some(JMP)
  {
  }

  /** The matrix of legal forms for the conditional branches. */
  lemma BranchRows()
    ensures Opcode("BRZ", Fixed) == Some(BRZ) && Opcode("BRZ", Address) == None && Opcode("BRZ", Label) == None
    ensures Opcode("BRC", Fixed) == Some(BRC) && Opcode("BRC", Address) == None && Opcode("BRC", Label) == None
    ensures Opcode("BRN", Fixed) == Some(BRN) && Opcode("BRN", Address) == None && Opcode("BRN", Label) == None
  {
  }

  /** The operand forms `ADD` accepts. */
  lemma AttributesADD()
    ensures GetInstructionAttribute("ADD") == Some(InstructionAttribute(false, true, true, false))
  {
  }

  /** The operand forms `BRC` accepts. */
  lemma AttributesBRC()
    ensures GetInstructionAttribute("BRC") == Some(InstructionAttribute(false, true, false, false))
  {
  }

  /** The operand forms `STA` accepts. */
  lemma AttributesSTA()
    ensures GetInstructionAttribute("STA") == Some(InstructionAttribute(false, false, true, false))
  {
  }

  /** The operand forms `LDA` accepts. */
  lemma AttributesLDA()
    ensures GetInstructionAttribute("LDA") == Some(InstructionAttribute(false, true, true, false))
  {
  }

  /** The operand forms `JMP` accepts. */
  lemma AttributesJMP()
    ensures GetInstructionAttribute("JMP") == Some(InstructionAttribute(false, true, false, true))
  {
  }
}
