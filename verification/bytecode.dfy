/**
 * What the three detectors see of a method body: decoded instructions, the
 * symbolic operand stack of the FindBugs engine, and the engine itself as an
 * uninterpreted pair of stack transitions.
 */
module Bytecode {
  import opened Options

  /**
   * The JVM opcodes the detectors single out. `Other` stands for every
   * remaining opcode (loads, stores, arithmetic, other calls), none of which
   * any of the three detectors tells apart.
   */
  datatype Opcode =
    | IRETURN | ARETURN | ATHROW
    | GOTO | GOTO_W
    | IFEQ | IFNE | IFLT | IFGE | IFGT | IFLE
    | IF_ICMPEQ | IF_ICMPNE | IF_ICMPLT | IF_ICMPGE | IF_ICMPGT | IF_ICMPLE
    | IF_ACMPEQ | IF_ACMPNE | IFNULL | IFNONNULL
    | LOOKUPSWITCH | TABLESWITCH
    | ICONST_M1 | ICONST_0 | ICONST_1
    | INVOKEVIRTUAL | PUTFIELD
    | Other

  /** The sixteen two-way conditional jumps. */
  predicate IsConditionalBranch(op: Opcode) {
    op.IFEQ? || op.IFNE? || op.IFLT? || op.IFGE? || op.IFGT? || op.IFLE? ||
    op.IF_ICMPEQ? || op.IF_ICMPNE? || op.IF_ICMPLT? || op.IF_ICMPGE? ||
    op.IF_ICMPGT? || op.IF_ICMPLE? || op.IF_ACMPEQ? || op.IF_ACMPNE? ||
    op.IFNULL? || op.IFNONNULL?
  }

  predicate IsGoto(op: Opcode) {
    op.GOTO? || op.GOTO_W?
  }

  predicate IsSwitch(op: Opcode) {
    op.LOOKUPSWITCH? || op.TABLESWITCH?
  }

  /**
   * One decoded instruction, with what the scanning visitor exposes while it
   * is current: its pc, its branch target, its switch default offset
   * (relative to pc), the opcode after it and, for a call or field access,
   * the class, name and signature operands.
   */
  datatype Insn = Insn(
    op: Opcode,
    pc: int,
    branchTarget: int,
    defaultSwitchOffset: int,
    nextOp: Opcode,
    classOperand: string,
    nameOperand: string,
    sigOperand: string)

  /** A method identity: slashed class name, method name, descriptor. */
  datatype MethodKey = MethodKey(cls: string, name: string, sig: string)

  /**
   * One slot of the symbolic operand stack. `userValue` is the free-form tag
   * a detector may attach to it; `returnValueOf` names the called method
   * whose result the slot holds, with the class name in dotted form.
   */
  datatype Item = Item(
    signature: string,
    constant: Option<int>,
    isNull: bool,
    returnValueOf: Option<MethodKey>,
    userValue: Option<string>)

  /** The item the engine hands out when asked for a depth it does not have. */
  const ErrorItem := Item("Lfindbugs/OpcodeStackError;", None, false, None, None)

  /** The item `depth` slots below the top (the top is index 0). */
  function StackItem(stack: seq<Item>, depth: nat): (r: Item)
    ensures depth < |stack| ==> r == stack[depth]
    ensures depth >= |stack| ==> !r.isNull && r.returnValueOf.None? && r.userValue.None?
  {
    if depth < |stack| then stack[depth] else ErrorItem
  }

  /**
   * The FindBugs operand-stack engine, left uninterpreted: `precompute` is
   * what it does to the stack before a detector looks at an instruction
   * (merging at jump targets), `replay` the instruction's stack effect.
   */
  datatype Engine = Engine(
    precompute: (Insn, seq<Item>) -> seq<Item>,
    replay: (Insn, seq<Item>) -> seq<Item>)

  /** A method body as the visitor presents it; `codeLength` is in bytes. */
  datatype MethodDef = MethodDef(
    name: string,
    sig: string,
    paramCount: int,
    isSynthetic: bool,
    hasNullableAnnotation: bool,
    code: seq<Insn>,
    codeLength: int)

  datatype ClassDef = ClassDef(name: string, methods: seq<MethodDef>)

  datatype Priority = NormalPriority | LowPriority

  /** A reported bug: rule, priority, the method it is in and its source pc. */
  datatype Finding = Finding(rule: string, priority: Priority, where: MethodKey, pc: int)

  function KeyOf(cls: string, m: MethodDef): MethodKey {
    MethodKey(cls, m.name, m.sig)
  }

  predicate EndsWith(s: string, suffix: string) {
    |suffix| <= |s| && s[|s| - |suffix|..] == suffix
  }

  /** Reassociate a report sequence split three ways. */
  lemma Regroup(a: seq<Finding>, b: seq<Finding>, c: seq<Finding>)
    ensures a + (b + c) == (a + b) + c
  {
  }
}
