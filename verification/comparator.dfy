/**
 * SuspiciousComparatorReturnValues: for classes implementing Comparable or
 * Comparator, scan `compareTo`/`compare` and record which constant values
 * (negative, zero, positive) it returns and whether a non-zero value is
 * returned at a pc beyond the current branch mark (the furthest branch
 * target seen, which switches can lower again). A comparator that cannot
 * return all three signs, or that returns a non-zero constant
 * "unconditionally" in that sense, is reported.
 */
module SuspiciousComparatorReturnValues {
  import opened Options
  import opened Bytecode

  const RULE := "SCRV_SUSPICIOUS_COMPARATOR_RETURN_VALUES"
  const UNSUPPORTED_OPERATION := "Ljava/lang/UnsupportedOperationException;"

  /** A method pattern: name, parameter count and the ending of its signature. */
  datatype MethodInfo = MethodInfo(methodName: string, argumentCount: int, signatureEnding: string)

  /** An interface together with the method of it that is checked. */
  datatype CompareSpec = CompareSpec(compareClass: string, methodInfo: MethodInfo)

  /** The built-in specs, in the order they are tried. */
  const CompareSpecs: seq<CompareSpec> := [
    CompareSpec("java/lang/Comparable", MethodInfo("compareTo", 1, "I")),
    CompareSpec("java/util/Comparator", MethodInfo("compare", 2, "I"))
  ]

  /** `MethodInfo.equals`; `other` is None when it is null or not a MethodInfo. */
  function Equals(a: MethodInfo, other: Option<MethodInfo>): (r: bool)
    ensures r <==> other == Some(a)
  {
    match other
    case None => false
    case Some(that) =>
      a.argumentCount == that.argumentCount && a.methodName == that.methodName &&
      a.signatureEnding == that.signatureEnding
  }

  /** A Java `int` as its 32 bits in two's complement. */
  function Int32Bits(i: int): bv32 {
    (i % 0x1_0000_0000) as bv32
  }

  /** `MethodInfo.hashCode`, over an abstract `String.hashCode`. */
  function HashCode(a: MethodInfo, stringHash: string -> bv32): (r: bv32)
    // XORing out both string hashes leaves exactly the argument count's bits
    ensures r ^ stringHash(a.methodName) ^ stringHash(a.signatureEnding) == Int32Bits(a.argumentCount)
    // a method with no arguments hashes to the XOR of its two strings' hashes
    ensures a.argumentCount == 0 ==> r == stringHash(a.methodName) ^ stringHash(a.signatureEnding)
  {
    stringHash(a.methodName) ^ Int32Bits(a.argumentCount) ^ stringHash(a.signatureEnding)
  }

  /** Equal MethodInfos hash alike, whatever the string hash. */
  lemma HashCodeAgreesWithEquals(a: MethodInfo, b: MethodInfo, stringHash: string -> bv32)
    requires Equals(a, Some(b))
    ensures HashCode(a, stringHash) == HashCode(b, stringHash)
  {
  }

  // ---------------------------------------------------------------------
  // Choosing the spec a class is scanned under

  /**
   * The answer of the class-hierarchy oracle `implementationOf`: Some(b)
   * when it could tell, None when it threw ClassNotFoundException.
   */
  datatype Selection = Selected(info: MethodInfo) | NoSpec | MissingClass(name: string)

  /** No spec before index `k` is implemented, and each of them was resolvable. */
  predicate NoneBefore(specs: seq<CompareSpec>, implementationOf: string -> Option<bool>, k: int)
    requires 0 <= k <= |specs|
  {
    forall j :: 0 <= j < k ==> implementationOf(specs[j].compareClass) == Some(false)
  }

  /** The spec a class is scanned under: the first one it implements. */
  function FirstImplemented(specs: seq<CompareSpec>, implementationOf: string -> Option<bool>): (r: Selection)
    ensures r.Selected? ==>
      exists k :: 0 <= k < |specs| && specs[k].methodInfo == r.info &&
        implementationOf(specs[k].compareClass) == Some(true) && NoneBefore(specs, implementationOf, k)
    ensures r.MissingClass? ==>
      exists k :: 0 <= k < |specs| && specs[k].compareClass == r.name &&
        implementationOf(specs[k].compareClass).None? && NoneBefore(specs, implementationOf, k)
    ensures r.NoSpec? <==> NoneBefore(specs, implementationOf, |specs|)
  {
    if specs == [] then NoSpec
    else match implementationOf(specs[0].compareClass)
      case None => MissingClass(specs[0].compareClass)
      case Some(true) => Selected(specs[0].methodInfo)
      case Some(false) =>
        var r := FirstImplemented(specs[1..], implementationOf);
        assert forall k :: 0 <= k < |specs[1..]| && NoneBefore(specs[1..], implementationOf, k) ==>
          NoneBefore(specs, implementationOf, k + 1);
        r
  }

  /** The loop of `visitClassContext` that picks the spec (it stops at the first hit). */
  method SelectSpec(specs: seq<CompareSpec>, implementationOf: string -> Option<bool>) returns (r: Selection)
    ensures r == FirstImplemented(specs, implementationOf)
  {
    var k := 0;
    while k < |specs|
      invariant 0 <= k <= |specs|
      invariant FirstImplemented(specs, implementationOf) == FirstImplemented(specs[k..], implementationOf)
    {
      assert specs[k..][1..] == specs[k + 1..];
      match implementationOf(specs[k].compareClass)
      case None =>
        return MissingClass(specs[k].compareClass);
      case Some(true) =>
        return Selected(specs[k].methodInfo);
      case Some(false) =>
      k := k + 1;
    }
    return NoSpec;
  }

  // ---------------------------------------------------------------------
  // The per-method scan

  /** The detector fields a scan updates. */
  datatype ScanState = ScanState(
    seenNegative: bool,
    seenPositive: bool,
    seenZero: bool,
    seenUnconditionalNonZero: bool,
    furthestBranchTarget: int,
    sawConstant: Option<int>)

  /** The fields as `visitCode` sets them before scanning. */
  const Initial := ScanState(false, false, false, false, -1, None)

  predicate SeenAll(s: ScanState) {
    s.seenNegative && s.seenPositive && s.seenZero
  }

  /**
   * What every reachable scan state satisfies: an unconditional non-zero
   * return is also a negative or positive one, and the captured constant
   * is one of -1, 0, 1.
   */
  predicate Consistent(s: ScanState) {
    (s.seenUnconditionalNonZero ==> s.seenNegative || s.seenPositive) &&
    (s.sawConstant.Some? ==> -1 <= s.sawConstant.value <= 1)
  }

  /** The value an IRETURN returns: the captured constant if any, else the top item's constant. */
  function ReturnedConstant(sawConstant: Option<int>, stack: seq<Item>): (r: Option<int>)
    ensures sawConstant.Some? ==> r == sawConstant
    ensures sawConstant.None? && stack != [] ==> r == stack[0].constant
    ensures r.None? <==> sawConstant.None? && (stack == [] || stack[0].constant.None?)
  {
    if sawConstant.Some? then sawConstant
    else if |stack| == 0 then None
    else stack[0].constant
  }

  /**
   * `s2` records a return of `v` at `pc` on top of `s`: the one sign flag of
   * `v` is set, the unconditional flag is set when `v` is non-zero and `pc`
   * lies beyond the current branch mark, and the captured constant is gone.
   */
  predicate SignRecorded(s: ScanState, s2: ScanState, v: int, pc: int) {
    s2.seenNegative == (s.seenNegative || v < 0) &&
    s2.seenPositive == (s.seenPositive || v > 0) &&
    s2.seenZero == (s.seenZero || v == 0) &&
    s2.seenUnconditionalNonZero == (s.seenUnconditionalNonZero || (v != 0 && pc > s.furthestBranchTarget)) &&
    s2.furthestBranchTarget == s.furthestBranchTarget &&
    s2.sawConstant.None?
  }

  /** `processIntegerReturn`; None is the abort on an unresolvable value. */
  function ReturnStep(s: ScanState, pc: int, stack: seq<Item>): (r: Option<ScanState>)
    ensures r.None? <==> ReturnedConstant(s.sawConstant, stack).None?
    ensures r.Some? ==> SignRecorded(s, r.value, ReturnedConstant(s.sawConstant, stack).value, pc)
  {
    match ReturnedConstant(s.sawConstant, stack)
    case None => None
    case Some(v) =>
      var unconditional := pc > s.furthestBranchTarget;
      if v < 0 then
        Some(s.(seenNegative := true,
                seenUnconditionalNonZero := s.seenUnconditionalNonZero || unconditional,
                sawConstant := None))
      else if v > 0 then
        Some(s.(seenPositive := true,
                seenUnconditionalNonZero := s.seenUnconditionalNonZero || unconditional,
                sawConstant := None))
      else
        Some(s.(seenZero := true, sawConstant := None))
  }

  function RaiseMark(s: ScanState, target: int): ScanState {
    if s.furthestBranchTarget < target then s.(furthestBranchTarget := target) else s
  }

  function IconstValue(op: Opcode): int
    requires op.ICONST_M1? || op.ICONST_0? || op.ICONST_1?
  {
    if op.ICONST_M1? then -1 else if op.ICONST_0? then 0 else 1
  }

  /** The cases in which the scan of a method stops without a verdict. */
  predicate Aborts(s: ScanState, insn: Insn, stack: seq<Item>) {
    (insn.op.IRETURN? && ReturnedConstant(s.sawConstant, stack).None?) ||
    (IsGoto(insn.op) && |stack| > 0) ||
    (insn.op.ATHROW? && |stack| > 0 && stack[0].signature == UNSUPPORTED_OPERATION)
  }

  /**
   * The detector's own part of `sawOpcode`, on the stack as it is after the
   * engine's precomputation; None is an abort.
   */
  function OpcodeStep(s: ScanState, insn: Insn, stack: seq<Item>): (r: Option<ScanState>)
    ensures r.None? <==> Aborts(s, insn, stack)
  {
    if insn.op.IRETURN? then
      ReturnStep(s, insn.pc, stack)
    else if IsGoto(insn.op) then
      if |stack| > 0 then None else Some(RaiseMark(s, insn.branchTarget))
    else if IsConditionalBranch(insn.op) then
      Some(RaiseMark(s, insn.branchTarget))
    else if IsSwitch(insn.op) then
      var defTarget := insn.defaultSwitchOffset + insn.pc;
      Some(if s.furthestBranchTarget > defTarget then s.(furthestBranchTarget := defTarget) else s)
    else if insn.op.ATHROW? then
      if |stack| > 0 && stack[0].signature == UNSUPPORTED_OPERATION then None else Some(s)
    else if insn.op.ICONST_M1? || insn.op.ICONST_0? || insn.op.ICONST_1? then
      Some(if insn.nextOp.IRETURN? then s.(sawConstant := Some(IconstValue(insn.op))) else s)
    else
      Some(s)
  }

  datatype ScanOutcome = Indeterminate | Completed(final: ScanState)

  /** The scan of the rest of a method from state `s` and operand stack `stack`. */
  function ScanFrom(s: ScanState, code: seq<Insn>, stack: seq<Item>, e: Engine): ScanOutcome
    decreases |code|
  {
    if code == [] then Completed(s)
    else
      var pre := e.precompute(code[0], stack);
      match OpcodeStep(s, code[0], pre)
      case None => Indeterminate
      case Some(s2) => ScanFrom(s2, code[1..], e.replay(code[0], pre), e)
  }

  /** The verdict on a completed scan of a method whose bytecode is `codeLength` bytes long. */
  function Verdict(s: ScanState, codeLength: int): (r: Option<Priority>)
    ensures s.seenUnconditionalNonZero ==> r.Some?
    ensures !s.seenUnconditionalNonZero && SeenAll(s) ==> r.None?
    ensures !s.seenUnconditionalNonZero && !SeenAll(s) ==> (r.Some? <==> !s.seenZero || codeLength > 2)
    ensures r.Some? ==> (r.value == LowPriority <==> SeenAll(s))
  {
    if !s.seenZero || s.seenUnconditionalNonZero || codeLength > 2 then
      var seenAll := s.seenNegative && s.seenPositive && s.seenZero;
      if !seenAll || s.seenUnconditionalNonZero then
        Some(if seenAll then LowPriority else NormalPriority)
      else
        None
    else
      None
  }

  /** Whether `visitCode` scans a method under the pattern `mi`. */
  predicate Gate(mi: MethodInfo, m: MethodDef) {
    !m.isSynthetic && m.name == mi.methodName && EndsWith(m.sig, mi.signatureEnding) &&
    m.paramCount == mi.argumentCount
  }

  datatype Analysis = NotApplicable | Undetermined | Classified(final: ScanState, verdict: Option<Priority>)

  /** What `visitCode` concludes about one method. */
  function Analyze(mi: MethodInfo, m: MethodDef, e: Engine): (r: Analysis)
    ensures r.NotApplicable? <==> !Gate(mi, m)
    ensures r.Classified? ==> Consistent(r.final) && r.verdict == Verdict(r.final, m.codeLength)
    // a gated method is undetermined exactly when its scan aborts, and otherwise classified by the scan's end state
    ensures Gate(mi, m) ==> (r.Undetermined? <==> ScanFrom(Initial, m.code, [], e).Indeterminate?)
    ensures r.Classified? ==> ScanFrom(Initial, m.code, [], e) == Completed(r.final)
  {
    if !Gate(mi, m) then NotApplicable
    else
      ScanPreservesConsistency(Initial, m.code, [], e);
      match ScanFrom(Initial, m.code, [], e)
      case Indeterminate => Undetermined
      case Completed(s) => Classified(s, Verdict(s, m.codeLength))
  }

  /** The bug reported for an analysed method, if any. */
  function Reported(a: Analysis, key: MethodKey): seq<Finding> {
    if a.Classified? && a.verdict.Some? then [Finding(RULE, a.verdict.value, key, 0)] else []
  }

  /** The bugs reported for the methods of class `cls`, in order. */
  function ClassFindings(mi: MethodInfo, cls: string, methods: seq<MethodDef>, e: Engine): seq<Finding> {
    if methods == [] then []
    else Reported(Analyze(mi, methods[0], e), KeyOf(cls, methods[0])) + ClassFindings(mi, cls, methods[1..], e)
  }

  // ---------------------------------------------------------------------
  // Properties of one step

  /** A conditional branch or GOTO that does not abort moves the mark to the larger of it and its target. */
  lemma BranchesRaiseMark(s: ScanState, insn: Insn, stack: seq<Item>)
    requires IsConditionalBranch(insn.op) || IsGoto(insn.op)
    requires OpcodeStep(s, insn, stack).Some?
    ensures var s2 := OpcodeStep(s, insn, stack).value;
      s2.furthestBranchTarget >= s.furthestBranchTarget &&
      s2.furthestBranchTarget >= insn.branchTarget &&
      (s2.furthestBranchTarget == s.furthestBranchTarget || s2.furthestBranchTarget == insn.branchTarget) &&
      s2 == s.(furthestBranchTarget := s2.furthestBranchTarget)
  {
  }

  /** A switch moves the mark to the smaller of it and the default target, and never aborts. */
  lemma SwitchesLowerMark(s: ScanState, insn: Insn, stack: seq<Item>)
    requires IsSwitch(insn.op)
    ensures OpcodeStep(s, insn, stack).Some?
    ensures var s2 := OpcodeStep(s, insn, stack).value;
      var d := insn.defaultSwitchOffset + insn.pc;
      s2.furthestBranchTarget <= s.furthestBranchTarget &&
      s2.furthestBranchTarget <= d &&
      (s2.furthestBranchTarget == s.furthestBranchTarget || s2.furthestBranchTarget == d) &&
      s2 == s.(furthestBranchTarget := s2.furthestBranchTarget)
  {
  }

  /**
   * Only IRETURN touches the sign flags; only branches and switches move the
   * mark; only an ICONST right before an IRETURN captures a constant.
   */
  lemma OnlyReturnsRecordSigns(s: ScanState, insn: Insn, stack: seq<Item>)
    requires !insn.op.IRETURN?
    requires OpcodeStep(s, insn, stack).Some?
    ensures var s2 := OpcodeStep(s, insn, stack).value;
      s2.seenNegative == s.seenNegative && s2.seenPositive == s.seenPositive &&
      s2.seenZero == s.seenZero && s2.seenUnconditionalNonZero == s.seenUnconditionalNonZero &&
      (!IsConditionalBranch(insn.op) && !IsGoto(insn.op) && !IsSwitch(insn.op) ==>
        s2.furthestBranchTarget == s.furthestBranchTarget) &&
      (!((insn.op.ICONST_M1? || insn.op.ICONST_0? || insn.op.ICONST_1?) && insn.nextOp.IRETURN?) ==>
        s2.sawConstant == s.sawConstant)
  {
  }

  /**
   * ICONST_M1/0/1 right before IRETURN captures its value, and the return
   * then uses it whatever the stack holds.
   */
  lemma CapturedConstantWins(s: ScanState, iconst: Insn, ret: Insn, stack1: seq<Item>, stack2: seq<Item>)
    requires iconst.op.ICONST_M1? || iconst.op.ICONST_0? || iconst.op.ICONST_1?
    requires iconst.nextOp.IRETURN? && ret.op.IRETURN?
    ensures OpcodeStep(s, iconst, stack1).Some?
    ensures var s1 := OpcodeStep(s, iconst, stack1).value;
      s1.sawConstant == Some(IconstValue(iconst.op)) &&
      OpcodeStep(s1, ret, stack2).Some? &&
      SignRecorded(s1, OpcodeStep(s1, ret, stack2).value, IconstValue(iconst.op), ret.pc)
  {
  }

  // ---------------------------------------------------------------------
  // Properties of a whole scan

  /** Each step keeps the scan state consistent. */
  lemma StepPreservesConsistency(s: ScanState, insn: Insn, stack: seq<Item>)
    requires Consistent(s)
    requires OpcodeStep(s, insn, stack).Some?
    ensures Consistent(OpcodeStep(s, insn, stack).value)
  {
  }

  lemma {:induction false} ScanPreservesConsistency(s: ScanState, code: seq<Insn>, stack: seq<Item>, e: Engine)
    requires Consistent(s)
    ensures ScanFrom(s, code, stack, e).Completed? ==> Consistent(ScanFrom(s, code, stack, e).final)
    decreases |code|
  {
    if code != [] {
      var pre := e.precompute(code[0], stack);
      var r := OpcodeStep(s, code[0], pre);
      if r.Some? {
        StepPreservesConsistency(s, code[0], pre);
        ScanPreservesConsistency(r.value, code[1..], e.replay(code[0], pre), e);
      }
    }
  }

  /** A completed scan never clears a flag it started with. */
  lemma {:induction false} ScanNeverClearsFlags(s: ScanState, code: seq<Insn>, stack: seq<Item>, e: Engine)
    requires ScanFrom(s, code, stack, e).Completed?
    ensures var f := ScanFrom(s, code, stack, e).final;
      (s.seenNegative ==> f.seenNegative) && (s.seenPositive ==> f.seenPositive) &&
      (s.seenZero ==> f.seenZero) && (s.seenUnconditionalNonZero ==> f.seenUnconditionalNonZero)
    decreases |code|
  {
    if code != [] {
      var pre := e.precompute(code[0], stack);
      var s2 := OpcodeStep(s, code[0], pre).value;
      if !code[0].op.IRETURN? {
        OnlyReturnsRecordSigns(s, code[0], pre);
      }
      ScanNeverClearsFlags(s2, code[1..], e.replay(code[0], pre), e);
    }
  }

  /** Without switches the branch mark of a completed scan never goes down. */
  lemma {:induction false} ScanWithoutSwitchKeepsMark(s: ScanState, code: seq<Insn>, stack: seq<Item>, e: Engine)
    requires forall k :: 0 <= k < |code| ==> !IsSwitch(code[k].op)
    requires ScanFrom(s, code, stack, e).Completed?
    ensures ScanFrom(s, code, stack, e).final.furthestBranchTarget >= s.furthestBranchTarget
    decreases |code|
  {
    if code != [] {
      var pre := e.precompute(code[0], stack);
      var s2 := OpcodeStep(s, code[0], pre).value;
      assert s2.furthestBranchTarget >= s.furthestBranchTarget;
      ScanWithoutSwitchKeepsMark(s2, code[1..], e.replay(code[0], pre), e);
    }
  }

  /** A forward jump (conditional branch or GOTO) earlier than index `k` reaches `pc` or beyond. */
  predicate JumpBefore(code: seq<Insn>, k: int, pc: int)
    requires 0 <= k <= |code|
  {
    exists j :: 0 <= j < k && (IsConditionalBranch(code[j].op) || IsGoto(code[j].op)) && pc <= code[j].branchTarget
  }

  /**
   * Every IRETURN is covered by the current mark or by an earlier forward
   * jump whose target reaches it.
   */
  predicate ReturnsGuarded(mark: int, code: seq<Insn>) {
    forall k :: 0 <= k < |code| && code[k].op.IRETURN? ==> code[k].pc <= mark || JumpBefore(code, k, code[k].pc)
  }

  /**
   * In a method without switches whose every return is preceded by a
   * forward jump reaching it, no return counts as unconditional.
   */
  lemma {:induction false} GuardedReturnsAreConditional(s: ScanState, code: seq<Insn>, stack: seq<Item>, e: Engine)
    requires forall k :: 0 <= k < |code| ==> !IsSwitch(code[k].op)
    requires ReturnsGuarded(s.furthestBranchTarget, code)
    requires ScanFrom(s, code, stack, e).Completed?
    ensures ScanFrom(s, code, stack, e).final.seenUnconditionalNonZero == s.seenUnconditionalNonZero
    decreases |code|
  {
    if code != [] {
      var pre := e.precompute(code[0], stack);
      var s2 := OpcodeStep(s, code[0], pre).value;
      if code[0].op.IRETURN? {
        assert code[0].pc <= s.furthestBranchTarget by {
          assert !JumpBefore(code, 0, code[0].pc);
        }
      } else {
        OnlyReturnsRecordSigns(s, code[0], pre);
      }
      assert s2.seenUnconditionalNonZero == s.seenUnconditionalNonZero;
      assert s2.furthestBranchTarget >= s.furthestBranchTarget;
      var jumps := IsConditionalBranch(code[0].op) || IsGoto(code[0].op);
      assert jumps ==> s2.furthestBranchTarget >= code[0].branchTarget;
      var tail := code[1..];
      forall k | 0 <= k < |tail| && tail[k].op.IRETURN?
        ensures tail[k].pc <= s2.furthestBranchTarget || JumpBefore(tail, k, tail[k].pc)
      {
        assert code[k + 1] == tail[k];
        if tail[k].pc > s.furthestBranchTarget {
          assert JumpBefore(code, k + 1, tail[k].pc);
          var j :| 0 <= j < k + 1 && (IsConditionalBranch(code[j].op) || IsGoto(code[j].op)) &&
            tail[k].pc <= code[j].branchTarget;
          if j > 0 {
            assert tail[j - 1] == code[j];
            assert JumpBefore(tail, k, tail[k].pc);
          }
        }
      }
      GuardedReturnsAreConditional(s2, tail, e.replay(code[0], pre), e);
    }
  }

  /** Corollary for a whole method body. */
  lemma GuardedMethodHasNoUnconditionalReturn(code: seq<Insn>, e: Engine)
    requires forall k :: 0 <= k < |code| ==> !IsSwitch(code[k].op)
    requires forall k :: 0 <= k < |code| && code[k].op.IRETURN? ==> JumpBefore(code, k, code[k].pc)
    requires ScanFrom(Initial, code, [], e).Completed?
    ensures !ScanFrom(Initial, code, [], e).final.seenUnconditionalNonZero
  {
    GuardedReturnsAreConditional(Initial, code, [], e);
  }

  /** Every bug reported for a class is for a method that passed the gate, at pc 0, under this rule. */
  lemma {:induction false} ClassFindingsAreGated(mi: MethodInfo, cls: string, methods: seq<MethodDef>, e: Engine)
    ensures forall f :: f in ClassFindings(mi, cls, methods, e) ==>
      f.rule == RULE && f.pc == 0 && exists m :: m in methods && Gate(mi, m) && f.where == KeyOf(cls, m)
  {
    if methods != [] {
      ClassFindingsAreGated(mi, cls, methods[1..], e);
      forall f | f in ClassFindings(mi, cls, methods, e)
        ensures f.rule == RULE && f.pc == 0 && exists m :: m in methods && Gate(mi, m) && f.where == KeyOf(cls, m)
      {
        if f in Reported(Analyze(mi, methods[0], e), KeyOf(cls, methods[0])) {
          assert methods[0] in methods;
        } else {
          var m :| m in methods[1..] && Gate(mi, m) && f.where == KeyOf(cls, m);
          assert m in methods;
        }
      }
    }
  }

  // ---------------------------------------------------------------------
  // Three comparator shapes, as javac compiles them

  /** An instruction that is no switch and has no call operands. */
  function SimpleInsn(op: Opcode, pc: int, target: int, next: Opcode): Insn {
    Insn(op, pc, target, 0, next, "", "", "")
  }

  /**
   * Steps whose outcome does not depend on the operand stack: everything but
   * GOTO/GOTO_W, ATHROW and an IRETURN with no captured constant.
   */
  predicate StackFree(s: ScanState, insn: Insn) {
    !IsGoto(insn.op) && !insn.op.ATHROW? && (insn.op.IRETURN? ==> s.sawConstant.Some?)
  }

  lemma StackFreeStep(s: ScanState, insn: Insn, stack: seq<Item>)
    requires StackFree(s, insn)
    ensures OpcodeStep(s, insn, stack) == OpcodeStep(s, insn, [])
  {
  }

  /** The scan of a run of stack-free steps, or None if some step is not stack-free. */
  function StackFreeScan(s: ScanState, code: seq<Insn>): Option<ScanState>
    decreases |code|
  {
    if code == [] then Some(s)
    else if !StackFree(s, code[0]) then None
    else match OpcodeStep(s, code[0], [])
      case None => None
      case Some(s2) => StackFreeScan(s2, code[1..])
  }

  /** Whatever the engine does, a run of stack-free steps scans as `StackFreeScan` says. */
  lemma {:induction false} StackFreeScanAgrees(s: ScanState, code: seq<Insn>, stack: seq<Item>, e: Engine)
    requires StackFreeScan(s, code).Some?
    ensures ScanFrom(s, code, stack, e) == Completed(StackFreeScan(s, code).value)
    decreases |code|
  {
    if code != [] {
      var pre := e.precompute(code[0], stack);
      StackFreeStep(s, code[0], pre);
      var s2 := OpcodeStep(s, code[0], []).value;
      StackFreeScanAgrees(s2, code[1..], e.replay(code[0], pre), e);
    }
  }

  /** A gated method whose whole body is stack-free is classified by its stack-free scan, on any engine. */
  lemma StackFreeMethodIsClassified(mi: MethodInfo, m: MethodDef, e: Engine, final: ScanState)
    requires Gate(mi, m)
    requires StackFreeScan(Initial, m.code) == Some(final)
    ensures Analyze(mi, m, e) == Classified(final, Verdict(final, m.codeLength))
  {
    StackFreeScanAgrees(Initial, m.code, [], e);
  }

  /** Stack-free scans compose over concatenated code. */
  lemma {:induction false} StackFreeScanConcat(s: ScanState, a: seq<Insn>, b: seq<Insn>)
    ensures StackFreeScan(s, a + b) ==
      match StackFreeScan(s, a)
      case None => None
      case Some(t) => StackFreeScan(t, b)
    decreases |a|
  {
    if a == [] {
      assert a + b == b;
    } else {
      assert (a + b)[0] == a[0];
      assert (a + b)[1..] == a[1..] + b;
      if StackFree(s, a[0]) && OpcodeStep(s, a[0], []).Some? {
        StackFreeScanConcat(OpcodeStep(s, a[0], []).value, a[1..], b);
      }
    }
  }

  /** Opcodes the scan passes over without touching its state. */
  predicate Inert(op: Opcode) {
    !op.IRETURN? && !IsGoto(op) && !IsConditionalBranch(op) && !IsSwitch(op) && !op.ATHROW? &&
    !op.ICONST_M1? && !op.ICONST_0? && !op.ICONST_1?
  }

  /** A run of inert instructions leaves the scan state as it is. */
  lemma {:induction false} InertRunScan(s: ScanState, code: seq<Insn>)
    requires forall k :: 0 <= k < |code| ==> Inert(code[k].op)
    ensures StackFreeScan(s, code) == Some(s)
    decreases |code|
  {
    if code != [] {
      assert OpcodeStep(s, code[0], []) == Some(s);
      InertRunScan(s, code[1..]);
    }
  }

  /** `return c;` at `pc`: ICONST_M1/0/1 followed by IRETURN. */
  function ConstReturn(pc: int, constOp: Opcode): seq<Insn> {
    [SimpleInsn(constOp, pc, 0, IRETURN), SimpleInsn(IRETURN, pc + 1, 0, Other)]
  }

  /** `if (...) return c;` at `pc`: a conditional jump to `target` around a `ConstReturn`. */
  function GuardedReturn(branchOp: Opcode, pc: int, target: int, constOp: Opcode): seq<Insn> {
    [SimpleInsn(branchOp, pc, target, constOp)] + ConstReturn(pc + 3, constOp)
  }

  /** `a.intValue()` and `b.intValue()` at `pc`: ALOAD_1, INVOKEVIRTUAL, ALOAD_2, INVOKEVIRTUAL. */
  function LoadOperands(pc: int, next: Opcode): seq<Insn> {
    [SimpleInsn(Other, pc, 0, INVOKEVIRTUAL),
     Insn(INVOKEVIRTUAL, pc + 1, 0, 0, Other, "java/lang/Integer", "intValue", "()I"),
     SimpleInsn(Other, pc + 4, 0, INVOKEVIRTUAL),
     Insn(INVOKEVIRTUAL, pc + 5, 0, 0, next, "java/lang/Integer", "intValue", "()I")]
  }

  /** Loading and unboxing the operands leaves the scan state as it is. */
  lemma LoadOperandsScan(s: ScanState, pc: int, next: Opcode)
    ensures StackFreeScan(s, LoadOperands(pc, next)) == Some(s)
  {
    var c := LoadOperands(pc, next);
    assert forall k :: 0 <= k < |c| ==> Inert(c[k].op);
    InertRunScan(s, c);
  }

  /** `if (a OP b) return c;` at `pc` for Integer parameters `a` and `b`. */
  function CompareAndReturn(branchOp: Opcode, pc: int, target: int, constOp: Opcode): seq<Insn> {
    LoadOperands(pc, branchOp) + GuardedReturn(branchOp, pc + 8, target, constOp)
  }

  /** A constant return scans as a return of that constant. */
  lemma ConstReturnScan(s: ScanState, pc: int, constOp: Opcode)
    requires s.sawConstant.None?
    requires constOp.ICONST_M1? || constOp.ICONST_0? || constOp.ICONST_1?
    ensures StackFreeScan(s, ConstReturn(pc, constOp)) ==
      ReturnStep(s.(sawConstant := Some(IconstValue(constOp))), pc + 1, [])
  {
    var c := ConstReturn(pc, constOp);
    var s1 := s.(sawConstant := Some(IconstValue(constOp)));
    assert c[1..] == [c[1]] && [c[1]][1..] == [];
    assert StackFreeScan(s, c) == StackFreeScan(s1, [c[1]]);
    var r := ReturnStep(s1, pc + 1, []);
    assert r.Some?;
    assert OpcodeStep(s1, c[1], []) == r;
    assert StackFreeScan(s1, [c[1]]) == StackFreeScan(r.value, []);
  }

  /** A guarded constant return raises the mark to the branch target first. */
  lemma GuardedReturnScan(s: ScanState, branchOp: Opcode, pc: int, target: int, constOp: Opcode)
    requires s.sawConstant.None? && IsConditionalBranch(branchOp)
    requires constOp.ICONST_M1? || constOp.ICONST_0? || constOp.ICONST_1?
    ensures StackFreeScan(s, GuardedReturn(branchOp, pc, target, constOp)) ==
      ReturnStep(RaiseMark(s, target).(sawConstant := Some(IconstValue(constOp))), pc + 4, [])
  {
    var c := GuardedReturn(branchOp, pc, target, constOp);
    assert c[1..] == ConstReturn(pc + 3, constOp);
    ConstReturnScan(RaiseMark(s, target), pc + 3, constOp);
  }

  /** Loading the operands changes nothing; the comparison then acts as a guarded return. */
  lemma CompareAndReturnScan(s: ScanState, branchOp: Opcode, pc: int, target: int, constOp: Opcode)
    requires s.sawConstant.None? && IsConditionalBranch(branchOp)
    requires constOp.ICONST_M1? || constOp.ICONST_0? || constOp.ICONST_1?
    ensures StackFreeScan(s, CompareAndReturn(branchOp, pc, target, constOp)) ==
      ReturnStep(RaiseMark(s, target).(sawConstant := Some(IconstValue(constOp))), pc + 12, [])
  {
    var loads := LoadOperands(pc, branchOp);
    LoadOperandsScan(s, pc, branchOp);
    StackFreeScanConcat(s, loads, GuardedReturn(branchOp, pc + 8, target, constOp));
    GuardedReturnScan(s, branchOp, pc + 8, target, constOp);
  }

  /** `return 1;` (ICONST_1, IRETURN): an unconditional non-zero, reported at normal priority. */
  lemma AlwaysOneIsReported(m: MethodDef, e: Engine)
    requires m.code == ConstReturn(0, ICONST_1)
    requires Gate(CompareSpecs[1].methodInfo, m)
    ensures Analyze(CompareSpecs[1].methodInfo, m, e) ==
      Classified(ScanState(false, true, false, true, -1, None), Some(NormalPriority))
  {
    var final := ScanState(false, true, false, true, -1, None);
    ConstReturnScan(Initial, 0, ICONST_1);
    StackFreeMethodIsClassified(CompareSpecs[1].methodInfo, m, e, final);
  }

  /**
   * `compare(Integer a, Integer b)` written with statements,
   * `if (a < b) return -1; if (a > b) return 1; return 0;`, as javac emits
   * it: every non-zero return lies behind a forward branch, all three signs
   * are seen, and nothing is reported. (Written as one conditional
   * expression, the method instead reaches a GOTO with the constant on the
   * stack, where the scan stops without a verdict.)
   */
  lemma ThreeWayIsNotReported(m: MethodDef, e: Engine)
    requires m.code == CompareAndReturn(IF_ICMPGE, 0, 13, ICONST_M1) + CompareAndReturn(IF_ICMPLE, 13, 26, ICONST_1) +
                       ConstReturn(26, ICONST_0)
    requires Gate(CompareSpecs[1].methodInfo, m)
    ensures Analyze(CompareSpecs[1].methodInfo, m, e) == Classified(ScanState(true, true, true, false, 26, None), None)
  {
    var s1 := ScanState(true, false, false, false, 13, None);
    var s2 := ScanState(true, true, false, false, 26, None);
    var final := ScanState(true, true, true, false, 26, None);
    var b1, b2, b3 := CompareAndReturn(IF_ICMPGE, 0, 13, ICONST_M1), CompareAndReturn(IF_ICMPLE, 13, 26, ICONST_1),
                      ConstReturn(26, ICONST_0);
    CompareAndReturnScan(Initial, IF_ICMPGE, 0, 13, ICONST_M1);
    CompareAndReturnScan(s1, IF_ICMPLE, 13, 26, ICONST_1);
    ConstReturnScan(s2, 26, ICONST_0);
    StackFreeScanConcat(Initial, b1, b2);
    StackFreeScanConcat(Initial, b1 + b2, b3);
    StackFreeMethodIsClassified(CompareSpecs[1].methodInfo, m, e, final);
  }

  /**
   * `compare(Integer a, Integer b)` as `if (a < b) return -1; return 1;`:
   * zero is never returned and the final `return 1` lies beyond the branch
   * mark, so it is reported at normal priority.
   */
  lemma NoZeroIsReported(m: MethodDef, e: Engine)
    requires m.code == CompareAndReturn(IF_ICMPGE, 0, 13, ICONST_M1) + ConstReturn(13, ICONST_1)
    requires Gate(CompareSpecs[1].methodInfo, m)
    ensures Analyze(CompareSpecs[1].methodInfo, m, e) ==
      Classified(ScanState(true, true, false, true, 13, None), Some(NormalPriority))
  {
    var s1 := ScanState(true, false, false, false, 13, None);
    var final := ScanState(true, true, false, true, 13, None);
    var b1, b2 := CompareAndReturn(IF_ICMPGE, 0, 13, ICONST_M1), ConstReturn(13, ICONST_1);
    CompareAndReturnScan(Initial, IF_ICMPGE, 0, 13, ICONST_M1);
    ConstReturnScan(s1, 13, ICONST_1);
    StackFreeScanConcat(Initial, b1, b2);
    StackFreeMethodIsClassified(CompareSpecs[1].methodInfo, m, e, final);
  }

  // ---------------------------------------------------------------------
  // The detector object

  class Detector {
    var methodInfo: Option<MethodInfo>
    var seenNegative: bool
    var seenPositive: bool
    var seenZero: bool
    var seenUnconditionalNonZero: bool
    var furthestBranchTarget: int
    var sawConstant: Option<int>
    var stack: seq<Item>
    /** What the bug reporter has received so far. */
    var findings: seq<Finding>

    function State(): ScanState
      reads this
    {
      ScanState(seenNegative, seenPositive, seenZero, seenUnconditionalNonZero, furthestBranchTarget, sawConstant)
    }

    constructor ()
      ensures methodInfo.None? && stack == [] && findings == []
    {
      methodInfo := None;
      seenNegative, seenPositive, seenZero, seenUnconditionalNonZero := false, false, false, false;
      furthestBranchTarget := 0;
      sawConstant := None;
      stack := [];
      findings := [];
    }

    /** The resets `visitCode` performs before scanning a method that passed the gate. */
    method ResetForScan()
      modifies this
      ensures State() == Initial && stack == []
      ensures methodInfo == old(methodInfo) && findings == old(findings)
    {
      stack := [];
      seenNegative := false;
      seenPositive := false;
      seenZero := false;
      seenUnconditionalNonZero := false;
      furthestBranchTarget := -1;
      sawConstant := None;
    }

    method ProcessIntegerReturn(pc: int) returns (stop: bool)
      modifies this
      ensures stop == ReturnStep(old(State()), pc, stack).None?
      ensures State() == if stop then old(State()) else ReturnStep(old(State()), pc, stack).value
      ensures stack == old(stack) && methodInfo == old(methodInfo) && findings == old(findings)
    {
      if sawConstant.None? && |stack| == 0 {
        return true;
      }
      var returnValue: Option<int>;
      if sawConstant.None? {
        returnValue := stack[0].constant;
      } else {
        returnValue := sawConstant;
      }
      if returnValue.None? {
        return true;
      }
      var v := returnValue.value;
      if v < 0 {
        seenNegative := true;
        if pc > furthestBranchTarget {
          seenUnconditionalNonZero := true;
        }
      } else if v > 0 {
        seenPositive := true;
        if pc > furthestBranchTarget {
          seenUnconditionalNonZero := true;
        }
      } else {
        seenZero := true;
      }
      sawConstant := None;
      return false;
    }

    /** `sawOpcode`; `stop` is the StopOpcodeParsingException that ends the scan. */
    method SawOpcode(insn: Insn, e: Engine) returns (stop: bool)
      modifies this
      ensures stop == OpcodeStep(old(State()), insn, e.precompute(insn, old(stack))).None?
      ensures State() == if stop then old(State()) else OpcodeStep(old(State()), insn, e.precompute(insn, old(stack))).value
      ensures stack == e.replay(insn, e.precompute(insn, old(stack)))
      ensures methodInfo == old(methodInfo) && findings == old(findings)
    {
      stack := e.precompute(insn, stack);
      stop := false;
      if insn.op.IRETURN? {
        stop := ProcessIntegerReturn(insn.pc);
      } else if IsGoto(insn.op) {
        if |stack| > 0 {
          stop := true;
        } else if furthestBranchTarget < insn.branchTarget {
          furthestBranchTarget := insn.branchTarget;
        }
      } else if IsConditionalBranch(insn.op) {
        if furthestBranchTarget < insn.branchTarget {
          furthestBranchTarget := insn.branchTarget;
        }
      } else if IsSwitch(insn.op) {
        var defTarget := insn.defaultSwitchOffset + insn.pc;
        if furthestBranchTarget > defTarget {
          furthestBranchTarget := defTarget;
        }
      } else if insn.op.ATHROW? {
        if |stack| > 0 && stack[0].signature == UNSUPPORTED_OPERATION {
          stop := true;
        }
      } else if insn.op.ICONST_0? {
        if insn.nextOp.IRETURN? {
          sawConstant := Some(0);
        }
      } else if insn.op.ICONST_M1? {
        if insn.nextOp.IRETURN? {
          sawConstant := Some(-1);
        }
      } else if insn.op.ICONST_1? {
        if insn.nextOp.IRETURN? {
          sawConstant := Some(1);
        }
      }
      stack := e.replay(insn, stack);
    }

    /** `visitCode`: gate, reset, scan until done or stopped, then report on the verdict. */
    method VisitCode(cls: string, m: MethodDef, e: Engine)
      requires methodInfo.Some?
      modifies this
      ensures methodInfo == old(methodInfo)
      ensures findings == old(findings) + Reported(Analyze(methodInfo.value, m, e), KeyOf(cls, m))
      ensures !Gate(methodInfo.value, m) ==> State() == old(State()) && stack == old(stack)
      ensures Analyze(methodInfo.value, m, e).Classified? ==> State() == Analyze(methodInfo.value, m, e).final
    {
      if m.isSynthetic {
        return;
      }
      var mi := methodInfo.value;
      if m.name == mi.methodName && EndsWith(m.sig, mi.signatureEnding) && m.paramCount == mi.argumentCount {
        ResetForScan();
        var i := 0;
        var stop := false;
        while i < |m.code| && !stop
          invariant 0 <= i <= |m.code|
          invariant methodInfo == old(methodInfo) && findings == old(findings)
          invariant ScanFrom(Initial, m.code, [], e) ==
            if stop then Indeterminate else ScanFrom(State(), m.code[i..], stack, e)
        {
          assert m.code[i..][1..] == m.code[i + 1..];
          stop := SawOpcode(m.code[i], e);
          i := i + 1;
        }
        if !stop {
          assert m.code[i..] == [];
          if !seenZero || seenUnconditionalNonZero || m.codeLength > 2 {
            var seenAll := seenNegative && seenPositive && seenZero;
            if !seenAll || seenUnconditionalNonZero {
              var priority := if seenAll then LowPriority else NormalPriority;
              findings := findings + [Finding(RULE, priority, KeyOf(cls, m), 0)];
            }
          }
        }
      }
    }

    /**
     * `visitClassContext`: scan every method of `c` under the first spec the
     * class implements, if any; a missing class ends the visit silently.
     */
    method VisitClassContext(c: ClassDef, implementationOf: string -> Option<bool>, e: Engine)
      modifies this
      ensures methodInfo.None?
      ensures findings == old(findings) +
        match FirstImplemented(CompareSpecs, implementationOf)
        case Selected(mi) => ClassFindings(mi, c.name, c.methods, e)
        case _ => []
    {
      var selection := SelectSpec(CompareSpecs, implementationOf);
      if selection.Selected? {
        var mi := selection.info;
        methodInfo := Some(mi);
        stack := [];
        var j := 0;
        while j < |c.methods|
          invariant 0 <= j <= |c.methods|
          invariant methodInfo == Some(mi)
          invariant old(findings) + ClassFindings(mi, c.name, c.methods, e) ==
            findings + ClassFindings(mi, c.name, c.methods[j..], e)
        {
          ghost var before := findings;
          ghost var here := Reported(Analyze(mi, c.methods[j], e), KeyOf(c.name, c.methods[j]));
          ghost var rest := ClassFindings(mi, c.name, c.methods[j + 1..], e);
          assert ClassFindings(mi, c.name, c.methods[j..], e) == here + rest by {
            assert c.methods[j..][1..] == c.methods[j + 1..];
          }
          VisitCode(c.name, c.methods[j], e);
          Regroup(before, here, rest);
          j := j + 1;
        }
        assert c.methods[j..] == [];
      }
      methodInfo := None;
      stack := [];
    }
  }
}
