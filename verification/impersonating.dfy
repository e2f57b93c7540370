/**
 * ClassImpersonatingString: tag stack values that come from `toString()` or
 * from a StringBuilder/StringBuffer that had a non-String appended, carry
 * the tag through the builder's `toString` and `append`, and report a field
 * store (PUTFIELD) of a tagged value.
 */
module ClassImpersonatingString {
  import opened Options
  import opened Bytecode

  const RULE := "CIS_TOSTRING_STORED_IN_FIELD"
  const TO_STRING := "toString"
  const STRING_SIG := "Ljava/lang/String;"
  const TO_STRING_SIG := "()Ljava/lang/String;"

  predicate IsStringBuilder(cls: string) {
    cls == "java/lang/StringBuilder" || cls == "java/lang/StringBuffer"
  }

  /** An INVOKEVIRTUAL of `toString()Ljava/lang/String;` on any class. */
  predicate IsToStringCall(insn: Insn) {
    insn.op.INVOKEVIRTUAL? && insn.nameOperand == TO_STRING && insn.sigOperand == TO_STRING_SIG
  }

  /** An INVOKEVIRTUAL of some `append` of a builder (any signature). */
  predicate IsBuilderAppend(insn: Insn) {
    insn.op.INVOKEVIRTUAL? && !IsToStringCall(insn) &&
    IsStringBuilder(insn.classOperand) && insn.nameOperand == "append"
  }

  /**
   * The tag the detector decides to give the instruction's result (the local
   * `userValue`), read from the stack before the engine replays the call.
   */
  function OriginTag(insn: Insn, stack: seq<Item>): (r: Option<string>)
    ensures IsToStringCall(insn) && !IsStringBuilder(insn.classOperand) ==> r == Some(TO_STRING)
    ensures (IsToStringCall(insn) && IsStringBuilder(insn.classOperand)) || IsBuilderAppend(insn) ==>
      r == if stack == [] then None else stack[0].userValue
    ensures !IsToStringCall(insn) && !IsBuilderAppend(insn) ==> r.None?
  {
    if IsToStringCall(insn) then
      if IsStringBuilder(insn.classOperand) then
        if |stack| > 0 then stack[0].userValue else None
      else
        Some(TO_STRING)
    else if IsBuilderAppend(insn) then
      if |stack| > 0 then stack[0].userValue else None
    else
      None
  }

  /** Whether an append taints its receiver: the argument is untagged, not a String, and has a receiver below it. */
  predicate TaintsReceiver(insn: Insn, stack: seq<Item>) {
    IsBuilderAppend(insn) && |stack| > 1 && stack[0].userValue.None? && stack[0].signature != STRING_SIG
  }

  /** The stack as the detector leaves it for the engine: a tainting append tags the receiver. */
  function MarkReceiver(insn: Insn, stack: seq<Item>): (r: seq<Item>)
    ensures |r| == |stack|
    ensures forall d :: 0 <= d < |stack| && d != 1 ==> r[d] == stack[d]
    ensures |stack| > 1 ==>
      r[1] == if TaintsReceiver(insn, stack) then stack[1].(userValue := Some(TO_STRING)) else stack[1]
  {
    if TaintsReceiver(insn, stack) then stack[1 := stack[1].(userValue := Some(TO_STRING))] else stack
  }

  /** Give the top item the detector's tag, if it decided on one and the stack is not empty. */
  function Attach(stack: seq<Item>, tag: Option<string>): (r: seq<Item>)
    ensures |r| == |stack|
    ensures tag.Some? && stack != [] ==> r[0] == stack[0].(userValue := tag)
    ensures forall d :: 0 <= d < |stack| && (d > 0 || tag.None?) ==> r[d] == stack[d]
  {
    if tag.Some? && |stack| > 0 then stack[0 := stack[0].(userValue := tag)] else stack
  }

  /** Whether a PUTFIELD stores a value tagged as built by `toString`. */
  predicate Reports(insn: Insn, stack: seq<Item>) {
    insn.op.PUTFIELD? && |stack| > 0 && stack[0].userValue == Some(TO_STRING)
  }

  datatype StepResult = StepResult(stack: seq<Item>, report: bool)

  /** One `sawOpcode`: precompute, detector logic, engine replay, then the tag on the new top. */
  function TagStep(insn: Insn, stack: seq<Item>, e: Engine): (r: StepResult)
    // only a PUTFIELD of a value the precomputed stack tags as built by `toString` is reported
    ensures var pre := e.precompute(insn, stack);
      r.report <==> insn.op.PUTFIELD? && pre != [] && pre[0].userValue == Some(TO_STRING)
    // the engine decides the shape of the new stack and everything below its top
    ensures var out := e.replay(insn, MarkReceiver(insn, e.precompute(insn, stack)));
      |r.stack| == |out| && forall d :: 0 < d < |out| ==> r.stack[d] == out[d]
    // a non-builder `toString` always tags its result, whatever the engine produced
    ensures IsToStringCall(insn) && !IsStringBuilder(insn.classOperand) && r.stack != [] ==>
      r.stack[0].userValue == Some(TO_STRING)
    // an instruction that is neither `toString` nor `append` leaves the engine's stack untouched
    ensures !IsToStringCall(insn) && !IsBuilderAppend(insn) ==>
      r.stack == e.replay(insn, e.precompute(insn, stack))
  {
    var pre := e.precompute(insn, stack);
    StepResult(Attach(e.replay(insn, MarkReceiver(insn, pre)), OriginTag(insn, pre)), Reports(insn, pre))
  }

  /** The bug a step reports, if any, at the pc of its instruction. */
  function StepFindings(key: MethodKey, insn: Insn, report: bool): seq<Finding> {
    if report then [Finding(RULE, NormalPriority, key, insn.pc)] else []
  }

  /** The bugs reported while scanning the rest of method `key`. */
  function TagScan(key: MethodKey, stack: seq<Item>, code: seq<Insn>, e: Engine): seq<Finding>
    decreases |code|
  {
    if code == [] then []
    else
      var r := TagStep(code[0], stack, e);
      StepFindings(key, code[0], r.report) + TagScan(key, r.stack, code[1..], e)
  }

  /** The first step of a scan, split off. */
  lemma TagScanUnfold(key: MethodKey, stack: seq<Item>, code: seq<Insn>, e: Engine)
    requires code != []
    ensures var r := TagStep(code[0], stack, e);
      TagScan(key, stack, code, e) == StepFindings(key, code[0], r.report) + TagScan(key, r.stack, code[1..], e)
  {
  }

  /** The bugs reported for the methods of class `cls`, in order. */
  function ClassTagFindings(cls: string, methods: seq<MethodDef>, e: Engine): seq<Finding> {
    if methods == [] then []
    else TagScan(KeyOf(cls, methods[0]), [], methods[0].code, e) + ClassTagFindings(cls, methods[1..], e)
  }

  // ---------------------------------------------------------------------
  // Properties of one step

  /** `toString()` on anything but a builder tags the result. */
  lemma ToStringResultIsTagged(insn: Insn, stack: seq<Item>, e: Engine)
    requires IsToStringCall(insn) && !IsStringBuilder(insn.classOperand)
    ensures var pre := e.precompute(insn, stack);
      var engineOut := e.replay(insn, pre);
      var out := TagStep(insn, stack, e).stack;
      |out| == |engineOut| &&
      (out != [] ==> out[0] == engineOut[0].(userValue := Some(TO_STRING)) && out[1..] == engineOut[1..])
  {
    var pre := e.precompute(insn, stack);
    var out := TagStep(insn, stack, e).stack;
    assert MarkReceiver(insn, pre) == pre;
    if out != [] {
      assert out[1..] == e.replay(insn, pre)[1..];
    }
  }

  /**
   * `toString()` on a builder gives the result the builder's own tag; an
   * untagged builder (or an empty stack) leaves the engine's result as it is.
   */
  lemma BuilderToStringCarriesReceiverTag(insn: Insn, stack: seq<Item>, e: Engine)
    requires IsToStringCall(insn) && IsStringBuilder(insn.classOperand)
    ensures var pre := e.precompute(insn, stack);
      var engineOut := e.replay(insn, pre);
      var out := TagStep(insn, stack, e).stack;
      if pre != [] && pre[0].userValue.Some? && engineOut != []
      then out == engineOut[0 := engineOut[0].(userValue := pre[0].userValue)]
      else out == engineOut
  {
    var pre := e.precompute(insn, stack);
    assert MarkReceiver(insn, pre) == pre;
  }

  /** An append of an untagged non-String value tags the receiver, one slot down, and nothing else. */
  lemma AppendOfPlainValueTaintsReceiver(insn: Insn, stack: seq<Item>, e: Engine)
    requires IsBuilderAppend(insn)
    requires var pre := e.precompute(insn, stack);
      |pre| > 1 && pre[0].userValue.None? && pre[0].signature != STRING_SIG
    ensures var pre := e.precompute(insn, stack);
      TagStep(insn, stack, e).stack == e.replay(insn, pre[1 := pre[1].(userValue := Some(TO_STRING))]) &&
      !TagStep(insn, stack, e).report
  {
  }

  /** An append of an already tagged value passes that tag to the call's result and tags nothing else. */
  lemma AppendOfTaggedValueIsInherited(insn: Insn, stack: seq<Item>, e: Engine)
    requires IsBuilderAppend(insn)
    requires var pre := e.precompute(insn, stack); pre != [] && pre[0].userValue.Some?
    ensures var pre := e.precompute(insn, stack);
      var engineOut := e.replay(insn, pre);
      TagStep(insn, stack, e).stack ==
        if engineOut == [] then engineOut else engineOut[0 := engineOut[0].(userValue := pre[0].userValue)]
  {
  }

  /** A PUTFIELD reports exactly when the stored value carries the toString tag. */
  lemma PutfieldReportsExactlyTaggedValues(insn: Insn, stack: seq<Item>, e: Engine)
    requires insn.op.PUTFIELD?
    ensures var pre := e.precompute(insn, stack);
      TagStep(insn, stack, e).report <==> pre != [] && pre[0].userValue == Some(TO_STRING)
  {
  }

  /** Opcodes other than INVOKEVIRTUAL and PUTFIELD neither tag nor report. */
  lemma OtherOpcodesAreInert(insn: Insn, stack: seq<Item>, e: Engine)
    requires !insn.op.INVOKEVIRTUAL? && !insn.op.PUTFIELD?
    ensures TagStep(insn, stack, e) == StepResult(e.replay(insn, e.precompute(insn, stack)), false)
  {
    assert MarkReceiver(insn, e.precompute(insn, stack)) == e.precompute(insn, stack);
  }

  /** When the detector decides on no tag, the new top is exactly as the engine produced it. */
  lemma NoTagLeavesEngineResult(insn: Insn, stack: seq<Item>, e: Engine)
    requires OriginTag(insn, e.precompute(insn, stack)).None?
    ensures var pre := e.precompute(insn, stack);
      TagStep(insn, stack, e).stack == e.replay(insn, MarkReceiver(insn, pre))
  {
  }

  // ---------------------------------------------------------------------
  // Properties of a scan

  /** Every report of a scan is at a PUTFIELD of the scanned code, under this rule. */
  lemma {:induction false} ScanReportsOnlyAtPutfield(key: MethodKey, stack: seq<Item>, code: seq<Insn>, e: Engine)
    ensures forall f :: f in TagScan(key, stack, code, e) ==>
      f.rule == RULE && f.where == key && f.priority == NormalPriority &&
      exists k :: 0 <= k < |code| && code[k].op.PUTFIELD? && f.pc == code[k].pc
    decreases |code|
  {
    if code != [] {
      var r := TagStep(code[0], stack, e);
      ScanReportsOnlyAtPutfield(key, r.stack, code[1..], e);
      forall f | f in TagScan(key, stack, code, e)
        ensures f.rule == RULE && f.where == key && f.priority == NormalPriority &&
          exists k :: 0 <= k < |code| && code[k].op.PUTFIELD? && f.pc == code[k].pc
      {
        if f in TagScan(key, r.stack, code[1..], e) {
          var k :| 0 <= k < |code[1..]| && code[1..][k].op.PUTFIELD? && f.pc == code[1..][k].pc;
          assert code[k + 1] == code[1..][k];
        } else {
          assert Reports(code[0], e.precompute(code[0], stack));
        }
      }
    }
  }

  /** `this.f = o.toString();`: the stored value carries the tag, so the store is reported. */
  lemma StoredToStringIsReported(key: MethodKey, obj: Item, owner: Item, call: Insn, put: Insn, e: Engine)
    requires IsToStringCall(call) && !IsStringBuilder(call.classOperand) && put.op.PUTFIELD?
    requires forall i, s :: e.precompute(i, s) == s
    requires e.replay(call, [obj, owner]) != []
    ensures TagScan(key, [obj, owner], [call, put], e) == [Finding(RULE, NormalPriority, key, put.pc)]
  {
    var s0 := [obj, owner];
    assert e.precompute(call, s0) == s0;
    assert MarkReceiver(call, s0) == s0;
    var r0 := TagStep(call, s0, e);
    assert r0.stack != [] && r0.stack[0].userValue == Some(TO_STRING);
    assert !r0.report;
    assert TagScan(key, s0, [call, put], e) == TagScan(key, r0.stack, [put], e);
    assert e.precompute(put, r0.stack) == r0.stack;
    var r1 := TagStep(put, r0.stack, e);
    assert r1.report;
    assert TagScan(key, r0.stack, [put], e) == [Finding(RULE, NormalPriority, key, put.pc)] + TagScan(key, r1.stack, [], e);
  }

  /**
   * `this.f = new StringBuilder().append(x).toString();` with `x` untagged
   * and not a String: reported, given an engine that hands the builder's tag
   * to the result of `append`.
   */
  lemma StoredBuiltStringIsReported(key: MethodKey, x: Item, sb: Item, owner: Item, app: Insn, call: Insn, put: Insn, e: Engine)
    requires IsBuilderAppend(app) && IsToStringCall(call) && IsStringBuilder(call.classOperand) && put.op.PUTFIELD?
    requires x.userValue.None? && x.signature != STRING_SIG
    requires forall i, s :: e.precompute(i, s) == s
    requires forall s: seq<Item> :: |s| >= 2 ==> e.replay(app, s) != [] && e.replay(app, s)[0].userValue == s[1].userValue
    requires forall s: seq<Item> :: s != [] ==> e.replay(call, s) != []
    ensures TagScan(key, [x, sb, owner], [app, call, put], e) == [Finding(RULE, NormalPriority, key, put.pc)]
  {
    var s0 := [x, sb, owner];
    var r0 := TagStep(app, s0, e);
    assert r0.stack != [] && r0.stack[0].userValue == Some(TO_STRING) && !r0.report by {
      assert e.precompute(app, s0) == s0;
      AppendOfPlainValueTaintsReceiver(app, s0, e);
      var m0 := s0[1 := s0[1].(userValue := Some(TO_STRING))];
      assert |m0| >= 2;
      assert e.replay(app, m0)[0].userValue == m0[1].userValue;
    }
    var r1 := TagStep(call, r0.stack, e);
    assert r1.stack != [] && r1.stack[0].userValue == Some(TO_STRING) && !r1.report by {
      assert e.precompute(call, r0.stack) == r0.stack;
      assert e.replay(call, r0.stack) != [];
      BuilderToStringCarriesReceiverTag(call, r0.stack, e);
    }
    var r2 := TagStep(put, r1.stack, e);
    assert r2.report by {
      assert e.precompute(put, r1.stack) == r1.stack;
    }
    assert TagScan(key, r1.stack, [put], e) == [Finding(RULE, NormalPriority, key, put.pc)] + TagScan(key, r2.stack, [], e);
    assert TagScan(key, r0.stack, [call, put], e) == TagScan(key, r1.stack, [put], e);
    assert TagScan(key, s0, [app, call, put], e) == TagScan(key, r0.stack, [call, put], e);
  }

  /** A PUTFIELD of an untagged value, such as a string literal, is never reported. */
  lemma StoredLiteralIsNotReported(key: MethodKey, lit: Item, owner: Item, put: Insn, e: Engine)
    requires put.op.PUTFIELD? && lit.userValue.None?
    requires forall i, s :: e.precompute(i, s) == s
    ensures TagScan(key, [lit, owner], [put], e) == []
  {
    assert !TagStep(put, [lit, owner], e).report;
  }

  // ---------------------------------------------------------------------
  // The detector object

  class Detector {
    var stack: seq<Item>
    /** What the bug reporter has received so far. */
    var findings: seq<Finding>

    constructor ()
      ensures stack == [] && findings == []
    {
      stack := [];
      findings := [];
    }

    /** `sawOpcode` while visiting the method `key`. */
    method SawOpcode(key: MethodKey, insn: Insn, e: Engine)
      modifies this
      ensures stack == TagStep(insn, old(stack), e).stack
      ensures findings == old(findings) + StepFindings(key, insn, TagStep(insn, old(stack), e).report)
    {
      var userValue: Option<string> := None;
      stack := e.precompute(insn, stack);
      if insn.op.INVOKEVIRTUAL? {
        var clsName := insn.classOperand;
        var methodName := insn.nameOperand;
        var sig := insn.sigOperand;
        var isStringBuilder := clsName == "java/lang/StringBuilder" || clsName == "java/lang/StringBuffer";
        if methodName == TO_STRING && sig == TO_STRING_SIG {
          if isStringBuilder {
            if |stack| > 0 {
              userValue := stack[0].userValue;
            }
          } else {
            userValue := Some(TO_STRING);
          }
        } else if isStringBuilder && methodName == "append" {
          if |stack| > 0 {
            userValue := stack[0].userValue;
            if userValue.None? {
              if stack[0].signature != STRING_SIG {
                if |stack| > 1 {
                  stack := stack[1 := stack[1].(userValue := Some(TO_STRING))];
                }
              }
            }
          }
        }
      } else if insn.op.PUTFIELD? {
        if |stack| > 0 && stack[0].userValue == Some(TO_STRING) {
          findings := findings + [Finding(RULE, NormalPriority, key, insn.pc)];
        }
      }
      stack := e.replay(insn, stack);
      if userValue.Some? {
        if |stack| > 0 {
          stack := stack[0 := stack[0].(userValue := userValue)];
        }
      }
    }

    /** `visitCode`: a fresh stack, then every instruction in order. */
    method VisitCode(cls: string, m: MethodDef, e: Engine)
      modifies this
      ensures findings == old(findings) + TagScan(KeyOf(cls, m), [], m.code, e)
    {
      var key := KeyOf(cls, m);
      stack := [];
      var i := 0;
      while i < |m.code|
        invariant 0 <= i <= |m.code|
        invariant old(findings) + TagScan(key, [], m.code, e) == findings + TagScan(key, stack, m.code[i..], e)
      {
        ghost var before := findings;
        ghost var r := TagStep(m.code[i], stack, e);
        ghost var here := StepFindings(key, m.code[i], r.report);
        ghost var tail := TagScan(key, r.stack, m.code[i + 1..], e);
        assert TagScan(key, stack, m.code[i..], e) == here + tail by {
          TagScanUnfold(key, stack, m.code[i..], e);
          assert m.code[i..][0] == m.code[i] && m.code[i..][1..] == m.code[i + 1..];
        }
        SawOpcode(key, m.code[i], e);
        Regroup(before, here, tail);
        i := i + 1;
      }
      assert m.code[i..] == [];
    }

    /** `visitClassContext`: visit each method of `c` in order. */
    method VisitClassContext(c: ClassDef, e: Engine)
      modifies this
      ensures findings == old(findings) + ClassTagFindings(c.name, c.methods, e)
    {
      stack := [];
      var j := 0;
      while j < |c.methods|
        invariant 0 <= j <= |c.methods|
        invariant old(findings) + ClassTagFindings(c.name, c.methods, e) ==
          findings + ClassTagFindings(c.name, c.methods[j..], e)
      {
        ghost var before := findings;
        ghost var here := TagScan(KeyOf(c.name, c.methods[j]), [], c.methods[j].code, e);
        ghost var rest := ClassTagFindings(c.name, c.methods[j + 1..], e);
        assert ClassTagFindings(c.name, c.methods[j..], e) == here + rest by {
          assert c.methods[j..][1..] == c.methods[j + 1..];
        }
        VisitCode(c.name, c.methods[j], e);
        Regroup(before, here, rest);
        j := j + 1;
      }
      assert c.methods[j..] == [];
      stack := [];
    }
  }
}
