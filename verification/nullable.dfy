/**
 * CollectNullableMethodStatus: a non-reporting pass that records, per
 * method, whether it can return null. A method is marked when it carries a
 * nullable annotation, when it returns the null literal, or when it returns
 * the result of a call to a method already marked. The marks live in a
 * summary table keyed by (class, name, signature) shared across the run.
 */
module CollectNullableMethodStatus {
  import opened Options
  import opened Bytecode

  /**
   * The summary table: `canReturnNull` per method key. A key that is absent
   * stands for a method the table has no record for.
   */
  class SummaryTable {
    var canReturnNull: map<MethodKey, bool>

    constructor ()
      ensures canReturnNull == map[]
    {
      canReturnNull := map[];
    }
  }

  /** `methodIsNullable` together with the table, as one step sees and leaves them. */
  datatype CollectorState = CollectorState(methodIsNullable: bool, summaries: map<MethodKey, bool>)

  /** A dotted class name with every `.` replaced by `/`. */
  function SlashedName(dotted: string): (r: string)
    ensures |r| == |dotted|
    ensures forall i :: 0 <= i < |dotted| ==> r[i] == (if dotted[i] == '.' then '/' else dotted[i])
    ensures '.' !in r
  {
    if dotted == [] then []
    else [if dotted[0] == '.' then '/' else dotted[0]] + SlashedName(dotted[1..])
  }

  /** The key under which a called method's summary is looked up. */
  function CalleeKey(callee: MethodKey): MethodKey {
    MethodKey(SlashedName(callee.cls), callee.name, callee.sig)
  }

  /** Set the entry of `key` to true when the table has one (`mi != null`). */
  function MarkNullable(summaries: map<MethodKey, bool>, key: MethodKey): (r: map<MethodKey, bool>)
    ensures r.Keys == summaries.Keys
    ensures key in summaries ==> r[key]
    ensures forall k :: k in summaries && k != key ==> r[k] == summaries[k]
  {
    if key in summaries then summaries[key := true] else summaries
  }

  /** Whether the returned item makes the method nullable: the null literal, or a nullable callee's result. */
  predicate ReturnsNullable(top: Item, summaries: map<MethodKey, bool>) {
    top.isNull ||
    (top.returnValueOf.Some? &&
     CalleeKey(top.returnValueOf.value) in summaries &&
     summaries[CalleeKey(top.returnValueOf.value)])
  }

  /** The table only gains marks: no key disappears, and no true entry turns false. */
  predicate Grows(before: map<MethodKey, bool>, after: map<MethodKey, bool>) {
    before.Keys <= after.Keys && forall k :: k in before && before[k] ==> after[k]
  }

  /** Every entry other than `current`'s is as before. */
  ghost predicate OthersUntouched(before: map<MethodKey, bool>, after: map<MethodKey, bool>, current: MethodKey) {
    forall k :: k != current ==> (k in after <==> k in before) && (k in before ==> after[k] == before[k])
  }

  /** Once the method is known nullable, its entry (if any) says so. */
  predicate Committed(st: CollectorState, current: MethodKey) {
    st.methodIsNullable ==> (current in st.summaries ==> st.summaries[current])
  }

  /** The detector's part of `sawOpcode` for the method `current`, on the stack before the step. */
  function CollectStep(st: CollectorState, current: MethodKey, insn: Insn, stack: seq<Item>): (r: CollectorState)
    ensures st.methodIsNullable || !insn.op.ARETURN? ==> r == st
    ensures !st.methodIsNullable && insn.op.ARETURN? ==>
      (r.methodIsNullable <==> ReturnsNullable(StackItem(stack, 0), st.summaries))
    ensures !r.methodIsNullable ==> r == st
    ensures r.methodIsNullable && !st.methodIsNullable ==> r.summaries == MarkNullable(st.summaries, current)
    ensures r.summaries.Keys == st.summaries.Keys
    ensures Grows(st.summaries, r.summaries)
    ensures OthersUntouched(st.summaries, r.summaries, current)
    ensures Committed(st, current) ==> Committed(r, current)
  {
    if st.methodIsNullable then st
    else if insn.op.ARETURN? then
      var itm := StackItem(stack, 0);
      if itm.isNull then
        CollectorState(true, MarkNullable(st.summaries, current))
      else if itm.returnValueOf.Some? then
        var key := CalleeKey(itm.returnValueOf.value);
        if key in st.summaries && st.summaries[key] then
          CollectorState(true, MarkNullable(st.summaries, current))
        else
          st
      else
        st
    else
      st
  }

  /** The stack after a step: the engine replays it unless the detector returned early. */
  function NextStack(st: CollectorState, insn: Insn, stack: seq<Item>, e: Engine): seq<Item> {
    if st.methodIsNullable then stack else e.replay(insn, stack)
  }

  /** The scan of the rest of a method's instructions. */
  function CollectScan(st: CollectorState, current: MethodKey, code: seq<Insn>, stack: seq<Item>, e: Engine): CollectorState
    decreases |code|
  {
    if code == [] then st
    else CollectScan(CollectStep(st, current, code[0], stack), current, code[1..], NextStack(st, code[0], stack, e), e)
  }

  /** `visitCode` for method `m` of class `cls`: the annotation short-cut, or a fresh scan. */
  function CollectMethod(st: CollectorState, cls: string, m: MethodDef, e: Engine): CollectorState {
    if m.hasNullableAnnotation then st.(summaries := st.summaries[KeyOf(cls, m) := true])
    else CollectScan(CollectorState(false, st.summaries), KeyOf(cls, m), m.code, [], e)
  }

  /** The table after visiting the methods of a class in order. */
  function CollectClass(st: CollectorState, cls: string, methods: seq<MethodDef>, e: Engine): CollectorState
    decreases |methods|
  {
    if methods == [] then st
    else CollectClass(CollectMethod(st, cls, methods[0], e), cls, methods[1..], e)
  }

  // ---------------------------------------------------------------------
  // Properties

  /** A returned null literal marks the method, and its entry if it has one. */
  lemma NullLiteralReturnMarks(st: CollectorState, current: MethodKey, insn: Insn, stack: seq<Item>)
    requires !st.methodIsNullable && insn.op.ARETURN?
    requires stack != [] && stack[0].isNull
    ensures CollectStep(st, current, insn, stack).methodIsNullable
    ensures current in st.summaries ==> CollectStep(st, current, insn, stack).summaries == st.summaries[current := true]
  {
  }

  /**
   * A returned call result changes nothing unless the callee's entry, under
   * its slashed class name, exists and is already true.
   */
  lemma CallResultPropagatesOnlyFromNullableCallee(st: CollectorState, current: MethodKey, insn: Insn, stack: seq<Item>)
    requires !st.methodIsNullable && insn.op.ARETURN?
    requires stack != [] && !stack[0].isNull && stack[0].returnValueOf.Some?
    ensures var key := CalleeKey(stack[0].returnValueOf.value);
      CollectStep(st, current, insn, stack) ==
        if key in st.summaries && st.summaries[key]
        then CollectorState(true, MarkNullable(st.summaries, current))
        else st
  {
  }

  /** Once nullable, the rest of the method's scan is a no-op. */
  lemma {:induction false} LatchedScanIsNoOp(st: CollectorState, current: MethodKey, code: seq<Insn>, stack: seq<Item>, e: Engine)
    requires st.methodIsNullable
    ensures CollectScan(st, current, code, stack, e) == st
    decreases |code|
  {
    if code != [] {
      LatchedScanIsNoOp(st, current, code[1..], NextStack(st, code[0], stack, e), e);
    }
  }

  /**
   * A scan keeps the table's keys, only sets marks, writes no entry but the
   * current method's, and ends committed.
   */
  lemma {:induction false} ScanWritesOnlyCurrentUpward(st: CollectorState, current: MethodKey, code: seq<Insn>, stack: seq<Item>, e: Engine)
    requires Committed(st, current)
    ensures var r := CollectScan(st, current, code, stack, e);
      r.summaries.Keys == st.summaries.Keys &&
      Grows(st.summaries, r.summaries) &&
      OthersUntouched(st.summaries, r.summaries, current) &&
      Committed(r, current)
    decreases |code|
  {
    if code != [] {
      var st2 := CollectStep(st, current, code[0], stack);
      ScanWritesOnlyCurrentUpward(st2, current, code[1..], NextStack(st, code[0], stack, e), e);
    }
  }

  /** The stack after the engine replays every instruction of `code`. */
  function Replayed(code: seq<Insn>, stack: seq<Item>, e: Engine): seq<Item>
    decreases |code|
  {
    if code == [] then stack else Replayed(code[1..], e.replay(code[0], stack), e)
  }

  /**
   * When the first ARETURN a scan reaches returns the null literal, the scan
   * ends with the method nullable and its entry, if the table has one, true;
   * nothing else in the table changes.
   */
  lemma {:induction false} NullReturnEndsScanNullable(st: CollectorState, current: MethodKey, before: seq<Insn>, ret: Insn,
                                                      after: seq<Insn>, stack: seq<Item>, e: Engine)
    requires !st.methodIsNullable && ret.op.ARETURN?
    requires forall k :: 0 <= k < |before| ==> !before[k].op.ARETURN?
    requires Replayed(before, stack, e) != [] && Replayed(before, stack, e)[0].isNull
    ensures CollectScan(st, current, before + [ret] + after, stack, e) ==
      CollectorState(true, MarkNullable(st.summaries, current))
    decreases |before|
  {
    var code := before + [ret] + after;
    if before == [] {
      assert code[0] == ret && code[1..] == after;
      var st2 := CollectStep(st, current, ret, stack);
      assert st2 == CollectorState(true, MarkNullable(st.summaries, current));
      LatchedScanIsNoOp(st2, current, after, NextStack(st, ret, stack, e), e);
    } else {
      assert code[0] == before[0] && code[1..] == before[1..] + [ret] + after;
      assert CollectStep(st, current, before[0], stack) == st;
      NullReturnEndsScanNullable(st, current, before[1..], ret, after, e.replay(before[0], stack), e);
    }
  }

  /**
   * A method without the nullable annotation whose first reached ARETURN
   * returns the null literal ends nullable, with its entry true when the
   * table has one.
   */
  lemma NullLiteralReturnMarksMethod(st: CollectorState, cls: string, m: MethodDef, e: Engine,
                                     before: seq<Insn>, ret: Insn, after: seq<Insn>)
    requires !m.hasNullableAnnotation
    requires m.code == before + [ret] + after && ret.op.ARETURN?
    requires forall k :: 0 <= k < |before| ==> !before[k].op.ARETURN?
    requires Replayed(before, [], e) != [] && Replayed(before, [], e)[0].isNull
    ensures CollectMethod(st, cls, m, e).methodIsNullable
    ensures CollectMethod(st, cls, m, e).summaries == MarkNullable(st.summaries, KeyOf(cls, m))
    ensures KeyOf(cls, m) in st.summaries ==> CollectMethod(st, cls, m, e).summaries[KeyOf(cls, m)]
  {
    NullReturnEndsScanNullable(CollectorState(false, st.summaries), KeyOf(cls, m), before, ret, after, [], e);
  }

  /** A scan with no ARETURN changes nothing but the stack. */
  lemma {:induction false} NoReturnNoWrite(st: CollectorState, current: MethodKey, code: seq<Insn>, stack: seq<Item>, e: Engine)
    requires forall k :: 0 <= k < |code| ==> !code[k].op.ARETURN?
    ensures CollectScan(st, current, code, stack, e) == st
    decreases |code|
  {
    if code != [] {
      NoReturnNoWrite(st, current, code[1..], NextStack(st, code[0], stack, e), e);
    }
  }

  /** Visiting one method writes only its own entry, and only upward. */
  lemma MethodWritesOnlyItsOwnEntry(st: CollectorState, cls: string, m: MethodDef, e: Engine)
    ensures var r := CollectMethod(st, cls, m, e);
      Grows(st.summaries, r.summaries) && OthersUntouched(st.summaries, r.summaries, KeyOf(cls, m))
    ensures m.hasNullableAnnotation ==> CollectMethod(st, cls, m, e).summaries[KeyOf(cls, m)]
  {
    if !m.hasNullableAnnotation {
      ScanWritesOnlyCurrentUpward(CollectorState(false, st.summaries), KeyOf(cls, m), m.code, [], e);
    }
  }

  /** Across the methods of a class the table is monotone: marks are never cleared. */
  lemma {:induction false} ClassScanIsMonotone(st: CollectorState, cls: string, methods: seq<MethodDef>, e: Engine)
    ensures Grows(st.summaries, CollectClass(st, cls, methods, e).summaries)
    ensures forall k :: k in st.summaries && (forall j :: 0 <= j < |methods| ==> k != KeyOf(cls, methods[j])) ==>
      k in CollectClass(st, cls, methods, e).summaries && CollectClass(st, cls, methods, e).summaries[k] == st.summaries[k]
    ensures forall k :: k !in st.summaries && (forall j :: 0 <= j < |methods| ==> k != KeyOf(cls, methods[j])) ==>
      k !in CollectClass(st, cls, methods, e).summaries
    decreases |methods|
  {
    if methods != [] {
      var st2 := CollectMethod(st, cls, methods[0], e);
      MethodWritesOnlyItsOwnEntry(st, cls, methods[0], e);
      ClassScanIsMonotone(st2, cls, methods[1..], e);
      forall k | (forall j :: 0 <= j < |methods| ==> k != KeyOf(cls, methods[j]))
        ensures k in st.summaries ==>
          k in CollectClass(st, cls, methods, e).summaries && CollectClass(st, cls, methods, e).summaries[k] == st.summaries[k]
        ensures k !in st.summaries ==> k !in CollectClass(st, cls, methods, e).summaries
      {
        assert k != KeyOf(cls, methods[0]);
        forall j | 0 <= j < |methods[1..]|
          ensures k != KeyOf(cls, methods[1..][j])
        {
          assert methods[1..][j] == methods[j + 1];
        }
      }
    }
  }

  // ---------------------------------------------------------------------
  // The detector object

  class Collector {
    var methodIsNullable: bool
    var stack: seq<Item>

    constructor ()
      ensures !methodIsNullable && stack == []
    {
      methodIsNullable := false;
      stack := [];
    }

    /** `sawOpcode` while visiting the method `current`. */
    method SawOpcode(table: SummaryTable, current: MethodKey, insn: Insn, e: Engine)
      modifies this, table
      ensures CollectorState(methodIsNullable, table.canReturnNull) ==
        CollectStep(CollectorState(old(methodIsNullable), old(table.canReturnNull)), current, insn, old(stack))
      ensures stack == NextStack(CollectorState(old(methodIsNullable), old(table.canReturnNull)), insn, old(stack), e)
    {
      if methodIsNullable {
        return;
      }
      if insn.op.ARETURN? {
        var itm := StackItem(stack, 0);
        if itm.isNull {
          if current in table.canReturnNull {
            table.canReturnNull := table.canReturnNull[current := true];
          }
          methodIsNullable := true;
        } else if itm.returnValueOf.Some? {
          var key := CalleeKey(itm.returnValueOf.value);
          if key in table.canReturnNull && table.canReturnNull[key] {
            if current in table.canReturnNull {
              table.canReturnNull := table.canReturnNull[current := true];
            }
            methodIsNullable := true;
          }
        }
      }
      stack := e.replay(insn, stack);
    }

    /** `visitCode` for method `m` of class `cls`. */
    method VisitCode(table: SummaryTable, cls: string, m: MethodDef, e: Engine)
      modifies this, table
      ensures CollectorState(methodIsNullable, table.canReturnNull) ==
        CollectMethod(CollectorState(old(methodIsNullable), old(table.canReturnNull)), cls, m, e)
      ensures m.hasNullableAnnotation ==> stack == old(stack)
    {
      var key := KeyOf(cls, m);
      if m.hasNullableAnnotation {
        table.canReturnNull := table.canReturnNull[key := true];
        return;
      }
      methodIsNullable := false;
      stack := [];
      var i := 0;
      ghost var goal := CollectScan(CollectorState(false, table.canReturnNull), key, m.code, [], e);
      while i < |m.code|
        invariant 0 <= i <= |m.code|
        invariant goal == CollectScan(CollectorState(methodIsNullable, table.canReturnNull), key, m.code[i..], stack, e)
      {
        assert m.code[i..][1..] == m.code[i + 1..];
        SawOpcode(table, key, m.code[i], e);
        i := i + 1;
      }
      assert m.code[i..] == [];
    }

    /** `visitClassContext`: visit each method of `c` in order. */
    method VisitClassContext(table: SummaryTable, c: ClassDef, e: Engine)
      modifies this, table
      ensures table.canReturnNull ==
        CollectClass(CollectorState(old(methodIsNullable), old(table.canReturnNull)), c.name, c.methods, e).summaries
    {
      stack := [];
      var j := 0;
      ghost var goal := CollectClass(CollectorState(methodIsNullable, table.canReturnNull), c.name, c.methods, e);
      while j < |c.methods|
        invariant 0 <= j <= |c.methods|
        invariant goal == CollectClass(CollectorState(methodIsNullable, table.canReturnNull), c.name, c.methods[j..], e)
      {
        assert c.methods[j..][1..] == c.methods[j + 1..];
        VisitCode(table, c.name, c.methods[j], e);
        j := j + 1;
      }
      assert c.methods[j..] == [];
      stack := [];
    }
  }
}
