# fb-contrib opcode detectors in Dafny

This project models three FindBugs plug-in detectors from fb-contrib. Each one
replays a method's bytecode one instruction at a time, over a symbolic
operand stack maintained by FindBugs' `OpcodeStack`:

- **SuspiciousComparatorReturnValues** (`comparator.dfy`) checks classes that
  implement `java.lang.Comparable` or `java.util.Comparator`.
  - It scans `compareTo`/`compare` and records which constant signs the method
    returns (negative, zero, positive).
  - It also records whether a non-zero constant is returned at a pc beyond the
    current branch mark (an "unconditional" non-zero return). The mark is the
    furthest branch target seen so far, but a switch can lower it again.
  - The scan is abandoned in three indeterminate cases.
  - A completed scan ends in a closed-form verdict: no report, a normal-priority
    report or a low-priority report.
- **CollectNullableMethodStatus** (`nullable.dfy`) is a non-reporting
  collector. It sets `canReturnNull` in a summary table keyed by (class,
  method name, descriptor). A method is marked when:
  - it carries a nullable annotation; or
  - it returns the null literal; or
  - it returns the result of a call whose callee is already marked.

  After the first hit in a method, the rest of that method is skipped.
- **ClassImpersonatingString** (`impersonating.dfy`) tags stack items with
  `"toString"` when they come from `toString()`, or from a
  StringBuilder/StringBuffer that had a non-String appended. The tag is carried
  through the builder's `append` and `toString`. A `PUTFIELD` of a tagged value
  is reported.

Shared pieces live in `bytecode.dfy`: instructions, stack items, method and
class shapes, and findings. `options.dfy` holds `Option`.

The stack engine is the datatype `Engine`, made of two arbitrary functions:
- `precompute` is what `OpcodeStack.precomputation` does to the stack before a
  detector looks at an instruction;
- `replay` is the instruction's own stack effect (`OpcodeStack.sawOpcode`).

Every property below holds for every engine unless "## Left out" names an engine assumption for it. Each detector comes in two parts:
- a specification of pure functions: one step, a whole-method scan, and a
  whole class;
- a `class` whose fields are the Java detector's fields. Its `SawOpcode`,
  `VisitCode` and `VisitClassContext` methods update those fields in place, and
  their contracts tie the new state to the specification functions.

The stack is a `seq<Item>` with the top at index 0, so `stack[d]` is
`getStackItem(d)`. Bug reports are appended to a `findings` sequence of
(rule, priority, method, pc) records.

## Model

| member | source | states |
|---|---|---|
| Bytecode.StackItem | src/main/java/com/mebigfatguy/fbcontrib/collect/CollectNullableMethodStatus.java:80 | the item at a depth the stack has is that slot; at a depth it lacks, the engine's error item, which is not null, has no call origin and no tag |
| SuspiciousComparatorReturnValues.Equals | src/main/java/com/mebigfatguy/fbcontrib/detect/SuspiciousComparatorReturnValues.java:351-358 | true exactly when the other object is a MethodInfo with the same name, argument count and signature ending |
| SuspiciousComparatorReturnValues.HashCode | src/main/java/com/mebigfatguy/fbcontrib/detect/SuspiciousComparatorReturnValues.java:346-348 | the hash is the XOR of the name hash, the argument count as 32 bits and the signature-ending hash: XORing out both string hashes gives back the count's bits, and with no arguments the hash is the XOR of the two string hashes |
| SuspiciousComparatorReturnValues.HashCodeAgreesWithEquals | src/main/java/com/mebigfatguy/fbcontrib/detect/SuspiciousComparatorReturnValues.java:346-358 | MethodInfos that are equal have equal hash codes, for every String hash function |
| SuspiciousComparatorReturnValues.FirstImplemented | src/main/java/com/mebigfatguy/fbcontrib/detect/SuspiciousComparatorReturnValues.java:95-104 | a spec is selected only if the class implements it and every earlier spec resolved as not implemented; a missing class is the first unresolvable one after such specs; no spec exactly when every spec is resolvable and not implemented |
| SuspiciousComparatorReturnValues.SelectSpec | src/main/java/com/mebigfatguy/fbcontrib/detect/SuspiciousComparatorReturnValues.java:95-101 | the loop that breaks at the first implemented spec (or leaves on ClassNotFoundException) picks the same selection as FirstImplemented |
| SuspiciousComparatorReturnValues.ReturnedConstant | src/main/java/com/mebigfatguy/fbcontrib/detect/SuspiciousComparatorReturnValues.java:260-274 | a captured constant takes precedence over the stack; with nothing captured and a non-empty stack the value is the top item's constant; there is no value exactly when nothing is captured and the stack is empty or its top has no constant |
| SuspiciousComparatorReturnValues.ReturnStep | src/main/java/com/mebigfatguy/fbcontrib/detect/SuspiciousComparatorReturnValues.java:259-291 | aborts exactly when the returned value is unresolvable; otherwise sets exactly the sign flag of v, sets the unconditional flag only for v ≠ 0 at a pc beyond the branch mark, leaves the mark, and clears the captured constant |
| SuspiciousComparatorReturnValues.OpcodeStep | src/main/java/com/mebigfatguy/fbcontrib/detect/SuspiciousComparatorReturnValues.java:160-252 | one step stops the scan exactly in the three abort cases: an unresolvable IRETURN, a GOTO/GOTO_W with a non-empty stack, and an ATHROW of an UnsupportedOperationException |
| SuspiciousComparatorReturnValues.Verdict | src/main/java/com/mebigfatguy/fbcontrib/detect/SuspiciousComparatorReturnValues.java:138-143 | an unconditional non-zero return is always reported; otherwise, seeing all three signs means no report, and missing a sign is reported exactly when zero was never returned or the code is longer than 2 bytes; a report is low priority exactly when all three signs were seen |
| SuspiciousComparatorReturnValues.Analyze | src/main/java/com/mebigfatguy/fbcontrib/detect/SuspiciousComparatorReturnValues.java:120-150 | a method is not scanned exactly when it is synthetic or its name, signature ending or parameter count differ from the spec; a scanned method is undetermined exactly when the scan of its code from the reset state aborts; otherwise its result is that scan's end state, which is consistent and is judged by Verdict |
| SuspiciousComparatorReturnValues.BranchesRaiseMark | src/main/java/com/mebigfatguy/fbcontrib/detect/SuspiciousComparatorReturnValues.java:170-201 | a conditional branch or GOTO that does not abort sets the mark to the larger of the old mark and its target and changes nothing else |
| SuspiciousComparatorReturnValues.SwitchesLowerMark | src/main/java/com/mebigfatguy/fbcontrib/detect/SuspiciousComparatorReturnValues.java:203-210 | a switch never aborts and sets the mark to the smaller of the old mark and pc plus the default offset, changing nothing else |
| SuspiciousComparatorReturnValues.OnlyReturnsRecordSigns | src/main/java/com/mebigfatguy/fbcontrib/detect/SuspiciousComparatorReturnValues.java:164-252 | no instruction but IRETURN changes a sign or unconditional flag, none but branches, GOTOs and switches moves the mark, and none but an ICONST directly before an IRETURN captures a constant |
| SuspiciousComparatorReturnValues.CapturedConstantWins | src/main/java/com/mebigfatguy/fbcontrib/detect/SuspiciousComparatorReturnValues.java:227-290 | ICONST_M1/0/1 followed by IRETURN captures its value, and the following IRETURN records that value whatever the stack holds |
| SuspiciousComparatorReturnValues.StepPreservesConsistency | src/main/java/com/mebigfatguy/fbcontrib/detect/SuspiciousComparatorReturnValues.java:160-291 | every step keeps the invariant: an unconditional non-zero implies a negative or positive was seen, and any captured constant is -1, 0 or 1 |
| SuspiciousComparatorReturnValues.ScanPreservesConsistency | src/main/java/com/mebigfatguy/fbcontrib/detect/SuspiciousComparatorReturnValues.java:136-148 | a completed scan from a consistent state ends consistent |
| SuspiciousComparatorReturnValues.ScanNeverClearsFlags | src/main/java/com/mebigfatguy/fbcontrib/detect/SuspiciousComparatorReturnValues.java:259-291 | a completed scan never clears a sign or unconditional flag |
| SuspiciousComparatorReturnValues.ScanWithoutSwitchKeepsMark | src/main/java/com/mebigfatguy/fbcontrib/detect/SuspiciousComparatorReturnValues.java:170-210 | without switches, the branch mark at the end of a completed scan is at least the starting mark |
| SuspiciousComparatorReturnValues.GuardedReturnsAreConditional | src/main/java/com/mebigfatguy/fbcontrib/detect/SuspiciousComparatorReturnValues.java:275-285 | in switch-free code where every IRETURN lies within the mark or within an earlier forward jump's reach, a completed scan adds no unconditional non-zero |
| SuspiciousComparatorReturnValues.GuardedMethodHasNoUnconditionalReturn | src/main/java/com/mebigfatguy/fbcontrib/detect/SuspiciousComparatorReturnValues.java:129-137 | from the reset state, a switch-free method whose every return is reached by an earlier forward jump has no unconditional non-zero return |
| SuspiciousComparatorReturnValues.ClassFindingsAreGated | src/main/java/com/mebigfatguy/fbcontrib/detect/SuspiciousComparatorReturnValues.java:120-150 | every report for a class names this rule, pc 0 and a method of the class that passes the gate |
| SuspiciousComparatorReturnValues.StackFreeStep | src/main/java/com/mebigfatguy/fbcontrib/detect/SuspiciousComparatorReturnValues.java:160-252 | every step except GOTO/GOTO_W, ATHROW and an IRETURN with nothing captured has an outcome that does not depend on the stack |
| SuspiciousComparatorReturnValues.StackFreeScanAgrees | src/main/java/com/mebigfatguy/fbcontrib/detect/SuspiciousComparatorReturnValues.java:160-252 | for every engine and starting stack, a run of stack-independent instructions scans to the state computed without any stack |
| SuspiciousComparatorReturnValues.StackFreeMethodIsClassified | src/main/java/com/mebigfatguy/fbcontrib/detect/SuspiciousComparatorReturnValues.java:120-145 | a gated method made only of stack-independent instructions is classified by that stack-free scan, on every engine |
| SuspiciousComparatorReturnValues.InertRunScan | src/main/java/com/mebigfatguy/fbcontrib/detect/SuspiciousComparatorReturnValues.java:245-247 | a run of instructions the detector does not single out leaves the scan state unchanged |
| SuspiciousComparatorReturnValues.LoadOperandsScan | src/main/java/com/mebigfatguy/fbcontrib/detect/SuspiciousComparatorReturnValues.java:245-247 | loading and unboxing two Integer operands (ALOAD, INVOKEVIRTUAL `intValue`) leaves the scan state unchanged |
| SuspiciousComparatorReturnValues.ConstReturnScan | src/main/java/com/mebigfatguy/fbcontrib/detect/SuspiciousComparatorReturnValues.java:227-291 | `return c;` compiled as ICONST then IRETURN records c at the pc of the IRETURN |
| SuspiciousComparatorReturnValues.GuardedReturnScan | src/main/java/com/mebigfatguy/fbcontrib/detect/SuspiciousComparatorReturnValues.java:181-201 | a branch around a constant return raises the mark to the branch target before the return is recorded |
| SuspiciousComparatorReturnValues.CompareAndReturnScan | src/main/java/com/mebigfatguy/fbcontrib/detect/SuspiciousComparatorReturnValues.java:181-201 | `if (a OP b) return c;` on Integer operands records c at its IRETURN's pc, after raising the mark to the jump target |
| SuspiciousComparatorReturnValues.AlwaysOneIsReported | src/main/java/com/mebigfatguy/fbcontrib/detect/SuspiciousComparatorReturnValues.java:138-143 | a `compare` that always returns 1 is reported at normal priority |
| SuspiciousComparatorReturnValues.ThreeWayIsNotReported | src/main/java/com/mebigfatguy/fbcontrib/detect/SuspiciousComparatorReturnValues.java:138-143 | `if (a < b) return -1; if (a > b) return 1; return 0;` over Integer operands, as javac compiles it, sees all three signs, has no unconditional non-zero return, and is not reported |
| SuspiciousComparatorReturnValues.NoZeroIsReported | src/main/java/com/mebigfatguy/fbcontrib/detect/SuspiciousComparatorReturnValues.java:138-143 | `if (a < b) return -1; return 1;` over Integer operands never returns 0, and its final `return 1` lies beyond the mark, so it is reported at normal priority |
| SuspiciousComparatorReturnValues.Detector.constructor | src/main/java/com/mebigfatguy/fbcontrib/detect/SuspiciousComparatorReturnValues.java:81-83 | a new detector has no spec, an empty stack and no reports |
| SuspiciousComparatorReturnValues.Detector.ResetForScan | src/main/java/com/mebigfatguy/fbcontrib/detect/SuspiciousComparatorReturnValues.java:129-135 | at scan start all four flags are false, the mark is -1, no constant is captured and the stack is fresh |
| SuspiciousComparatorReturnValues.Detector.ProcessIntegerReturn | src/main/java/com/mebigfatguy/fbcontrib/detect/SuspiciousComparatorReturnValues.java:259-291 | reports an abort exactly as ReturnStep does, and otherwise leaves the fields in ReturnStep's state |
| SuspiciousComparatorReturnValues.Detector.SawOpcode | src/main/java/com/mebigfatguy/fbcontrib/detect/SuspiciousComparatorReturnValues.java:160-252 | runs precomputation, then the detector step, with OpcodeStep's abort and new state, then always the engine replay; the selected MethodInfo and the reports are untouched |
| SuspiciousComparatorReturnValues.Detector.VisitCode | src/main/java/com/mebigfatguy/fbcontrib/detect/SuspiciousComparatorReturnValues.java:120-150 | appends exactly the report Analyze's verdict calls for, leaves the scan fields alone for a method that fails the gate, and for a classified method leaves them at the end state of its scan |
| SuspiciousComparatorReturnValues.Detector.VisitClassContext | src/main/java/com/mebigfatguy/fbcontrib/detect/SuspiciousComparatorReturnValues.java:92-109 | scans every method of the class under the first implemented spec only, appends their reports in method order, reports nothing when no spec applies or a class is missing, and ends with the spec cleared |
| CollectNullableMethodStatus.SlashedName | src/main/java/com/mebigfatguy/fbcontrib/collect/CollectNullableMethodStatus.java:91 | the callee's class name with every `.` replaced by `/`, character by character, so no `.` is left |
| CollectNullableMethodStatus.MarkNullable | src/main/java/com/mebigfatguy/fbcontrib/collect/CollectNullableMethodStatus.java:83-86 | a present entry becomes true; no key is added or removed, and every other entry keeps its value |
| CollectNullableMethodStatus.CollectStep | src/main/java/com/mebigfatguy/fbcontrib/collect/CollectNullableMethodStatus.java:71-110 | a no-op once the method is nullable or on anything but ARETURN; on ARETURN the method becomes nullable exactly when the top item is null or comes from a callee marked true; a step that does not make the method nullable changes nothing, and one that does sets exactly the current entry (when present) to true; the table keeps its keys, only gains marks, writes no entry but the current method's, and stays committed |
| CollectNullableMethodStatus.NullLiteralReturnMarks | src/main/java/com/mebigfatguy/fbcontrib/collect/CollectNullableMethodStatus.java:81-87 | returning the null literal makes the method nullable and sets its entry to true when it has one |
| CollectNullableMethodStatus.CallResultPropagatesOnlyFromNullableCallee | src/main/java/com/mebigfatguy/fbcontrib/collect/CollectNullableMethodStatus.java:89-101 | returning a call result marks the method exactly when the callee's entry, under its slashed class name, exists and is true, and changes nothing otherwise |
| CollectNullableMethodStatus.LatchedScanIsNoOp | src/main/java/com/mebigfatguy/fbcontrib/collect/CollectNullableMethodStatus.java:72-74 | once the method is nullable, the rest of its scan changes neither the flag nor the table |
| CollectNullableMethodStatus.ScanWritesOnlyCurrentUpward | src/main/java/com/mebigfatguy/fbcontrib/collect/CollectNullableMethodStatus.java:77-106 | a whole method scan keeps the table's keys, only sets marks, writes only the current method's entry and ends committed |
| CollectNullableMethodStatus.NullReturnEndsScanNullable | src/main/java/com/mebigfatguy/fbcontrib/collect/CollectNullableMethodStatus.java:72-87 | when the first ARETURN a scan reaches returns the null literal, the scan ends nullable, with the current entry true when present and every other entry unchanged |
| CollectNullableMethodStatus.NullLiteralReturnMarksMethod | src/main/java/com/mebigfatguy/fbcontrib/collect/CollectNullableMethodStatus.java:57-87 | a method without the nullable annotation whose first reached ARETURN returns the null literal ends nullable, with its own entry true when the table has one |
| CollectNullableMethodStatus.NoReturnNoWrite | src/main/java/com/mebigfatguy/fbcontrib/collect/CollectNullableMethodStatus.java:77-106 | a scan of code without ARETURN changes neither the flag nor the table |
| CollectNullableMethodStatus.MethodWritesOnlyItsOwnEntry | src/main/java/com/mebigfatguy/fbcontrib/collect/CollectNullableMethodStatus.java:57-68 | visiting one method only sets marks and touches no entry but its own; an annotated method ends marked true |
| CollectNullableMethodStatus.ClassScanIsMonotone | src/main/java/com/mebigfatguy/fbcontrib/collect/CollectNullableMethodStatus.java:47-68 | over a whole class no mark is ever cleared, and entries of methods outside the class are unchanged, and no key appears for a method outside the class |
| CollectNullableMethodStatus.Collector.constructor | src/main/java/com/mebigfatguy/fbcontrib/collect/CollectNullableMethodStatus.java:43-44 | a new collector is not nullable and has an empty stack |
| CollectNullableMethodStatus.Collector.SawOpcode | src/main/java/com/mebigfatguy/fbcontrib/collect/CollectNullableMethodStatus.java:71-110 | the flag and the table change exactly as CollectStep says, and the engine replays the stack only when the method was not yet nullable |
| CollectNullableMethodStatus.Collector.VisitCode | src/main/java/com/mebigfatguy/fbcontrib/collect/CollectNullableMethodStatus.java:57-68 | an annotated method's entry is set to true without scanning, leaving the stack alone; otherwise the flag is reset and the method is scanned, as CollectMethod says |
| CollectNullableMethodStatus.Collector.VisitClassContext | src/main/java/com/mebigfatguy/fbcontrib/collect/CollectNullableMethodStatus.java:47-54 | the table ends as CollectClass computes it over the class's methods in order |
| ClassImpersonatingString.TagStep | src/com/mebigfatguy/fbcontrib/detect/ClassImpersonatingString.java:61-120 | one `sawOpcode` runs the precomputation, then the receiver mark, then the engine replay, then puts the tag on the new top: it reports exactly a PUTFIELD whose precomputed top is tagged "toString"; the engine decides the new stack's height and everything below its top; a non-builder `toString` always leaves a "toString" tag on a non-empty result; any instruction other than `toString` or `append` leaves the engine's stack as the engine produced it |
| ClassImpersonatingString.OriginTag | src/com/mebigfatguy/fbcontrib/detect/ClassImpersonatingString.java:63-95 | `toString()` on a non-builder gives "toString"; builder `toString` and `append` give the top item's tag (none on an empty stack); every other instruction gives no tag |
| ClassImpersonatingString.MarkReceiver | src/com/mebigfatguy/fbcontrib/detect/ClassImpersonatingString.java:82-93 | only the depth-1 slot can change, and it gets the "toString" tag exactly for an append of an untagged non-String argument over a receiver |
| ClassImpersonatingString.Attach | src/com/mebigfatguy/fbcontrib/detect/ClassImpersonatingString.java:111-118 | a decided tag goes on the new top item when there is one; every other slot, and every slot when no tag was decided, is left as the engine produced it |
| ClassImpersonatingString.ToStringResultIsTagged | src/com/mebigfatguy/fbcontrib/detect/ClassImpersonatingString.java:73-81 | after `toString()` on a non-builder, the top item is the engine's result tagged "toString" and the rest is untouched |
| ClassImpersonatingString.BuilderToStringCarriesReceiverTag | src/com/mebigfatguy/fbcontrib/detect/ClassImpersonatingString.java:74-78 | builder `toString` gives its result the receiver's tag; an untagged receiver or an empty stack leaves the engine's result unchanged |
| ClassImpersonatingString.AppendOfPlainValueTaintsReceiver | src/com/mebigfatguy/fbcontrib/detect/ClassImpersonatingString.java:82-93 | appending an untagged non-String value over a receiver tags the receiver before the engine replays, and reports nothing |
| ClassImpersonatingString.AppendOfTaggedValueIsInherited | src/com/mebigfatguy/fbcontrib/detect/ClassImpersonatingString.java:82-95 | appending a tagged value gives the call's result that tag and tags nothing else |
| ClassImpersonatingString.PutfieldReportsExactlyTaggedValues | src/com/mebigfatguy/fbcontrib/detect/ClassImpersonatingString.java:99-108 | a PUTFIELD reports exactly when the stored top item carries the "toString" tag |
| ClassImpersonatingString.OtherOpcodesAreInert | src/com/mebigfatguy/fbcontrib/detect/ClassImpersonatingString.java:66-110 | an instruction other than INVOKEVIRTUAL and PUTFIELD neither tags nor reports; the stack is just the engine's |
| ClassImpersonatingString.NoTagLeavesEngineResult | src/com/mebigfatguy/fbcontrib/detect/ClassImpersonatingString.java:63-118 | when the detector decides on no tag, the stack after the step is exactly what the engine produced |
| ClassImpersonatingString.ScanReportsOnlyAtPutfield | src/com/mebigfatguy/fbcontrib/detect/ClassImpersonatingString.java:99-108 | every report of a method scan names this rule, normal priority, the scanned method and the pc of one of its PUTFIELDs |
| ClassImpersonatingString.StoredToStringIsReported | src/com/mebigfatguy/fbcontrib/detect/ClassImpersonatingString.java:62-120 | `this.f = o.toString()` is reported once, at the PUTFIELD |
| ClassImpersonatingString.StoredBuiltStringIsReported | src/com/mebigfatguy/fbcontrib/detect/ClassImpersonatingString.java:62-120 | `this.f = sb.append(x).toString()` with x untagged and not a String is reported once, at the PUTFIELD |
| ClassImpersonatingString.StoredLiteralIsNotReported | src/com/mebigfatguy/fbcontrib/detect/ClassImpersonatingString.java:99-108 | storing an untagged value, such as a string literal, is never reported |
| ClassImpersonatingString.Detector.constructor | src/com/mebigfatguy/fbcontrib/detect/ClassImpersonatingString.java:41-43 | a new detector has an empty stack and no reports |
| ClassImpersonatingString.Detector.SawOpcode | src/com/mebigfatguy/fbcontrib/detect/ClassImpersonatingString.java:61-120 | the imperative step leaves the stack as TagStep computes it, and appends a report at the instruction's pc exactly when TagStep reports |
| ClassImpersonatingString.Detector.VisitCode | src/com/mebigfatguy/fbcontrib/detect/ClassImpersonatingString.java:55-59 | starting from a fresh stack, appends exactly the reports of TagScan over the method, in order |
| ClassImpersonatingString.Detector.VisitClassContext | src/com/mebigfatguy/fbcontrib/detect/ClassImpersonatingString.java:45-53 | appends the reports of every method of the class, in method order |

## Left out

- `OpcodeStack` internals (`precomputation`, `sawOpcode`, `resetForMethodEntry`) are not modelled: `Engine` leaves them as arbitrary functions, and `resetForMethodEntry` is an empty stack.
- Item identity is not modelled. Java stack items are shared objects, so `setUserValue` on one is also seen through every other reference to it, such as a duplicated slot or a local. The model's items are values, and a tag is set only on the slot the detector names.
- Bytecode decoding and the visitor's dispatch are left out. An `Insn` carries its pc, branch target, switch default offset, next opcode and call operands as fields.
- `SignatureUtils.getNumParameters` is the `paramCount` field of a method, and `AnnotationUtils.methodHasNullableAnnotation` is the `hasNullableAnnotation` field.
- BCEL's `Repository.lookupClass` and `JavaClass.implementationOf` are the oracle `implementationOf`, which answers None where a ClassNotFoundException is thrown. The static initialiser that can swallow a lookup failure is not modelled: `CompareSpecs` always holds both specs.
- `reportMissingClass` is not modelled: a missing class ends the visit with no report (the `MissingClass` selection).
- `String.hashCode` is an arbitrary function parameter of `HashCode`, and `ToString.build` is left out.
- The `ClassCastException` that `(Integer) item.getConstant()` could throw is not modelled: a constant is an `Option<int>`.
- A `BugInstance` is reduced to its rule, priority, method and pc. The class and source-line annotations are left out.
- The `Statistics` singleton is a `map` from method key to `canReturnNull`; an absent key is a `null` from `getMethodStatistics`. The code checks for `null` at every ARETURN write (CollectNullableMethodStatus.java:84, :96).
- CollectNullableMethodStatus.CollectMethod: for an annotated method the table has no record of, the model creates the entry. The source dereferences the lookup without a `null` check there.
- SuspiciousComparatorReturnValues.Detector.VisitCode requires a selected spec. In the source it runs only inside `visitClassContext` after a spec is chosen; elsewhere `methodInfo` is `null`.
- The comparator scan stops at an ATHROW exactly when the thrown type is UnsupportedOperationException (SuspiciousComparatorReturnValues.java:212-218).
- SuspiciousComparatorReturnValues.ThreeWayIsNotReported, AlwaysOneIsReported and NoZeroIsReported are stated for method bodies whose every instruction is stack-independent. Methods whose verdict depends on stack constants are covered only by the general lemmas.
- ClassImpersonatingString.StoredLiteralIsNotReported assumes an engine whose precomputation leaves the stack unchanged.
- ClassImpersonatingString.StoredToStringIsReported assumes an engine whose precomputation leaves the stack unchanged, and whose `toString` replay leaves a result on the stack.
- ClassImpersonatingString.StoredBuiltStringIsReported assumes the same precomputation. It also assumes an engine whose `append` result carries the receiver's tag, and whose builder `toString` leaves a result. Whether the FindBugs engine keeps that tag on the result of `append` is not part of this model.
