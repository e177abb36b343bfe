/**
 * Typed-writer synthesis: for a run-time type and a field plan, the writer
 * that reads each planned property straight off an instance. The compiled
 * expression tree is represented as data, a list of writer calls (`Op`s),
 * and running the writer is interpreting that list.
 */
module TypedRecord {
  import opened Wrappers
  import opened AvroModel

  /** The writer call one property is compiled to. */
  datatype Call =
    | WriteIntCall
    | WriteGuidCall
    | WriteBooleanCall
    | WriteLongCall
    | WriteIntOfEnumCall          // the enum converted to `int`, then written as an int
    | InvokeWriteItem(item: WriteItem)  // the step's own field encoder, on the boxed value

  /** One compiled statement: read property `member`, then make `call` with it. */
  datatype Op = Op(member: string, call: Call)

  /** The value read can be passed to the call (the compiled tree is well typed). */
  predicate Fits(call: Call, v: Value) {
    match call
    case WriteIntCall => v.IntValue?
    case WriteGuidCall => v.GuidValue?
    case WriteBooleanCall => v.BoolValue?
    case WriteLongCall => v.LongValue?
    case WriteIntOfEnumCall => v.EnumValue?
    case InvokeWriteItem(_) => true
  }

  /**
   * The primitive writer call for a value-type property, or the exception for
   * an unsupported one: a supported kind gets the one primitive call that
   * accepts every value of that kind.
   */
  function GetMethodCall(kind: PropKind): (r: Result<Call, EncodeError>)
    requires kind.IsValueType()
    ensures r.Failure? <==> kind.OtherValueTypeProp?
    ensures r.Failure? ==> r.error == NotImplemented
    ensures r.Success? ==> !r.value.InvokeWriteItem? && forall v :: HasKind(v, kind) ==> Fits(r.value, v)
  {
    match kind
    case IntProp => Success(WriteIntCall)
    case GuidProp => Success(WriteGuidCall)
    case BoolProp => Success(WriteBooleanCall)
    case LongProp => Success(WriteLongCall)
    case EnumProp => Success(WriteIntOfEnumCall)
    case OtherValueTypeProp(_) => Failure(NotImplemented)
  }

  /** What one plan step contributes: nothing without an exactly named property, else one call. */
  function StepOps(t: RuntimeType, step: WriteStep): Result<seq<Op>, EncodeError> {
    if step.fieldName !in t.properties then Success([])
    else
      var kind := t.properties[step.fieldName];
      if kind.IsValueType() then
        match GetMethodCall(kind)
        case Success(call) => Success([Op(step.fieldName, call)])
        case Failure(e) => Failure(e)
      else Success([Op(step.fieldName, InvokeWriteItem(step.writeField))])
  }

  /** `ops` followed by the calls of `rest`, or the exception that ended `rest`. */
  function Prepend(ops: seq<Op>, rest: Result<seq<Op>, EncodeError>): Result<seq<Op>, EncodeError> {
    match rest
    case Success(tail) => Success(ops + tail)
    case Failure(e) => Failure(e)
  }

  /** The synthesized writer: the steps' calls in plan order, or the first step's exception. */
  function Synthesize(t: RuntimeType, steps: seq<WriteStep>): Result<seq<Op>, EncodeError>
    decreases |steps|
  {
    if steps == [] then Success([])
    else
      match StepOps(t, steps[0])
      case Failure(e) => Failure(e)
      case Success(head) => Prepend(head, Synthesize(t, steps[1..]))
  }

  // ---------------------------------------------------------------------------
  // A reference description of the synthesized writer

  /** The steps that have an exactly named public property, in plan order. */
  function MatchedSteps(t: RuntimeType, steps: seq<WriteStep>): (m: seq<WriteStep>)
    ensures |m| <= |steps|
    ensures forall k :: 0 <= k < |m| ==> m[k].fieldName in t.properties
    ensures forall s {:trigger s in m} :: s in m <==> s in steps && s.fieldName in t.properties
    decreases |steps|
  {
    if steps == [] then []
    else (if steps[0].fieldName in t.properties then [steps[0]] else []) + MatchedSteps(t, steps[1..])
  }

  /** Matching distributes over plan concatenation, so the matched steps keep plan order. */
  lemma {:induction false} MatchedStepsAppend(t: RuntimeType, p: seq<WriteStep>, q: seq<WriteStep>)
    ensures MatchedSteps(t, p + q) == MatchedSteps(t, p) + MatchedSteps(t, q)
  {
    if p == [] {
      assert p + q == q;
    } else {
      assert (p + q)[0] == p[0] && (p + q)[1..] == p[1..] + q;
      MatchedStepsAppend(t, p[1..], q);
    }
  }

  /** Some step names a property whose value type has no writer call. */
  predicate HasUnsupportedMember(t: RuntimeType, steps: seq<WriteStep>) {
    exists i :: 0 <= i < |steps| && steps[i].fieldName in t.properties &&
      t.properties[steps[i].fieldName].OtherValueTypeProp?
  }

  /** The writer call a property of each kind is given, the field encoder for reference types. */
  function CallFor(kind: PropKind, item: WriteItem): Call
    requires !kind.OtherValueTypeProp?
  {
    if kind.IsValueType() then GetMethodCall(kind).value else InvokeWriteItem(item)
  }

  /** The type's properties named by the steps all have a writer call. */
  predicate AllSupported(t: RuntimeType, steps: seq<WriteStep>) {
    forall k :: 0 <= k < |steps| ==>
      (steps[k].fieldName in t.properties && !t.properties[steps[k].fieldName].OtherValueTypeProp?)
  }

  /** One call per matched step, reading that step's property. */
  function OpsFor(t: RuntimeType, matched: seq<WriteStep>): (ops: seq<Op>)
    requires AllSupported(t, matched)
  {
    seq(|matched|, k requires 0 <= k < |matched| =>
      Op(matched[k].fieldName, CallFor(t.properties[matched[k].fieldName], matched[k].writeField)))
  }

  /** Synthesis fails exactly when some planned property has an unsupported value type. */
  lemma {:induction false} SynthesisFailsIff(t: RuntimeType, steps: seq<WriteStep>)
    ensures Synthesize(t, steps).Failure? <==> HasUnsupportedMember(t, steps)
    ensures Synthesize(t, steps).Failure? ==> Synthesize(t, steps).error == NotImplemented
  {
    if steps != [] {
      SynthesisFailsIff(t, steps[1..]);
      if HasUnsupportedMember(t, steps[1..]) {
        var i :| 0 <= i < |steps[1..]| && steps[1..][i].fieldName in t.properties &&
          t.properties[steps[1..][i].fieldName].OtherValueTypeProp?;
        assert steps[i + 1] == steps[1..][i];
      }
      if HasUnsupportedMember(t, steps) && !HasUnsupportedMember(t, steps[1..]) {
        var i :| 0 <= i < |steps| && steps[i].fieldName in t.properties &&
          t.properties[steps[i].fieldName].OtherValueTypeProp?;
      }
    }
  }

  /**
   * A successful synthesis calls, in plan order, exactly the matched steps:
   * each reads its own property and makes the call its property's kind
   * selects, the step's own encoder for a reference type.
   */
  lemma {:induction false} SynthesisMatchesReference(t: RuntimeType, steps: seq<WriteStep>)
    requires Synthesize(t, steps).Success?
    ensures AllSupported(t, MatchedSteps(t, steps))
    ensures Synthesize(t, steps).value == OpsFor(t, MatchedSteps(t, steps))
  {
    if steps != [] {
      var s := steps[0];
      assert StepOps(t, s).Success?;
      SynthesisMatchesReference(t, steps[1..]);
      var rest := MatchedSteps(t, steps[1..]);
      if s.fieldName in t.properties {
        var op := Op(s.fieldName, CallFor(t.properties[s.fieldName], s.writeField));
        assert StepOps(t, s) == Success([op]);
        assert MatchedSteps(t, steps) == [s] + rest;
        OpsForCons(t, s, rest);
      } else {
        assert MatchedSteps(t, steps) == rest;
      }
    }
  }

  /** The reference calls of a step followed by others: that step's call, then theirs. */
  lemma OpsForCons(t: RuntimeType, s: WriteStep, rest: seq<WriteStep>)
    requires AllSupported(t, rest)
    requires s.fieldName in t.properties && !t.properties[s.fieldName].OtherValueTypeProp?
    ensures AllSupported(t, [s] + rest)
    ensures OpsFor(t, [s] + rest) == [Op(s.fieldName, CallFor(t.properties[s.fieldName], s.writeField))] + OpsFor(t, rest)
  {
    var m := [s] + rest;
    forall k | 0 <= k < |m|
      ensures m[k].fieldName in t.properties && !t.properties[m[k].fieldName].OtherValueTypeProp?
    {
      if k > 0 { assert m[k] == rest[k - 1]; }
    }
    var lhs, rhs := OpsFor(t, m), [Op(s.fieldName, CallFor(t.properties[s.fieldName], s.writeField))] + OpsFor(t, rest);
    forall k | 0 <= k < |m| ensures lhs[k] == rhs[k] {
      if k > 0 { assert m[k] == rest[k - 1]; }
    }
  }

  /** Synthesizing a concatenated plan concatenates the synthesized calls. */
  lemma {:induction false} SynthesizeAppend(t: RuntimeType, p: seq<WriteStep>, q: seq<WriteStep>)
    ensures Synthesize(t, p + q) ==
      match Synthesize(t, p)
      case Failure(e) => Failure(e)
      case Success(ops) => Prepend(ops, Synthesize(t, q))
  {
    if p == [] {
      assert p + q == q;
      match Synthesize(t, q)
      case Failure(_) =>
      case Success(ops) => assert [] + ops == ops;
    } else {
      assert (p + q)[0] == p[0] && (p + q)[1..] == p[1..] + q;
      SynthesizeAppend(t, p[1..], q);
      match StepOps(t, p[0])
      case Failure(_) =>
      case Success(head) =>
        match Synthesize(t, p[1..])
        case Failure(_) =>
        case Success(ops) => PrependPrepend(head, ops, Synthesize(t, q));
    }
  }

  lemma PrependPrepend(a: seq<Op>, b: seq<Op>, r: Result<seq<Op>, EncodeError>)
    ensures Prepend(a, Prepend(b, r)) == Prepend(a + b, r)
  {
    match r
    case Failure(_) =>
    case Success(c) => assert a + (b + c) == (a + b) + c;
  }

  lemma SkippedStepAlone(t: RuntimeType, step: WriteStep)
    requires step.fieldName !in t.properties
    ensures Synthesize(t, [step]) == Success([])
  {
    var empty: seq<Op> := [];
    assert StepOps(t, step) == Success(empty);
    assert [step][1..] == [];
    assert Synthesize(t, [step][1..]) == Success(empty);
    assert empty + empty == empty;
  }

  /** A step with no exactly named property is skipped, and the other steps compile as without it. */
  lemma {:induction false} UnmatchedStepSkipped(t: RuntimeType, before: seq<WriteStep>, step: WriteStep, after: seq<WriteStep>)
    requires step.fieldName !in t.properties
    ensures Synthesize(t, before + [step] + after) == Synthesize(t, before + after)
  {
    SynthesizeAppend(t, before + [step], after);
    SynthesizeAppend(t, before, [step]);
    SynthesizeAppend(t, before, after);
    SkippedStepAlone(t, step);
    match Synthesize(t, before)
    case Failure(_) =>
    case Success(ops) => assert ops + [] == ops;
  }

  /** Property names match exactly: a step named `id` does not read a property named `Id`. */
  lemma TypedMatchIsCaseSensitive(item: WriteItem)
    ensures Synthesize(RuntimeType("Model", map["Id" := IntProp]), [WriteStep("id", item)]) == Success([])
  {
    var t, step := RuntimeType("Model", map["Id" := IntProp]), WriteStep("id", item);
    assert "id" != "Id" by { assert "id"[0] != "Id"[0]; }
    SkippedStepAlone(t, step);
  }

  /**
   * Builds the record writer for a type and a plan, appending one call per
   * planned property in plan order and throwing at the first property of an
   * unsupported value type.
   */
  method GetRecordWriter(t: RuntimeType, writeSteps: seq<WriteStep>) returns (r: Result<seq<Op>, EncodeError>)
    ensures r == Synthesize(t, writeSteps)
    ensures r.Failure? <==> HasUnsupportedMember(t, writeSteps)
    ensures r.Success? ==> AllSupported(t, MatchedSteps(t, writeSteps)) &&
                           r.value == OpsFor(t, MatchedSteps(t, writeSteps))
  {
    var namePropertyInfoMap := t.properties;
    var expressions: seq<Op> := [];
    var index := 0;
    assert writeSteps[index..] == writeSteps;
    match Synthesize(t, writeSteps) {
      case Failure(_) =>
      case Success(ops) => assert [] + ops == ops;
    }
    while index < |writeSteps|
      invariant 0 <= index <= |writeSteps|
      invariant Synthesize(t, writeSteps) == Prepend(expressions, Synthesize(t, writeSteps[index..]))
    {
      var writeStep := writeSteps[index];
      assert writeSteps[index..][0] == writeStep && writeSteps[index..][1..] == writeSteps[index + 1..];
      if writeStep.fieldName in namePropertyInfoMap {
        var propertyType := namePropertyInfoMap[writeStep.fieldName];
        if propertyType.IsValueType() {
          var methodCall := GetMethodCall(propertyType);
          if methodCall.Failure? {
            assert StepOps(t, writeStep) == Failure(NotImplemented);
            r := Failure(methodCall.error);
            SynthesisFailsIff(t, writeSteps);
            return;
          }
          PrependPrepend(expressions, [Op(writeStep.fieldName, methodCall.value)], Synthesize(t, writeSteps[index + 1..]));
          expressions := expressions + [Op(writeStep.fieldName, methodCall.value)];
        } else {
          PrependPrepend(expressions, [Op(writeStep.fieldName, InvokeWriteItem(writeStep.writeField))],
                         Synthesize(t, writeSteps[index + 1..]));
          expressions := expressions + [Op(writeStep.fieldName, InvokeWriteItem(writeStep.writeField))];
        }
      } else {
        PrependPrepend(expressions, [], Synthesize(t, writeSteps[index + 1..]));
        assert expressions + [] == expressions;
      }
      index := index + 1;
    }
    assert writeSteps[index..] == [];
    assert expressions + [] == expressions;
    r := Success(expressions);
    SynthesisFailsIff(t, writeSteps);
    SynthesisMatchesReference(t, writeSteps);
  }

  // ---------------------------------------------------------------------------
  // Running a synthesized writer

  predicate OpsFit(ops: seq<Op>, values: map<string, Value>) {
    forall k :: 0 <= k < |ops| ==> ops[k].member in values && Fits(ops[k].call, values[ops[k].member])
  }

  /** What one compiled call asks of the writer. */
  function Exec(op: Op, values: map<string, Value>): Event
    requires op.member in values && Fits(op.call, values[op.member])
  {
    var v := values[op.member];
    match op.call
    case WriteIntCall => WroteInt(v.i)
    case WriteGuidCall => WroteGuid(v.g)
    case WriteBooleanCall => WroteBoolean(v.b)
    case WriteLongCall => WroteLong(v.l)
    case WriteIntOfEnumCall => WroteInt(ToInt32(v.raw))
    case InvokeWriteItem(item) => WroteField(item, v)
  }

  /** What a compiled writer asks of the writer, call by call. */
  function ExecOps(ops: seq<Op>, values: map<string, Value>): seq<Event>
    requires OpsFit(ops, values)
  {
    if ops == [] then []
    else
      assert OpsFit(ops[..|ops| - 1], values) by {
        forall k | 0 <= k < |ops| - 1 ensures ops[..|ops| - 1][k] == ops[k] { }
      }
      ExecOps(ops[..|ops| - 1], values) + [Exec(ops[|ops| - 1], values)]
  }

  lemma {:induction false} ExecOpsAt(ops: seq<Op>, values: map<string, Value>)
    requires OpsFit(ops, values)
    ensures |ExecOps(ops, values)| == |ops|
    ensures forall k :: 0 <= k < |ops| ==> ExecOps(ops, values)[k] == Exec(ops[k], values)
  {
    if ops != [] {
      var prefix := ops[..|ops| - 1];
      forall k | 0 <= k < |ops| - 1 ensures prefix[k] == ops[k] { }
      ExecOpsAt(prefix, values);
    }
  }

  /** The writer synthesized for a type can run on every well-typed instance of it. */
  lemma {:induction false} SynthesizedOpsFit(t: RuntimeType, steps: seq<WriteStep>, values: map<string, Value>)
    requires WellTyped(t, values)
    requires Synthesize(t, steps).Success?
    ensures OpsFit(Synthesize(t, steps).value, values)
  {
    SynthesisMatchesReference(t, steps);
    var m := MatchedSteps(t, steps);
    var ops := Synthesize(t, steps).value;
    forall k | 0 <= k < |ops| ensures ops[k].member in values && Fits(ops[k].call, values[ops[k].member]) {
      assert ops[k] == Op(m[k].fieldName, CallFor(t.properties[m[k].fieldName], m[k].writeField));
    }
  }

  /**
   * Encoding a typed instance with its type's writer: the `k`-th event comes
   * from the `k`-th matched step's property, as an int, Guid, boolean or long
   * for those types, as the int conversion of an enum, and through the step's
   * own encoder for a reference type.
   */
  lemma TypedEventAt(t: RuntimeType, steps: seq<WriteStep>, values: map<string, Value>, k: nat)
    requires WellTyped(t, values)
    requires Synthesize(t, steps).Success?
    requires k < |MatchedSteps(t, steps)|
    ensures OpsFit(Synthesize(t, steps).value, values)
    ensures |ExecOps(Synthesize(t, steps).value, values)| == |MatchedSteps(t, steps)|
    ensures
      var step := MatchedSteps(t, steps)[k];
      var v := values[step.fieldName];
      var e := ExecOps(Synthesize(t, steps).value, values)[k];
      match t.properties[step.fieldName]
      case IntProp => e == WroteInt(v.i)
      case GuidProp => e == WroteGuid(v.g)
      case BoolProp => e == WroteBoolean(v.b)
      case LongProp => e == WroteLong(v.l)
      case EnumProp => e == WroteInt(ToInt32(v.raw))
      case ReferenceProp => e == WroteField(step.writeField, v)
      case OtherValueTypeProp(_) => false
  {
    SynthesisMatchesReference(t, steps);
    SynthesizedOpsFit(t, steps, values);
    ExecOpsAt(Synthesize(t, steps).value, values);
  }

  /**
   * Runs a synthesized writer on an instance: each call reads its property
   * and hands it to the writer, in order.
   */
  method InvokeRecordWriter(ops: seq<Op>, values: map<string, Value>, writer: Writer)
    requires OpsFit(ops, values)
    modifies writer
    ensures writer.log == old(writer.log) + ExecOps(ops, values)
  {
    var i := 0;
    while i < |ops|
      invariant 0 <= i <= |ops|
      invariant OpsFit(ops[..i], values)
      invariant writer.log == old(writer.log) + ExecOps(ops[..i], values)
    {
      var op := ops[i];
      var v := values[op.member];
      assert ops[..i + 1][..i] == ops[..i] && ops[..i + 1][i] == op;
      assert OpsFit(ops[..i + 1], values);
      match op.call {
        case WriteIntCall => writer.WriteInt(v.i);
        case WriteGuidCall => writer.WriteGuid(v.g);
        case WriteBooleanCall => writer.WriteBoolean(v.b);
        case WriteLongCall => writer.WriteLong(v.l);
        case WriteIntOfEnumCall => writer.WriteInt(ToInt32(v.raw));
        case InvokeWriteItem(item) => writer.WriteField(item, v);
      }
      i := i + 1;
    }
    assert ops[..i] == ops;
  }
}
