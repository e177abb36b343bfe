/**
 * The record dispatcher and the per-type cache of synthesized writers.
 *
 * The cache is the process-wide dictionary from run-time type to its lazily
 * built writer. Here it is one sequential object: a get-or-add that builds
 * the writer on a miss and stores what came out, the exception included,
 * for good.
 */
module RecordWriter {
  import opened Wrappers
  import opened AvroModel
  import opened DynamicRecord
  import opened TypedRecord

  /** The writer the cache hands out for `t`: the stored one, or the one a miss builds from `plan`. */
  function CachedOrBuilt(entries: map<RuntimeType, Result<seq<Op>, EncodeError>>, t: RuntimeType,
                         plan: seq<WriteStep>): Result<seq<Op>, EncodeError>
  {
    if t in entries then entries[t] else Synthesize(t, plan)
  }

  /** The dictionary of synthesized record writers, keyed by run-time type. */
  class WritersDictionary {
    /** The stored writer (or stored synthesis exception) of each type seen. */
    var entries: map<RuntimeType, Result<seq<Op>, EncodeError>>
    /** The plan each stored writer was synthesized from. */
    ghost var boundPlans: map<RuntimeType, seq<WriteStep>>
    /** How many times synthesis has run for each type. */
    ghost var runs: multiset<RuntimeType>

    /**
     * Each stored entry is what synthesis gave for its type and the plan it
     * was first asked with, and synthesis has run exactly once for each
     * stored type and never for any other.
     */
    ghost predicate Valid()
      reads this
    {
      entries.Keys == boundPlans.Keys &&
      (forall t :: t in entries ==> entries[t] == Synthesize(t, boundPlans[t])) &&
      (forall t :: runs[t] == if t in entries then 1 else 0)
    }

    constructor ()
      ensures Valid() && entries == map[]
    {
      entries := map[];
      boundPlans := map[];
      runs := multiset{};
    }

    /**
     * `GetOrAdd` of a lazily built writer, then its `Value`. On a hit the
     * stored writer or stored exception is returned whatever plan is passed,
     * and nothing is synthesized; on a miss the writer is synthesized once
     * from `writeSteps` and stored, exception or not. Entries are never
     * removed or replaced.
     */
    method GetOrAdd(t: RuntimeType, writeSteps: seq<WriteStep>) returns (r: Result<seq<Op>, EncodeError>)
      requires Valid()
      modifies this
      ensures Valid()
      ensures r == CachedOrBuilt(old(entries), t, writeSteps)
      ensures t in entries && entries[t] == r && r == Synthesize(t, boundPlans[t])
      ensures t in old(entries) ==> entries == old(entries) && runs == old(runs) && boundPlans == old(boundPlans)
      ensures t !in old(entries) ==>
        entries == old(entries)[t := r] && boundPlans == old(boundPlans)[t := writeSteps] &&
        runs == old(runs) + multiset{t}
      ensures forall u :: u in old(entries) ==> u in entries && entries[u] == old(entries)[u]
    {
      if t in entries {
        r := entries[t];
      } else {
        r := GetRecordWriter(t, writeSteps);
        entries := entries[t := r];
        boundPlans := boundPlans[t := writeSteps];
        runs := runs + multiset{t};
      }
    }
  }

  /**
   * Writes one record object with the field plan `writers`: a null record as
   * a single null; a dynamic record by looking each step's name up ignoring
   * case; any other object with the writer cached for its run-time type,
   * synthesized from `writers` when the type is new. An exception leaves the
   * writer untouched.
   */
  method WriteRecordFields(recordObj: Instance, writers: seq<WriteStep>, encoder: Writer, cache: WritersDictionary)
    returns (outcome: Outcome<EncodeError>)
    requires cache.Valid()
    requires recordObj.Typed? ==> WellTyped(recordObj.rtype, recordObj.values)
    modifies encoder, cache
    ensures cache.Valid()
    ensures !recordObj.Typed? ==> cache.entries == old(cache.entries) && cache.runs == old(cache.runs)
    ensures recordObj.NullRecord? ==> outcome.Pass? && encoder.log == old(encoder.log) + [WroteNull]
    ensures recordObj.Expando? ==>
      outcome == (if HasFoldCollision(recordObj.members) then Fail(DuplicateKey) else Pass) &&
      encoder.log == old(encoder.log) + (if outcome.Pass? then DynamicEvents(writers, recordObj.members) else [])
    ensures recordObj.Typed? ==>
      var t := recordObj.rtype;
      var w := CachedOrBuilt(old(cache.entries), t, writers);
      cache.entries == old(cache.entries)[t := w] &&
      outcome == (if w.Success? then Pass else Fail(w.error)) &&
      (w.Success? ==> OpsFit(w.value, recordObj.values)) &&
      encoder.log == old(encoder.log) + (if w.Success? then ExecOps(w.value, recordObj.values) else [])
    ensures outcome.Fail? ==> encoder.log == old(encoder.log)
  {
    match recordObj
    case NullRecord =>
      encoder.WriteNull();
      outcome := Pass;
    case Expando(members) =>
      outcome := HandleExpando(writers, encoder, members);
    case Typed(t, values) =>
      var lazyWriters := cache.GetOrAdd(t, writers);
      if lazyWriters.Failure? {
        return Fail(lazyWriters.error);
      }
      SynthesizedOpsFit(t, cache.boundPlans[t], values);
      InvokeRecordWriter(lazyWriters.value, values, encoder);
      outcome := Pass;
  }
}

/**
 * Two scenarios of the record writer that show the cache's behaviour over time:
 * a type's writer stays bound to the first plan it was built from, and a
 * failed synthesis is raised again without being retried.
 */
module CacheScenarios {
  import opened Wrappers
  import opened AvroModel
  import opened TypedRecord
  import opened RecordWriter

  /**
   * The same object written with a plan naming `X` and then with a plan
   * naming `Y`: the second write still writes `X`, through the writer bound
   * to the first plan.
   */
  method SecondPlanIgnored() returns (first: seq<Event>, second: seq<Event>)
    ensures first == [WroteInt(1)]
    ensures second == [WroteInt(1)]
  {
    var t := RuntimeType("Point", map["X" := IntProp, "Y" := IntProp]);
    var point := Typed(t, map["X" := IntValue(1), "Y" := IntValue(2)]);
    var item := FieldWriter(TypeSchema("int"));
    var planX, planY := [WriteStep("X", item)], [WriteStep("Y", item)];
    assert "X" != "Y" by { assert "X"[0] != "Y"[0]; }
    assert Synthesize(t, planX) == Success([Op("X", WriteIntCall)]) by {
      assert StepOps(t, planX[0]) == Success([Op("X", WriteIntCall)]);
      assert planX[1..] == [];
      assert [Op("X", WriteIntCall)] + [] == [Op("X", WriteIntCall)];
    }
    var cache := new WritersDictionary();
    var writer1 := new Writer();
    var outcome1 := WriteRecordFields(point, planX, writer1, cache);
    var writer2 := new Writer();
    var outcome2 := WriteRecordFields(point, planY, writer2, cache);
    first, second := writer1.log, writer2.log;
  }

  /**
   * An object with a `double` property is written twice: both writes raise
   * the synthesis exception, and synthesis ran only once.
   */
  method FailureCached() returns (outcome1: Outcome<EncodeError>, outcome2: Outcome<EncodeError>, ghost synthesisRuns: nat)
    ensures outcome1 == Fail(NotImplemented) && outcome2 == Fail(NotImplemented)
    ensures synthesisRuns == 1
  {
    var t := RuntimeType("Sample", map["Ratio" := OtherValueTypeProp("System.Double")]);
    var sample := Typed(t, map["Ratio" := StructValue("System.Double")]);
    var plan := [WriteStep("Ratio", FieldWriter(TypeSchema("double")))];
    assert Synthesize(t, plan) == Failure(NotImplemented);
    var cache := new WritersDictionary();
    var writer := new Writer();
    outcome1 := WriteRecordFields(sample, plan, writer, cache);
    outcome2 := WriteRecordFields(sample, plan, writer, cache);
    synthesisRuns := cache.runs[t];
  }
}
