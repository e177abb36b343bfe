# AvroConvert record writer, modelled in Dafny

This project models the record-writing resolver of AvroConvert
(`WriteResolver` in `src/AvroConvert/AvroObjectServices/Write/Resolvers/Record.cs`).
It implements the Avro binary encoding of records: a record is written as its
fields, one after another, in schema order (Apache Avro 1.11 specification,
"Binary Encoding", "Complex Types", "Records"). The model has four parts:

- **Field plan** (`FieldPlan`, file `field_plan.dfy`). `ResolveRecord` turns a record schema into an
  ordered list of `WriteStep`s, one per field. A step has the name the field is looked up by (its first
  alias, else its own name) and the field's value encoder.
- **Dynamic records** (`DynamicRecord`, `dynamic_record.dfy`). `HandleExpando` first copies an
  `ExpandoObject` into a dictionary whose keys compare ignoring case. It then walks the plan and gives
  each step's encoder the value found under the step's name, or null when there is none.
- **Typed records** (`TypedRecord`, `typed_record.dfy`). `GetRecordWriter` builds the writer for a
  run-time type. The compiled expression tree becomes a list of writer calls (`Op`s):
  - a planned property of type int, Guid, bool or long becomes the primitive writer call for that type;
  - an enum becomes `WriteInt` of its value converted to `int`;
  - a reference-type property becomes a call of the step's own encoder;
  - a value-type property of any other type makes synthesis throw;
  - a step with no property of exactly that name is skipped.

  `InvokeRecordWriter` then runs those calls on an instance.
- **Cache and dispatcher** (`RecordWriter`, `record_writer.dfy`). `WritersDictionary` is the
  per-type dictionary of built writers. A writer is built on the first request for its type and then kept
  for good, together with the exception if building it failed. `WriteRecordFields` handles the three
  kinds of object: a null record is written as one null, an expando goes to the dynamic path, and any other
  object goes through the cache. Two scenarios in `CacheScenarios` show the cache over time.

Shared types are in `AvroModel` (`avro_model.dfy`): schemas, steps, values, property kinds, run-time
types, writer events, and the `Writer` class. `Wrappers` (`wrappers.dfy`) holds `Option`, `Result` and
`Outcome`.

Collaborators this code calls but does not define are kept abstract:
- The primitive writer `IWriter` is a `Writer` object that records each call in its `log`.
- A field's value encoder (the `WriteItem` that `ResolveWriter` returns for the field's schema) is the
  symbolic `FieldWriter(schema)`. Invoking it on a value logs `WroteField(encoder, value)`.
- Reflection becomes data. A run-time type is a map from public property name to property kind. A typed
  instance is a map from property name to value.

Two behaviours of the code are easy to misread:
- The typed path matches plan names against property names **exactly**, although
  `BindingFlags.IgnoreCase` is passed: `ToDictionary` at Record.cs:112 uses the default ordinal comparer,
  and the flag does not change what `GetProperties` returns. `TypedMatchIsCaseSensitive` shows a step
  named `id` that does not read a property named `Id`.
- The dynamic path can fail: `ToDictionary` at Record.cs:98 copies the expando with a case-insensitive
  comparer and throws when two keys are equal ignoring case, for example `a` and `A`. The model raises
  `DuplicateKey`, and in that case nothing is written.

## Model

| member | source | states |
|---|---|---|
| `FieldPlan.ResolveRecord` | src/AvroConvert/AvroObjectServices/Write/Resolvers/Record.cs:39-52 | There is one step per schema field, and step `i` belongs to field `i`. Its name is the field's first alias when the field has aliases, otherwise the field's name. Its encoder is the one resolved for that field's value schema. |
| `DynamicRecord.ToCaseInsensitiveDictionary` | src/AvroConvert/AvroObjectServices/Write/Resolvers/Record.cs:98 | Copying fails with `DuplicateKey` exactly when two keys are equal ignoring case. Otherwise a lookup of any name in the copy finds what a case-insensitive search of the expando's members finds. |
| `DynamicRecord.HandleExpando` | src/AvroConvert/AvroObjectServices/Write/Resolvers/Record.cs:96-105 | Without a key collision, the writer receives exactly `DynamicEvents(plan, members)`: every step, in plan order, with the value found under its name or null. With a collision nothing is written. |
| `DynamicRecord.DynamicEventsAt` | src/AvroConvert/AvroObjectServices/Write/Resolvers/Record.cs:100-104 | A dynamic record produces exactly as many writes as there are plan steps. Write `i` is step `i`'s encoder applied to the value found under step `i`'s name, or to null. |
| `DynamicRecord.LookupFound` | src/AvroConvert/AvroObjectServices/Write/Resolvers/Record.cs:102 | The lookup finds a value exactly when some key equals the name ignoring case. |
| `DynamicRecord.LookupFindsMember` | src/AvroConvert/AvroObjectServices/Write/Resolvers/Record.cs:98-102 | When no two keys collide, the value found is the value of the member whose key matches ignoring case. |
| `DynamicRecord.LookupIgnoresCase` | src/AvroConvert/AvroObjectServices/Write/Resolvers/Record.cs:98-102 | Two names that are equal ignoring case find the same value. |
| `DynamicRecord.LookupSkipsOtherKey` | src/AvroConvert/AvroObjectServices/Write/Resolvers/Record.cs:98-102 | Inserting a member whose key does not match a name, anywhere in the expando, does not change what that name finds. |
| `DynamicRecord.MissingKeyWritesNull` | src/AvroConvert/AvroObjectServices/Write/Resolvers/Record.cs:102-103 | A step whose name no key matches passes null to its own encoder. |
| `DynamicRecord.UnplannedKeyIgnored` | src/AvroConvert/AvroObjectServices/Write/Resolvers/Record.cs:100-104 | A key that matches no plan step, inserted anywhere, leaves the writes unchanged. |
| `DynamicRecord.LookupSnoc` | src/AvroConvert/AvroObjectServices/Write/Resolvers/Record.cs:98 | Appending a member changes the lookup only for names that no earlier key matched. This is the step the dictionary copy relies on. |
| `TypedRecord.GetMethodCall` | src/AvroConvert/AvroObjectServices/Write/Resolvers/Record.cs:153-170 | A value-type property fails with `NotImplemented` exactly when its type is unsupported. Otherwise it gets a primitive writer call, never the field encoder, and that call accepts every value of the property's kind: int, Guid, boolean and long get their own write, an enum gets the int write of its conversion. |
| `TypedRecord.MatchedSteps` | src/AvroConvert/AvroObjectServices/Write/Resolvers/Record.cs:124-128 | Keeps exactly the plan steps that have a property of exactly that name, and nothing else. It never keeps more steps than the plan has. |
| `TypedRecord.MatchedStepsAppend` | src/AvroConvert/AvroObjectServices/Write/Resolvers/Record.cs:124-128 | Matching the steps of a concatenated plan concatenates the matched steps, so the kept steps stay in plan order. |
| `TypedRecord.GetRecordWriter` | src/AvroConvert/AvroObjectServices/Write/Resolvers/Record.cs:107-148 | The built writer is `Synthesize(t, plan)`. Building fails exactly when a planned property has an unsupported value type. Otherwise the writer has one call per matched step, in plan order, selected by the property's kind. |
| `TypedRecord.SynthesisFailsIff` | src/AvroConvert/AvroObjectServices/Write/Resolvers/Record.cs:131-134 | Synthesis fails, with `NotImplemented`, if and only if some step names a property of an unsupported value type. |
| `TypedRecord.SynthesisMatchesReference` | src/AvroConvert/AvroObjectServices/Write/Resolvers/Record.cs:124-148 | A successful synthesis equals the reference list, one call per matched step in plan order: a primitive call for an int, Guid, bool, long or enum property, and the step's own encoder for a reference-type property. |
| `TypedRecord.SynthesizeAppend` | src/AvroConvert/AvroObjectServices/Write/Resolvers/Record.cs:124-148 | Synthesizing two plans joined together gives the first plan's calls followed by the second's. If either part fails, the whole fails. |
| `TypedRecord.UnmatchedStepSkipped` | src/AvroConvert/AvroObjectServices/Write/Resolvers/Record.cs:128 | A step with no exactly named property adds nothing, and the other steps compile exactly as they would without it. |
| `TypedRecord.SkippedStepAlone` | src/AvroConvert/AvroObjectServices/Write/Resolvers/Record.cs:128 | A single unmatched step synthesizes to an empty writer. |
| `TypedRecord.TypedMatchIsCaseSensitive` | src/AvroConvert/AvroObjectServices/Write/Resolvers/Record.cs:109-112 | A step named `id` does not read a property named `Id`. |
| `TypedRecord.SynthesizedOpsFit` | src/AvroConvert/AvroObjectServices/Write/Resolvers/Record.cs:130-146 | The writer synthesized for a type can run on every well-typed instance of that type. Each call reads an existing property that holds a value of the type the call expects. |
| `TypedRecord.TypedEventAt` | src/AvroConvert/AvroObjectServices/Write/Resolvers/Record.cs:128-170 | A typed instance produces one write per matched step. Write `k` writes step `k`'s property, via `WriteInt`, `WriteGuid`, `WriteBoolean` or `WriteLong` for those types, via `WriteInt` of the converted value for an enum, and via the step's own encoder for a reference type. |
| `TypedRecord.ExecOpsAt` | src/AvroConvert/AvroObjectServices/Write/Resolvers/Record.cs:150-151 | Running a compiled writer makes one writer call per compiled call, in order. |
| `TypedRecord.InvokeRecordWriter` | src/AvroConvert/AvroObjectServices/Write/Resolvers/Record.cs:83-85 | Invoking a built writer on an instance appends exactly `ExecOps(ops, values)` to the writer. |
| `AvroModel.ToInt32` | src/AvroConvert/AvroObjectServices/Write/Resolvers/Record.cs:165-166 | The conversion of an enum's value to `int` keeps the value modulo 2^32 and is the identity on values that fit in an `int`. |
| `RecordWriter.WritersDictionary.constructor` | src/AvroConvert/AvroObjectServices/Write/Resolvers/Record.cs:37 | The dictionary starts empty and valid. |
| `RecordWriter.WritersDictionary.GetOrAdd` | src/AvroConvert/AvroObjectServices/Write/Resolvers/Record.cs:79-90 | On a hit it returns the stored writer or stored exception, whatever plan is passed, and synthesizes nothing. On a miss it synthesizes once from the given plan and stores the result, exception included. Existing entries are never removed or changed, and each stored type has been synthesized exactly once. |
| `RecordWriter.WriteRecordFields` | src/AvroConvert/AvroObjectServices/Write/Resolvers/Record.cs:62-86 | A null record writes exactly one null and nothing else. An expando writes `DynamicEvents`, or fails with `DuplicateKey`. A typed object runs the writer cached for its type, which may have been built from an earlier plan, or fails with the stored exception. A failure writes nothing. |
| `CacheScenarios.SecondPlanIgnored` | src/AvroConvert/AvroObjectServices/Write/Resolvers/Record.cs:79-85 | After a type is first written with a plan naming `X`, writing it with a plan naming `Y` still writes `X`. |
| `CacheScenarios.FailureCached` | src/AvroConvert/AvroObjectServices/Write/Resolvers/Record.cs:88-90 | A type with a `double` property fails on both writes, and synthesis runs once. |

## Left out

- Reflection and compiled expression trees (`GetProperties`, `Expression.*`, `Compile`): a type is a map from property name to kind, and the compiled writer is a list of calls that `InvokeRecordWriter` interprets.
- `GetProperties` cases: duplicate property names, which arise when a property hides an inherited one, make `ToDictionary` throw. Write-only properties and indexers make `Expression.Property` fail. Neither is modelled, because the model's property map has unique, readable names.
- Thread safety of `ConcurrentDictionary` and `Lazy` (`ExecutionAndPublication`): concurrency is not modelled. The cache is a sequential get-or-add, and the one-synthesis-per-type guarantee is the ghost counter `runs`.
- The `#if NET6_0_OR_GREATER` split at Record.cs:78-82: both branches store the same lazy writer, so there is one model.
- `Factory2` (Record.cs:92-94): it is never used.
- The `RecordResolver` closure that `ResolveRecord` returns (Record.cs:54-59): it is `WriteRecordFields` with the plan fixed, so the model returns the plan.
- The resolvers of non-record schemas and the byte formats of `IWriter`: these are collaborators. Encoders are symbolic and writes are log events. An exception thrown by a field's own encoder is not modelled.
- DynamicRecord.FoldCase: folds only ASCII letters, because `InvariantCultureIgnoreCase` compares with culture-invariant Unicode rules, which are not modelled.
- `Expression.Convert(instance, type)` at Record.cs:121: the cast cannot fail, because the cache is keyed by the object's own `GetType()`. `WriteRecordFields` therefore requires a typed instance's values to match its type.
- `tests/Profiler/Program.cs`: a benchmark console program with no record-writing logic.
