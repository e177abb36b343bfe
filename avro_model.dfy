/**
 * The entities the record writer works on: record schemas, the field plan's
 * steps, the run-time values it reads, and the primitive writer it writes to.
 *
 * The primitive writer (`IWriter`) and the resolver of non-record field
 * schemas are collaborators outside this model: the writer is an event log,
 * and a field's value encoder is the symbolic `FieldWriter` of its schema.
 */
module AvroModel {

  /** C#'s `int` and `long`. */
  newtype Int32 = x: int | -0x8000_0000 <= x < 0x8000_0000
  newtype Int64 = x: int | -0x8000_0000_0000_0000 <= x < 0x8000_0000_0000_0000

  /**
   * An unchecked conversion to `int` (what a conversion expression does to an
   * enum value whose underlying type is wider than 32 bits): the low 32 bits,
   * read as a two's-complement number.
   */
  function ToInt32(raw: int): (r: Int32)
    ensures (r as int - raw) % 0x1_0000_0000 == 0
    ensures -0x8000_0000 <= raw < 0x8000_0000 ==> r as int == raw
  {
    var low := raw % 0x1_0000_0000;
    if low < 0x8000_0000 then low as Int32 else (low - 0x1_0000_0000) as Int32
  }

  /** A 128-bit identifier (`System.Guid`), kept abstract. */
  datatype Guid = Guid(bits: nat)

  /** The schema of a field's value: opaque here, interpreted by the field resolver. */
  datatype TypeSchema = TypeSchema(description: string)

  /** A field of a record schema: its name, its aliases and its value schema. */
  datatype RecordFieldSchema = RecordFieldSchema(name: string, aliases: seq<string>, typeSchema: TypeSchema)

  /** A record schema: its fields, in wire order. */
  datatype RecordSchema = RecordSchema(fields: seq<RecordFieldSchema>)

  /**
   * A field's value encoder (the `WriteItem` delegate the resolver returns for
   * a field's schema), identified by the schema it was resolved from.
   */
  datatype WriteItem = FieldWriter(schema: TypeSchema)

  /** One entry of a field plan: the name a field is looked up by and its value encoder. */
  datatype WriteStep = WriteStep(fieldName: string, writeField: WriteItem)

  /** A run-time value, as a property holds it or as an object box holds it. */
  datatype Value =
    | NullValue
    | IntValue(i: Int32)
    | LongValue(l: Int64)
    | BoolValue(b: bool)
    | GuidValue(g: Guid)
    | EnumValue(raw: int)          // an enum member, by its underlying integer
    | StructValue(typeName: string) // any other value type: double, DateTime, int?, a user struct
    | ObjectRef(handle: nat)        // a reference-type object: string, list, nested record, ...

  /** The declared type of a public property, as far as the record writer distinguishes it. */
  datatype PropKind =
    | IntProp
    | GuidProp
    | BoolProp
    | LongProp
    | EnumProp
    | OtherValueTypeProp(typeName: string)
    | ReferenceProp
  {
    predicate IsValueType() { !ReferenceProp? }
  }

  /** A run-time type: its identity and its public instance properties, by exact name. */
  datatype RuntimeType = RuntimeType(fullName: string, properties: map<string, PropKind>)

  /** A name/value pair of a dynamic (`ExpandoObject`) record, in insertion order. */
  datatype Member = Member(key: string, value: Value)

  /** The three shapes of object the record writer is handed. */
  datatype Instance =
    | NullRecord
    | Expando(members: seq<Member>)
    | Typed(rtype: RuntimeType, values: map<string, Value>)

  /** Whether a value can be held by a property of the given kind. */
  predicate HasKind(v: Value, kind: PropKind) {
    match kind
    case IntProp => v.IntValue?
    case GuidProp => v.GuidValue?
    case BoolProp => v.BoolValue?
    case LongProp => v.LongValue?
    case EnumProp => v.EnumValue?
    case OtherValueTypeProp(_) => true
    case ReferenceProp => true   // any value, boxed or not
  }

  /** The property values of a typed instance agree with its type's properties. */
  predicate WellTyped(t: RuntimeType, values: map<string, Value>) {
    values.Keys == t.properties.Keys &&
    forall name :: name in values ==> HasKind(values[name], t.properties[name])
  }

  /** The exceptions the record writer raises. */
  datatype EncodeError =
    | NotImplemented  // a value-type property of no supported type (synthesis)
    | DuplicateKey    // two dynamic keys equal up to case (building the case-insensitive dictionary)

  /** What the primitive writer is asked to do. */
  datatype Event =
    | WroteNull
    | WroteInt(i: Int32)
    | WroteLong(l: Int64)
    | WroteBoolean(b: bool)
    | WroteGuid(g: Guid)
    | WroteField(item: WriteItem, value: Value)  // a field's own encoder invoked on a value

  /** The primitive writer, recording what it was asked to write. */
  class Writer {
    var log: seq<Event>

    constructor ()
      ensures log == []
    {
      log := [];
    }

    method WriteNull()
      modifies this
      ensures log == old(log) + [WroteNull]
    {
      log := log + [WroteNull];
    }

    method WriteInt(i: Int32)
      modifies this
      ensures log == old(log) + [WroteInt(i)]
    {
      log := log + [WroteInt(i)];
    }

    method WriteLong(l: Int64)
      modifies this
      ensures log == old(log) + [WroteLong(l)]
    {
      log := log + [WroteLong(l)];
    }

    method WriteBoolean(b: bool)
      modifies this
      ensures log == old(log) + [WroteBoolean(b)]
    {
      log := log + [WroteBoolean(b)];
    }

    method WriteGuid(g: Guid)
      modifies this
      ensures log == old(log) + [WroteGuid(g)]
    {
      log := log + [WroteGuid(g)];
    }

    /** Invoking a field's `WriteItem` delegate on a value, with this writer. */
    method WriteField(item: WriteItem, v: Value)
      modifies this
      ensures log == old(log) + [WroteField(item, v)]
    {
      log := log + [WroteField(item, v)];
    }
  }
}
