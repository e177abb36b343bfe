/**
 * The field-plan builder: a record schema becomes the ordered steps the
 * record writer follows, one per field, in wire order.
 */
module FieldPlan {
  import opened AvroModel

  /**
   * The resolver of a field's value schema. It lies outside this model: the
   * encoder it returns is represented by the schema it was resolved from.
   */
  function ResolveWriter(schema: TypeSchema): WriteItem
  {
    FieldWriter(schema)
  }

  /**
   * Builds the field plan of a record schema. Step `i` belongs to field `i`:
   * it is looked up by the field's first alias when the field has aliases and
   * by the field's own name otherwise, and it writes with the encoder resolved
   * for the field's value schema.
   */
  method ResolveRecord(recordSchema: RecordSchema) returns (plan: seq<WriteStep>)
    ensures |plan| == |recordSchema.fields|
    ensures forall i :: 0 <= i < |plan| ==>
      var field := recordSchema.fields[i];
      plan[i].fieldName == (if |field.aliases| > 0 then field.aliases[0] else field.name)
    ensures forall i :: 0 <= i < |plan| ==>
      plan[i].writeField == ResolveWriter(recordSchema.fields[i].typeSchema)
  {
    var fields := recordSchema.fields;
    var writeSteps := new WriteStep[|fields|];
    var index := 0;
    while index < |fields|
      invariant 0 <= index <= |fields|
      invariant forall i :: 0 <= i < index ==>
        writeSteps[i] == WriteStep(if |fields[i].aliases| > 0 then fields[i].aliases[0] else fields[i].name,
                                   ResolveWriter(fields[i].typeSchema))
    {
      var field := fields[index];
      var fieldName := if |field.aliases| > 0 then field.aliases[0] else field.name;
      writeSteps[index] := WriteStep(fieldName, ResolveWriter(field.typeSchema));
      index := index + 1;
    }
    plan := writeSteps[..];
  }
}
