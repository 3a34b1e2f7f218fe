/**
 * `odid_add_element_item_schema_properties`: the filter that declares the
 * shape of the `intrinsicDimensions` value stored for each element.
 */
module Schema {
  /** A PHP value, as far as the filter needs it; arrays are keyed by string. */
  datatype Value =
    | Null
    | Bool(b: bool)
    | Int(i: int)
    | Str(s: string)
    | PhpArray(entries: map<string, Value>)

  const PropertyName := "intrinsicDimensions"

  /** A required non-negative integer property. */
  const DimensionProperty: Value :=
    PhpArray(map["type" := Str("integer"), "minimum" := Int(0), "required" := Bool(true)])

  /** The schema of one stored `{width, height, srcHash}` value. */
  const IntrinsicDimensionsSchema: Value :=
    PhpArray(map[
      "type" := Str("object"),
      "properties" := PhpArray(map[
        "width" := DimensionProperty,
        "height" := DimensionProperty,
        "srcHash" := PhpArray(map["type" := Str("string"), "pattern" := Str("^[0-9a-f]{32}\\z"), "required" := Bool(true)])
      ])
    ])

  /**
   * A non-array input is replaced by an empty array; every other key is kept
   * as it was and only `intrinsicDimensions` is set.
   */
  function AddElementItemSchemaProperties(additional: Value): (r: map<string, Value>)
    ensures PropertyName in r && r[PropertyName] == IntrinsicDimensionsSchema
    ensures forall k :: k != PropertyName ==> (k in r <==> additional.PhpArray? && k in additional.entries)
    ensures forall k :: k in r && k != PropertyName ==> r[k] == additional.entries[k]
  {
    var base := if additional.PhpArray? then additional.entries else map[];
    base[PropertyName := IntrinsicDimensionsSchema]
  }

  /** Running the filter again on its own output changes nothing. */
  lemma AddElementItemSchemaPropertiesIdempotent(additional: Value)
    ensures var once := AddElementItemSchemaProperties(additional);
      AddElementItemSchemaProperties(PhpArray(once)) == once
  {
  }

  /** The declared properties are exactly the fields of a stored record, all required. */
  lemma SchemaDeclaresRecordFields()
    ensures var props := IntrinsicDimensionsSchema.entries["properties"].entries;
      && props.Keys == {"width", "height", "srcHash"}
      && forall k :: k in props ==> props[k].entries["required"] == Bool(true)
  {
  }
}
