/** The values of a partial-update body as Jackson hands them over in a
    `Map<String, Object>`: null, a string, or a nested object of string fields. */
module JsonValues {

  import opened Wrappers

  /** A nullable string column or property. */
  type Nullable = Option<string>

  datatype Value = Null | Str(s: string) | Obj(fields: map<string, Nullable>)
}
