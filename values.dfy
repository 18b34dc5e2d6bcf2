/** The argument values a model's function call carries. */
module Values {
  datatype Value =
    | Str(s: string)
    | StrList(items: seq<string>)
    /** JSON null, which arrives as Python `None`. */
    | Null
    /** Any other JSON value, with the name of its Python type, which is
        none of the three above. */
    | Other(typeName: ForeignType)

  /** The name of a Python type other than `str`, `list` and `NoneType`. */
  type ForeignType = n: string | n != "str" && n != "list" && n != "NoneType" witness "int"

  /** Python's `type(v).__name__`. */
  function TypeName(v: Value): string {
    match v
    case Str(_) => "str"
    case StrList(_) => "list"
    case Null => "NoneType"
    case Other(n) => n
  }
}
