/** The Python exceptions the modelled code raises or lets through, as values. */
module Exceptions {
  import opened JsonValue

  datatype ExcKind =
    | ValueError
    | TypeError
    | RuntimeError
    | AttributeError
    | KeyError
    | NotImplementedError
    | HttpStatusError
    /** Any other class; `valueOrTypeSubclass` records whether it derives from
        `ValueError` or `TypeError` (as `json.JSONDecodeError` does). */
    | OtherError(name: string, valueOrTypeSubclass: bool)

  datatype Exc = Exc(kind: ExcKind, text: string)

  /** `isinstance(e, (ValueError, TypeError))`. */
  predicate IsValueOrTypeError(k: ExcKind) {
    k.ValueError? || k.TypeError? || (k.OtherError? && k.valueOrTypeSubclass)
  }

  /** The `AttributeError` Python raises when `j` has no attribute `attr`. */
  function NoAttribute(j: Json, attr: string): Exc {
    Exc(AttributeError, "'" + TypeName(j) + "' object has no attribute '" + attr + "'")
  }

  /** `j.get(...)` on a value that is not a dictionary. */
  function NoGet(j: Json): Exc {
    NoAttribute(j, "get")
  }

  /** The `TypeError` Python raises when `j` is used as a dictionary key or looked up with `in`. */
  function Unhashable(j: Json): Exc {
    Exc(TypeError, "unhashable type: '" + TypeName(j) + "'")
  }
}
