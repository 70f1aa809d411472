/** Values exchanged between the agent loop, the engine and the runtime tools:
    the part of Python's object world that tool arguments and results live in. */
module Values {

  datatype Option<+T> = None | Some(value: T)

  /** A Python value as it reaches a tool or comes back from one. A `Dict` is a
      keyword-argument bag: its keys are the parameter names. Floats are kept
      as exact reals; any other object is known only by its type's name. */
  datatype Value =
    | NoneValue
    | Bool(b: bool)
    | Int(i: int)
    | Float(r: real)
    | Str(s: string)
    | List(items: seq<Value>)
    | Tuple(elements: seq<Value>)
    | Dict(entries: map<string, Value>)
    | Other(typeName: string)

  /** The name Python reports for the type of a value (`type(v).__name__`). */
  function TypeName(v: Value): string
  {
    match v
    case NoneValue => "NoneType"
    case Bool(_) => "bool"
    case Int(_) => "int"
    case Float(_) => "float"
    case Str(_) => "str"
    case List(_) => "list"
    case Tuple(_) => "tuple"
    case Dict(_) => "dict"
    case Other(t) => t
  }

  /** No name occurs twice in the sequence. */
  predicate NoDuplicates(s: seq<string>)
  {
    forall i, j :: 0 <= i < j < |s| ==> s[i] != s[j]
  }
}
