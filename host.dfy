/** What the engine receives from the Python host and cannot see into: the
    behaviour of a loaded tool and the outcome of loading a module. Both are
    parameters of the model (oracles), never computed by it. */
module Host {
  import opened Values

  /** What a call of a tool does: it returns a value, raises an `Exception`
      whose message (`str(err)`) is the string given, or raises a
      `BaseException` that is not an `Exception` (`SystemExit`,
      `KeyboardInterrupt`, `GeneratorExit`), which `except Exception` lets through. */
  datatype CallOutcome = Returned(value: Value) | Threw(message: string) | ThrewBase(message: string)

  /** A callable bound to a keyword-argument bag. A module attribute that is not
      callable is a tool whose every call throws Python's "not callable" error. */
  type Tool = map<string, Value> -> CallOutcome

  /** An exception escaping `create_tool`: one raised while the module's top
      level runs, or the `AttributeError` of `getattr(module, entrypoint)`. */
  datatype Exception =
    | ExecError(message: string)
    | MissingAttribute(moduleName: string, attribute: string)

  /** Result of `spec_from_file_location` followed by `exec_module` on the
      artifact just written: no spec (or no loader), the top level raised, or
      the module's attributes after it ran. */
  datatype LoadOutcome =
    | NoSpec
    | ExecFailed(message: string)
    | Executed(namespace: map<string, Tool>)

  /** The loader, given the tool name (the module name) and the artifact's text. */
  type Loader = (string, string) -> LoadOutcome
}
