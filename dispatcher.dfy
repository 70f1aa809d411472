/** `dynamic_tool`: look a tool up by name, normalise the keyword-argument bag
    and call the tool, turning whatever it raises into text. */
module Dispatcher {
  import opened Values
  import opened Host

  /** The key under which a caller may wrap the whole argument bag. */
  const KwargsKey: string := "kwargs"

  function UnknownToolText(name: string): string
  {
    "Error: unknown tool '" + name + "'"
  }

  function FailedCallText(reason: string): string
  {
    "Failed to call this tool. Reason: " + reason
  }

  /** Message of the `TypeError` Python raises when `**kwargs` is not a mapping. */
  function NotMappingMessage(v: Value): string
  {
    "argument after ** must be a mapping, not " + TypeName(v)
  }

  /** The argument bag after normalisation: the value under `kwargs` when that
      key is present (every other key is dropped), the bag itself otherwise. */
  function Normalised(bag: map<string, Value>): Value
  {
    if KwargsKey in bag then bag[KwargsKey] else Dict(bag)
  }

  /** What `dynamic_tool` does with the agent's request: hands back a value,
      or lets a `BaseException` that is not an `Exception` escape. */
  datatype Reply = Answer(value: Value) | Uncaught(message: string)

  /** Result of one dispatch: the reply and the argument bag the tool was
      called with, if it was called at all. */
  datatype Dispatched = Dispatched(result: Reply, call: Option<map<string, Value>>)

  /** The `try`/`except Exception` around the call: the tool's own value comes
      back, an `Exception` becomes the failure text carrying its message, and
      any other `BaseException` escapes. */
  function Report(outcome: CallOutcome): (r: Reply)
    ensures outcome.Returned? ==> r == Answer(outcome.value)
    ensures outcome.Threw? ==> r == Answer(Str(FailedCallText(outcome.message)))
    ensures outcome.ThrewBase? ==> r == Uncaught(outcome.message)
  {
    match outcome
    case Returned(value) => Answer(value)
    case Threw(message) => Answer(Str(FailedCallText(message)))
    case ThrewBase(message) => Uncaught(message)
  }

  /** `dynamic_tool(tool_name, **kwargs)` against the registry contents `tools`.
      The name is a parameter of its own, so it is never part of `bag`. */
  function Dispatch(tools: map<string, Tool>, name: string, bag: map<string, Value>): (d: Dispatched)
    // an unknown name is answered with text, naming only the requested tool
    ensures name !in tools ==> d == Dispatched(Answer(Str(UnknownToolText(name))), None)
    // the tool runs exactly when it is registered and the normalised bag is a mapping
    ensures d.call.Some? <==> name in tools && Normalised(bag).Dict?
    // it runs with the normalised bag and its outcome passes through the `except Exception`
    ensures d.call.Some? ==>
              d.call.value == Normalised(bag).entries && d.result == Report(tools[name](d.call.value))
    // a non-mapping under `kwargs` fails inside the guarded call, before the tool runs
    ensures name in tools && !Normalised(bag).Dict? ==>
              d.result == Answer(Str(FailedCallText(NotMappingMessage(Normalised(bag)))))
    // something escapes only when the tool itself raised a non-`Exception`
    ensures d.result.Uncaught? <==> d.call.Some? && tools[name](d.call.value).ThrewBase?
  {
    if name !in tools then
      Dispatched(Answer(Str(UnknownToolText(name))), None)
    else
      var fn := tools[name];
      var kwargs := Normalised(bag);
      match kwargs
      case Dict(args) => Dispatched(Report(fn(args)), Some(args))
      case _ => Dispatched(Answer(Str(FailedCallText(NotMappingMessage(kwargs)))), None)
  }

  /** Wrapping a bag under `kwargs` changes nothing, as long as the bag does not
      itself use the key `kwargs`. */
  lemma WrappedBagDispatchesAsPlain(tools: map<string, Tool>, name: string, args: map<string, Value>)
    requires KwargsKey !in args
    ensures Dispatch(tools, name, map[KwargsKey := Dict(args)]) == Dispatch(tools, name, args)
  {
  }

  /** When `kwargs` is present, every other key of the bag is ignored. */
  lemma OtherKeysDropped(tools: map<string, Tool>, name: string, bag1: map<string, Value>, bag2: map<string, Value>)
    requires KwargsKey in bag1 && KwargsKey in bag2 && bag1[KwargsKey] == bag2[KwargsKey]
    ensures Dispatch(tools, name, bag1) == Dispatch(tools, name, bag2)
  {
  }

  /** Unwrapping happens once: a bag wrapped twice reaches the tool wrapped once. */
  lemma UnwrapsOneLevel(tools: map<string, Tool>, name: string, args: map<string, Value>)
    requires name in tools
    ensures Dispatch(tools, name, map[KwargsKey := Dict(map[KwargsKey := Dict(args)])]).call
            == Some(map[KwargsKey := Dict(args)])
  {
  }

  /** Failure containment: a tool that raises an `Exception` with message `m`
      on every call yields the failure text carrying `m`, whatever mapping it
      is called with. */
  lemma FailureContained(tools: map<string, Tool>, name: string, bag: map<string, Value>, m: string)
    requires name in tools && Normalised(bag).Dict?
    requires forall args :: tools[name](args) == Threw(m)
    ensures Dispatch(tools, name, bag).result == Answer(Str(FailedCallText(m)))
  {
  }

  /** Dispatch depends on the registry only through the binding of the name it
      is asked for: in particular the unknown-tool text does not depend on
      which other tools exist. */
  lemma DispatchSeesOnlyItsName(t1: map<string, Tool>, t2: map<string, Tool>, name: string, bag: map<string, Value>)
    requires name in t1 <==> name in t2
    requires name in t1 ==> t1[name] == t2[name]
    ensures Dispatch(t1, name, bag) == Dispatch(t2, name, bag)
  {
  }

  /** The unknown-tool text names the tool it was asked for: two different
      names never produce the same text. */
  lemma {:induction false} UnknownToolTextInjective(a: string, b: string)
    requires UnknownToolText(a) == UnknownToolText(b)
    ensures a == b
  {
    var prefix := "Error: unknown tool '";
    assert a == UnknownToolText(a)[|prefix|..|UnknownToolText(a)| - 1];
    assert b == UnknownToolText(b)[|prefix|..|UnknownToolText(b)| - 1];
  }
}
