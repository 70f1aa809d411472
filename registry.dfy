/** The process-wide `TOOLS` registry and the three operations over it that
    the agent can ask for (`create_tool`, `list_tools`, `dynamic_tool`), as an
    object whose methods update its state in place. The fourth operation,
    `install_dependency`, does not touch the registry and is `Installer`. */
module Engine {
  import opened Values
  import opened Host
  import Synthesizer
  import Dispatcher

  /** The stem of the package marker file `runtime_tools/__init__.py`. */
  const PackageMarker: string := "__init__"

  class Registry {
    /** `TOOLS`: tool name to callable. */
    var tools: map<string, Tool>
    /** The keys of `TOOLS` in first-insertion order. */
    var names: seq<string>
    /** The `runtime_tools` directory: tool name to the text of `<name>.py`. */
    var artifacts: map<string, string>

    function State(): Synthesizer.Snapshot
      reads this
    {
      Synthesizer.Snapshot(tools, names, artifacts)
    }

    ghost predicate Valid()
      reads this
    {
      Synthesizer.Valid(State())
    }

    /** The engine at start-up: `TOOLS` is empty, and the `runtime_tools`
        directory holds whatever earlier runs left in it (`onDisk`), plus the
        package marker `__init__.py`, created empty when it is missing and
        left as it is otherwise. */
    constructor (onDisk: map<string, string>)
      ensures Valid() && tools == map[] && names == []
      ensures PackageMarker in artifacts && artifacts[PackageMarker] == if PackageMarker in onDisk then onDisk[PackageMarker] else ""
      ensures forall n :: n != PackageMarker ==> (n in artifacts <==> n in onDisk)
      ensures forall n :: n != PackageMarker && n in onDisk ==> artifacts[n] == onDisk[n]
    {
      tools, names := map[], [];
      artifacts := if PackageMarker in onDisk then onDisk else onDisk[PackageMarker := ""];
    }

    /** `create_tool`: the new state and the outcome are those of the
        transition `Synthesizer.Create`. */
    method CreateTool(toolName: string, code: string, entrypoint: string, description: string, load: Loader)
      returns (outcome: Synthesizer.CreateOutcome)
      requires Valid()
      modifies this
      ensures Valid()
      ensures Synthesizer.Synthesis(State(), outcome) ==
              Synthesizer.Create(old(State()), Synthesizer.CreateRequest(toolName, code, entrypoint, description), load)
    {
      artifacts := artifacts[toolName := code];
      match load(toolName, code)
      case NoSpec =>
        outcome := Synthesizer.NotCreated(Synthesizer.NoSpecText(toolName));
      case ExecFailed(message) =>
        outcome := Synthesizer.Propagated(ExecError(message));
      case Executed(namespace) =>
        if entrypoint !in namespace {
          outcome := Synthesizer.Propagated(MissingAttribute(toolName, entrypoint));
        } else {
          var fn := namespace[entrypoint];
          if toolName !in tools {
            names := names + [toolName];
          }
          tools := tools[toolName := fn];
          outcome := Synthesizer.Registered(Synthesizer.RegisteredText(toolName, entrypoint, description));
        }
    }

    /** `list_tools`: exactly the registered names, each once, in first-insertion order. */
    function ListTools(): (r: seq<string>)
      reads this
      requires Valid()
      ensures r == names
      ensures forall n :: n in r <==> n in tools
      ensures NoDuplicates(r)
    {
      names
    }

    /** `dynamic_tool`: reads the registry and changes nothing. */
    method DynamicTool(toolName: string, bag: map<string, Value>) returns (d: Dispatcher.Dispatched)
      ensures d == Dispatcher.Dispatch(tools, toolName, bag)
    {
      d := Dispatcher.Dispatch(tools, toolName, bag);
    }
  }

  /** The behaviour of `def run_echo(*, msg): return msg`, the tool of the
      scenario below: it returns `msg`; an unexpected keyword, checked first,
      and then a missing `msg` raise Python's `TypeError` (messages shortened). */
  function RunEcho(args: map<string, Value>): CallOutcome
  {
    if args.Keys - {"msg"} != {} then Threw("run_echo() got an unexpected keyword argument")
    else if "msg" !in args then Threw("run_echo() missing 1 required keyword-only argument: 'msg'")
    else Returned(args["msg"])
  }

  /** A loader under which every artifact defines `run_echo`. */
  function LoadEcho(name: string, code: string): LoadOutcome
  {
    Executed(map["run_echo" := RunEcho])
  }

  /** A run of the engine: register `echo` (entrypoint `run_echo`, returning its
      `msg` argument), list the tools, call `echo`, then call a name that was
      never registered. The unknown-tool text does not mention `echo`. */
  method EchoScenario() returns (listed: seq<string>, echoed: Dispatcher.Reply, unknown: Dispatcher.Reply)
    ensures listed == ["echo"]
    ensures echoed == Dispatcher.Answer(Str("hi"))
    ensures unknown == Dispatcher.Answer(Str(Dispatcher.UnknownToolText("nonexistent")))
  {
    var load: Loader := LoadEcho;
    var code, description := "def run_echo(*, msg): return msg", "Echo a message";
    ghost var request := Synthesizer.CreateRequest("echo", code, "run_echo", description);
    assert Synthesizer.Registers(request, load) && Synthesizer.EntrypointOf(request, load) == RunEcho;
    var registry := new Registry(map[]);
    var created := registry.CreateTool("echo", code, "run_echo", description, load);
    assert registry.tools == map["echo" := RunEcho] && registry.names == ["echo"];
    listed := registry.ListTools();
    var args := map["msg" := Str("hi")];
    assert Dispatcher.KwargsKey !in args;
    var called := registry.DynamicTool("echo", args);
    assert args.Keys - {"msg"} == {} && RunEcho(args) == Returned(Str("hi"));
    echoed := called.result;
    assert "nonexistent" !in registry.tools;
    called := registry.DynamicTool("nonexistent", map[]);
    unknown := called.result;
  }
}
