# Tool-lifecycle engine of lir-agent, in Dafny

lir-agent is a self-extending agent runtime. A language model drives a loop
that can write new Python tools at run time, register them, call them by name
and install the packages they need. This project models the engine behind the
four operations the model can ask for (`main.py`): the process-wide `TOOLS`
registry, `create_tool`, `dynamic_tool`, `list_tools` and
`install_dependency`. It proves what each operation promises.

Layout:

- `values.dfy` (`Values`): the Python values that tools take and return (`None`, bool, int, float, str, list, tuple,
  dict, and any other object by its type's name), `Option`, `NoDuplicates`.
- `host.dfy` (`Host`): what the Python host provides and the model cannot see into. These are
  oracles: a tool's behaviour is a total function from a keyword-argument bag
  to `Returned(v) | Threw(message) | ThrewBase(message)` (an `Exception`, or a
  `BaseException` that is not one), and the module loader is a function from
  (tool name, source text) to `NoSpec | ExecFailed(message) | Executed(namespace)`.
- `dispatcher.dfy` (`Dispatcher`): `dynamic_tool`, as a function over the registry contents. It
  returns the reply (a value for the agent, or a `BaseException` that escapes)
  and the argument bag the tool was called with, if the tool ran.
- `installer.dfy` (`Installer`): `install_dependency`, as a function of the environment facts.
  It returns the outcome together with the trace of subprocess commands it
  would issue (`EnsurePip`, `PipInstall(package)`).
- `synthesizer.dfy` (`Synthesizer`): `create_tool` as a transition on a snapshot of the engine's state.
  The snapshot holds three things: `TOOLS` as a map, its keys in first-insertion
  order (as a Python dict keeps them), and the `runtime_tools` artifacts as a map
  from name to text. `Replay` runs a sequence of creates. The lemmas about it
  cover order, last write wins and artifacts.
- `registry.dfy` (`Engine`): class `Registry` holds the state in fields that its methods update in
  place. `CreateTool` is proved against `Synthesizer.Create` and
  `DynamicTool` against `Dispatcher.Dispatch`. `EchoScenario` is a client run.

Where the code does something other than what its docstrings or a caller would
expect, the model follows the code:

- `dynamic_tool` takes keyword arguments only. The docstring (main.py:88-89) also mentions
  positional lists.
- The unknown-tool text is `Error: unknown tool '<name>'`. It does not list the
  known tools (main.py:92); `DispatchSeesOnlyItsName` shows it depends on nothing else.
- `install_dependency` lets the exception from `find_spec(dependency)` escape,
  for example for a dotted name whose parent package is missing (main.py:39).
  So not every outcome is text. That exception is modelled as `Propagated`.
- `dynamic_tool` catches `Exception` only (main.py:101). A tool that raises
  `SystemExit` or `KeyboardInterrupt` escapes the dispatch; the model returns
  `Uncaught` for it.
- The `tool_name` parameter is never part of the tool's argument bag. But a bag
  wrapped under `kwargs` is forwarded whole, so it can itself hold a key
  `tool_name`, and that key reaches the tool.
- A missing entrypoint and an error in the module's top level escape
  `create_tool` as exceptions (main.py:72-74). Only a missing spec is reported
  as text.

## Model

| member | source | states |
|---|---|---|
| `Dispatcher.Report` | main.py:99-102 | a returned value comes back unmodified; an `Exception` with message `m` becomes `Failed to call this tool. Reason: m`; a `BaseException` that is not an `Exception` escapes |
| `Dispatcher.Dispatch` | main.py:84-102 | unknown name: exactly `Error: unknown tool '<name>'`, no tool called; the tool runs if and only if the name is registered and the normalised bag is a mapping, and then runs with that bag; a non-mapping under `kwargs` yields the failure text of Python's TypeError; something escapes if and only if the tool itself raised a non-`Exception` |
| `Dispatcher.WrappedBagDispatchesAsPlain` | main.py:96-100 | `{"kwargs": {..args}}` and `{..args}` dispatch identically when `args` has no key `kwargs` |
| `Dispatcher.OtherKeysDropped` | main.py:96-97 | when `kwargs` is present, the other keys of the bag have no effect |
| `Dispatcher.UnwrapsOneLevel` | main.py:96-97 | unwrapping happens once only: a doubly wrapped bag reaches the tool wrapped once |
| `Dispatcher.FailureContained` | main.py:99-102 | a tool that always raises an `Exception` with message `m` yields the failure text carrying `m`, not an escape |
| `Dispatcher.DispatchSeesOnlyItsName` | main.py:91-94 | the result depends only on whether and to what the requested name is bound |
| `Dispatcher.UnknownToolTextInjective` | main.py:92 | distinct names give distinct unknown-tool texts |
| `Installer.InstallDependency` | main.py:20-48 | outside a venv: refusal text and no command; `EnsurePip` issued if and only if inside a venv without pip, and only first; failed bootstrap: `Error: pip is not available.` after `[EnsurePip]` only; importable dependency: `<dep> already installed.`; `pip install <spec>` issued at most once, last, if and only if every guard passed; its exit status decides `Installed <spec>` or `Installation failed: <err>`; an exception escapes if and only if find_spec raised, and it is find_spec's own |
| `Installer.PackageSpecRoundTrip` | main.py:42 | the spec splits back at `==` into the dependency and the version; an absent or empty version gives the plain name |
| `Synthesizer.Bind` | main.py:76 | dict assignment: value replaced, a new key appended to the order, an existing key kept in place, the registry stays well formed |
| `Synthesizer.Create` | main.py:50-82 | artifact `<name>` overwritten with the code before anything else is tried; registers if and only if the module executes and has the entrypoint, binding exactly that symbol, leaving every other entry and the order of existing names unchanged, returning `Tool 'N' registered. Entrypoint: 'E'. Description: D`; any failure leaves `TOOLS` unchanged; a missing spec returns `Tool N cannot get spec by file location. Tool not created!`; an exec error or a missing attribute propagates |
| `Synthesizer.Replay` | main.py:76 | any sequence of creates keeps the names a duplicate-free listing of the registered keys |
| `Synthesizer.ReplayKeepsOrder` | main.py:76 | the name order before a run is a prefix of the order after it: nothing is removed or moved |
| `Synthesizer.ReplayKeepsBinding` | main.py:62-76 | creates of other names, and failed creates, leave a binding (and its absence) unchanged |
| `Synthesizer.LastRegistrationWins` | main.py:76 | after any run, a name is bound to the entrypoint of the last create of that name that succeeded |
| `Synthesizer.LastArtifactWins` | main.py:62-63 | after any run, a name's artifact holds the code of the last create of that name, even a failed one |
| `Synthesizer.ReplayKeepsArtifact` | main.py:62-63 | creates of other names leave an artifact unchanged |
| `Synthesizer.RecreateReplaces` | main.py:76 | a second successful create of a name replaces whatever the first bound |
| `Engine.Registry.constructor` | main.py:14-18 | `TOOLS` starts empty; the artifact directory keeps what earlier runs left and gains an empty `__init__.py` unless one is there |
| `Engine.Registry.CreateTool` | main.py:50-82 | the in-place update of the fields and the outcome are exactly those of `Synthesizer.Create`; the registry stays well formed |
| `Engine.Registry.ListTools` | main.py:104-107 | the key sequence itself, so exactly the registered names, each once, in first-insertion order; a read, so two calls with no create between agree |
| `Engine.Registry.DynamicTool` | main.py:84-102 | the result is `Dispatcher.Dispatch` on the current registry, and the registry is not modified |
| `Engine.EchoScenario` | main.py:50-107 | registering `echo` with entrypoint `run_echo`, listing yields `["echo"]`; calling it with `msg = "hi"` yields `"hi"`; an unregistered name yields `Error: unknown tool 'nonexistent'` |

## Left out

- Dynamic loading (`spec_from_file_location`, `module_from_spec`, `exec_module`): a loader oracle stands in for it. Python import semantics are not modelled.
- Synthesizer.LastRegistrationWins: holds for a loader that is a function of the tool name and the artifact's current text only. The real loader may reuse cached bytecode in `__pycache__` whose recorded modification time (whole seconds) and size match the file, so a re-create within the same second with code of the same length can run the previous code.
- Synthesizer.RecreateReplaces: rests on the same loader abstraction as the line above.
- Synthesizer.Create: does not model a failing `write_text` (main.py:63), for example a name `sub/x` with no directory `runtime_tools/sub`. Such an `OSError` escapes before anything is loaded and leaves `TOOLS` unchanged.
- Synthesizer.ReplayKeepsArtifact: the artifact map is keyed by tool name. Distinct names that reach the same file are not modelled: `x` and `./x`, names differing only in case on a case-insensitive file system, or an absolute name outside the directory. For those, a create of one name overwrites the file of another.
- Synthesizer.LastArtifactWins: holds per tool name, not per file. After creates of `x` with code A and then `./x` with code B, `runtime_tools/x.py` holds B, while the model gives A for `x` (the aliasing of the line above).
- Synthesizer.Create: states that no artifact entry other than the created name's changes. Through the same aliasing, a real create can overwrite the file of another name.
- Engine.Registry.constructor: the files already on disk are a parameter. Creating the directory (main.py:16-17) and its failure modes are not modelled.
- The `sys.modules[tool_name]` insertion (main.py:71): not modelled. The module stays in `sys.modules` even when its top level then raises.
- `subprocess.check_call` for ensurepip and pip, and `importlib.util.find_spec`: oracles in `Installer.Env`. The model records them as a command trace. Errors other than `CalledProcessError`, such as a missing interpreter, are not modelled.
- File-system effects: `write_text` is modelled as an update of the artifact map, and `touch` as adding an empty `__init__` entry when none exists.
- Dispatcher.NotMappingMessage: Python's message also names the callee (`f() argument after ** must be a mapping, not int`). The callee's name is not visible here, so it is left out.
- Exception texts (`{err}`, `{e}`): opaque strings supplied by the oracles.
- Engine.RunEcho: its `TypeError` messages are shortened. The one for an extra keyword does not name the keyword.
- Tools are pure functions of their arguments. Side effects of tool code, for example a tool that itself creates tools, are not modelled. A tool that never returns is not modelled either.
- The `@tool` decorator and LangChain's argument validation and schema generation: not visible.
- The language-model client, environment loading, the prompt, agent construction and invocation, and the final `print` (main.py:111-170): external service and front-end glue.
- `runtime_tools/*.py`: HTTP clients written by the model, not part of the engine.
