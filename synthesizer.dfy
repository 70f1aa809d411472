/** `create_tool` as a transition on the engine's state: write the artifact,
    load it, resolve the entrypoint, bind it in the registry. */
module Synthesizer {
  import opened Values
  import opened Host

  /** The engine's state: the `TOOLS` dictionary as a map together with its
      key order (a Python dict keeps first-insertion order), and the artifact
      directory as a map from tool name to the text of `<name>.py`. */
  datatype Snapshot = Snapshot(
    tools: map<string, Tool>,
    names: seq<string>,
    artifacts: map<string, string>)

  /** `names` lists exactly the keys of `tools`, each once. */
  ghost predicate Valid(st: Snapshot)
  {
    && NoDuplicates(st.names)
    && (forall n :: n in st.tools <==> n in st.names)
  }

  datatype CreateRequest = CreateRequest(name: string, code: string, entrypoint: string, description: string)

  /** What `create_tool` hands back: a success text, the no-spec text, or an
      exception that escapes it. */
  datatype CreateOutcome =
    | Registered(text: string)
    | NotCreated(text: string)
    | Propagated(error: Exception)

  datatype Synthesis = Synthesis(state: Snapshot, outcome: CreateOutcome)

  function RegisteredText(name: string, entrypoint: string, description: string): string
  {
    "Tool '" + name + "' registered. " + "Entrypoint: '" + entrypoint + "'. " + "Description: " + description
  }

  function NoSpecText(name: string): string
  {
    "Tool " + name + " cannot get spec by file location. Tool not created!"
  }

  /** The request loads and its entrypoint resolves, so it registers. */
  predicate Registers(req: CreateRequest, load: Loader)
  {
    var loaded := load(req.name, req.code);
    loaded.Executed? && req.entrypoint in loaded.namespace
  }

  /** The symbol a registering request binds. */
  function EntrypointOf(req: CreateRequest, load: Loader): Tool
    requires Registers(req, load)
  {
    load(req.name, req.code).namespace[req.entrypoint]
  }

  /** Binding a name in a dict: the value is replaced, and the key is appended
      to the order only when it is new. */
  function Bind(st: Snapshot, name: string, fn: Tool): (st': Snapshot)
    requires Valid(st)
    ensures Valid(st') && st'.artifacts == st.artifacts
    ensures st'.tools == st.tools[name := fn]
    ensures st'.names == if name in st.tools then st.names else st.names + [name]
  {
    Snapshot(st.tools[name := fn], if name in st.names then st.names else st.names + [name], st.artifacts)
  }

  /** `create_tool(name, code, entrypoint, description)`. */
  function Create(st: Snapshot, req: CreateRequest, load: Loader): (s: Synthesis)
    requires Valid(st)
    ensures Valid(s.state)
    // the artifact is overwritten first, whatever happens next
    ensures s.state.artifacts == st.artifacts[req.name := req.code]
    // success: the name is bound to the entrypoint, every other entry stays, order is kept
    ensures s.outcome.Registered? <==> Registers(req, load)
    ensures Registers(req, load) ==>
              && s.state.tools == st.tools[req.name := EntrypointOf(req, load)]
              && s.outcome.text == RegisteredText(req.name, req.entrypoint, req.description)
              && s.state.names == if req.name in st.tools then st.names else st.names + [req.name]
    // failure: the registry is untouched
    ensures !Registers(req, load) ==> s.state.tools == st.tools && s.state.names == st.names
    ensures load(req.name, req.code).NoSpec? ==> s.outcome == NotCreated(NoSpecText(req.name))
    ensures load(req.name, req.code).ExecFailed? ==>
              s.outcome == Propagated(ExecError(load(req.name, req.code).message))
    ensures load(req.name, req.code).Executed? && !Registers(req, load) ==>
              s.outcome == Propagated(MissingAttribute(req.name, req.entrypoint))
  {
    var written := Snapshot(st.tools, st.names, st.artifacts[req.name := req.code]);
    match load(req.name, req.code)
    case NoSpec => Synthesis(written, NotCreated(NoSpecText(req.name)))
    case ExecFailed(message) => Synthesis(written, Propagated(ExecError(message)))
    case Executed(namespace) =>
      if req.entrypoint !in namespace then
        Synthesis(written, Propagated(MissingAttribute(req.name, req.entrypoint)))
      else
        Synthesis(Bind(written, req.name, namespace[req.entrypoint]),
                  Registered(RegisteredText(req.name, req.entrypoint, req.description)))
  }

  /** The state after a run of creates, one after the other. An exception that
      escapes one create does not undo what that create already did. */
  function Replay(st: Snapshot, reqs: seq<CreateRequest>, load: Loader): (end: Snapshot)
    requires Valid(st)
    ensures Valid(end)
    decreases |reqs|
  {
    if reqs == [] then st else Replay(Create(st, reqs[0], load).state, reqs[1..], load)
  }

  /** Replaying a run in two parts is replaying it whole. */
  lemma {:induction false} ReplayAppend(st: Snapshot, xs: seq<CreateRequest>, ys: seq<CreateRequest>, load: Loader)
    requires Valid(st)
    ensures Replay(st, xs + ys, load) == Replay(Replay(st, xs, load), ys, load)
    decreases |xs|
  {
    if xs == [] {
      assert xs + ys == ys;
    } else {
      assert (xs + ys)[1..] == xs[1..] + ys;
      ReplayAppend(Create(st, xs[0], load).state, xs[1..], ys, load);
    }
  }

  /** Extending a run by one create applies that create to the run's end state. */
  lemma ReplaySnoc(st: Snapshot, xs: seq<CreateRequest>, r: CreateRequest, load: Loader)
    requires Valid(st)
    ensures Replay(st, xs + [r], load) == Create(Replay(st, xs, load), r, load).state
  {
    ReplayAppend(st, xs, [r], load);
    var mid := Replay(st, xs, load);
    assert [r][1..] == [];
    assert Replay(mid, [r], load) == Replay(Create(mid, r, load).state, [], load);
  }

  /** Names are never removed or moved: the order before a run is a prefix of
      the order after it, so `list_tools` keeps first-insertion order. */
  lemma {:induction false} ReplayKeepsOrder(st: Snapshot, reqs: seq<CreateRequest>, load: Loader)
    requires Valid(st)
    ensures st.names <= Replay(st, reqs, load).names
    decreases |reqs|
  {
    if reqs != [] {
      var next := Create(st, reqs[0], load).state;
      ReplayKeepsOrder(next, reqs[1..], load);
    }
  }

  /** A binding survives every create that is for another name or that fails. */
  lemma {:induction false} ReplayKeepsBinding(st: Snapshot, reqs: seq<CreateRequest>, load: Loader, name: string)
    requires Valid(st)
    requires forall j :: 0 <= j < |reqs| ==> reqs[j].name != name || !Registers(reqs[j], load)
    ensures name in Replay(st, reqs, load).tools <==> name in st.tools
    ensures name in st.tools ==> Replay(st, reqs, load).tools[name] == st.tools[name]
    decreases |reqs|
  {
    if reqs != [] {
      ReplayKeepsBinding(Create(st, reqs[0], load).state, reqs[1..], load, name);
    }
  }

  /** Last write wins: after any run, a name is bound to the entrypoint of the
      last create of that name that succeeded. */
  lemma {:induction false} LastRegistrationWins(st: Snapshot, reqs: seq<CreateRequest>, load: Loader, k: nat)
    requires Valid(st)
    requires k < |reqs| && Registers(reqs[k], load)
    requires forall j :: k < j < |reqs| ==> reqs[j].name != reqs[k].name || !Registers(reqs[j], load)
    ensures reqs[k].name in Replay(st, reqs, load).tools
    ensures Replay(st, reqs, load).tools[reqs[k].name] == EntrypointOf(reqs[k], load)
  {
    var prefix, rest := reqs[..k], reqs[k + 1..];
    var after := Create(Replay(st, prefix, load), reqs[k], load).state;
    ReplaySnoc(st, prefix, reqs[k], load);
    assert reqs == (prefix + [reqs[k]]) + rest;
    ReplayAppend(st, prefix + [reqs[k]], rest, load);
    forall j | 0 <= j < |rest|
      ensures rest[j].name != reqs[k].name || !Registers(rest[j], load)
    {
      assert rest[j] == reqs[k + 1 + j];
    }
    ReplayKeepsBinding(after, rest, load, reqs[k].name);
  }

  /** The artifact of a name holds the code of the last create of that name,
      whether or not that create registered anything. */
  lemma {:induction false} LastArtifactWins(st: Snapshot, reqs: seq<CreateRequest>, load: Loader, k: nat)
    requires Valid(st)
    requires k < |reqs|
    requires forall j :: k < j < |reqs| ==> reqs[j].name != reqs[k].name
    ensures reqs[k].name in Replay(st, reqs, load).artifacts
    ensures Replay(st, reqs, load).artifacts[reqs[k].name] == reqs[k].code
    decreases k
  {
    if k > 0 {
      LastArtifactWins(Create(st, reqs[0], load).state, reqs[1..], load, k - 1);
    } else {
      ReplayKeepsArtifact(Create(st, reqs[0], load).state, reqs[1..], load, reqs[0].name);
    }
  }

  lemma {:induction false} ReplayKeepsArtifact(st: Snapshot, reqs: seq<CreateRequest>, load: Loader, name: string)
    requires Valid(st) && name in st.artifacts
    requires forall j :: 0 <= j < |reqs| ==> reqs[j].name != name
    ensures name in Replay(st, reqs, load).artifacts
    ensures Replay(st, reqs, load).artifacts[name] == st.artifacts[name]
    decreases |reqs|
  {
    if reqs != [] {
      ReplayKeepsArtifact(Create(st, reqs[0], load).state, reqs[1..], load, name);
    }
  }

  /** Re-creating a name replaces the tool, whatever the first create bound. */
  lemma RecreateReplaces(st: Snapshot, first: CreateRequest, second: CreateRequest, load: Loader)
    requires Valid(st)
    requires first.name == second.name && Registers(second, load)
    ensures Create(Create(st, first, load).state, second, load).state.tools[second.name]
            == EntrypointOf(second, load)
  {
  }
}
