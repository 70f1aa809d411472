/** `install_dependency`: a cascade of guarded early returns over facts about
    the Python environment, reporting its outcome as text. The subprocesses it
    would start are returned as a trace of commands. */
module Installer {
  import opened Values

  /** What `importlib.util.find_spec(dependency)` does: finds the module, finds
      nothing, or raises (a dotted name whose parent package is missing raises
      `ModuleNotFoundError`). */
  datatype FindSpec = Found | NotFound | FindRaised(message: string)

  /** Exit of `subprocess.check_call`: status zero, or the `CalledProcessError`
      with its text. */
  datatype ExitStatus = ExitZero | ExitNonZero(diagnostic: string)

  /** The environment facts the installer consults, each an oracle. */
  datatype Env = Env(
    prefix: string,               // sys.prefix
    basePrefix: string,           // sys.base_prefix
    pipFound: bool,               // find_spec("pip") is not None
    ensurepipSucceeds: bool,      // `python -m ensurepip --upgrade` exits with 0
    findSpec: string -> FindSpec, // find_spec(dependency)
    pipInstall: string -> ExitStatus) // `python -m pip install <package>`

  /** The subprocess commands the installer may issue. */
  datatype Command = EnsurePip | PipInstall(package: string)

  /** The installer's result: text, or an exception that escapes it. */
  datatype InstallOutcome = Reported(text: string) | Propagated(message: string)

  datatype Installation = Installation(outcome: InstallOutcome, commands: seq<Command>)

  const NotInVenvText: string := "Error: not running inside a virtual environment."
  const PipUnavailableText: string := "Error: pip is not available."

  function AlreadyInstalledText(dependency: string): string { dependency + " already installed." }
  function InstalledText(package: string): string { "Installed " + package }
  function InstallFailedText(diagnostic: string): string { "Installation failed: " + diagnostic }

  /** A version is used only when it is truthy: present and not empty. */
  predicate Pinned(version: Option<string>)
  {
    version.Some? && version.value != ""
  }

  /** The requirement handed to pip: `dependency==version` or plain `dependency`. */
  function PackageSpec(dependency: string, version: Option<string>): string
  {
    if Pinned(version) then dependency + "==" + version.value else dependency
  }

  /** Reads a requirement back: the text before the first `==` and, when there
      is one, the text after it. */
  function SplitPin(s: string): (r: (string, Option<string>))
    ensures r.1.None? ==> r.0 == s
    ensures r.1.Some? ==> |r.0| + 2 + |r.1.value| == |s|
  {
    if |s| < 2 then (s, None)
    else if s[0] == '=' && s[1] == '=' then ("", Some(s[2..]))
    else
      var (name, version) := SplitPin(s[1..]);
      ([s[0]] + name, version)
  }

  /** Splitting the spec at its first `==` gives back the dependency and the
      version that were asked for, as long as the dependency's name holds no
      `=` (which no package name does); an empty version is no pin at all. */
  lemma {:induction false} PackageSpecRoundTrip(dependency: string, version: Option<string>)
    requires '=' !in dependency
    ensures SplitPin(PackageSpec(dependency, version)) ==
            (dependency, if Pinned(version) then version else None)
  {
    if Pinned(version) {
      SplitPinAfterName(dependency, version.value);
    } else {
      SplitPinOfName(dependency);
    }
  }

  lemma {:induction false} SplitPinAfterName(name: string, rest: string)
    requires '=' !in name
    ensures SplitPin(name + "==" + rest) == (name, Some(rest))
  {
    if name != [] {
      assert (name + "==" + rest)[1..] == name[1..] + "==" + rest;
      SplitPinAfterName(name[1..], rest);
      assert [name[0]] + name[1..] == name;
    }
  }

  lemma {:induction false} SplitPinOfName(name: string)
    requires '=' !in name
    ensures SplitPin(name) == (name, None)
  {
    if |name| >= 2 {
      SplitPinOfName(name[1..]);
      assert [name[0]] + name[1..] == name;
    }
  }

  /** pip is usable: it was found, or bootstrapping it succeeded. */
  predicate PipUsable(env: Env)
  {
    env.pipFound || env.ensurepipSucceeds
  }

  /** `install_dependency(dependency, version)` in the environment `env`. */
  function InstallDependency(env: Env, dependency: string, version: Option<string>): (r: Installation)
    // outside a virtual environment: refusal, and no subprocess at all
    ensures env.prefix == env.basePrefix ==> r == Installation(Reported(NotInVenvText), [])
    // the bootstrap runs once, first, and only when pip was not found inside a venv
    ensures EnsurePip in r.commands <==> env.prefix != env.basePrefix && !env.pipFound
    ensures forall i :: 0 < i < |r.commands| ==> r.commands[i] != EnsurePip
    // a failed bootstrap is reported and nothing more is tried
    ensures env.prefix != env.basePrefix && !PipUsable(env) ==>
              r == Installation(Reported(PipUnavailableText), [EnsurePip])
    // an importable dependency short-circuits before pip is run
    ensures env.prefix != env.basePrefix && PipUsable(env) && env.findSpec(dependency) == Found ==>
              r.outcome == Reported(AlreadyInstalledText(dependency))
    // pip install runs at most once, last, with the pinned spec, exactly when every guard passed
    ensures forall i :: 0 <= i < |r.commands| && r.commands[i].PipInstall? ==>
              i == |r.commands| - 1 && r.commands[i].package == PackageSpec(dependency, version)
    ensures PipInstall(PackageSpec(dependency, version)) in r.commands <==>
              env.prefix != env.basePrefix && PipUsable(env) && env.findSpec(dependency) == NotFound
    // its exit status decides the report
    ensures PipInstall(PackageSpec(dependency, version)) in r.commands ==>
              r.outcome == Reported(
                match env.pipInstall(PackageSpec(dependency, version))
                case ExitZero => InstalledText(PackageSpec(dependency, version))
                case ExitNonZero(d) => InstallFailedText(d))
    // the only exception that escapes is the one find_spec raises
    ensures r.outcome.Propagated? <==>
              env.prefix != env.basePrefix && PipUsable(env) && env.findSpec(dependency).FindRaised?
    ensures env.prefix != env.basePrefix && PipUsable(env) && env.findSpec(dependency).FindRaised? ==>
              r.outcome == Propagated(env.findSpec(dependency).message)
  {
    if env.prefix == env.basePrefix then
      Installation(Reported(NotInVenvText), [])
    else
      var bootstrap := if env.pipFound then [] else [EnsurePip];
      if !env.pipFound && !env.ensurepipSucceeds then
        Installation(Reported(PipUnavailableText), bootstrap)
      else
        match env.findSpec(dependency)
        case FindRaised(message) => Installation(Propagated(message), bootstrap)
        case Found => Installation(Reported(AlreadyInstalledText(dependency)), bootstrap)
        case NotFound =>
          var pkg := PackageSpec(dependency, version);
          var report := match env.pipInstall(pkg)
            case ExitZero => InstalledText(pkg)
            case ExitNonZero(diagnostic) => InstallFailedText(diagnostic);
          Installation(Reported(report), bootstrap + [PipInstall(pkg)])
  }
}
