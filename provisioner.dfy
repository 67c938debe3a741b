/**
 * The kernel provisioner's pre-launch step: detect the project in the
 * launch directory, merge the kernelspec's settings under the project's own
 * configuration, resolve the Python environment, put its bin directory on
 * `PATH`, rewrite the kernel's argv, and optionally check that ipykernel is
 * importable. Any OSError or RuntimeError turns the launch into one of the
 * fallback kernel, which shows the message.
 */
module Provisioner {
  import opened PyValues
  import opened Paths
  import opened ProjectKinds
  import CD = ConfigData
  import Identify

  const MessageNoPyproject := "Could not start project - no pyproject.toml or malformed pyproject.toml?"
  const MessageSanity := "Sanity check: Could not find `ipykernel` in environment"
  const MessageSanityNoIpykernel :=
    MessageSanity + "\nAdd `ipykernel` as a dependency in your project and update the virtual environment."
  const MessageMissingArgs := "pyproject_local_kernel config missing from kernelspec"
  const CheckHasKernelScript := "import importlib.util; raise SystemExit(not importlib.util.find_spec(\"ipykernel\"))"
  const SanityCheckVar := "PYPROJECT_LOCAL_KERNEL_SANITY_CHECK"

  /** How the sanity-check subprocess ended. */
  datatype SanityResult =
    | SanityPassed
    | SanityOSError(msg: string)     // the interpreter could not be started
    | SanityExitFailed               // it ran and exited with a non-zero status

  /** Everything the pre-launch step asks of its surroundings. */
  datatype World = World(
    pathExists: Path -> bool,
    read: Path -> Identify.ReadResult,
    host: Host,
    hatch: HatchAnswer,
    environ: map<string, string>,                                  // os.environ
    sanity: (seq<string>, map<string, string>) -> SanityResult,    // running a command in an environment
    executable: string)                                            // sys.executable

  // ----- the decisions, as functions of the inputs

  /** `str(x)` for an element of a launch command. */
  function ArgText(a: Arg, windows: bool): string {
    match a
    case Text(s) => s
    case PathArg(p) => Render(p, windows)
    case Item(v) => if v.Str? then v.s else Repr(v)
  }

  /** `list(map(str, python_cmd))` */
  function ArgStrings(cmd: seq<Arg>, windows: bool): (r: seq<string>)
    ensures |r| == |cmd| && forall k :: 0 <= k < |cmd| ==> r[k] == ArgText(cmd[k], windows)
  {
    seq(|cmd|, k requires 0 <= k < |cmd| => ArgText(cmd[k], windows))
  }

  /** The f-string rendering of the optional error context. */
  function ContextText(c: Option<string>): string {
    if c.Some? then c.value else "None"
  }

  /** The kernelspec's own configuration; its `use_venv` only applies to the use-venv kernel. */
  function SpecConfig(useVenv: Option<string>, sanityCheck: bool, isUseVenvKernel: bool): CD.ConfigData {
    CD.ConfigData(None, if isUseVenvKernel then useVenv else None, Some(sanityCheck))
  }

  /** The detection (with the merged configuration) and the environment that the launch will use. */
  datatype Plan = Plan(det: Identify.Detection, penv: Identify.PythonEnvironment)

  /** The detection with the kernelspec's settings merged in, or the error that stops the launch. */
  function Usable(found: Identify.Detection, spec: CD.ConfigData): (r: Outcome<Identify.Detection>)
    ensures r.Ok? <==> found.path.Some? && found.kind != InvalidData
    ensures r.Ok? ==> r.value == found.(config := CD.Merge(found.config, spec))
    ensures found.path.None? ==> r == Raise(RuntimeError(MessageNoPyproject))
    ensures found.path.Some? && found.kind == InvalidData ==>
              r == Raise(RuntimeError(MessageNoPyproject + "\n" + "Reason: " + ContextText(found.errorContext)))
    ensures r.Raise? ==> r.exc.RuntimeError? && MessageNoPyproject <= r.exc.msg
  {
    if found.path.None? then Raise(RuntimeError(MessageNoPyproject))
    else if found.kind == InvalidData then
      Raise(RuntimeError(MessageNoPyproject + "\n" + "Reason: " + ContextText(found.errorContext)))
    else Ok(found.(config := CD.Merge(found.config, spec)))
  }

  /** The part of `_pplk_pre_launch` that decides, up to the resolved environment. */
  function LaunchPlan(args: seq<string>, spec: CD.ConfigData, cwd: Path, w: World): (r: Outcome<Plan>)
    ensures r.Ok? ==> r.value.det.path.Some? && r.value.det.kind != InvalidData
  {
    if args == [] then Raise(RuntimeError(MessageMissingArgs))
    else
      var found :- Identify.IdentifySpec(cwd, w.pathExists, w.read);
      var det :- Usable(found, spec);
      var penv :- Identify.Resolve(det, true, true, w.host, w.hatch);
      if penv.None? then Raise(RuntimeError(MessageNoPyproject))
      else Ok(Plan(det, penv.value))
  }

  /** The `env` of the returned keyword arguments: with a bin directory, a PATH-updated environment. */
  function LaunchEnv(envVars: Option<map<string, string>>, penv: Identify.PythonEnvironment, w: World)
    : Option<map<string, string>>
  {
    if penv.venvBinDir.None? then envVars
    else
      var base := if envVars.Some? then envVars.value else w.environ;
      Some(base["PATH" := Identify.PrependedPath(base, penv.venvBinDir.value, w.host.windows)])
  }

  /** The environment of the sanity check: a copy, marked with the sanity-check variable. */
  function SanityEnv(launchEnv: Option<map<string, string>>, w: World): map<string, string> {
    (if launchEnv.Some? then launchEnv.value else w.environ)[SanityCheckVar := "1"]
  }

  /** uv installs ipykernel itself, so a uv command outside a virtual environment is not checked. */
  predicate SanitySkipped(useVenv: Option<string>, cmd: seq<string>) {
    !(useVenv.Some? && useVenv.value != "") && |cmd| >= |UvCommand| && cmd[..|UvCommand|] == UvCommand
  }

  /** `_python_environment_sanity_check` */
  function SanityOutcome(useVenv: Option<string>, cmd: seq<string>, launchEnv: Option<map<string, string>>, w: World)
    : (r: Outcome<()>)
    ensures SanitySkipped(useVenv, cmd) ==> r == Ok(())
    ensures r.Raise? ==> r.exc.RuntimeError? && MessageSanity <= r.exc.msg
  {
    if SanitySkipped(useVenv, cmd) then Ok(())
    else match w.sanity(cmd + ["-c", CheckHasKernelScript], SanityEnv(launchEnv, w))
      case SanityPassed => Ok(())
      case SanityOSError(msg) => Raise(RuntimeError(MessageSanity + "\nError: " + msg))
      case SanityExitFailed => Raise(RuntimeError(MessageSanityNoIpykernel))
  }

  /** What the launch will run and in which environment. */
  datatype Launch = Launch(argv: seq<string>, env: Option<map<string, string>>)

  /** What follows a resolved plan: the launch, unless the sanity check fails. */
  function Finish(plan: Plan, args: seq<string>, envVars: Option<map<string, string>>, w: World): (r: Outcome<Launch>)
    ensures r.Ok? ==> r.value == Launch(ArgStrings(plan.penv.pythonCmd, w.host.windows) + args, LaunchEnv(envVars, plan.penv, w))
    ensures r.Raise? <==> plan.det.config.sanityCheck == Some(true) &&
                          SanityOutcome(plan.det.config.useVenv, ArgStrings(plan.penv.pythonCmd, w.host.windows),
                                        LaunchEnv(envVars, plan.penv, w), w).Raise?
  {
    var cmd := ArgStrings(plan.penv.pythonCmd, w.host.windows);
    var launchEnv := LaunchEnv(envVars, plan.penv, w);
    if plan.det.config.sanityCheck == Some(true) then
      var checked :- SanityOutcome(plan.det.config.useVenv, cmd, launchEnv, w);
      Ok(Launch(cmd + args, launchEnv))
    else Ok(Launch(cmd + args, launchEnv))
  }

  /** `_pplk_pre_launch`: the argv and env it leaves behind, or the exception it raises. */
  function PreLaunchSpec(args: seq<string>, spec: CD.ConfigData, cwd: Path, envVars: Option<map<string, string>>, w: World)
    : Outcome<Launch>
  {
    var plan :- LaunchPlan(args, spec, cwd, w);
    Finish(plan, args, envVars, w)
  }

  /** The exceptions that `pre_launch` turns into the fallback kernel. */
  predicate Recoverable(e: Exc) {
    e.OSError? || e.RuntimeError?
  }

  /** The argv of the fallback kernel, which shows `e` to the user. */
  function FallbackArgv(executable: string, e: Exc, args: seq<string>): seq<string> {
    [executable, "-m", "pyproject_local_kernel", "--fallback-kernel=" + e.Message()] + args
  }

  // ----- the objects

  /** The kernelspec, whose argv the provisioner rewrites in place. */
  class KernelSpec {
    var argv: seq<string>

    constructor (argv0: seq<string>)
      ensures argv == argv0
    {
      argv := argv0;
    }
  }

  /** `_get_environment(env, copy=copy)`: the process environment is always copied, `env` only when asked. */
  method GetEnvironment(env: Identify.EnvDict?, copy: bool, environ: map<string, string>) returns (r: Identify.EnvDict)
    ensures env == null ==> fresh(r) && r.vars == environ
    ensures env != null && copy ==> fresh(r) && r.vars == env.vars
    ensures env != null && !copy ==> r == env
  {
    if env == null {
      r := new Identify.EnvDict(environ);
    } else if copy {
      r := new Identify.EnvDict(env.vars);
    } else {
      r := env;
    }
  }

  class PyprojectKernelProvisioner {
    var useVenv: Option<string>
    var sanityCheck: bool
    var pythonKernelArgs: seq<string>
    var isUseVenvKernel: bool
    var kernelSpec: KernelSpec

    /** The traits' defaults: `use_venv` ".venv" and the sanity check on. */
    constructor (spec: KernelSpec, args: seq<string>, useVenvKernel: bool)
      ensures useVenv == Some(".venv") && sanityCheck && pythonKernelArgs == args
      ensures isUseVenvKernel == useVenvKernel && kernelSpec == spec
    {
      useVenv := Some(".venv");
      sanityCheck := true;
      pythonKernelArgs := args;
      isUseVenvKernel := useVenvKernel;
      kernelSpec := spec;
    }

    function Spec(): CD.ConfigData
      reads this
    {
      SpecConfig(useVenv, sanityCheck, isUseVenvKernel)
    }

    /** `_python_environment_sanity_check`: runs the check in a marked copy of the environment. */
    method SanityCheck(projectUseVenv: Option<string>, pythonCmd: seq<string>, env: Identify.EnvDict?, w: World)
      returns (r: Outcome<()>)
      ensures r == SanityOutcome(projectUseVenv, pythonCmd, if env == null then None else Some(env.vars), w)
    {
      if SanitySkipped(projectUseVenv, pythonCmd) {
        return Ok(());
      }
      var sanityCmd := pythonCmd + ["-c", CheckHasKernelScript];
      var sanityEnv := GetEnvironment(env, true, w.environ);
      sanityEnv.vars := sanityEnv.vars[SanityCheckVar := "1"];
      match w.sanity(sanityCmd, sanityEnv.vars)
      case SanityPassed => r := Ok(());
      case SanityOSError(msg) => r := Raise(RuntimeError(MessageSanity + "\nError: " + msg));
      case SanityExitFailed => r := Raise(RuntimeError(MessageSanityNoIpykernel));
    }

    /**
     * The deciding half of `_pplk_pre_launch`: the kernelspec's settings and
     * the project's as configuration objects, merged, checked and resolved.
     */
    method PlanLaunch(cwd: Path, w: World) returns (r: Outcome<Plan>)
      ensures r == LaunchPlan(pythonKernelArgs, Spec(), cwd, w)
    {
      var specUseVenv := if isUseVenvKernel then useVenv else None;
      var specConfig := new CD.Config(CD.ConfigData(None, specUseVenv, Some(sanityCheck)));
      if pythonKernelArgs == [] {
        return Raise(RuntimeError(MessageMissingArgs));
      }
      var found :- Identify.Identify(cwd, w.pathExists, w.read);
      var projectConfig := new CD.Config(found.config);
      var merged := projectConfig.MergeWith(specConfig);
      var findProject := found.(config := merged.Data());
      if findProject.path.None? {
        return Raise(RuntimeError(MessageNoPyproject));
      }
      if findProject.kind == InvalidData {
        return Raise(RuntimeError(MessageNoPyproject + "\n" + "Reason: " + ContextText(findProject.errorContext)));
      }
      assert Usable(found, Spec()) == Ok(findProject);
      var pythonEnvironment :- Identify.Resolve(findProject, true, true, w.host, w.hatch);
      if pythonEnvironment.None? {
        return Raise(RuntimeError(MessageNoPyproject));
      }
      return Ok(Plan(findProject, pythonEnvironment.value));
    }

    /** The effecting half of `_pplk_pre_launch`: the environment and argv updates, then the sanity check. */
    method ApplyPlan(plan: Plan, env: Identify.EnvDict?, w: World) returns (r: Outcome<Identify.EnvDict?>)
      modifies kernelSpec, env
      ensures var envVars := if env == null then None else Some(old(env.vars));
              var finish := Finish(plan, pythonKernelArgs, envVars, w);
              (r.Raise? <==> finish.Raise?) &&
              (r.Raise? ==> r.exc == finish.exc) &&
              kernelSpec.argv == ArgStrings(plan.penv.pythonCmd, w.host.windows) + pythonKernelArgs &&
              (env != null ==> Some(env.vars) == LaunchEnv(envVars, plan.penv, w)) &&
              (r.Ok? && env != null ==> r.value == env) &&
              (r.Ok? && env == null ==> (r.value == null <==> plan.penv.venvBinDir.None?) &&
                                        (r.value != null ==> fresh(r.value) && Some(r.value.vars) == LaunchEnv(None, plan.penv, w)))
    {
      ghost var envVars := if env == null then None else Some(env.vars);
      var penv := plan.penv;
      var launchEnv := env;
      if penv.venvBinDir.Some? {
        launchEnv := GetEnvironment(env, false, w.environ);
        Identify.UpdateEnvironment(penv, launchEnv, w.host.windows);
      }
      assert launchEnv != null ==> Some(launchEnv.vars) == LaunchEnv(envVars, penv, w);
      assert launchEnv == null ==> LaunchEnv(envVars, penv, w).None?;
      var pythonCmd := ArgStrings(penv.pythonCmd, w.host.windows);
      kernelSpec.argv := pythonCmd + pythonKernelArgs;
      if plan.det.config.sanityCheck == Some(true) {
        var checked := SanityCheck(plan.det.config.useVenv, pythonCmd, launchEnv, w);
        if checked.Raise? {
          return Raise(checked.exc);
        }
      }
      return Ok(launchEnv);
    }

    /** `_pplk_pre_launch(cwd=cwd, env=env)`: returns the `env` of the new keyword arguments. */
    method PplkPreLaunch(cwd: Path, env: Identify.EnvDict?, w: World) returns (r: Outcome<Identify.EnvDict?>)
      modifies kernelSpec, env
      ensures var plan := LaunchPlan(pythonKernelArgs, Spec(), cwd, w);
              var envVars := if env == null then None else Some(old(env.vars));
              var spec := PreLaunchSpec(pythonKernelArgs, Spec(), cwd, envVars, w);
              (r.Raise? <==> spec.Raise?) &&
              (r.Raise? ==> r.exc == spec.exc) &&
              (plan.Raise? ==> kernelSpec.argv == old(kernelSpec.argv) && (env != null ==> env.vars == old(env.vars))) &&
              (plan.Ok? ==> kernelSpec.argv == ArgStrings(plan.value.penv.pythonCmd, w.host.windows) + pythonKernelArgs) &&
              (plan.Ok? && env != null ==> Some(env.vars) == LaunchEnv(envVars, plan.value.penv, w)) &&
              (r.Ok? && env != null ==> r.value == env) &&
              (r.Ok? && env == null ==> (r.value == null <==> plan.value.penv.venvBinDir.None?) &&
                                        (r.value != null ==> fresh(r.value) && Some(r.value.vars) == LaunchEnv(None, plan.value.penv, w)))
    {
      var plan := PlanLaunch(cwd, w);
      if plan.Raise? {
        return Raise(plan.exc);
      }
      r := ApplyPlan(plan.value, env, w);
    }

    /** `pre_launch(cwd=cwd, env=env)`: a recoverable error launches the fallback kernel instead. */
    method PreLaunch(cwd: Path, env: Identify.EnvDict?, w: World) returns (r: Outcome<Identify.EnvDict?>)
      modifies kernelSpec, env
      ensures var envVars := if env == null then None else Some(old(env.vars));
              var spec := PreLaunchSpec(pythonKernelArgs, Spec(), cwd, envVars, w);
              (spec.Ok? ==> r.Ok? && kernelSpec.argv == spec.value.argv) &&
              (spec.Raise? && Recoverable(spec.exc) ==>
                 r == Ok(env) && kernelSpec.argv == FallbackArgv(w.executable, spec.exc, pythonKernelArgs)) &&
              (spec.Raise? && !Recoverable(spec.exc) ==> r == Raise(spec.exc) && kernelSpec.argv == old(kernelSpec.argv))
      // the returned env on success: the caller's dict, or a fresh one only when a bin directory was added
      ensures var envVars := if env == null then None else Some(old(env.vars));
              var spec := PreLaunchSpec(pythonKernelArgs, Spec(), cwd, envVars, w);
              spec.Ok? ==> (env != null ==> r.value == env) &&
                           (env == null ==> (r.value == null <==> spec.value.env.None?)) &&
                           (r.value != null ==> Some(r.value.vars) == spec.value.env && (env == null ==> fresh(r.value)))
      // the caller's dict: untouched when no plan was made; once a plan exists it carries the updated PATH,
      // even when the sanity check then fails and the fallback kernel is launched with it
      ensures var plan := LaunchPlan(pythonKernelArgs, Spec(), cwd, w);
              var envVars := if env == null then None else Some(old(env.vars));
              env != null ==> (plan.Raise? ==> env.vars == old(env.vars)) &&
                              (plan.Ok? ==> Some(env.vars) == LaunchEnv(envVars, plan.value.penv, w))
    {
      r := PplkPreLaunch(cwd, env, w);
      if r.Raise? && Recoverable(r.exc) {
        kernelSpec.argv := FallbackArgv(w.executable, r.exc, pythonKernelArgs);
        r := Ok(env);
      }
    }
  }

  // ----- properties of the decisions

  /** Empty kernel arguments are refused before the project is even looked at. */
  lemma MissingArgsFirst(spec: CD.ConfigData, cwd: Path, envVars: Option<map<string, string>>, w: World)
    ensures PreLaunchSpec([], spec, cwd, envVars, w) == Raise(RuntimeError(MessageMissingArgs))
  {
  }

  /** Without a pyproject.toml the launch fails with the no-pyproject message, which the fallback kernel shows. */
  lemma NoProjectMessage(args: seq<string>, spec: CD.ConfigData, cwd: Path, envVars: Option<map<string, string>>, w: World)
    requires args != [] && Locate(cwd, w.pathExists).None?
    ensures PreLaunchSpec(args, spec, cwd, envVars, w) == Raise(RuntimeError(MessageNoPyproject))
    ensures FallbackArgv(w.executable, RuntimeError(MessageNoPyproject), args)[3] == "--fallback-kernel=" + MessageNoPyproject
  {
  }

  /** An unreadable manifest fails with the no-pyproject message followed by the reason. */
  lemma UnreadableReason(args: seq<string>, spec: CD.ConfigData, cwd: Path, envVars: Option<map<string, string>>,
                         w: World, p: Path, msg: string)
    requires args != [] && Locate(cwd, w.pathExists) == Some(p) && w.read(p) == Identify.ReadFailed(msg)
    ensures PreLaunchSpec(args, spec, cwd, envVars, w) ==
            Raise(RuntimeError(MessageNoPyproject + "\n" + "Reason: " + msg))
  {
    Identify.UnreadableIsInvalid(cwd, w.pathExists, w.read, p, msg);
  }

  /** A manifest that could not be classified fails with the no-pyproject message and its error context. */
  lemma InvalidDataReason(args: seq<string>, spec: CD.ConfigData, cwd: Path, envVars: Option<map<string, string>>,
                          w: World, found: Identify.Detection)
    requires args != [] && Identify.IdentifySpec(cwd, w.pathExists, w.read) == Ok(found)
    requires found.path.Some? && found.kind == InvalidData
    ensures PreLaunchSpec(args, spec, cwd, envVars, w) ==
            Raise(RuntimeError(MessageNoPyproject + "\n" + "Reason: " + ContextText(found.errorContext)))
  {
  }

  /** When `resolve` finds no environment, the launch fails with the no-pyproject message. */
  lemma NoEnvironmentRaises(args: seq<string>, spec: CD.ConfigData, cwd: Path, envVars: Option<map<string, string>>,
                            w: World, found: Identify.Detection)
    requires args != [] && Identify.IdentifySpec(cwd, w.pathExists, w.read) == Ok(found)
    requires found.path.Some? && found.kind != InvalidData
    requires Identify.Resolve(found.(config := CD.Merge(found.config, spec)), true, true, w.host, w.hatch) == Ok(None)
    ensures PreLaunchSpec(args, spec, cwd, envVars, w) == Raise(RuntimeError(MessageNoPyproject))
  {
  }

  /** An unconfigured project of no known tool, on a host with neither uv nor rye, has no environment to run. */
  lemma UnknownWithoutFallback(args: seq<string>, spec: CD.ConfigData, cwd: Path, envVars: Option<map<string, string>>,
                               w: World, found: Identify.Detection)
    requires args != [] && Identify.IdentifySpec(cwd, w.pathExists, w.read) == Ok(found)
    requires found.path.Some? && found.kind == Unknown
    requires CD.Merge(found.config, spec).useVenv.None? && CD.Merge(found.config, spec).pythonCmd.None?
    requires !w.host.uvOnPath && !w.host.ryeOnPath
    ensures PreLaunchSpec(args, spec, cwd, envVars, w) == Raise(RuntimeError(MessageNoPyproject))
  {
    var det := found.(config := CD.Merge(found.config, spec));
    Identify.FallbackRules(det, true, true, w.host, w.hatch);
    NoEnvironmentRaises(args, spec, cwd, envVars, w, found);
  }

  /** The project's own settings win over the kernelspec's; the kernelspec fills in what the project leaves unset. */
  lemma ProjectConfigWins(project: CD.ConfigData, useVenv: Option<string>, sanityCheck: bool, isUseVenvKernel: bool)
    ensures var merged := CD.Merge(project, SpecConfig(useVenv, sanityCheck, isUseVenvKernel));
            merged.pythonCmd == project.pythonCmd &&
            merged.useVenv == (if project.useVenv.Some? then project.useVenv else if isUseVenvKernel then useVenv else None) &&
            merged.sanityCheck == (if project.sanityCheck.Some? then project.sanityCheck else Some(sanityCheck))
  {
  }

  /**
   * With the use-venv kernel and its default, a project that sets no
   * `use-venv` of its own runs `.venv/bin/python` next to its manifest, even
   * when it configures a `python-cmd`.
   */
  lemma UseVenvKernelDefault(args: seq<string>, cwd: Path, w: World, c: CD.ConfigData, p: Path)
    requires args != [] && Identify.IdentifySpec(cwd, w.pathExists, w.read) == Ok(Identify.Detection(Some(p), CustomConfiguration, c, None))
    requires c.useVenv.None?
    ensures LaunchPlan(args, SpecConfig(Some(".venv"), true, true), cwd, w).Ok?
    ensures LaunchPlan(args, SpecConfig(Some(".venv"), true, true), cwd, w).value.penv ==
            Identify.VenvEnvironment(p, ".venv", w.host.windows)
  {
    var spec := SpecConfig(Some(".venv"), true, true);
    var found := Identify.Detection(Some(p), CustomConfiguration, c, None);
    var det := found.(config := CD.Merge(c, spec));
    assert Usable(found, spec) == Ok(det);
    Identify.ResolvePrecedence(det, true, true, w.host, w.hatch);
  }

  /** uv commands are never sanity-checked outside a virtual environment, whatever the check would say. */
  lemma UvNotChecked(useVenv: Option<string>, rest: seq<string>, launchEnv: Option<map<string, string>>, w: World)
    requires useVenv.None? || useVenv == Some("")
    ensures SanityOutcome(useVenv, UvCommand + rest, launchEnv, w) == Ok(())
  {
    assert (UvCommand + rest)[..|UvCommand|] == UvCommand;
  }

  /** When the check runs, its environment is the launch environment plus the marker variable. */
  lemma SanityFailures(useVenv: Option<string>, cmd: seq<string>, launchEnv: Option<map<string, string>>, w: World)
    requires !SanitySkipped(useVenv, cmd)
    ensures var result := w.sanity(cmd + ["-c", CheckHasKernelScript], SanityEnv(launchEnv, w));
            SanityOutcome(useVenv, cmd, launchEnv, w) ==
            match result
            case SanityPassed => Ok(())
            case SanityOSError(msg) => Raise(RuntimeError(MessageSanity + "\nError: " + msg))
            case SanityExitFailed => Raise(RuntimeError(MessageSanityNoIpykernel))
  {
  }

  /** A virtual environment's bin directory becomes the first PATH entry of the kernel, before the old entries. */
  lemma KernelPathFirst(envVars: Option<map<string, string>>, penv: Identify.PythonEnvironment, w: World)
    requires penv.venvBinDir.Some? && Identify.PathSep(w.host.windows) !in Render(penv.venvBinDir.value, w.host.windows)
    ensures var base := if envVars.Some? then envVars.value else w.environ;
            var sep := Identify.PathSep(w.host.windows);
            LaunchEnv(envVars, penv, w).Some? &&
            SplitOn(LaunchEnv(envVars, penv, w).value["PATH"], sep) ==
            [Render(penv.venvBinDir.value, w.host.windows)] + SplitOn(Get(base, "PATH", Identify.DefPath(w.host.windows)), sep)
  {
    var base := if envVars.Some? then envVars.value else w.environ;
    Identify.PathEntries(base, penv.venvBinDir.value, w.host.windows);
  }
}
