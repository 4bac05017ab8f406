/** `EnvCmd`: resolves the file environment, merges it with a snapshot of
    the process environment, optionally expands variable references in the
    command line, and hands the result to `spawn`.

    The process environment is a parameter, variable expansion is an
    uninterpreted function, and spawning is represented by the request that
    would be passed to it. */
module Launcher {
  import opened Environment
  import opened Resolver

  /** `options` of `EnvCmdOptions`; every flag may be undefined. */
  datatype Flags = Flags(
    silent: Option<bool>,
    noOverride: Option<bool>,
    expandEnvs: Option<bool>,
    verbose: Option<bool>,
    useShell: Option<bool>)

  const NoFlags := Flags(None, None, None, None, None)

  /** `EnvCmdOptions`. */
  datatype EnvCmdOptions = EnvCmdOptions(
    command: string,
    commandArgs: seq<string>,
    envFile: Option<EnvFileRequest>,
    rc: Option<RcRequest>,
    options: Flags)

  /** The arguments `spawn` is called with. */
  datatype Spawn = Spawn(command: string, commandArgs: seq<string>, useShell: Option<bool>, env: Env)

  /** A successful run: what was spawned and the environment returned. */
  datatype Run = Run(spawned: Spawn, env: Env)

  /** The file environment after the `silent` policy: a resolution failure
      is rethrown, unless `silent` is true, in which case it becomes `{}`. */
  function FileEnv(resolved: Result<Env, EnvError>, silent: Option<bool>): (r: Result<Env, EnvError>)
    ensures resolved.Ok? ==> r == resolved
    ensures resolved.Err? && IsTrue(silent) ==> r == Ok(map[])
    ensures resolved.Err? && !IsTrue(silent) ==> r == resolved
  {
    match resolved
    case Ok(m) => Ok(m)
    case Err(e) => if IsTrue(silent) then Ok(map[]) else Err(e)
  }

  /** `Object.assign({}, first, second)` for ordinary keys: the keys of both,
      with `second` winning on a key both hold. A `__proto__` key, which the
      JavaScript target's inherited setter swallows, is not distinguished. */
  ghost predicate AssignedFrom(r: Env, first: Env, second: Env) {
    && r.Keys == first.Keys + second.Keys
    && (forall k :: k in second ==> r[k] == second[k])
    && (forall k :: k in first && k !in second ==> r[k] == first[k])
  }

  /** The merge of the file environment with the process environment. By
      default file variables override process variables; with
      `noOverride === true` process variables win. */
  function Merge(processEnv: Env, fileEnv: Env, noOverride: Option<bool>): (r: Env)
    ensures IsTrue(noOverride) ==> AssignedFrom(r, fileEnv, processEnv)
    ensures !IsTrue(noOverride) ==> AssignedFrom(r, processEnv, fileEnv)
  {
    if IsTrue(noOverride) then fileEnv + processEnv else processEnv + fileEnv
  }

  /** `commandArgs.map(arg => expandEnvs(arg, env))`. */
  function ExpandArgs(args: seq<string>, env: Env, expand: (string, Env) -> string): (r: seq<string>)
    ensures |r| == |args|
    ensures forall i :: 0 <= i < |args| ==> r[i] == expand(args[i], env)
  {
    seq(|args|, i requires 0 <= i < |args| => expand(args[i], env))
  }

  /** `EnvCmd`: a resolution error propagates unless silenced, in which case
      nothing is merged, expanded or spawned; otherwise the merged environment
      is both passed to `spawn` and returned, and the command line is expanded
      against it when `expandEnvs === true`. */
  function EnvCmd(o: EnvCmdOptions, parsers: Parsers, processEnv: Env, expand: (string, Env) -> string)
    : (r: Result<Run, EnvError>)
    ensures var resolved := GetEnvVars(parsers, Options(o.envFile, o.rc, o.options.verbose)).result;
            && (r.Err? <==> resolved.Err? && !IsTrue(o.options.silent))
            && (r.Err? ==> r.error == resolved.error)
    ensures r.Ok? ==> r.value.env == r.value.spawned.env
    ensures r.Ok? ==> r.value.env.Keys >= processEnv.Keys
    ensures r.Ok? ==> |r.value.spawned.commandArgs| == |o.commandArgs|
    ensures r.Ok? && !IsTrue(o.options.expandEnvs) ==>
              r.value.spawned.command == o.command && r.value.spawned.commandArgs == o.commandArgs
    ensures r.Ok? && IsTrue(o.options.expandEnvs) ==>
              && r.value.spawned.command == expand(o.command, r.value.env)
              && forall i :: 0 <= i < |o.commandArgs| ==>
                   r.value.spawned.commandArgs[i] == expand(o.commandArgs[i], r.value.env)
  {
    var resolved := GetEnvVars(parsers, Options(o.envFile, o.rc, o.options.verbose)).result;
    match FileEnv(resolved, o.options.silent)
    case Err(e) => Err(e)
    case Ok(fileEnv) =>
      var env := Merge(processEnv, fileEnv, o.options.noOverride);
      var command := if IsTrue(o.options.expandEnvs) then expand(o.command, env) else o.command;
      var args := if IsTrue(o.options.expandEnvs) then ExpandArgs(o.commandArgs, env, expand) else o.commandArgs;
      Ok(Run(Spawn(command, args, o.options.useShell, env), env))
  }
}
