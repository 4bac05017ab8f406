/** Properties of `EnvCmd`: `Object.assign` precedence, the silent policy,
    and what the spawned command line is. */
module LauncherProperties {
  import opened Environment
  import opened Resolver
  import opened Launcher

  /** `AssignedFrom` determines its result: any two environments assigned
      from the same sources are equal, so it admits no map but `Merge`'s. */
  lemma AssignedFromUnique(r: Env, r': Env, first: Env, second: Env)
    requires AssignedFrom(r, first, second) && AssignedFrom(r', first, second)
    ensures r == r'
  {
  }

  /** On a key both sides hold, the file value wins by default and the
      process value wins with `noOverride === true`; a key on one side only
      keeps that side's value. */
  lemma MergePrecedence(processEnv: Env, fileEnv: Env, noOverride: Option<bool>, k: string)
    ensures var r := Merge(processEnv, fileEnv, noOverride);
            && (k in r <==> k in processEnv || k in fileEnv)
            && (k in processEnv && k in fileEnv ==>
                  r[k] == (if IsTrue(noOverride) then processEnv[k] else fileEnv[k]))
            && (k in processEnv && k !in fileEnv ==> r[k] == processEnv[k])
            && (k !in processEnv && k in fileEnv ==> r[k] == fileEnv[k])
  {
  }

  /** The two merge directions agree exactly when the two environments agree
      on every key they share. */
  lemma MergeDirectionsAgree(processEnv: Env, fileEnv: Env)
    ensures Merge(processEnv, fileEnv, Some(true)) == Merge(processEnv, fileEnv, None)
            <==> forall k :: k in processEnv && k in fileEnv ==> processEnv[k] == fileEnv[k]
  {
  }

  /** An empty file environment leaves the process environment unchanged in
      either merge direction. */
  lemma MergeEmpty(processEnv: Env, noOverride: Option<bool>)
    ensures Merge(processEnv, map[], noOverride) == processEnv
  {
  }

  /** A resolved file environment is merged with the process environment in
      the direction `noOverride` selects; a silenced failure yields the process
      environment unchanged. */
  lemma EnvCmdEnvironment(o: EnvCmdOptions, parsers: Parsers, processEnv: Env, expand: (string, Env) -> string)
    ensures var resolved := GetEnvVars(parsers, Options(o.envFile, o.rc, o.options.verbose)).result;
            var r := EnvCmd(o, parsers, processEnv, expand);
            && (resolved.Ok? && !IsTrue(o.options.noOverride) ==>
                  r.Ok? && AssignedFrom(r.value.env, processEnv, resolved.value))
            && (resolved.Ok? && IsTrue(o.options.noOverride) ==>
                  r.Ok? && AssignedFrom(r.value.env, resolved.value, processEnv))
            && (resolved.Err? && IsTrue(o.options.silent) ==> r.Ok? && r.value.env == processEnv)
  {
  }

  /** With all flags undefined, `EnvCmd` behaves as with them all false:
      failures propagate, file values win and nothing is expanded. */
  lemma UndefinedFlagsAreFalse(o: EnvCmdOptions, parsers: Parsers, processEnv: Env, expand: (string, Env) -> string)
    requires o.options == NoFlags
    ensures var o' := o.(options := Flags(Some(false), Some(false), Some(false), Some(false), None));
            EnvCmd(o, parsers, processEnv, expand) == EnvCmd(o', parsers, processEnv, expand)
  {
  }

  /** Silent mode with an unresolvable request still spawns the command,
      with exactly the process environment. */
  lemma SilentMissingFile(command: string, args: seq<string>, parsers: Parsers, processEnv: Env,
                          expand: (string, Env) -> string)
    requires forall i :: 0 <= i < |EnvDefaultPaths| ==> !parsers.envFile(EnvDefaultPaths[i]).Found?
    ensures var o := EnvCmdOptions(command, args, None, None, NoFlags.(silent := Some(true)));
            var r := EnvCmd(o, parsers, processEnv, expand);
            r.Ok? && r.value.env == processEnv && r.value.spawned == Spawn(command, args, None, processEnv)
  {
  }
}
