/** Properties of the resolution engine: the wording of its errors, the
    behaviour the test suite of `getEnvVars` fixes, and general laws relating
    a resolution's result to the parser calls it made. */
module ResolverProperties {
  import opened Environment
  import opened Text
  import opened Resolver

  /** What the parser answered to a call the engine made. */
  function OutcomeOf(parsers: Parsers, c: ParserCall): (r: Probe) {
    match c
    case EnvFileCall(p) => parsers.envFile(p)
    case RcFileCall(p, envs) => parsers.rcFile(p, envs)
  }

  function RcOptions(envs: seq<string>, filePath: Option<string>, verbose: Option<bool>): Options {
    Options(None, Some(RcRequest(envs, filePath)), verbose)
  }

  function EnvOptions(filePath: Option<string>, fallback: Option<bool>, verbose: Option<bool>): Options {
    Options(Some(EnvFileRequest(filePath, fallback)), None, verbose)
  }

  // ----- Error wording -----

  /** A custom env path that misses is reported as not found at that path. */
  lemma EnvFileNotFoundWording(p: string)
    ensures Mentions(Message(EnvFileNotFound(p)), "Failed to find")
    ensures Mentions(Message(EnvFileNotFound(p)), ".env file at path")
  {
    var parts := ["Failed to find", " ", ".env file at path", ": ", p];
    MentionsPart(parts, 0);
    MentionsPart(parts, 2);
  }

  /** An exhausted default env scan is reported as not found at the default paths. */
  lemma EnvFileNotFoundAtDefaultsWording(ps: seq<string>)
    ensures Mentions(Message(EnvFileNotFoundAtDefaults(ps)), "Failed to find")
    ensures Mentions(Message(EnvFileNotFoundAtDefaults(ps)), ".env file")
    ensures Mentions(Message(EnvFileNotFoundAtDefaults(ps)), "default paths")
  {
    var parts := ["Failed to find", " ", ".env file", " at ", "default paths", ": [", Join(ps, ","), "]"];
    MentionsPart(parts, 0);
    MentionsPart(parts, 2);
    MentionsPart(parts, 4);
  }

  /** A custom rc path that is missing is reported as not found at that path. */
  lemma RcFileNotFoundWording(p: string)
    ensures Mentions(Message(RcFileNotFound(p)), "Failed to find")
    ensures Mentions(Message(RcFileNotFound(p)), ".rc file at path")
  {
    var parts := ["Failed to find", " ", ".rc file at path", ": ", p];
    MentionsPart(parts, 0);
    MentionsPart(parts, 2);
  }

  /** An exhausted default rc scan is reported as not found at the default paths. */
  lemma RcFileNotFoundAtDefaultsWording(ps: seq<string>)
    ensures Mentions(Message(RcFileNotFoundAtDefaults(ps)), "Failed to find")
    ensures Mentions(Message(RcFileNotFoundAtDefaults(ps)), ".rc file")
    ensures Mentions(Message(RcFileNotFoundAtDefaults(ps)), "default paths")
  {
    var parts := ["Failed to find", " ", ".rc file", " at ", "default paths", ": [", Join(ps, ","), "]"];
    MentionsPart(parts, 0);
    MentionsPart(parts, 2);
    MentionsPart(parts, 4);
  }

  /** Missing environments are reported with the path of the rc file. */
  lemma RcEnvironmentsNotFoundWording(envs: seq<string>, p: string)
    ensures Mentions(Message(RcEnvironmentsNotFound(envs, p)), "Failed to find environments")
    ensures Mentions(Message(RcEnvironmentsNotFound(envs, p)), ".rc file at path")
  {
    var parts := ["Failed to find environments", ": [", Join(envs, ","), "] for ", ".rc file at path", ": ", p];
    MentionsPart(parts, 0);
    MentionsPart(parts, 4);
  }

  // ----- Rc requests -----

  /** A default rc request probes `./.env-cmdrc` first, hands the parser the
      requested environments unchanged, and on success stops there. */
  lemma DefaultRcFirstProbe(parsers: Parsers, envs: seq<string>, m: Env, verbose: Option<bool>)
    requires parsers.rcFile("./.env-cmdrc", envs) == Found(m)
    ensures GetEnvVars(parsers, RcOptions(envs, None, verbose)).result == Ok(m)
    ensures GetEnvVars(parsers, RcOptions(envs, None, verbose)).calls == [RcFileCall("./.env-cmdrc", envs)]
  {
  }

  /** Path errors advance the default rc scan; after two of them the third
      probe, at `./.env-cmdrc.json`, supplies the environment. */
  lemma DefaultRcThirdProbe(parsers: Parsers, envs: seq<string>, m: Env, verbose: Option<bool>)
    requires parsers.rcFile(RcDefaultPaths[0], envs) == PathError
    requires parsers.rcFile(RcDefaultPaths[1], envs) == PathError
    requires parsers.rcFile(RcDefaultPaths[2], envs) == Found(m)
    ensures GetEnvVars(parsers, RcOptions(envs, None, verbose)).result == Ok(m)
    ensures |GetEnvVars(parsers, RcOptions(envs, None, verbose)).calls| == 3
    ensures GetEnvVars(parsers, RcOptions(envs, None, verbose)).calls[2]
            == RcFileCall("./.env-cmdrc.json", envs)
  {
  }

  /** When every default rc path is missing, the request fails with the
      default-paths error after probing them all, logging one line in
      verbose mode. */
  lemma DefaultRcNotFound(parsers: Parsers, envs: seq<string>, verbose: Option<bool>)
    requires forall i :: 0 <= i < |RcDefaultPaths| ==> parsers.rcFile(RcDefaultPaths[i], envs) == PathError
    ensures GetEnvVars(parsers, RcOptions(envs, None, verbose)).result
            == Err(RcFileNotFoundAtDefaults(RcDefaultPaths))
    ensures |GetEnvVars(parsers, RcOptions(envs, None, verbose)).calls| == |RcDefaultPaths|
    ensures |GetEnvVars(parsers, RcOptions(envs, None, verbose)).info| == if IsTrue(verbose) then 1 else 0
    ensures var msg := Message(RcFileNotFoundAtDefaults(RcDefaultPaths));
            Mentions(msg, "Failed to find") && Mentions(msg, ".rc file") && Mentions(msg, "default paths")
  {
    var src := RcFileSource(envs);
    forall j | 0 <= j < |RcDefaultPaths|
      ensures Retryable(src, Parse(parsers, src, RcDefaultPaths[j]))
    {
      assert Parse(parsers, src, RcDefaultPaths[j]) == PathError;
    }
    RcFileNotFoundAtDefaultsWording(RcDefaultPaths);
  }

  /** An `EnvironmentError` met during the default rc scan ends it at once
      with the missing-environments error for that path, not with the
      default-paths error, and no later path is probed. */
  lemma DefaultRcEnvironmentError(parsers: Parsers, envs: seq<string>, i: nat, verbose: Option<bool>)
    requires i < |RcDefaultPaths|
    requires forall j :: 0 <= j < i ==> parsers.rcFile(RcDefaultPaths[j], envs) == PathError
    requires parsers.rcFile(RcDefaultPaths[i], envs) == EnvironmentError
    ensures GetEnvVars(parsers, RcOptions(envs, None, verbose)).result
            == Err(RcEnvironmentsNotFound(envs, RcDefaultPaths[i]))
    ensures GetEnvVars(parsers, RcOptions(envs, None, verbose)).calls
            == CallsOf(RcFileSource(envs), RcDefaultPaths[..i + 1])
    ensures |GetEnvVars(parsers, RcOptions(envs, None, verbose)).info| == if IsTrue(verbose) then 1 else 0
    ensures var msg := Message(RcEnvironmentsNotFound(envs, RcDefaultPaths[i]));
            Mentions(msg, "Failed to find environments") && Mentions(msg, ".rc file at path")
  {
    var src := RcFileSource(envs);
    forall j | 0 <= j < i
      ensures Retryable(src, Parse(parsers, src, RcDefaultPaths[j]))
    {
      assert Parse(parsers, src, RcDefaultPaths[j]) == PathError;
    }
    assert StopsAt(parsers, src, RcDefaultPaths, i);
    RcEnvironmentsNotFoundWording(envs, RcDefaultPaths[i]);
  }

  /** A custom rc path is probed exactly once, whatever the outcome; its
      environment is returned, a path error names the path, and an
      `EnvironmentError` names the missing environments. One line is logged
      in verbose mode. */
  lemma CustomRcPath(parsers: Parsers, envs: seq<string>, path: string, verbose: Option<bool>)
    ensures var r := GetEnvVars(parsers, RcOptions(envs, Some(path), verbose));
            && r.calls == [RcFileCall(path, envs)]
            && |r.info| == (if IsTrue(verbose) then 1 else 0)
            && (parsers.rcFile(path, envs).Found? ==> r.result == Ok(parsers.rcFile(path, envs).env))
            && (parsers.rcFile(path, envs) == PathError ==> r.result == Err(RcFileNotFound(path)))
            && (parsers.rcFile(path, envs) == EnvironmentError ==>
                  r.result == Err(RcEnvironmentsNotFound(envs, path)))
    ensures parsers.rcFile(path, envs) == PathError ==>
              var msg := Message(RcFileNotFound(path));
              Mentions(msg, "Failed to find") && Mentions(msg, ".rc file at path")
    ensures parsers.rcFile(path, envs) == EnvironmentError ==>
              var msg := Message(RcEnvironmentsNotFound(envs, path));
              Mentions(msg, "Failed to find environments") && Mentions(msg, ".rc file at path")
  {
    RcFileNotFoundWording(path);
    RcEnvironmentsNotFoundWording(envs, path);
  }

  // ----- Env file requests -----

  /** A custom env path without fallback is probed exactly once; its
      environment is returned, or the request fails naming that path. One
      line is logged in verbose mode. */
  lemma CustomEnvPath(parsers: Parsers, path: string, fallback: Option<bool>, verbose: Option<bool>)
    requires !IsTrue(fallback)
    ensures var r := GetEnvVars(parsers, EnvOptions(Some(path), fallback, verbose));
            && r.calls == [EnvFileCall(path)]
            && |r.info| == (if IsTrue(verbose) then 1 else 0)
            && (parsers.envFile(path).Found? ==> r.result == Ok(parsers.envFile(path).env))
            && (!parsers.envFile(path).Found? ==> r.result == Err(EnvFileNotFound(path)))
    ensures var msg := Message(EnvFileNotFound(path));
            Mentions(msg, "Failed to find") && Mentions(msg, ".env file at path")
  {
    EnvFileNotFoundWording(path);
  }

  /** With `fallback: true`, a missing custom env file is followed by the
      default scan starting at `./.env`; if that succeeds, two probes are made
      and two lines are logged in verbose mode. */
  lemma FallbackToDefaultEnv(parsers: Parsers, path: string, m: Env, verbose: Option<bool>)
    requires !parsers.envFile(path).Found?
    requires parsers.envFile("./.env") == Found(m)
    ensures var r := GetEnvVars(parsers, EnvOptions(Some(path), Some(true), verbose));
            && r.result == Ok(m)
            && r.calls == [EnvFileCall(path), EnvFileCall("./.env")]
            && |r.info| == (if IsTrue(verbose) then 2 else 0)
  {
  }

  /** With no options at all, the default env scan probes `./.env` first and
      stops there on success. */
  lemma DefaultEnvFirstProbe(parsers: Parsers, m: Env)
    requires parsers.envFile("./.env") == Found(m)
    ensures GetEnvVars(parsers, Options(None, None, None)).result == Ok(m)
    ensures GetEnvVars(parsers, Options(None, None, None)).calls == [EnvFileCall("./.env")]
  {
  }

  /** Misses advance the default env scan: after two misses the third probe
      supplies the environment, and `./.env.json` was among the paths probed. */
  lemma DefaultEnvThirdProbe(parsers: Parsers, m: Env, verbose: Option<bool>)
    requires !parsers.envFile(EnvDefaultPaths[0]).Found?
    requires !parsers.envFile(EnvDefaultPaths[1]).Found?
    requires parsers.envFile(EnvDefaultPaths[2]) == Found(m)
    ensures GetEnvVars(parsers, Options(None, None, verbose)).result == Ok(m)
    ensures |GetEnvVars(parsers, Options(None, None, verbose)).calls| == 3
    ensures EnvFileCall("./.env.json") in GetEnvVars(parsers, Options(None, None, verbose)).calls
  {
  }

  /** When every default env path misses, the request fails with the
      default-paths error, logging one line in verbose mode. */
  lemma DefaultEnvNotFound(parsers: Parsers, verbose: Option<bool>)
    requires forall i :: 0 <= i < |EnvDefaultPaths| ==> !parsers.envFile(EnvDefaultPaths[i]).Found?
    ensures GetEnvVars(parsers, Options(None, None, verbose)).result
            == Err(EnvFileNotFoundAtDefaults(EnvDefaultPaths))
    ensures |GetEnvVars(parsers, Options(None, None, verbose)).info| == if IsTrue(verbose) then 1 else 0
    ensures var msg := Message(EnvFileNotFoundAtDefaults(EnvDefaultPaths));
            Mentions(msg, "Failed to find") && Mentions(msg, ".env file") && Mentions(msg, "default paths")
  {
    forall j | 0 <= j < |EnvDefaultPaths|
      ensures Retryable(EnvFileSource, Parse(parsers, EnvFileSource, EnvDefaultPaths[j]))
    {
      assert !Parse(parsers, EnvFileSource, EnvDefaultPaths[j]).Found?;
    }
    EnvFileNotFoundAtDefaultsWording(EnvDefaultPaths);
  }

  // ----- General laws -----

  /** In verbose mode exactly one line is logged per resolution, except when
      a custom env file misses and the fallback scan follows, which logs two;
      nothing is logged otherwise. */
  lemma VerboseLineCount(parsers: Parsers, options: Options)
    ensures var r := GetEnvVars(parsers, options);
            var fellBack :=
              && options.rc.None? && options.envFile.Some?
              && options.envFile.value.filePath.Some? && IsTrue(options.envFile.value.fallback)
              && !parsers.envFile(options.envFile.value.filePath.value).Found?;
            |r.info| == (if !IsTrue(options.verbose) then 0 else if fellBack then 2 else 1)
  {
  }

  /** The calls of a resolution explain its result: at least one call was
      made, every call but the last found nothing, and the result is a
      success exactly when the last call found a file, whose environment it
      then is. */
  ghost predicate CallsExplainResult(parsers: Parsers, r: Resolution) {
    && |r.calls| >= 1
    && (forall k :: 0 <= k < |r.calls| - 1 ==> !OutcomeOf(parsers, r.calls[k]).Found?)
    && (r.result.Ok? ==> OutcomeOf(parsers, r.calls[|r.calls| - 1]) == Found(r.result.value))
    && (r.result.Err? ==> !OutcomeOf(parsers, r.calls[|r.calls| - 1]).Found?)
  }

  /** A default-path scan's calls explain its result. */
  lemma ScanExplained(parsers: Parsers, src: Source, paths: seq<string>, verbose: bool)
    requires |paths| > 0
    ensures CallsExplainResult(parsers, ScanDefaults(parsers, src, paths, verbose))
  {
  }

  /** A missed custom env path followed by a fallback scan keeps the calls
      explaining the result. */
  lemma FallbackExplained(parsers: Parsers, path: string, d: Resolution, info: seq<string>)
    requires CallsExplainResult(parsers, d)
    requires !parsers.envFile(path).Found?
    ensures CallsExplainResult(parsers, Resolution(d.result, [EnvFileCall(path)] + d.calls, info))
  {
  }

  /** Every resolution's calls explain its result. */
  lemma ResultExplainedByCalls(parsers: Parsers, options: Options)
    ensures CallsExplainResult(parsers, GetEnvVars(parsers, options))
  {
    var verbose := IsTrue(options.verbose);
    match options.rc
    case Some(rc) =>
      if rc.filePath.None? {
        ScanExplained(parsers, RcFileSource(rc.environments), RcDefaultPaths, verbose);
      }
    case None =>
      var req := options.envFile.GetOr(EnvFileRequest(None, None));
      var d := ScanDefaults(parsers, EnvFileSource, EnvDefaultPaths, verbose);
      ScanExplained(parsers, EnvFileSource, EnvDefaultPaths, verbose);
      match req.filePath
      case None =>
      case Some(p) =>
        if !parsers.envFile(p).Found? && IsTrue(req.fallback) {
          FallbackExplained(parsers, p, d, Info(verbose, Message(EnvFileNotFound(p))) + d.info);
        }
  }

  /** The candidate paths of a request, in probe order: a custom path alone,
      a custom env path followed by the default env paths when `fallback` is
      true, or the default paths of the requested kind. */
  function CandidatePaths(options: Options): (r: seq<string>) {
    match options.rc
    case Some(rc) =>
      if rc.filePath.Some? then [rc.filePath.value] else RcDefaultPaths
    case None =>
      var req := options.envFile.GetOr(EnvFileRequest(None, None));
      match req.filePath
      case None => EnvDefaultPaths
      case Some(p) => if IsTrue(req.fallback) then [p] + EnvDefaultPaths else [p]
  }

  /** The engine probes a non-empty prefix of the request's candidate paths,
      in order, and never a path outside it. */
  lemma ProbesCandidatePrefix(parsers: Parsers, options: Options)
    ensures var r := GetEnvVars(parsers, options);
            var cands := CandidatePaths(options);
            && 1 <= |r.calls| <= |cands|
            && forall k :: 0 <= k < |r.calls| ==> r.calls[k].path == cands[k]
  {
    var verbose := IsTrue(options.verbose);
    match options.rc
    case Some(rc) =>
    case None =>
      var req := options.envFile.GetOr(EnvFileRequest(None, None));
      var d := ScanDefaults(parsers, EnvFileSource, EnvDefaultPaths, verbose);
      assert forall k :: 0 <= k < |d.calls| ==> d.calls[k].path == EnvDefaultPaths[k] by {
        ScanProbesPrefix(parsers, EnvFileSource, EnvDefaultPaths, verbose);
      }
  }

  lemma ScanProbesPrefix(parsers: Parsers, src: Source, paths: seq<string>, verbose: bool)
    requires |paths| > 0
    ensures var r := ScanDefaults(parsers, src, paths, verbose);
            && 1 <= |r.calls| <= |paths|
            && forall k :: 0 <= k < |r.calls| ==> r.calls[k].path == paths[k]
  {
    var r := ScanDefaults(parsers, src, paths, verbose);
    var n := FirstStop(parsers, src, paths);
    if n < |paths| {
      assert StopsAt(parsers, src, paths, n);
    }
  }
}
