/** The environment-resolution engine `getEnvVars`: it turns a request for an
    `.env` file or an `.rc` file into one environment by probing candidate
    paths in order with the matching file parser.

    The parsers are not modelled; each probe of a path has an abstract
    outcome. The engine's observable behaviour is the result (an environment
    or an error), the sequence of parser calls it made, and the information
    lines it logs in verbose mode. */
module Resolver {
  import opened Environment
  import opened Text

  /** What one parser call yields: the parsed environment, or a rejection
      whose `name` is `PathError`, `EnvironmentError` or anything else. */
  datatype Probe =
    | Found(env: Env)
    | PathError
    | EnvironmentError
    | OtherError(message: string)

  /** The two parser collaborators: `getEnvFileVars(path)` and
      `getRCFileVars({ environments, filePath })`. */
  datatype Parsers = Parsers(
    envFile: string -> Probe,
    rcFile: (string, seq<string>) -> Probe)

  /** A call the engine made to a parser, with its arguments. */
  datatype ParserCall =
    | EnvFileCall(path: string)
    | RcFileCall(path: string, environments: seq<string>)

  /** Which kind of file a scan looks for; an rc scan carries the requested
      environment names that every rc parser call is given. */
  datatype Source = EnvFileSource | RcFileSource(environments: seq<string>)

  /** `envFile: { filePath?, fallback? }` */
  datatype EnvFileRequest = EnvFileRequest(filePath: Option<string>, fallback: Option<bool>)

  /** `rc: { environments, filePath? }` */
  datatype RcRequest = RcRequest(environments: seq<string>, filePath: Option<string>)

  /** The options object of `getEnvVars`; all of it may be absent. */
  datatype Options = Options(envFile: Option<EnvFileRequest>, rc: Option<RcRequest>, verbose: Option<bool>)

  /** The errors `getEnvVars` rejects with. */
  datatype EnvError =
    | EnvFileNotFound(path: string)
    | EnvFileNotFoundAtDefaults(paths: seq<string>)
    | RcFileNotFound(path: string)
    | RcFileNotFoundAtDefaults(paths: seq<string>)
    | RcEnvironmentsNotFound(environments: seq<string>, path: string)
    | ParserFailure(message: string)

  /** Everything one resolution observably does. */
  datatype Resolution = Resolution(
    result: Result<Env, EnvError>,
    calls: seq<ParserCall>,
    info: seq<string>)

  // Default candidate paths, in priority order. Only the entries the
  // behaviour fixes are given; the middle entries are left unspecified.
  const RcDefaultSecond: string
  const RcDefaultPaths: seq<string> := ["./.env-cmdrc", RcDefaultSecond, "./.env-cmdrc.json"]
  const EnvDefaultSecond: string
  const EnvDefaultPaths: seq<string> := ["./.env", EnvDefaultSecond, "./.env.json"]

  /** The human-readable text of an error, assembled from fixed phrases and
      the paths or names involved. A parser's own error is surfaced with its
      message unchanged. */
  function Message(e: EnvError): (r: string) {
    match e
    case EnvFileNotFound(p) =>
      Concat(["Failed to find", " ", ".env file at path", ": ", p])
    case EnvFileNotFoundAtDefaults(ps) =>
      Concat(["Failed to find", " ", ".env file", " at ", "default paths", ": [", Join(ps, ","), "]"])
    case RcFileNotFound(p) =>
      Concat(["Failed to find", " ", ".rc file at path", ": ", p])
    case RcFileNotFoundAtDefaults(ps) =>
      Concat(["Failed to find", " ", ".rc file", " at ", "default paths", ": [", Join(ps, ","), "]"])
    case RcEnvironmentsNotFound(envs, p) =>
      Concat(["Failed to find environments", ": [", Join(envs, ","), "] for ", ".rc file at path", ": ", p])
    case ParserFailure(m) => m
  }

  /** The information line logged when a file is found. */
  function FoundLine(src: Source, path: string, atDefault: bool): (r: string) {
    match src
    case EnvFileSource =>
      (if atDefault then "Found .env file at default path: " else "Found .env file at path: ") + path
    case RcFileSource(envs) =>
      "Found environments: [" + Join(envs, ",")
      + (if atDefault then "] for default .rc file at path: " else "] for .rc file at path: ") + path
  }

  /** The lines logged for one reportable event: one in verbose mode, none otherwise. */
  function Info(verbose: bool, line: string): (r: seq<string>) {
    if verbose then [line] else []
  }

  function Parse(parsers: Parsers, src: Source, path: string): (r: Probe) {
    match src
    case EnvFileSource => parsers.envFile(path)
    case RcFileSource(envs) => parsers.rcFile(path, envs)
  }

  function CallOf(src: Source, path: string): (r: ParserCall) {
    match src
    case EnvFileSource => EnvFileCall(path)
    case RcFileSource(envs) => RcFileCall(path, envs)
  }

  /** The parser calls made when probing `paths` in order. */
  function CallsOf(src: Source, paths: seq<string>): (r: seq<ParserCall>)
    ensures |r| == |paths|
    ensures forall i :: 0 <= i < |paths| ==> r[i] == CallOf(src, paths[i])
  {
    seq(|paths|, i requires 0 <= i < |paths| => CallOf(src, paths[i]))
  }

  /** Whether a default-path scan moves on to the next candidate after this
      outcome. An env scan moves on after every failure; an rc scan stops at
      an `EnvironmentError`, since the file exists but lacks the environments. */
  predicate Retryable(src: Source, o: Probe) {
    match o
    case Found(_) => false
    case EnvironmentError => src.EnvFileSource?
    case _ => true
  }

  /** `i` is the first candidate at which a default-path scan stops. */
  ghost predicate StopsAt(parsers: Parsers, src: Source, paths: seq<string>, i: int) {
    && 0 <= i < |paths|
    && !Retryable(src, Parse(parsers, src, paths[i]))
    && forall j :: 0 <= j < i ==> Retryable(src, Parse(parsers, src, paths[j]))
  }

  /** Every candidate of a default-path scan is passed over. */
  ghost predicate Exhausts(parsers: Parsers, src: Source, paths: seq<string>) {
    forall j :: 0 <= j < |paths| ==> Retryable(src, Parse(parsers, src, paths[j]))
  }

  /** The number of candidates a scan passes over before it stops: the index
      of the first candidate that stops it, or `|paths|` if none does. */
  function FirstStop(parsers: Parsers, src: Source, paths: seq<string>): (n: nat)
    ensures n <= |paths|
    ensures forall j :: 0 <= j < n ==> Retryable(src, Parse(parsers, src, paths[j]))
    ensures n < |paths| ==> !Retryable(src, Parse(parsers, src, paths[n]))
    decreases |paths|
  {
    if |paths| == 0 then 0
    else if !Retryable(src, Parse(parsers, src, paths[0])) then 0
    else 1 + FirstStop(parsers, src, paths[1..])
  }

  /** The not-found error of a default-path scan. */
  function DefaultsNotFound(src: Source, paths: seq<string>): (r: EnvError) {
    match src
    case EnvFileSource => EnvFileNotFoundAtDefaults(paths)
    case RcFileSource(_) => RcFileNotFoundAtDefaults(paths)
  }

  /** The result of the candidate a scan stops at: its environment, or, for
      an rc scan only, the missing-environments error for that path. */
  function Decided(src: Source, path: string, o: Probe): (r: Result<Env, EnvError>)
    requires !Retryable(src, o)
  {
    match o
    case Found(m) => Ok(m)
    case EnvironmentError => Err(RcEnvironmentsNotFound(src.environments, path))
  }

  /** Scans the default paths in order: misses advance, the first success
      wins, an rc `EnvironmentError` ends the scan with that error, and a scan
      that passes over every path fails with the default-paths error. One
      information line is logged in verbose mode. */
  function ScanDefaults(parsers: Parsers, src: Source, paths: seq<string>, verbose: bool): (r: Resolution)
    ensures Exhausts(parsers, src, paths) <==> r.result == Err(DefaultsNotFound(src, paths))
    ensures Exhausts(parsers, src, paths) ==> r.calls == CallsOf(src, paths)
    ensures forall i :: StopsAt(parsers, src, paths, i) ==>
              && r.calls == CallsOf(src, paths[..i + 1])
              && r.result == Decided(src, paths[i], Parse(parsers, src, paths[i]))
    ensures |r.info| == (if verbose then 1 else 0)
  {
    var n := FirstStop(parsers, src, paths);
    if n == |paths| then
      var e := DefaultsNotFound(src, paths);
      Resolution(Err(e), CallsOf(src, paths), Info(verbose, Message(e)))
    else
      var path := paths[n];
      var res := Decided(src, path, Parse(parsers, src, path));
      var line := if res.Ok? then FoundLine(src, path, true) else Message(res.error);
      Resolution(res, CallsOf(src, paths[..n + 1]), Info(verbose, line))
  }

  /** `getRCFile`: a custom path is probed alone and every failure there is
      surfaced; otherwise the default rc paths are scanned. */
  function ResolveRcFile(parsers: Parsers, req: RcRequest, verbose: bool): (r: Resolution)
    ensures forall c :: c in r.calls ==> c.RcFileCall? && c.environments == req.environments
    ensures req.filePath.Some? ==> r.calls == [RcFileCall(req.filePath.value, req.environments)]
    ensures req.filePath.None? ==> 1 <= |r.calls| <= |RcDefaultPaths|
    ensures |r.info| == (if verbose then 1 else 0)
  {
    var src := RcFileSource(req.environments);
    match req.filePath
    case None => ScanDefaults(parsers, src, RcDefaultPaths, verbose)
    case Some(p) =>
      var res: Result<Env, EnvError> :=
        match parsers.rcFile(p, req.environments)
        case Found(m) => Ok(m)
        case PathError => Err(RcFileNotFound(p))
        case EnvironmentError => Err(RcEnvironmentsNotFound(req.environments, p))
        case OtherError(m) => Err(ParserFailure(m));
      var line := if res.Ok? then FoundLine(src, p, false) else Message(res.error);
      Resolution(res, [RcFileCall(p, req.environments)], Info(verbose, line))
  }

  /** `getEnvFile`: a custom path is probed first; when it fails the request
      fails, unless `fallback === true`, in which case the default env scan
      follows. Without a custom path the default env scan runs. */
  function ResolveEnvFile(parsers: Parsers, req: EnvFileRequest, verbose: bool): (r: Resolution)
    ensures forall c :: c in r.calls ==> c.EnvFileCall?
    ensures req.filePath.Some? ==> |r.calls| >= 1 && r.calls[0] == EnvFileCall(req.filePath.value)
    ensures req.filePath.Some? && !IsTrue(req.fallback) ==> r.calls == [EnvFileCall(req.filePath.value)]
    ensures req.filePath.None? ==> 1 <= |r.calls| <= |EnvDefaultPaths| && r.calls[0] == EnvFileCall("./.env")
    ensures r.result.Err? ==> r.result.error.EnvFileNotFound? || r.result.error.EnvFileNotFoundAtDefaults?
  {
    var src := EnvFileSource;
    match req.filePath
    case None => ScanDefaults(parsers, src, EnvDefaultPaths, verbose)
    case Some(p) =>
      match parsers.envFile(p)
      case Found(m) => Resolution(Ok(m), [EnvFileCall(p)], Info(verbose, FoundLine(src, p, false)))
      case _ =>
        var missed := Info(verbose, Message(EnvFileNotFound(p)));
        if IsTrue(req.fallback) then
          var d := ScanDefaults(parsers, src, EnvDefaultPaths, verbose);
          Resolution(d.result, [EnvFileCall(p)] + d.calls, missed + d.info)
        else
          Resolution(Err(EnvFileNotFound(p)), [EnvFileCall(p)], missed)
  }

  /** `getEnvVars`: an rc request is resolved when present; otherwise the env
      file request, which defaults to the plain default env scan. */
  function GetEnvVars(parsers: Parsers, options: Options): (r: Resolution)
    ensures |r.calls| >= 1
    ensures !IsTrue(options.verbose) ==> r.info == []
    ensures IsTrue(options.verbose) ==> 1 <= |r.info| <= 2
    ensures options.rc.Some? ==> forall c :: c in r.calls ==> c.RcFileCall?
    ensures options.rc.None? ==> forall c :: c in r.calls ==> c.EnvFileCall?
  {
    var verbose := IsTrue(options.verbose);
    match options.rc
    case Some(rc) => ResolveRcFile(parsers, rc, verbose)
    case None => ResolveEnvFile(parsers, options.envFile.GetOr(EnvFileRequest(None, None)), verbose)
  }
}
