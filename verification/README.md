# env-cmd: environment resolution and launch, in Dafny

env-cmd runs a command with environment variables loaded from a file. This
project models two pieces of its decision logic and proves what they do.

- **`getEnvVars`**, the resolution engine (module `Resolver`). It handles an
  `.rc` request (environment names plus an optional custom path), an `.env`
  request (an optional custom path plus an optional `fallback` flag), or no
  request at all. It decides which candidate paths to probe and in which
  order, which parser failures move on to the next path and which end the
  scan, which error it rejects with, and how many information lines it logs
  in verbose mode. A resolution is modelled as a `Resolution`, which holds
  the result, the parser calls made in order, and the logged lines.
- **`EnvCmd`**, the launcher (module `Launcher`). The `silent` flag decides
  whether a resolution failure propagates or becomes `{}`. The file
  environment is then merged with a snapshot of the process environment.
  `Object.assign({}, a, b)` is modelled as Dafny's right-biased map union
  `a + b`, and `noOverride` picks which side wins. Finally `expandEnvs` may be applied to
  the command and each argument.

The file parsers are parameters of type `Parsers`. Each call to a parser
has an abstract outcome: `Found(env)`, `PathError`, `EnvironmentError`, or
`OtherError(message)`. The process environment is a `map<string,string>`
parameter. `expandEnvs` is an uninterpreted function parameter. Spawning is
represented by the `Spawn` record that would be handed to `spawn`.

The source of `getEnvVars` is not part of this model. Its behaviour is taken
from its test suite, `test/get-env-vars.spec.ts`. The test suite replaces both parsers with stubs, so its assertions state
the resolution rules directly. Where the tests leave something open, these
choices were made:

- When both an rc and an env request are given, only the rc request is
  resolved. No test and no code here fixes this case. An alternative reading,
  in which both requests are resolved and rc values win on shared keys, is not
  modelled.
- With `fallback: true`, a missed custom env path is followed by the whole
  default env scan. The tests only fix that the second probe is `./.env`,
  the first default path. A reading in which fallback tries only one default
  path agrees with every case in `test/get-env-vars.spec.ts` too.
- In the default rc scan, only `EnvironmentError` ends the scan. Both
  `PathError` and any other failure move on to the next path. At a custom rc
  path every failure is surfaced. A parser's own error keeps its message.
- Every terminal event logs exactly one line in verbose mode. This includes
  a custom rc path failing with an error other than `PathError` or
  `EnvironmentError`, which no test covers.
- The default path lists have three entries. Only the entries the tests
  determine are fixed: rc index 0 `./.env-cmdrc`, rc index 2
  `./.env-cmdrc.json`, env index 0 `./.env` and env index 2 `./.env.json`.
  The tests only place `./.env.json` somewhere among the first three probes.
  The middle entries are uninitialised constants, so no proof depends on
  them.

Error messages are assembled from fixed phrases. `Text.Mentions` is a
case-insensitive substring test, matching the tests' `/…/gi` regular
expressions. The wording lemmas prove that each message contains the
phrases the tests look for.

## Model

| member | source | states |
|---|---|---|
| Resolver.FirstStop | test/get-env-vars.spec.ts:59-72 | The scan passes over a prefix of the candidates in which every outcome is a miss. It stops at the first outcome that is not a miss, or passes over all of them. |
| Resolver.ScanDefaults | test/get-env-vars.spec.ts:59-88 | A default scan fails with the default-paths error exactly when every candidate misses, and then it has probed them all. Otherwise the parser calls are exactly the candidates up to the first decisive one, and that candidate's outcome decides the result. One line is logged in verbose mode. |
| Resolver.ResolveRcFile | test/get-env-vars.spec.ts:133-145 | Every rc parser call receives the requested environments unchanged. A custom rc path is the only path probed. A default scan probes between one and all of the default rc paths. One line is logged in verbose mode. |
| Resolver.ResolveEnvFile | test/get-env-vars.spec.ts:227-282 | A custom env path is probed first. Without `fallback === true` it is the only path probed. A default scan starts at `./.env` and never probes more paths than the default list holds. Every error is an env-file not-found error. |
| Resolver.GetEnvVars | test/get-env-vars.spec.ts:296-304 | At least one probe is made, even when there is no request. An rc request makes only rc parser calls; otherwise only env parser calls are made. Nothing is logged unless verbose is true, and then one or two lines are logged. |
| ResolverProperties.EnvFileNotFoundWording | test/get-env-vars.spec.ts:244-255 | A custom env path miss mentions "failed to find" and ".env file at path". |
| ResolverProperties.EnvFileNotFoundAtDefaultsWording | test/get-env-vars.spec.ts:324-336 | An exhausted default env scan mentions "failed to find", ".env file" and "default paths". |
| ResolverProperties.RcFileNotFoundWording | test/get-env-vars.spec.ts:157-172 | A missing custom rc path mentions "failed to find" and ".rc file at path". |
| ResolverProperties.RcFileNotFoundAtDefaultsWording | test/get-env-vars.spec.ts:74-88 | An exhausted default rc scan mentions "failed to find", ".rc file" and "default paths". |
| ResolverProperties.RcEnvironmentsNotFoundWording | test/get-env-vars.spec.ts:104-117 | Missing environments are reported with "failed to find environments" and ".rc file at path". |
| ResolverProperties.DefaultRcFirstProbe | test/get-env-vars.spec.ts:36-47 | A default rc request first probes `./.env-cmdrc` with the requested environments. On success it returns that map after exactly one call. |
| ResolverProperties.DefaultRcThirdProbe | test/get-env-vars.spec.ts:59-72 | After two path errors, the third probe is at `./.env-cmdrc.json` with the same environments. Its map is returned after exactly three calls. |
| ResolverProperties.DefaultRcNotFound | test/get-env-vars.spec.ts:74-102 | When every default rc path gives a path error, all of them are probed. The result is the default-paths error, which mentions the tested phrases, and one line is logged in verbose mode. |
| ResolverProperties.DefaultRcEnvironmentError | test/get-env-vars.spec.ts:104-131 | An `EnvironmentError` at any default rc path ends the scan there. The result is the missing-environments error for that path, not the default-paths error, and no later path is probed. One line is logged in verbose mode. |
| ResolverProperties.CustomRcPath | test/get-env-vars.spec.ts:133-225 | A custom rc path is probed exactly once, whatever its outcome. Its map is returned on success. A path error and an environment error each give their own error with the tested wording. One line is logged in verbose mode. |
| ResolverProperties.CustomEnvPath | test/get-env-vars.spec.ts:227-267 | Without fallback, a custom env path is probed exactly once. Its map is returned, or the at-path error with the tested wording. One line is logged in verbose mode. |
| ResolverProperties.FallbackToDefaultEnv | test/get-env-vars.spec.ts:269-294 | With `fallback: true`, a missed custom env path is followed by a probe of `./.env`. That map is returned after exactly two calls, and two lines are logged in verbose mode. |
| ResolverProperties.DefaultEnvFirstProbe | test/get-env-vars.spec.ts:296-304 | With no options at all, `./.env` is probed first. On success its map is returned after one call. |
| ResolverProperties.DefaultEnvThirdProbe | test/get-env-vars.spec.ts:313-322 | After two misses, the third default env probe supplies the map. Exactly three calls are made, and one of them is at `./.env.json`. |
| ResolverProperties.DefaultEnvNotFound | test/get-env-vars.spec.ts:324-351 | When every default env path misses, the result is the default-paths error with the tested wording. One line is logged in verbose mode. |
| ResolverProperties.VerboseLineCount | test/get-env-vars.spec.ts:284-294 | The exact number of logged lines for every request. It is 0 unless verbose is true. It is 2 when a custom env path misses with fallback, and 1 in every other case. |
| ResolverProperties.ScanExplained | test/get-env-vars.spec.ts:313-322 | In a default scan, every call but the last found nothing. The scan succeeds exactly when the last call found a file, and then it returns that file's map. |
| ResolverProperties.FallbackExplained | test/get-env-vars.spec.ts:269-282 | Putting a missed custom env probe in front of the fallback scan keeps the calls explaining the result. |
| ResolverProperties.ResultExplainedByCalls | test/get-env-vars.spec.ts:36-72 | For every request, the calls explain the result: the request succeeds exactly when its last parser call found a file, and returns that file's map. |
| ResolverProperties.ScanProbesPrefix | test/get-env-vars.spec.ts:313-322 | A default scan probes a non-empty prefix of its candidate list, in order. |
| ResolverProperties.ProbesCandidatePrefix | test/get-env-vars.spec.ts:133-145 | Every request probes a non-empty prefix of its candidate list, in order. The list is the custom path alone, the custom env path followed by the default env paths when `fallback` is true, or the default paths of the requested kind. |
| Launcher.FileEnv | src/env-cmd.ts:45-53 | A resolved map is kept. A failure is rethrown unchanged unless `silent` is true, and then it becomes `{}`. An undefined `silent` counts as false. |
| Launcher.Merge | src/env-cmd.ts:54-61 | The merge is `Object.assign({}, process, file)` by default and `Object.assign({}, file, process)` when `noOverride === true`. The key set is the union, the later source wins on shared keys, and other keys keep their own side's value. |
| Launcher.ExpandArgs | src/env-cmd.ts:65 | The number and order of arguments are kept, and each argument is expanded against the given environment. |
| Launcher.EnvCmd | src/env-cmd.ts:36-80 | It fails exactly when resolution fails and `silent` is not true, and then with the resolution's own error. Otherwise the returned environment is the one spawned, it contains every process variable, and the argument count is kept. The command line is expanded against the final environment only when `expandEnvs === true`, and left untouched otherwise. |
| LauncherProperties.AssignedFromUnique | src/env-cmd.ts:56-60 | Two maps assigned from the same two sources are equal, so `AssignedFrom` pins down the merged map and `Merge` is the only map it allows. |
| LauncherProperties.MergePrecedence | src/env-cmd.ts:54-61 | A key is in the merge exactly when it is on either side. On a shared key the file wins by default and the process wins with `noOverride === true`. A key on one side only keeps that side's value. |
| LauncherProperties.MergeDirectionsAgree | src/env-cmd.ts:54-61 | The two merge directions give the same map exactly when the two sides agree on every shared key. |
| LauncherProperties.MergeEmpty | src/env-cmd.ts:45-61 | Merging `{}` in either direction leaves the process environment unchanged. |
| LauncherProperties.EnvCmdEnvironment | src/env-cmd.ts:45-61 | A resolved map is merged with the process environment in the direction `noOverride` selects. A silenced failure yields the process environment unchanged. |
| LauncherProperties.UndefinedFlagsAreFalse | src/env-cmd.ts:42-66 | `options = {}` behaves as if `silent`, `noOverride`, `expandEnvs` and `verbose` were all false. |
| LauncherProperties.SilentMissingFile | src/env-cmd.ts:45-80 | In silent mode with no env file anywhere, the command is still spawned unchanged, with exactly the process environment. |

## Left out

- `spawn`, `TermSignals`, signal forwarding and uncaught-exception handling (src/env-cmd.ts:69-78). These are process I/O and OS signals. The spawn call is represented by its arguments only.
- `CLI` (src/env-cmd.ts:14-26). Printing the error and calling `process.exit(1)` is I/O plumbing.
- `parseArgs`. It maps command-line arguments to options, and its source is not part of this model.
- The `.env` and `.rc` parsers and the merging of the `base` environment. Their sources are not part of this model. Each parser call is an abstract outcome.
- `expandEnvs` itself. Its source is not part of this model, so it is an uninterpreted function.
- The exact wording of messages beyond the phrases the tests assert. The information lines are modelled as strings, but only their number is stated.
- Default path entries the tests do not fix: the middle entry of each list.
- The precedence between rc and env values when both are requested. Only the rc request is resolved (see above).
- Promises and `async` ordering. Resolution is a pure function of its parameters. Re-resolving the same unchanged files therefore gives the same result by construction.
- Launcher.Merge: keeps an own key `__proto__` of either source. `Object.assign` copies with assignment, so in JavaScript such a key reaches the `__proto__` setter inherited by the `{}` target, and a string value there is dropped at src/env-cmd.ts:56 and :60. A Dafny map has no prototype, so the model does not reproduce that loss.
- `process.env` entries that are `undefined`. The process environment is a `map<string,string>` snapshot.
