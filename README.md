# S-Match command-line dispatcher

S-Match's command-line front end (`CLI.main`) turns an argument vector into an
ordered sequence of calls on a match manager and on the WordNet cache builders,
interleaved with log lines. This project models that front end:

- **flag extraction**: `-config=<file>` options are taken out of the argument
  vector, the last one names the configuration file, and the remaining
  positional arguments keep their order (module `Flags`);
- **manager resolution**: the default embedded resource when no option is
  given, the named file otherwise (`Cli.ConfigFor`, `Cli.CreateManagerSteps`);
- **the command switch**: `wntoflat`, `convert`, `offline`, `online`, `filter`
  and `allsteps`, each with its strict arity test (`N < args.length`), its
  capability checks on the manager's loader and renderer, and its fixed recipe
  of stage calls (module `Cli`);
- **the failure policy**: an exception from any call escapes `main` and ends
  the run, except a filtering failure inside `allsteps`, which is caught,
  logged at INFO and DEBUG level, and skipped (module `Pipeline`).

A run is an `Outcome`: the list of events (calls made, log lines written) and
whether an exception ended it. Which calls throw is a parameter
(`fails: Call -> bool`), and so are the manager's two capabilities: whether the
context loader is structured (`IContextLoader`) and whether the renderer is a
context renderer (`IContextRenderer`). Contexts and mappings are symbolic
handles that record where they came from. A context is the n-th load of the
run, from a path. A mapping is the match of two contexts, a mapping loaded
from a file, or the filtered form of another mapping. Because of this, "the
same context is preprocessed in place and then rendered" and "the unfiltered
result is rendered" are equalities between call arguments.

The model has two layers that are proved to agree:

- `Cli.Run` is the dispatcher as a function of the argument vector. It runs the
  command's recipe through `Pipeline.Exec`, the step-by-step semantics of
  "a throwing call ends the run". `Pipeline.ExecIsTruncatedPlan` proves that
  `Exec` equals the declarative policy `Pipeline.Truncate`: the planned events,
  cut right after the first call that throws and is not caught. The lemmas in
  `CliProperties` state each command's exact event list as such a cut plan.
- `Launcher.Session` is `main` written imperatively. The extraction loop is
  `Flags.ExtractFlags`. Each switch branch is a method that makes its calls one
  at a time and returns as soon as one throws. `Session.Launch` is proved to
  end in exactly the outcome `Cli.Run` gives.

The model follows the code in these places, where a reader of the usage text
might expect something else:

- Every command that uses a manager resolves it *before* its arity test, so a
  too-short argument list still creates a manager (CLI.java:170, :197, :213,
  :231, :252).
- `allsteps` discards the filtered mapping. It always renders the unfiltered
  online result, also when filtering succeeds (:265, :270).
- `allsteps` without a structured loader logs at ERROR level, not as a warning
  (:272).
- `wntoflat` needs more than nine positional entries, the command included
  (:153). Entries past the tenth are ignored.
- `convert` with four, or six or more, positional entries resolves the manager
  and then does nothing and logs nothing (:171-191).
- The "using resource config" line is logged on the default branch. Nothing is
  logged for a named file (:287-292).
- `-config=` with nothing after it names the empty file name (`ConfigFile("")`).
  It does not fall back to the default resource (:135-136, :287).

## Model

| member | source | states |
|---|---|---|
| Flags.ConfigValue | src/main/java/it/unitn/disi/smatch/CLI.java:135-136 | the configuration name is what follows the `-config=` key: key + name gives back the argument |
| Flags.ExtractFlags | src/main/java/it/unitn/disi/smatch/CLI.java:131-143 | the extraction loop leaves exactly the positional arguments (`Positional`) and the last option's value (`ConfigName`) |
| Flags.PositionalMembers | src/main/java/it/unitn/disi/smatch/CLI.java:134-140 | an argument survives extraction if and only if it occurs in the vector and does not start with `-config=` |
| Flags.PositionalEmpty | src/main/java/it/unitn/disi/smatch/CLI.java:134-146 | no positional argument remains if and only if every argument is a `-config=` option |
| Flags.PositionalIsSubsequence | src/main/java/it/unitn/disi/smatch/CLI.java:138-140 | the positional arguments keep their original relative order |
| Flags.PositionalAppend | src/main/java/it/unitn/disi/smatch/CLI.java:134-141 | extraction works argument by argument: it distributes over concatenation |
| Flags.PositionalSingle | src/main/java/it/unitn/disi/smatch/CLI.java:135-140 | one argument is dropped if it is an option and kept otherwise |
| Flags.ExtractionIdempotent | src/main/java/it/unitn/disi/smatch/CLI.java:131-143 | the extracted arguments contain no option, so extracting again changes nothing and names no configuration |
| Flags.ConfigNameAbsent | src/main/java/it/unitn/disi/smatch/CLI.java:131-136 | no configuration name is chosen if and only if no argument is an option |
| Flags.ConfigNameIsLastOption | src/main/java/it/unitn/disi/smatch/CLI.java:134-136 | when options are present, the value of the last one is the configuration name |
| Cli.ConfigFor | src/main/java/it/unitn/disi/smatch/CLI.java:285-294 | the default resource path is used exactly when no name was given; otherwise the named file is used |
| Pipeline.ExecAppend | src/main/java/it/unitn/disi/smatch/CLI.java:169-195 | running two step lists in sequence is running the first and, unless it threw, the second |
| Pipeline.ExecGuarded | src/main/java/it/unitn/disi/smatch/CLI.java:264-269 | a guarded call never ends the run: it is recorded, and when it throws the two handler lines come next |
| Pipeline.ExecCompletes | src/main/java/it/unitn/disi/smatch/CLI.java:129 | when no call throws, the run is complete and its events are the whole plan |
| Pipeline.ExecStopsAtFirstFailure | src/main/java/it/unitn/disi/smatch/CLI.java:129 | the first call that throws outside the recovery boundary ends the run right after itself |
| Pipeline.ExecFollowsPlan | src/main/java/it/unitn/disi/smatch/CLI.java:129 | a run is a prefix of its plan; it is complete if and only if no stage call throws; an aborted run ends with a failing stage call of the recipe |
| Pipeline.TruncateIsPrefix | src/main/java/it/unitn/disi/smatch/CLI.java:264-269 | the policy keeps a prefix of the plan and cuts it if and only if some call throws uncaught, right after such a call |
| Pipeline.TruncateStopsAt | src/main/java/it/unitn/disi/smatch/CLI.java:129 | a call that throws uncaught at position k leaves nothing of the plan after position k |
| Pipeline.TruncateComplete | src/main/java/it/unitn/disi/smatch/CLI.java:129 | a plan in which no call throws uncaught runs to its end |
| Pipeline.ExecIsTruncatedPlan | src/main/java/it/unitn/disi/smatch/CLI.java:264-269 | the step-by-step run equals the plan cut after the first uncaught failure, the caught calls being exactly the guarded ones |
| CliProperties.OnlyOptionsPrintUsage | src/main/java/it/unitn/disi/smatch/CLI.java:146-147 | with no positional argument, only the usage text is logged: no manager, no stage |
| CliProperties.UnknownCommandOnlyLogs | src/main/java/it/unitn/disi/smatch/CLI.java:278-280 | an unknown command logs one error and creates no manager |
| CliProperties.WnToFlatTooFewArguments | src/main/java/it/unitn/disi/smatch/CLI.java:152-167 | `wntoflat` with nine or fewer positional entries logs an error and builds nothing |
| CliProperties.WnToFlatBuildsCaches | src/main/java/it/unitn/disi/smatch/CLI.java:152-164 | `wntoflat` passes args[1] and args[2..8] to the binary-array cache builder, then args[1] and args[9] to the multiword builder; it never creates a manager |
| CliProperties.ManagerResolvedFirst | src/main/java/it/unitn/disi/smatch/CLI.java:169-170 | every manager command's first call resolves the manager from the chosen configuration, whatever the arguments |
| CliProperties.TooFewArgumentsStillResolveManager | src/main/java/it/unitn/disi/smatch/CLI.java:169-171 | a manager command with too few arguments still resolves the manager, then logs only the arity error |
| CliProperties.CreateManagerPlan | src/main/java/it/unitn/disi/smatch/CLI.java:285-294 | resolution produces the factory call, plus the resource log line only on the default branch |
| CliProperties.ExecCreateManager | src/main/java/it/unitn/disi/smatch/CLI.java:285-294 | resolving the manager either throws at the factory call or completes with the manager events |
| CliProperties.TruncateManagerEvents | src/main/java/it/unitn/disi/smatch/CLI.java:285-294 | the failure policy on the manager events gives the same outcome as running the resolution |
| CliProperties.ManagerThenLog | src/main/java/it/unitn/disi/smatch/CLI.java:169-171 | resolving the manager and then logging one line either stops at the factory or ends with that line |
| CliProperties.ManagedRun | src/main/java/it/unitn/disi/smatch/CLI.java:169-277 | a manager command runs the manager resolution followed by its recipe, cut after the first uncaught failure |
| CliProperties.ManagerFromDefaultResource | src/main/java/it/unitn/disi/smatch/CLI.java:287-289 | without a `-config=` option the manager is read from the default resource |
| CliProperties.ManagerFromLastConfigOption | src/main/java/it/unitn/disi/smatch/CLI.java:290-291 | otherwise it is read from the file named by the last option |
| CliProperties.MissingCapabilityRunsNoStage | src/main/java/it/unitn/disi/smatch/CLI.java:169-277 | a manager without the capability the recipe needs is only resolved, then a warning follows (an error for `allsteps`) |
| CliProperties.ConvertSingleContext | src/main/java/it/unitn/disi/smatch/CLI.java:172-176 | `convert` with three entries loads one context and renders that context, with no capability check |
| CliProperties.ConvertMapping | src/main/java/it/unitn/disi/smatch/CLI.java:177-187 | `convert` with five entries and a structured loader loads source, target and the mapping between them, and renders that mapping |
| CliProperties.ConvertOtherLengthsSilent | src/main/java/it/unitn/disi/smatch/CLI.java:171-191 | `convert` with four, or six or more, entries resolves the manager and nothing else |
| CliProperties.OfflinePreprocessesInPlace | src/main/java/it/unitn/disi/smatch/CLI.java:196-211 | `offline` loads a context, preprocesses that same context and renders it to args[2] |
| CliProperties.OnlineMatchesAndRenders | src/main/java/it/unitn/disi/smatch/CLI.java:212-229 | `online` loads both contexts, matches them and renders the match result to args[3] |
| CliProperties.OnlinePlanCalls | src/main/java/it/unitn/disi/smatch/CLI.java:212-229 | neither the manager resolution nor the `online` plan preprocesses or filters |
| CliProperties.OnlineNeverPreprocessesOrFilters | src/main/java/it/unitn/disi/smatch/CLI.java:212-229 | no `online` run ever preprocesses a context or filters a mapping |
| CliProperties.FilterRendersFilteredMapping | src/main/java/it/unitn/disi/smatch/CLI.java:230-250 | `filter` loads both contexts and the mapping, filters it, and renders the filtered mapping, not the loaded one |
| CliProperties.FilterFailureIsNotCaught | src/main/java/it/unitn/disi/smatch/CLI.java:242-243 | in `filter` a filtering failure aborts the run and nothing is rendered |
| CliProperties.AllStepsRecipeGuardsFilter | src/main/java/it/unitn/disi/smatch/CLI.java:258-270 | in the `allsteps` recipe filtering of the online result is the only guarded step; every other step is a plain stage |
| CliProperties.AllStepsRecipePlan | src/main/java/it/unitn/disi/smatch/CLI.java:258-270 | the `allsteps` recipe plans load, preprocess, load, preprocess, match, filter (with the two handler lines when it throws) and render |
| CliProperties.AllStepsRunsEveryStage | src/main/java/it/unitn/disi/smatch/CLI.java:251-277 | `allsteps` loads and preprocesses each context in turn, matches, attempts filtering (a failure is logged and caught) and renders |
| CliProperties.AllStepsPlanCalls | src/main/java/it/unitn/disi/smatch/CLI.java:263-270 | in the `allsteps` plan the only mapping filtered or rendered is the online result, and rendering comes last |
| CliProperties.AllStepsCutRendersResult | src/main/java/it/unitn/disi/smatch/CLI.java:263-270 | on any cut of the `allsteps` plan, the only mapping rendered is the online result |
| CliProperties.AllStepsCutNotAtFilter | src/main/java/it/unitn/disi/smatch/CLI.java:264-269 | a cut of the `allsteps` plan never ends at the filtering call |
| CliProperties.AllStepsCutComplete | src/main/java/it/unitn/disi/smatch/CLI.java:263-270 | when only filtering can fail, the `allsteps` plan runs to its end, the render of the online result |
| CliProperties.AllStepsRendersUnfilteredResult | src/main/java/it/unitn/disi/smatch/CLI.java:265-270 | whatever fails, `allsteps` renders nothing but the unfiltered online result, to args[3] |
| CliProperties.AllStepsFilterFailureIsContained | src/main/java/it/unitn/disi/smatch/CLI.java:264-270 | a filtering failure never ends `allsteps`; when only filtering fails, the run completes with the render |
| Launcher.Session.Perform | src/main/java/it/unitn/disi/smatch/CLI.java:129 | a call is recorded and, if it throws, ends the run; the session stays on track toward its goal |
| Launcher.Session.Attempt | src/main/java/it/unitn/disi/smatch/CLI.java:264-266 | a call inside the recovery boundary is recorded and never ends the run |
| Launcher.Session.Report | src/main/java/it/unitn/disi/smatch/CLI.java:266-268 | a log line is appended to the run |
| Launcher.Session.CreateMatchManager | src/main/java/it/unitn/disi/smatch/CLI.java:285-294 | resolving the manager carries out exactly the resolution steps of the chosen configuration |
| Launcher.Session.ConvertWordNetToFlat | src/main/java/it/unitn/disi/smatch/CLI.java:301-316 | the binary-array caches are built, then the multiword cache, stopping at a failure |
| Launcher.Session.Convert | src/main/java/it/unitn/disi/smatch/CLI.java:169-195 | the `convert` branch carries out exactly the `convert` recipe |
| Launcher.Session.Offline | src/main/java/it/unitn/disi/smatch/CLI.java:196-211 | the `offline` branch carries out exactly the `offline` recipe |
| Launcher.Session.Online | src/main/java/it/unitn/disi/smatch/CLI.java:212-229 | the `online` branch carries out exactly the `online` recipe |
| Launcher.Session.Filter | src/main/java/it/unitn/disi/smatch/CLI.java:230-250 | the `filter` branch carries out exactly the `filter` recipe |
| Launcher.Session.AllSteps | src/main/java/it/unitn/disi/smatch/CLI.java:251-277 | the `allsteps` branch carries out exactly the `allsteps` recipe, with filtering in the recovery boundary |
| Launcher.Session.Launch | src/main/java/it/unitn/disi/smatch/CLI.java:129-283 | a whole launch ends in exactly the outcome `Cli.Run` gives to the argument vector |

## Left out

- The log message texts and the `System.out.println` of the chosen configuration file (CLI.java:137). Only the kind and level of each log line is modelled.
- The log4j static initialiser (CLI.java:28-33).
- Exception types. Every exception counts as a throw that ends the run, except that a filtering failure inside `allsteps` is caught (the real catch covers `SMatchException` only).
- The match manager factory, loaders, renderers, offline and online matching, filtering, and the two WordNet cache builders. These are foreign calls, so they are opaque events whose failures come from a parameter.
- Whether the manager's loader and renderer are structured. This is decided by the configuration the factory reads, so it is a parameter (`Capabilities`) of the run.
- Placeholder interpolation inside the configuration file. This is the factory's business.
- The claim that a filtered mapping is a subset of its input. Filtering is opaque here, and `allsteps` never renders the filtered mapping anyway.
- The integration test that runs the real matcher against external configuration files. It checks the matcher, which is not part of this model.
- The rest of the repository (matchers, loaders, renderers, WordNet access) is not part of this model.
