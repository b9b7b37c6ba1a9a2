/**
 * What the command-line dispatcher promises, stated on whole runs: which
 * calls each command makes and in which order, what an argument list that is
 * too short or a manager that lacks a capability leads to, which stage
 * failure is contained, and which mapping ends up rendered.
 */
module CliProperties {
  import opened Flags
  import opened Pipeline
  import opened Cli

  /** The number of positional arguments a command needs to exceed (its command name included). */
  function Threshold(command: string): nat
  {
    if command == CmdWnToFlat then 9
    else if command == CmdConvert || command == CmdOffline then 2
    else if command == CmdOnline || command == CmdAllSteps then 3
    else 4
  }

  /** The events of a successful manager resolution. */
  function ManagerEvents(configFileName: Option<string>): seq<Event>
  {
    [Invoke(CreateManager(ConfigFor(configFileName)))] +
    (if configFileName.None? then [Log(Info, UsingResourceConfig)] else [])
  }

  /** A run that resolves a manager and, if that succeeds, only logs `tail`. */
  function ManagerThen(configFileName: Option<string>, fails: Call -> bool, tail: seq<Event>): Outcome
  {
    var create := CreateManager(ConfigFor(configFileName));
    if fails(create) then Outcome([Invoke(create)], true)
    else Outcome(ManagerEvents(configFileName) + tail, false)
  }

  /** `convert <input> <output>`: load the context, render it. */
  function SingleContextPlan(args: seq<string>): seq<Event>
    requires |args| > 2
  {
    var ctx := Context(1, args[1]);
    [Invoke(LoadContext(ctx)), Invoke(RenderContext(ctx, args[2]))]
  }

  /** `convert <source> <target> <input> <output>`: load both contexts and the mapping between them, render it. */
  function MappingConversionPlan(args: seq<string>): seq<Event>
    requires |args| > 4
  {
    var src, tgt := Context(1, args[1]), Context(2, args[2]);
    [Invoke(LoadContext(src)), Invoke(LoadContext(tgt)),
     Invoke(LoadMapping(src, tgt, args[3])),
     Invoke(RenderMapping(LoadedMapping(src, tgt, args[3]), args[4]))]
  }

  /** `offline <input> <output>`: load the context, preprocess it in place, render that same context. */
  function OfflinePlan(args: seq<string>): seq<Event>
    requires |args| > 2
  {
    var ctx := Context(1, args[1]);
    [Invoke(LoadContext(ctx)), Invoke(Offline(ctx)), Invoke(RenderContext(ctx, args[2]))]
  }

  /** `online <source> <target> <output>`: load both contexts, match them, render the result. */
  function OnlinePlan(args: seq<string>): seq<Event>
    requires |args| > 3
  {
    var src, tgt := Context(1, args[1]), Context(2, args[2]);
    [Invoke(LoadContext(src)), Invoke(LoadContext(tgt)), Invoke(Online(src, tgt)),
     Invoke(RenderMapping(Matched(src, tgt), args[3]))]
  }

  /** `filter <source> <target> <input> <output>`: load, load the mapping, filter it, render the filtered mapping. */
  function FilterPlan(args: seq<string>): seq<Event>
    requires |args| > 4
  {
    var src, tgt := Context(1, args[1]), Context(2, args[2]);
    var mapInput := LoadedMapping(src, tgt, args[3]);
    [Invoke(LoadContext(src)), Invoke(LoadContext(tgt)), Invoke(LoadMapping(src, tgt, args[3])),
     Invoke(FilterMapping(mapInput)), Invoke(RenderMapping(Filtered(mapInput), args[4]))]
  }

  /**
   * `allsteps <source> <target> <output>`: load and preprocess each context in
   * turn, match them, try to filter (a failure is logged) and render the online result.
   */
  function AllStepsPlan(args: seq<string>, filterFails: bool): seq<Event>
    requires |args| > 3
  {
    var ctx1, ctx2 := Context(1, args[1]), Context(2, args[2]);
    var result := Matched(ctx1, ctx2);
    [Invoke(LoadContext(ctx1)), Invoke(Offline(ctx1)),
     Invoke(LoadContext(ctx2)), Invoke(Offline(ctx2)),
     Invoke(Online(ctx1, ctx2)), Invoke(FilterMapping(result))] +
    (if filterFails then [Log(Info, NoFilteringPerformed), Log(Debug, FilterFailureReason)] else []) +
    [Invoke(RenderMapping(result, args[3]))]
  }

  /** The one call whose failure is caught: filtering in `allsteps`. */
  function AllStepsFilter(args: seq<string>): Call
    requires |args| > 3
  {
    FilterMapping(Matched(Context(1, args[1]), Context(2, args[2])))
  }

  /** The manager has what a command's full recipe needs. */
  predicate Supported(command: string, caps: Capabilities)
  {
    caps.structuredLoader && (command == CmdOffline ==> caps.contextRenderer)
  }

  /** An argument vector made only of `-config=` options prints the usage text and nothing else. */
  lemma OnlyOptionsPrintUsage(argv: seq<string>, caps: Capabilities, fails: Call -> bool)
    requires forall i :: 0 <= i < |argv| ==> IsConfigArg(argv[i])
    ensures Run(argv, caps, fails) == Outcome([Log(Info, UsageText)], false)
  {
    PositionalEmpty(argv);
  }

  /** An unknown command name is logged as an error, and nothing else happens. */
  lemma UnknownCommandOnlyLogs(argv: seq<string>, caps: Capabilities, fails: Call -> bool)
    requires var args := Positional(argv);
      |args| > 0 && args[0] != CmdWnToFlat && args[0] !in ManagedCommands
    ensures Run(argv, caps, fails) == Outcome([Log(Error, UnrecognizedCommand)], false)
  {
  }

  /** `wntoflat` with too few arguments logs an error and builds nothing. */
  lemma WnToFlatTooFewArguments(argv: seq<string>, caps: Capabilities, fails: Call -> bool)
    requires var args := Positional(argv);
      |args| > 0 && args[0] == CmdWnToFlat && |args| <= Threshold(CmdWnToFlat)
    ensures Run(argv, caps, fails) == Outcome([Log(Error, NotEnoughArguments(CmdWnToFlat))], false)
  {
    var args := Positional(argv);
    var steps := WnToFlatRecipe(args);
    assert steps == [Note(Error, NotEnoughArguments(CmdWnToFlat))];
    assert steps[1..] == [];
    assert Exec(steps, fails) == Outcome([Log(Error, NotEnoughArguments(CmdWnToFlat))], false);
    assert Run(argv, caps, fails) == Dispatch(args, ConfigName(argv), caps, fails);
  }

  /**
   * `wntoflat` with enough arguments passes the properties file and the next
   * seven paths to the binary-array cache builder, then the properties file and
   * the ninth argument to the multiword cache builder; it never resolves a manager.
   */
  lemma WnToFlatBuildsCaches(argv: seq<string>, caps: Capabilities, fails: Call -> bool)
    requires var args := Positional(argv);
      |args| > Threshold(CmdWnToFlat) && args[0] == CmdWnToFlat
    ensures var args := Positional(argv);
      var binary := CreateBinaryArrayCaches(args[1], [args[2], args[3], args[4], args[5], args[6], args[7], args[8]]);
      var multiword := CreateMultiwordCache(args[1], args[9]);
      Run(argv, caps, fails) ==
        if fails(binary) then Outcome([Invoke(binary)], true)
        else Outcome([Invoke(binary), Invoke(multiword)], fails(multiword))
  {
    var args := Positional(argv);
    assert args[2..9] == [args[2], args[3], args[4], args[5], args[6], args[7], args[8]];
    var binary := CreateBinaryArrayCaches(args[1], args[2..9]);
    var multiword := CreateMultiwordCache(args[1], args[9]);
    var steps := WnToFlatRecipe(args);
    assert steps == [Stage(binary), Stage(multiword)];
    assert steps[1..] == [Stage(multiword)];
    assert steps[1..][1..] == [];
    assert Exec(steps[1..], fails) == Outcome([Invoke(multiword)], fails(multiword));
    assert Run(argv, caps, fails) == Exec(steps, fails);
  }

  /** For every command that uses a manager, resolving it is the first call, whatever the arguments. */
  lemma ManagerResolvedFirst(argv: seq<string>, caps: Capabilities, fails: Call -> bool)
    requires var args := Positional(argv); |args| > 0 && args[0] in ManagedCommands
    ensures var o := Run(argv, caps, fails);
      |o.events| > 0 && o.events[0] == Invoke(CreateManager(ConfigFor(ConfigName(argv))))
  {
    var args := Positional(argv);
    var steps := CreateManagerSteps(ConfigName(argv)) + ManagedRecipe(args, caps);
    assert steps[0] == Stage(CreateManager(ConfigFor(ConfigName(argv))));
  }

  /**
   * A command that uses a manager but gets too few arguments still resolves
   * the manager, then logs an error and runs no stage.
   */
  lemma TooFewArgumentsStillResolveManager(argv: seq<string>, caps: Capabilities, fails: Call -> bool)
    requires var args := Positional(argv);
      |args| > 0 && args[0] in ManagedCommands && |args| <= Threshold(args[0])
    ensures var args := Positional(argv);
      Run(argv, caps, fails) == ManagerThen(ConfigName(argv), fails, [Log(Error, NotEnoughArguments(args[0]))])
  {
    var args := Positional(argv);
    var message := NotEnoughArguments(args[0]);
    assert ManagedRecipe(args, caps) == [Note(Error, message)];
    ManagerThenLog(ConfigName(argv), fails, ManagedRecipe(args, caps), Error, message);
  }

  /** Resolving the manager leaves the factory call and, for the default resource, its log line. */
  lemma {:induction false} CreateManagerPlan(configFileName: Option<string>, fails: Call -> bool)
    ensures Plan(CreateManagerSteps(configFileName), fails) == ManagerEvents(configFileName)
  {
    var steps := CreateManagerSteps(configFileName);
    if configFileName.None? {
      assert steps[1..] == [Note(Info, UsingResourceConfig)];
      assert Plan(steps[1..], fails) == [Log(Info, UsingResourceConfig)];
    } else {
      assert steps[1..] == [];
    }
  }

  /** Resolving the manager alone: the factory call, which may throw, then the default branch's log line. */
  lemma {:induction false} ExecCreateManager(configFileName: Option<string>, fails: Call -> bool)
    ensures Exec(CreateManagerSteps(configFileName), fails) == ManagerThen(configFileName, fails, [])
  {
    var steps := CreateManagerSteps(configFileName);
    if configFileName.None? {
      assert steps[1..] == [Note(Info, UsingResourceConfig)];
      assert steps[1..][1..] == [];
      assert Exec(steps[1..], fails) == Outcome([Log(Info, UsingResourceConfig)], false);
    } else {
      assert steps[1..] == [];
    }
  }

  /** The policy on the manager's events alone gives the same outcome, when the factory call is not caught. */
  lemma {:induction false} TruncateManagerEvents(configFileName: Option<string>, fails: Call -> bool, caught: set<Call>)
    requires CreateManager(ConfigFor(configFileName)) !in caught
    ensures Truncate(ManagerEvents(configFileName), fails, caught) == ManagerThen(configFileName, fails, [])
  {
    var m := ManagerEvents(configFileName);
    if configFileName.None? {
      assert m[1..] == [Log(Info, UsingResourceConfig)];
      assert m[1..][1..] == [];
      assert Truncate(m[1..], fails, caught) == Outcome([Log(Info, UsingResourceConfig)], false);
    } else {
      assert m[1..] == [];
    }
  }

  /** Resolving the manager followed by a single log line. */
  lemma {:induction false} ManagerThenLog(configFileName: Option<string>, fails: Call -> bool,
                                          rest: seq<Step>, level: Level, message: Message)
    requires rest == [Note(level, message)]
    ensures Exec(CreateManagerSteps(configFileName) + rest, fails) ==
      ManagerThen(configFileName, fails, [Log(level, message)])
  {
    ExecAppend(CreateManagerSteps(configFileName), rest, fails);
    ExecCreateManager(configFileName, fails);
    assert rest[1..] == [];
  }

  /**
   * A command that uses a manager runs, under the failure policy, the plan made
   * of the manager's resolution followed by the command's recipe.
   */
  lemma {:induction false} ManagedRun(argv: seq<string>, caps: Capabilities, fails: Call -> bool, caught: set<Call>)
    requires var args := Positional(argv); |args| > 0 && args[0] in ManagedCommands
    requires CreateManager(ConfigFor(ConfigName(argv))) !in caught
    requires var r := ManagedRecipe(Positional(argv), caps);
      forall i :: 0 <= i < |r| ==> (r[i].Stage? ==> r[i].call !in caught) && (r[i].Guarded? ==> r[i].call in caught)
    ensures Run(argv, caps, fails) ==
      Truncate(ManagerEvents(ConfigName(argv)) + Plan(ManagedRecipe(Positional(argv), caps), fails), fails, caught)
  {
    var cfg, r := ConfigName(argv), ManagedRecipe(Positional(argv), caps);
    ExecAppend(CreateManagerSteps(cfg), r, fails);
    ExecCreateManager(cfg, fails);
    ExecIsTruncatedPlan(r, fails, caught);
    TruncateAppend(ManagerEvents(cfg), Plan(r, fails), fails, caught);
    TruncateManagerEvents(cfg, fails, caught);
  }

  /** The manager is read from the default embedded resource when no `-config=` option is given. */
  lemma ManagerFromDefaultResource(argv: seq<string>, caps: Capabilities, fails: Call -> bool)
    requires var args := Positional(argv); |args| > 0 && args[0] in ManagedCommands
    requires forall i :: 0 <= i < |argv| ==> !IsConfigArg(argv[i])
    ensures Run(argv, caps, fails).events[..1] == [Invoke(CreateManager(Resource(DefaultConfigFileName)))]
  {
    ConfigNameAbsent(argv);
    ManagerResolvedFirst(argv, caps, fails);
  }

  /** Otherwise it is read from the file named by the last `-config=` option. */
  lemma ManagerFromLastConfigOption(argv: seq<string>, caps: Capabilities, fails: Call -> bool, i: nat)
    requires var args := Positional(argv); |args| > 0 && args[0] in ManagedCommands
    requires i < |argv| && IsConfigArg(argv[i])
    requires forall j :: i < j < |argv| ==> !IsConfigArg(argv[j])
    ensures Run(argv, caps, fails).events[..1] == [Invoke(CreateManager(ConfigFile(ConfigValue(argv[i]))))]
  {
    ConfigNameIsLastOption(argv, i);
    ManagerResolvedFirst(argv, caps, fails);
  }

  /** A manager that lacks a capability the recipe needs only gets resolved; a warning (an error for `allsteps`) follows. */
  lemma MissingCapabilityRunsNoStage(argv: seq<string>, caps: Capabilities, fails: Call -> bool)
    requires var args := Positional(argv);
      |args| > 0 && args[0] in ManagedCommands && |args| > Threshold(args[0]) &&
      (args[0] == CmdConvert ==> |args| == 5) && !Supported(args[0], caps)
    ensures var args := Positional(argv);
      var level := if args[0] == CmdAllSteps then Error else Warn;
      Run(argv, caps, fails) == ManagerThen(ConfigName(argv), fails, [Log(level, CapabilityMissing(args[0]))])
  {
    var args := Positional(argv);
    var level := if args[0] == CmdAllSteps then Error else Warn;
    var message := CapabilityMissing(args[0]);
    assert ManagedRecipe(args, caps) == [Note(level, message)];
    ManagerThenLog(ConfigName(argv), fails, ManagedRecipe(args, caps), level, message);
  }

  /** `convert <input> <output>` loads one context and renders it, whatever the manager supports. */
  lemma ConvertSingleContext(argv: seq<string>, caps: Capabilities, fails: Call -> bool)
    requires var args := Positional(argv); |args| == 3 && args[0] == CmdConvert
    ensures Run(argv, caps, fails) ==
      Truncate(ManagerEvents(ConfigName(argv)) + SingleContextPlan(Positional(argv)), fails, {})
  {
    var args := Positional(argv);
    var r := ManagedRecipe(args, caps);
    ManagedRun(argv, caps, fails, {});
    PlanOfStages(r, fails);
    assert Plan(r, fails) == SingleContextPlan(args);
  }

  /** `convert <source> <target> <input> <output>` on a structured loader converts the mapping. */
  lemma ConvertMapping(argv: seq<string>, caps: Capabilities, fails: Call -> bool)
    requires var args := Positional(argv); |args| == 5 && args[0] == CmdConvert && caps.structuredLoader
    ensures Run(argv, caps, fails) ==
      Truncate(ManagerEvents(ConfigName(argv)) + MappingConversionPlan(Positional(argv)), fails, {})
  {
    var args := Positional(argv);
    var r := ManagedRecipe(args, caps);
    ManagedRun(argv, caps, fails, {});
    PlanOfStages(r, fails);
    assert Plan(r, fails) == MappingConversionPlan(args);
  }

  /** `convert` with four, or six or more, positional arguments resolves the manager and does nothing else. */
  lemma ConvertOtherLengthsSilent(argv: seq<string>, caps: Capabilities, fails: Call -> bool)
    requires var args := Positional(argv); (|args| == 4 || |args| >= 6) && args[0] == CmdConvert
    ensures Run(argv, caps, fails) == ManagerThen(ConfigName(argv), fails, [])
  {
    var args := Positional(argv);
    var steps := CreateManagerSteps(ConfigName(argv));
    assert ManagedRecipe(args, caps) == [];
    assert steps + ManagedRecipe(args, caps) == steps;
    ExecCreateManager(ConfigName(argv), fails);
  }

  /** `offline <input> <output>` preprocesses the loaded context in place and renders that same context. */
  lemma OfflinePreprocessesInPlace(argv: seq<string>, caps: Capabilities, fails: Call -> bool)
    requires var args := Positional(argv);
      |args| > Threshold(CmdOffline) && args[0] == CmdOffline && Supported(CmdOffline, caps)
    ensures Run(argv, caps, fails) ==
      Truncate(ManagerEvents(ConfigName(argv)) + OfflinePlan(Positional(argv)), fails, {})
  {
    var args := Positional(argv);
    var r := ManagedRecipe(args, caps);
    ManagedRun(argv, caps, fails, {});
    PlanOfStages(r, fails);
    assert Plan(r, fails) == OfflinePlan(args);
  }

  /** `online <source> <target> <output>` loads both contexts, matches them and renders the result. */
  lemma OnlineMatchesAndRenders(argv: seq<string>, caps: Capabilities, fails: Call -> bool)
    requires var args := Positional(argv);
      |args| > Threshold(CmdOnline) && args[0] == CmdOnline && caps.structuredLoader
    ensures Run(argv, caps, fails) ==
      Truncate(ManagerEvents(ConfigName(argv)) + OnlinePlan(Positional(argv)), fails, {})
  {
    var args := Positional(argv);
    var r := ManagedRecipe(args, caps);
    ManagedRun(argv, caps, fails, {});
    PlanOfStages(r, fails);
    assert Plan(r, fails) == OnlinePlan(args);
  }

  /** Resolving the manager and the `online` plan neither preprocess nor filter. */
  lemma OnlinePlanCalls(args: seq<string>, configFileName: Option<string>)
    requires |args| > 3
    ensures forall e :: e in ManagerEvents(configFileName) + OnlinePlan(args) && e.Invoke? ==>
      !e.call.Offline? && !e.call.FilterMapping?
  {
  }

  /** No `online` run ever preprocesses a context or filters a mapping. */
  lemma OnlineNeverPreprocessesOrFilters(argv: seq<string>, caps: Capabilities, fails: Call -> bool)
    requires var args := Positional(argv); |args| > 0 && args[0] == CmdOnline
    ensures forall e :: e in Run(argv, caps, fails).events && e.Invoke? ==>
      !e.call.Offline? && !e.call.FilterMapping?
  {
    var args := Positional(argv);
    if |args| <= Threshold(CmdOnline) {
      TooFewArgumentsStillResolveManager(argv, caps, fails);
    } else if !caps.structuredLoader {
      MissingCapabilityRunsNoStage(argv, caps, fails);
    } else {
      var plan := ManagerEvents(ConfigName(argv)) + OnlinePlan(args);
      OnlineMatchesAndRenders(argv, caps, fails);
      OnlinePlanCalls(args, ConfigName(argv));
      TruncateIsPrefix(plan, fails, {});
      assert forall e :: e in Run(argv, caps, fails).events ==> e in plan;
    }
  }

  /** `filter <source> <target> <input> <output>` renders the filtered mapping, not the loaded one. */
  lemma FilterRendersFilteredMapping(argv: seq<string>, caps: Capabilities, fails: Call -> bool)
    requires var args := Positional(argv);
      |args| > Threshold(CmdFilter) && args[0] == CmdFilter && caps.structuredLoader
    ensures Run(argv, caps, fails) ==
      Truncate(ManagerEvents(ConfigName(argv)) + FilterPlan(Positional(argv)), fails, {})
  {
    var args := Positional(argv);
    var r := ManagedRecipe(args, caps);
    ManagedRun(argv, caps, fails, {});
    PlanOfStages(r, fails);
    assert Plan(r, fails) == FilterPlan(args);
  }

  /** In `filter`, a filtering failure is not caught: the run aborts and nothing is rendered. */
  lemma FilterFailureIsNotCaught(argv: seq<string>, caps: Capabilities, fails: Call -> bool)
    requires var args := Positional(argv);
      |args| > Threshold(CmdFilter) && args[0] == CmdFilter && caps.structuredLoader
    requires var args := Positional(argv);
      fails(FilterMapping(LoadedMapping(Context(1, args[1]), Context(2, args[2]), args[3])))
    ensures Run(argv, caps, fails).aborted
    ensures forall e :: e in Run(argv, caps, fails).events && e.Invoke? ==> !e.call.RenderMapping?
  {
    var args := Positional(argv);
    FilterRendersFilteredMapping(argv, caps, fails);
    var m := ManagerEvents(ConfigName(argv));
    var plan := m + FilterPlan(args);
    var k := |m| + 3;
    assert plan[k] == Invoke(FilterMapping(LoadedMapping(Context(1, args[1]), Context(2, args[2]), args[3])));
    TruncateStopsAt(plan, fails, {}, k);
    assert forall e :: e in plan[..k + 1] && e.Invoke? ==> !e.call.RenderMapping?;
  }

  /** In the `allsteps` recipe filtering is the one guarded step; every other step is a plain stage. */
  lemma AllStepsRecipeGuardsFilter(args: seq<string>, caps: Capabilities)
    requires |args| > 3 && caps.structuredLoader
    ensures var r := AllStepsRecipe(args, caps);
      forall i :: 0 <= i < |r| ==>
        (r[i].Stage? ==> r[i].call != AllStepsFilter(args)) && (r[i].Guarded? ==> r[i].call == AllStepsFilter(args))
  {
    var r := AllStepsRecipe(args, caps);
    var result := Matched(Context(1, args[1]), Context(2, args[2]));
    assert r[5] == Guarded(FilterMapping(result));
    assert forall i :: 0 <= i < |r| && i != 5 ==> r[i].Stage? && !r[i].call.FilterMapping?;
  }

  /** The plan of the `allsteps` recipe. */
  lemma {:induction false} AllStepsRecipePlan(args: seq<string>, caps: Capabilities, fails: Call -> bool)
    requires |args| > 3 && caps.structuredLoader
    ensures Plan(AllStepsRecipe(args, caps), fails) == AllStepsPlan(args, fails(AllStepsFilter(args)))
  {
    var ctx1, ctx2 := Context(1, args[1]), Context(2, args[2]);
    var result := Matched(ctx1, ctx2);
    var filter := FilterMapping(result);
    var render := RenderMapping(result, args[3]);
    var r := AllStepsRecipe(args, caps);
    var before, after := r[..5], r[5..];
    assert r == before + after;
    PlanAppend(before, after, fails);
    PlanOfStages(before, fails);
    assert Plan(before, fails) == [Invoke(LoadContext(ctx1)), Invoke(Offline(ctx1)),
                                   Invoke(LoadContext(ctx2)), Invoke(Offline(ctx2)),
                                   Invoke(Online(ctx1, ctx2))];
    assert after == [Guarded(filter), Stage(render)];
    assert after[1..] == [Stage(render)];
    assert after[1..][1..] == [];
    assert Plan(after[1..], fails) == [Invoke(render)];
  }

  /**
   * `allsteps <source> <target> <output>` loads and preprocesses each context in
   * turn, matches them, tries to filter (a failure there is caught) and renders.
   */
  lemma AllStepsRunsEveryStage(argv: seq<string>, caps: Capabilities, fails: Call -> bool)
    requires var args := Positional(argv);
      |args| > Threshold(CmdAllSteps) && args[0] == CmdAllSteps && caps.structuredLoader
    ensures var args := Positional(argv);
      var filter := AllStepsFilter(args);
      Run(argv, caps, fails) ==
        Truncate(ManagerEvents(ConfigName(argv)) + AllStepsPlan(args, fails(filter)), fails, {filter})
  {
    var args := Positional(argv);
    AllStepsRecipeGuardsFilter(args, caps);
    AllStepsRecipePlan(args, caps, fails);
    ManagedRun(argv, caps, fails, {AllStepsFilter(args)});
  }

  /** In the `allsteps` plan the only mapping rendered is the online result, and the only filtering is of it. */
  lemma AllStepsPlanCalls(args: seq<string>, configFileName: Option<string>, filterFails: bool)
    requires |args| > 3
    ensures var result := Matched(Context(1, args[1]), Context(2, args[2]));
      var plan := ManagerEvents(configFileName) + AllStepsPlan(args, filterFails);
      (forall e :: e in plan && e.Invoke? && e.call.RenderMapping? ==> e.call == RenderMapping(result, args[3])) &&
      (forall e :: e in plan && e.Invoke? && e.call.FilterMapping? ==> e.call == FilterMapping(result)) &&
      plan[|plan| - 1] == Invoke(RenderMapping(result, args[3]))
  {
  }

  /** On any cut of the `allsteps` plan, the only mapping rendered is the online result. */
  lemma AllStepsCutRendersResult(args: seq<string>, configFileName: Option<string>, fails: Call -> bool, o: Outcome)
    requires |args| > 3
    requires var filter := AllStepsFilter(args);
      o == Truncate(ManagerEvents(configFileName) + AllStepsPlan(args, fails(filter)), fails, {filter})
    ensures var render := RenderMapping(Matched(Context(1, args[1]), Context(2, args[2])), args[3]);
      forall e :: e in o.events && e.Invoke? && e.call.RenderMapping? ==> e.call == render
  {
    var filter := AllStepsFilter(args);
    var plan := ManagerEvents(configFileName) + AllStepsPlan(args, fails(filter));
    AllStepsPlanCalls(args, configFileName, fails(filter));
    TruncateIsPrefix(plan, fails, {filter});
    assert forall e :: e in o.events ==> e in plan;
  }

  /** A cut of the `allsteps` plan never ends with the filtering call. */
  lemma AllStepsCutNotAtFilter(args: seq<string>, configFileName: Option<string>, fails: Call -> bool, o: Outcome)
    requires |args| > 3
    requires var filter := AllStepsFilter(args);
      o == Truncate(ManagerEvents(configFileName) + AllStepsPlan(args, fails(filter)), fails, {filter})
    ensures o.aborted ==> o.events[|o.events| - 1].Invoke? && !o.events[|o.events| - 1].call.FilterMapping?
  {
    var filter := AllStepsFilter(args);
    var plan := ManagerEvents(configFileName) + AllStepsPlan(args, fails(filter));
    AllStepsPlanCalls(args, configFileName, fails(filter));
    TruncateIsPrefix(plan, fails, {filter});
    if o.aborted {
      var last := o.events[|o.events| - 1];
      assert last in plan;
    }
  }

  /** When only filtering can fail, the `allsteps` plan runs to its end, the render. */
  lemma AllStepsCutComplete(args: seq<string>, configFileName: Option<string>, fails: Call -> bool, o: Outcome)
    requires |args| > 3
    requires var filter := AllStepsFilter(args);
      o == Truncate(ManagerEvents(configFileName) + AllStepsPlan(args, fails(filter)), fails, {filter})
    requires forall c :: fails(c) ==> c.FilterMapping?
    ensures var render := RenderMapping(Matched(Context(1, args[1]), Context(2, args[2])), args[3]);
      !o.aborted && o.events[|o.events| - 1] == Invoke(render)
  {
    var filter := AllStepsFilter(args);
    var plan := ManagerEvents(configFileName) + AllStepsPlan(args, fails(filter));
    AllStepsPlanCalls(args, configFileName, fails(filter));
    TruncateComplete(plan, fails, {filter});
  }

  /** Whatever fails, `allsteps` renders nothing but the unfiltered online result, to the output path. */
  lemma AllStepsRendersUnfilteredResult(argv: seq<string>, caps: Capabilities, fails: Call -> bool)
    requires var args := Positional(argv);
      |args| > Threshold(CmdAllSteps) && args[0] == CmdAllSteps && caps.structuredLoader
    ensures var args := Positional(argv);
      var render := RenderMapping(Matched(Context(1, args[1]), Context(2, args[2])), args[3]);
      forall e :: e in Run(argv, caps, fails).events && e.Invoke? && e.call.RenderMapping? ==> e.call == render
  {
    AllStepsRunsEveryStage(argv, caps, fails);
    AllStepsCutRendersResult(Positional(argv), ConfigName(argv), fails, Run(argv, caps, fails));
  }

  /**
   * In `allsteps` a filtering failure never ends the run, and when nothing
   * but filtering fails the run is complete and ends by rendering the online result.
   */
  lemma AllStepsFilterFailureIsContained(argv: seq<string>, caps: Capabilities, fails: Call -> bool)
    requires var args := Positional(argv);
      |args| > Threshold(CmdAllSteps) && args[0] == CmdAllSteps && caps.structuredLoader
    ensures var o := Run(argv, caps, fails);
      o.aborted ==> o.events[|o.events| - 1].Invoke? && !o.events[|o.events| - 1].call.FilterMapping?
    ensures var args := Positional(argv);
      var render := RenderMapping(Matched(Context(1, args[1]), Context(2, args[2])), args[3]);
      var o := Run(argv, caps, fails);
      (forall c :: fails(c) ==> c.FilterMapping?) ==> !o.aborted && o.events[|o.events| - 1] == Invoke(render)
  {
    AllStepsRunsEveryStage(argv, caps, fails);
    var args, o := Positional(argv), Run(argv, caps, fails);
    AllStepsCutNotAtFilter(args, ConfigName(argv), fails, o);
    if forall c :: fails(c) ==> c.FilterMapping? {
      AllStepsCutComplete(args, ConfigName(argv), fails, o);
    }
  }
}
