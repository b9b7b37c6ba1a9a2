/**
 * The command-line entry point written the way it runs: one session appends
 * each call on the match manager (or on a WordNet cache builder) and each log
 * line as it happens, and a call that throws ends the run. Every command
 * method follows its branch of the command switch statement by statement, and
 * a whole launch is proved to produce exactly the outcome `Cli.Run` assigns to
 * the argument vector.
 */
module Launcher {
  import opened Flags
  import opened Pipeline
  import opened Cli

  class Session {
    /** What the resolved manager's loader and renderer support. */
    const caps: Capabilities
    /** Which calls throw. */
    const fails: Call -> bool

    /** The calls made and the lines logged so far, in order. */
    var events: seq<Event>
    /** Whether a call has thrown, which ends the run. */
    var aborted: bool

    /** The outcome the current launch must reach. */
    ghost var goal: Outcome
    /** The recipe steps still to be carried out. */
    ghost var todo: seq<Step>

    /** What has happened so far, followed by running the remaining steps, is the goal. */
    ghost predicate OnTrack()
      reads this
    {
      if aborted then goal == Outcome(events, true)
      else goal == Prepend(events, Exec(todo, fails))
    }

    /** A session that has not done anything yet. */
    constructor (caps: Capabilities, fails: Call -> bool)
      ensures this.caps == caps && this.fails == fails
      ensures events == [] && !aborted
    {
      this.caps := caps;
      this.fails := fails;
      events := [];
      aborted := false;
      goal := Outcome([], false);
      todo := [];
    }

    /** A call whose exception escapes: it is recorded, and if it throws the run is over. */
    method Perform(c: Call) returns (ok: bool)
      requires OnTrack() && !aborted && todo != [] && todo[0] == Stage(c)
      modifies this
      ensures events == old(events) + [Invoke(c)]
      ensures aborted == fails(c) && ok == !aborted
      ensures todo == old(todo)[1..] && goal == old(goal)
      ensures OnTrack()
    {
      PrependTwice(events, [Invoke(c)], Exec(todo[1..], fails));
      events := events + [Invoke(c)];
      aborted := fails(c);
      ok := !aborted;
      todo := todo[1..];
    }

    /**
     * A call inside a recovery boundary: it is recorded and the run goes on
     * whether or not it throws; a failure leaves two log lines still to write.
     */
    method Attempt(c: Call) returns (ok: bool)
      requires OnTrack() && !aborted && todo != [] && todo[0] == Guarded(c)
      modifies this
      ensures events == old(events) + [Invoke(c)]
      ensures !aborted && ok == !fails(c)
      ensures todo == (if ok then [] else [Note(Info, NoFilteringPerformed), Note(Debug, FilterFailureReason)])
                      + old(todo)[1..]
      ensures goal == old(goal)
      ensures OnTrack()
    {
      ExecGuarded(todo, fails);
      var handler := if fails(c) then [Note(Info, NoFilteringPerformed), Note(Debug, FilterFailureReason)] else [];
      var next := handler + todo[1..];
      PrependTwice(events, [Invoke(c)], Exec(next, fails));
      events := events + [Invoke(c)];
      ok := !fails(c);
      todo := next;
    }

    /** A log line. */
    method Report(level: Level, message: Message)
      requires OnTrack() && !aborted && todo != [] && todo[0] == Note(level, message)
      modifies this
      ensures events == old(events) + [Log(level, message)]
      ensures !aborted
      ensures todo == old(todo)[1..] && goal == old(goal)
      ensures OnTrack()
    {
      PrependTwice(events, [Log(level, message)], Exec(todo[1..], fails));
      events := events + [Log(level, message)];
      todo := todo[1..];
    }

    /**
     * Resolves the match manager from the default resource, logging that it
     * did so, or from the named configuration file.
     */
    method CreateMatchManager(configFileName: Option<string>) returns (ok: bool)
      requires OnTrack() && !aborted
      requires |todo| >= |CreateManagerSteps(configFileName)|
      requires todo[..|CreateManagerSteps(configFileName)|] == CreateManagerSteps(configFileName)
      modifies this
      ensures OnTrack() && goal == old(goal)
      ensures ok == !aborted
      ensures ok ==> todo == old(todo)[|CreateManagerSteps(configFileName)|..]
    {
      ok := Perform(CreateManager(ConfigFor(configFileName)));
      if ok && configFileName.None? {
        Report(Info, UsingResourceConfig);
      }
    }

    /** Builds the WordNet binary-array caches, then the multiword cache. */
    method ConvertWordNetToFlat(jwnlPropertiesPath: string,
                                adjectiveSynonyms: string, adjectiveAntonyms: string,
                                nounHypernyms: string, nounAntonyms: string,
                                adverbAntonyms: string, verbHypernyms: string,
                                nominalizations: string, multiwords: string)
      requires OnTrack() && !aborted
      requires todo == [Stage(CreateBinaryArrayCaches(jwnlPropertiesPath,
                          [adjectiveSynonyms, adjectiveAntonyms, nounHypernyms, nounAntonyms,
                           adverbAntonyms, verbHypernyms, nominalizations])),
                        Stage(CreateMultiwordCache(jwnlPropertiesPath, multiwords))]
      modifies this
      ensures OnTrack() && goal == old(goal)
      ensures aborted || todo == []
    {
      var ok := Perform(CreateBinaryArrayCaches(jwnlPropertiesPath,
                  [adjectiveSynonyms, adjectiveAntonyms, nounHypernyms, nounAntonyms,
                   adverbAntonyms, verbHypernyms, nominalizations]));
      if ok {
        ok := Perform(CreateMultiwordCache(jwnlPropertiesPath, multiwords));
      }
    }

    /** The `convert` branch, once the manager is resolved. */
    method Convert(args: seq<string>)
      requires OnTrack() && !aborted && todo == ConvertRecipe(args, caps)
      modifies this
      ensures OnTrack() && goal == old(goal)
      ensures aborted || todo == []
    {
      if 2 < |args| {
        if 3 == |args| {
          var ctxSource := Context(1, args[1]);
          var ok := Perform(LoadContext(ctxSource));
          if ok {
            ok := Perform(RenderContext(ctxSource, args[2]));
          }
        } else if 5 == |args| {
          if caps.structuredLoader {
            var ctxSource, ctxTarget := Context(1, args[1]), Context(2, args[2]);
            var ok := Perform(LoadContext(ctxSource));
            if !ok { return; }
            ok := Perform(LoadContext(ctxTarget));
            if !ok { return; }
            ok := Perform(LoadMapping(ctxSource, ctxTarget, args[3]));
            if !ok { return; }
            var mapping := LoadedMapping(ctxSource, ctxTarget, args[3]);
            ok := Perform(RenderMapping(mapping, args[4]));
          } else {
            Report(Warn, CapabilityMissing(CmdConvert));
          }
        }
      } else {
        Report(Error, NotEnoughArguments(CmdConvert));
      }
    }

    /** The `offline` branch: the loaded context is preprocessed in place and rendered. */
    method Offline(args: seq<string>)
      requires OnTrack() && !aborted && todo == OfflineRecipe(args, caps)
      modifies this
      ensures OnTrack() && goal == old(goal)
      ensures aborted || todo == []
    {
      if 2 < |args| {
        if caps.structuredLoader && caps.contextRenderer {
          var ctxSource := Context(1, args[1]);
          var ok := Perform(LoadContext(ctxSource));
          if !ok { return; }
          ok := Perform(Call.Offline(ctxSource));
          if !ok { return; }
          ok := Perform(RenderContext(ctxSource, args[2]));
        } else {
          Report(Warn, CapabilityMissing(CmdOffline));
        }
      } else {
        Report(Error, NotEnoughArguments(CmdOffline));
      }
    }

    /** The `online` branch: both contexts are loaded, matched, and the result rendered. */
    method Online(args: seq<string>)
      requires OnTrack() && !aborted && todo == OnlineRecipe(args, caps)
      modifies this
      ensures OnTrack() && goal == old(goal)
      ensures aborted || todo == []
    {
      if 3 < |args| {
        if caps.structuredLoader {
          var ctxSource, ctxTarget := Context(1, args[1]), Context(2, args[2]);
          var ok := Perform(LoadContext(ctxSource));
          if !ok { return; }
          ok := Perform(LoadContext(ctxTarget));
          if !ok { return; }
          ok := Perform(Call.Online(ctxSource, ctxTarget));
          if !ok { return; }
          var result := Matched(ctxSource, ctxTarget);
          ok := Perform(RenderMapping(result, args[3]));
        } else {
          Report(Warn, CapabilityMissing(CmdOnline));
        }
      } else {
        Report(Error, NotEnoughArguments(CmdOnline));
      }
    }

    /** The `filter` branch: the loaded mapping is filtered and the filtered one rendered. */
    method Filter(args: seq<string>)
      requires OnTrack() && !aborted && todo == FilterRecipe(args, caps)
      modifies this
      ensures OnTrack() && goal == old(goal)
      ensures aborted || todo == []
    {
      if 4 < |args| {
        if caps.structuredLoader {
          var ctxSource, ctxTarget := Context(1, args[1]), Context(2, args[2]);
          var ok := Perform(LoadContext(ctxSource));
          if !ok { return; }
          ok := Perform(LoadContext(ctxTarget));
          if !ok { return; }
          ok := Perform(LoadMapping(ctxSource, ctxTarget, args[3]));
          if !ok { return; }
          var mapInput := LoadedMapping(ctxSource, ctxTarget, args[3]);
          ok := Perform(FilterMapping(mapInput));
          if !ok { return; }
          var mapOutput := Filtered(mapInput);
          ok := Perform(RenderMapping(mapOutput, args[4]));
        } else {
          Report(Warn, CapabilityMissing(CmdFilter));
        }
      } else {
        Report(Error, NotEnoughArguments(CmdFilter));
      }
    }

    /**
     * The `allsteps` branch: each context is loaded and preprocessed, the two
     * are matched, filtering is attempted and its failure only logged, and the
     * online result is rendered.
     */
    method AllSteps(args: seq<string>)
      requires OnTrack() && !aborted && todo == AllStepsRecipe(args, caps)
      modifies this
      ensures OnTrack() && goal == old(goal)
      ensures aborted || todo == []
    {
      if 3 < |args| {
        if caps.structuredLoader {
          var ctxSource1 := Context(1, args[1]);
          ghost var ctx2, matched := Context(2, args[2]), Matched(ctxSource1, Context(2, args[2]));
          assert todo == [Stage(LoadContext(ctxSource1)), Stage(Call.Offline(ctxSource1)),
                          Stage(LoadContext(ctx2)), Stage(Call.Offline(ctx2)),
                          Stage(Call.Online(ctxSource1, ctx2)),
                          Guarded(FilterMapping(matched)), Stage(RenderMapping(matched, args[3]))];
          var ok := Perform(LoadContext(ctxSource1));
          if !ok { return; }
          ok := Perform(Call.Offline(ctxSource1));
          if !ok { return; }
          var ctxSource2 := Context(2, args[2]);
          ok := Perform(LoadContext(ctxSource2));
          if !ok { return; }
          ok := Perform(Call.Offline(ctxSource2));
          if !ok { return; }
          ok := Perform(Call.Online(ctxSource1, ctxSource2));
          if !ok { return; }
          var result := Matched(ctxSource1, ctxSource2);
          var filtered := Attempt(FilterMapping(result));
          if !filtered {
            Report(Info, NoFilteringPerformed);
            Report(Debug, FilterFailureReason);
          }
          ok := Perform(RenderMapping(result, args[3]));
        } else {
          Report(Error, CapabilityMissing(CmdAllSteps));
        }
      } else {
        Report(Error, NotEnoughArguments(CmdAllSteps));
      }
    }

    /**
     * A whole launch on the argument vector `argv`: the options are taken out,
     * then the command switch runs. The session ends in the outcome `Run` gives.
     */
    method Launch(argv: seq<string>)
      requires events == [] && !aborted
      modifies this
      ensures Outcome(events, aborted) == Run(argv, caps, fails)
    {
      var configFileName, args := ExtractFlags(argv);
      goal := Run(argv, caps, fails);
      if |args| < 1 {
        todo := [Note(Info, UsageText)];
        Report(Info, UsageText);
      } else if args[0] == CmdWnToFlat {
        todo := WnToFlatRecipe(args);
        if 9 < |args| {
          assert args[2..9] == [args[2], args[3], args[4], args[5], args[6], args[7], args[8]];
          ConvertWordNetToFlat(args[1], args[2], args[3], args[4], args[5],
                               args[6], args[7], args[8], args[9]);
        } else {
          Report(Error, NotEnoughArguments(CmdWnToFlat));
        }
      } else if args[0] in ManagedCommands {
        var steps := CreateManagerSteps(configFileName);
        todo := steps + ManagedRecipe(args, caps);
        assert todo[..|steps|] == steps;
        var ok := CreateMatchManager(configFileName);
        if ok {
          if args[0] == CmdConvert {
            Convert(args);
          } else if args[0] == CmdOffline {
            Offline(args);
          } else if args[0] == CmdOnline {
            Online(args);
          } else if args[0] == CmdFilter {
            Filter(args);
          } else {
            AllSteps(args);
          }
        }
      } else {
        todo := [Note(Error, UnrecognizedCommand)];
        Report(Error, UnrecognizedCommand);
      }
    }
  }
}
