/**
 * The S-Match command-line dispatcher: the command names, the argument
 * thresholds, the capability checks on the resolved match manager and the
 * fixed stage recipe of every command, as a table from a positional argument
 * list to a recipe, and the run of a whole argument vector.
 */
module Cli {
  import opened Flags
  import opened Pipeline

  /** The configuration resource used when no `-config=` option is given. */
  const DefaultConfigFileName: string := "/it/unitn/disi/smatch/s-match.xml"

  const CmdWnToFlat: string := "wntoflat"
  const CmdConvert: string := "convert"
  const CmdOffline: string := "offline"
  const CmdOnline: string := "online"
  const CmdFilter: string := "filter"
  const CmdAllSteps: string := "allsteps"

  /** The commands that resolve a match manager. */
  const ManagedCommands: set<string> := {CmdConvert, CmdOffline, CmdOnline, CmdFilter, CmdAllSteps}

  /** What the resolved manager's configured loader and renderer support. */
  datatype Capabilities = Capabilities(
    structuredLoader: bool,   // the context loader is an IContextLoader
    contextRenderer: bool)    // the context renderer is an IContextRenderer

  /**
   * The configuration the manager factory is asked for: the default embedded
   * resource when no configuration file name was given, the named file otherwise.
   */
  function ConfigFor(configFileName: Option<string>): (r: ConfigSource)
    ensures r.Resource? <==> configFileName.None?
    ensures r.Resource? ==> r.path == DefaultConfigFileName
    ensures r.ConfigFile? ==> r.path == configFileName.value
  {
    match configFileName
    case None => Resource(DefaultConfigFileName)
    case Some(name) => ConfigFile(name)
  }

  /** Resolving the manager; the default branch logs which resource it used. */
  function CreateManagerSteps(configFileName: Option<string>): seq<Step>
  {
    [Stage(CreateManager(ConfigFor(configFileName)))] +
    (if configFileName.None? then [Note(Info, UsingResourceConfig)] else [])
  }

  /** `wntoflat <jwnlConfig> <files...>`: the two cache builders, never a manager. */
  function WnToFlatRecipe(args: seq<string>): seq<Step>
    requires |args| > 0
  {
    if 9 < |args| then
      [Stage(CreateBinaryArrayCaches(args[1], args[2..9])),
       Stage(CreateMultiwordCache(args[1], args[9]))]
    else
      [Note(Error, NotEnoughArguments(CmdWnToFlat))]
  }

  /** `convert <input> <output>` or `convert <source> <target> <input> <output>`. */
  function ConvertRecipe(args: seq<string>, caps: Capabilities): seq<Step>
  {
    if 2 < |args| then
      if 3 == |args| then
        var ctx := Context(1, args[1]);
        [Stage(LoadContext(ctx)), Stage(RenderContext(ctx, args[2]))]
      else if 5 == |args| then
        if caps.structuredLoader then
          var src, tgt := Context(1, args[1]), Context(2, args[2]);
          [Stage(LoadContext(src)), Stage(LoadContext(tgt)),
           Stage(LoadMapping(src, tgt, args[3])),
           Stage(RenderMapping(LoadedMapping(src, tgt, args[3]), args[4]))]
        else
          [Note(Warn, CapabilityMissing(CmdConvert))]
      else
        []
    else
      [Note(Error, NotEnoughArguments(CmdConvert))]
  }

  /** `offline <input> <output>`: the context is preprocessed in place, then rendered. */
  function OfflineRecipe(args: seq<string>, caps: Capabilities): seq<Step>
  {
    if 2 < |args| then
      if caps.structuredLoader && caps.contextRenderer then
        var ctx := Context(1, args[1]);
        [Stage(LoadContext(ctx)), Stage(Offline(ctx)), Stage(RenderContext(ctx, args[2]))]
      else
        [Note(Warn, CapabilityMissing(CmdOffline))]
    else
      [Note(Error, NotEnoughArguments(CmdOffline))]
  }

  /** `online <source> <target> <output>`. */
  function OnlineRecipe(args: seq<string>, caps: Capabilities): seq<Step>
  {
    if 3 < |args| then
      if caps.structuredLoader then
        var src, tgt := Context(1, args[1]), Context(2, args[2]);
        [Stage(LoadContext(src)), Stage(LoadContext(tgt)),
         Stage(Online(src, tgt)),
         Stage(RenderMapping(Matched(src, tgt), args[3]))]
      else
        [Note(Warn, CapabilityMissing(CmdOnline))]
    else
      [Note(Error, NotEnoughArguments(CmdOnline))]
  }

  /** `filter <source> <target> <input> <output>`: a filtering failure is not caught. */
  function FilterRecipe(args: seq<string>, caps: Capabilities): seq<Step>
  {
    if 4 < |args| then
      if caps.structuredLoader then
        var src, tgt := Context(1, args[1]), Context(2, args[2]);
        var mapInput := LoadedMapping(src, tgt, args[3]);
        [Stage(LoadContext(src)), Stage(LoadContext(tgt)),
         Stage(LoadMapping(src, tgt, args[3])),
         Stage(FilterMapping(mapInput)),
         Stage(RenderMapping(Filtered(mapInput), args[4]))]
      else
        [Note(Warn, CapabilityMissing(CmdFilter))]
    else
      [Note(Error, NotEnoughArguments(CmdFilter))]
  }

  /**
   * `allsteps <source> <target> <output>`: filtering sits inside a recovery
   * boundary and its result is discarded; the online result is rendered.
   */
  function AllStepsRecipe(args: seq<string>, caps: Capabilities): seq<Step>
  {
    if 3 < |args| then
      if caps.structuredLoader then
        var ctx1, ctx2 := Context(1, args[1]), Context(2, args[2]);
        var result := Matched(ctx1, ctx2);
        [Stage(LoadContext(ctx1)), Stage(Offline(ctx1)),
         Stage(LoadContext(ctx2)), Stage(Offline(ctx2)),
         Stage(Online(ctx1, ctx2)),
         Guarded(FilterMapping(result)),
         Stage(RenderMapping(result, args[3]))]
      else
        [Note(Error, CapabilityMissing(CmdAllSteps))]
    else
      [Note(Error, NotEnoughArguments(CmdAllSteps))]
  }

  /** The recipe of a command that resolves a manager, after the manager is resolved. */
  function ManagedRecipe(args: seq<string>, caps: Capabilities): seq<Step>
    requires |args| > 0 && args[0] in ManagedCommands
  {
    if args[0] == CmdConvert then ConvertRecipe(args, caps)
    else if args[0] == CmdOffline then OfflineRecipe(args, caps)
    else if args[0] == CmdOnline then OnlineRecipe(args, caps)
    else if args[0] == CmdFilter then FilterRecipe(args, caps)
    else AllStepsRecipe(args, caps)
  }

  /**
   * The switch on the command name, for positional arguments `args` and the
   * configuration file name chosen on the command line.
   */
  function Dispatch(args: seq<string>, configFileName: Option<string>, caps: Capabilities,
                    fails: Call -> bool): Outcome
  {
    if |args| < 1 then
      Outcome([Log(Info, UsageText)], false)
    else if args[0] == CmdWnToFlat then
      Exec(WnToFlatRecipe(args), fails)
    else if args[0] in ManagedCommands then
      Exec(CreateManagerSteps(configFileName) + ManagedRecipe(args, caps), fails)
    else
      Outcome([Log(Error, UnrecognizedCommand)], false)
  }

  /**
   * A whole run of the command-line entry point on the argument vector `argv`,
   * against a manager with capabilities `caps` whose calls throw where `fails` says.
   */
  function Run(argv: seq<string>, caps: Capabilities, fails: Call -> bool): Outcome
  {
    Dispatch(Positional(argv), ConfigName(argv), caps, fails)
  }
}
