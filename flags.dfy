/**
 * Separation of the `-config=<file>` option from the positional command
 * arguments, as done at the start of the command-line entry point: every
 * argument that starts with the configuration key is taken out, the last one
 * decides the configuration file name, and the others keep their order.
 */
module Flags {

  datatype Option<T> = None | Some(value: T)

  /** The key that introduces a configuration file on the command line. */
  const ConfigKey: string := "-config="

  /** The prefix test applied to each argument (`String.startsWith`). */
  predicate IsConfigArg(arg: string)
  {
    |ConfigKey| <= |arg| && arg[..|ConfigKey|] == ConfigKey
  }

  /** The text after the key (`String.substring(key.length())`). */
  function ConfigValue(arg: string): (v: string)
    requires IsConfigArg(arg)
    ensures ConfigKey + v == arg
    ensures |v| == |arg| - |ConfigKey|
  {
    arg[|ConfigKey|..]
  }

  /** The arguments that are not configuration options, in their original order. */
  function Positional(args: seq<string>): seq<string>
  {
    if args == [] then []
    else if IsConfigArg(args[|args| - 1]) then Positional(args[..|args| - 1])
    else Positional(args[..|args| - 1]) + [args[|args| - 1]]
  }

  /** The configuration file name chosen by the arguments: the value of the last option, if any. */
  function ConfigName(args: seq<string>): Option<string>
  {
    if args == [] then None
    else if IsConfigArg(args[|args| - 1]) then Some(ConfigValue(args[|args| - 1]))
    else ConfigName(args[..|args| - 1])
  }

  /**
   * The extraction loop of the entry point: one pass over the arguments that
   * overwrites the configuration file name on every option and appends every
   * other argument to the clean list.
   */
  method ExtractFlags(args: seq<string>) returns (configFileName: Option<string>, cleanArgs: seq<string>)
    ensures cleanArgs == Positional(args)
    ensures configFileName == ConfigName(args)
  {
    configFileName := None;
    cleanArgs := [];
    for i := 0 to |args|
      invariant cleanArgs == Positional(args[..i])
      invariant configFileName == ConfigName(args[..i])
    {
      assert args[..i + 1][..i] == args[..i];
      var arg := args[i];
      if IsConfigArg(arg) {
        configFileName := Some(ConfigValue(arg));
      } else {
        cleanArgs := cleanArgs + [arg];
      }
    }
    assert args[..|args|] == args;
  }

  /** `s` can be obtained from `t` by deleting elements, without reordering. */
  ghost predicate IsSubsequence<T>(s: seq<T>, t: seq<T>)
    decreases |t|
  {
    s == [] ||
    (t != [] &&
     ((s[|s| - 1] == t[|t| - 1] && IsSubsequence(s[..|s| - 1], t[..|t| - 1])) ||
      IsSubsequence(s, t[..|t| - 1])))
  }

  /** Exactly the non-option arguments survive, and no option does. */
  lemma {:induction false} PositionalMembers(args: seq<string>)
    ensures forall a :: a in Positional(args) <==> a in args && !IsConfigArg(a)
  {
    if args != [] {
      var init := args[..|args| - 1];
      PositionalMembers(init);
      assert args == init + [args[|args| - 1]];
    }
  }

  /** Nothing positional remains exactly when every argument is an option. */
  lemma {:induction false} PositionalEmpty(args: seq<string>)
    ensures Positional(args) == [] <==> forall i :: 0 <= i < |args| ==> IsConfigArg(args[i])
  {
    if args != [] {
      var init := args[..|args| - 1];
      PositionalEmpty(init);
      assert forall i :: 0 <= i < |init| ==> init[i] == args[i];
    }
  }

  /** The clean arguments keep their original relative order. */
  lemma {:induction false} PositionalIsSubsequence(args: seq<string>)
    ensures IsSubsequence(Positional(args), args)
  {
    if args != [] {
      var init := args[..|args| - 1];
      PositionalIsSubsequence(init);
      var p := Positional(args);
      if !IsConfigArg(args[|args| - 1]) {
        assert p[..|p| - 1] == Positional(init);
      }
    }
  }

  /** The extraction works argument by argument: it distributes over concatenation. */
  lemma {:induction false} PositionalAppend(a: seq<string>, b: seq<string>)
    ensures Positional(a + b) == Positional(a) + Positional(b)
    decreases |b|
  {
    if b == [] {
      assert a + b == a;
    } else {
      var binit := b[..|b| - 1];
      PositionalAppend(a, binit);
      assert (a + b)[..|a + b| - 1] == a + binit;
    }
  }

  /** A single argument is dropped if it is an option and kept otherwise. */
  lemma {:induction false} PositionalSingle(x: string)
    ensures Positional([x]) == if IsConfigArg(x) then [] else [x]
  {
    assert [x][..0] == [];
  }

  /** Once extracted, the clean arguments carry no further option: extraction is idempotent. */
  lemma {:induction false} ExtractionIdempotent(args: seq<string>)
    ensures Positional(Positional(args)) == Positional(args)
    ensures ConfigName(Positional(args)) == None
  {
    if args != [] {
      var init := args[..|args| - 1];
      ExtractionIdempotent(init);
      var last := args[|args| - 1];
      if !IsConfigArg(last) {
        var p := Positional(init) + [last];
        assert p[..|p| - 1] == Positional(init);
      }
    }
  }

  /** No configuration name is chosen exactly when no argument is an option. */
  lemma {:induction false} ConfigNameAbsent(args: seq<string>)
    ensures ConfigName(args) == None <==> forall i :: 0 <= i < |args| ==> !IsConfigArg(args[i])
  {
    if args != [] {
      var init := args[..|args| - 1];
      ConfigNameAbsent(init);
      assert forall i :: 0 <= i < |init| ==> init[i] == args[i];
    }
  }

  /** When options are present, the last one wins. */
  lemma {:induction false} ConfigNameIsLastOption(args: seq<string>, i: nat)
    requires i < |args| && IsConfigArg(args[i])
    requires forall j :: i < j < |args| ==> !IsConfigArg(args[j])
    ensures ConfigName(args) == Some(ConfigValue(args[i]))
  {
    if i < |args| - 1 {
      var init := args[..|args| - 1];
      assert !IsConfigArg(args[|args| - 1]);
      ConfigNameIsLastOption(init, i);
    }
  }
}
