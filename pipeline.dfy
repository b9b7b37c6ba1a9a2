/**
 * The match manager's pipeline stages, seen from the command-line front end
 * as opaque calls, and the failure policy that the front end applies to them:
 * a call that throws ends the whole run, except the one call wrapped in a
 * recovery boundary (the filtering step of `allsteps`), whose failure is
 * logged and skipped.
 */
module Pipeline {

  /** Where the match manager's configuration is read from. */
  datatype ConfigSource = Resource(path: string) | ConfigFile(path: string)

  /** A context (a labelled tree) loaded during the run: the `ordinal`-th load, from `path`. */
  datatype Context = Context(ordinal: nat, path: string)

  /** A correspondence mapping, identified by the call that produced it. */
  datatype Mapping =
    | Matched(source: Context, target: Context)
    | LoadedMapping(source: Context, target: Context, path: string)
    | Filtered(input: Mapping)

  /** A call on a collaborator: the manager factory, a manager stage or a WordNet cache builder. */
  datatype Call =
    | CreateManager(config: ConfigSource)
    | LoadContext(ctx: Context)
    | Offline(ctx: Context)
    | Online(source: Context, target: Context)
    | LoadMapping(source: Context, target: Context, path: string)
    | FilterMapping(input: Mapping)
    | RenderContext(ctx: Context, path: string)
    | RenderMapping(mapping: Mapping, path: string)
    | CreateBinaryArrayCaches(jwnlProperties: string, files: seq<string>)
    | CreateMultiwordCache(jwnlProperties: string, multiwords: string)

  datatype Level = Debug | Info | Warn | Error

  /** The kind of a log message; the exact texts are not modelled. */
  datatype Message =
    | UsageText
    | UsingResourceConfig
    | NotEnoughArguments(command: string)
    | CapabilityMissing(command: string)
    | UnrecognizedCommand
    | NoFilteringPerformed
    | FilterFailureReason

  /** One observable event of a run. */
  datatype Event = Invoke(call: Call) | Log(level: Level, message: Message)

  /** The events of a run, and whether an exception ended it. */
  datatype Outcome = Outcome(events: seq<Event>, aborted: bool)

  /** One step of a command's recipe. */
  datatype Step =
    | Stage(call: Call)        // a failure propagates and ends the run
    | Guarded(call: Call)      // a failure is caught, logged and skipped
    | Note(level: Level, message: Message)

  /** The step ends the run under the failure oracle `fails`. */
  predicate Throws(s: Step, fails: Call -> bool)
  {
    s.Stage? && fails(s.call)
  }

  /** The events a step leaves behind when it does not end the run. */
  function StepEvents(s: Step, fails: Call -> bool): seq<Event>
  {
    match s
    case Stage(c) => [Invoke(c)]
    case Guarded(c) =>
      if fails(c) then [Invoke(c), Log(Info, NoFilteringPerformed), Log(Debug, FilterFailureReason)]
      else [Invoke(c)]
    case Note(level, message) => [Log(level, message)]
  }

  /** The events of a recipe whose steps all return. */
  function Plan(steps: seq<Step>, fails: Call -> bool): seq<Event>
  {
    if steps == [] then [] else StepEvents(steps[0], fails) + Plan(steps[1..], fails)
  }

  function Prepend(done: seq<Event>, o: Outcome): Outcome
  {
    Outcome(done + o.events, o.aborted)
  }

  /** Prepending twice is prepending once, the earlier events first. */
  lemma PrependTwice(a: seq<Event>, b: seq<Event>, o: Outcome)
    ensures Prepend(a, Prepend(b, o)) == Prepend(a + b, o)
  {
    assert a + (b + o.events) == (a + b) + o.events;
  }

  /** Runs the steps in order; the first step that throws is recorded and ends the run. */
  function Exec(steps: seq<Step>, fails: Call -> bool): Outcome
  {
    if steps == [] then Outcome([], false)
    else if Throws(steps[0], fails) then Outcome([Invoke(steps[0].call)], true)
    else Prepend(StepEvents(steps[0], fails), Exec(steps[1..], fails))
  }

  /** Running `a` and then, unless it aborted, `b`. */
  function Then(a: Outcome, b: Outcome): Outcome
  {
    if a.aborted then a else Prepend(a.events, b)
  }

  /**
   * A guarded step never ends the run: its call is recorded and, when it
   * throws, the two lines of the handler are run before the rest.
   */
  lemma {:induction false} ExecGuarded(steps: seq<Step>, fails: Call -> bool)
    requires steps != [] && steps[0].Guarded?
    ensures var c := steps[0].call;
      var handler := if fails(c) then [Note(Info, NoFilteringPerformed), Note(Debug, FilterFailureReason)] else [];
      Exec(steps, fails) == Prepend([Invoke(c)], Exec(handler + steps[1..], fails))
  {
    var c, rest := steps[0].call, steps[1..];
    if fails(c) {
      var handler := [Note(Info, NoFilteringPerformed), Note(Debug, FilterFailureReason)];
      var tail := Exec(rest, fails);
      assert (handler + rest)[1..] == [Note(Debug, FilterFailureReason)] + rest;
      assert ([Note(Debug, FilterFailureReason)] + rest)[1..] == rest;
      assert Exec(handler + rest, fails) ==
        Outcome([Log(Info, NoFilteringPerformed), Log(Debug, FilterFailureReason)] + tail.events, tail.aborted);
    } else {
      assert [] + rest == rest;
    }
  }

  /** Running two recipes one after the other is running their concatenation. */
  lemma {:induction false} ExecAppend(a: seq<Step>, b: seq<Step>, fails: Call -> bool)
    ensures Exec(a + b, fails) == Then(Exec(a, fails), Exec(b, fails))
  {
    if a == [] {
      assert a + b == b;
    } else {
      assert (a + b)[0] == a[0];
      assert (a + b)[1..] == a[1..] + b;
      if !Throws(a[0], fails) {
        ExecAppend(a[1..], b, fails);
        var here, tail := StepEvents(a[0], fails), Exec(a[1..], fails);
        assert Exec(a + b, fails) == Prepend(here, Then(tail, Exec(b, fails)));
        assert Exec(a, fails) == Prepend(here, tail);
        if !tail.aborted {
          assert here + (tail.events + Exec(b, fails).events) == (here + tail.events) + Exec(b, fails).events;
        }
      }
    }
  }

  /** The plan of two recipes one after the other is the concatenation of their plans. */
  lemma {:induction false} PlanAppend(a: seq<Step>, b: seq<Step>, fails: Call -> bool)
    ensures Plan(a + b, fails) == Plan(a, fails) + Plan(b, fails)
  {
    if a == [] {
      assert a + b == b;
    } else {
      assert (a + b)[0] == a[0];
      assert (a + b)[1..] == a[1..] + b;
      PlanAppend(a[1..], b, fails);
    }
  }

  /** When no step throws, the run is complete and its events are the plan. */
  lemma {:induction false} ExecCompletes(steps: seq<Step>, fails: Call -> bool)
    requires forall i :: 0 <= i < |steps| ==> !Throws(steps[i], fails)
    ensures Exec(steps, fails) == Outcome(Plan(steps, fails), false)
  {
    if steps != [] {
      assert !Throws(steps[0], fails);
      assert forall i :: 0 <= i < |steps[1..]| ==> steps[1..][i] == steps[i + 1];
      ExecCompletes(steps[1..], fails);
    }
  }

  /** The first step that throws ends the run right after its own call. */
  lemma {:induction false} ExecStopsAtFirstFailure(steps: seq<Step>, fails: Call -> bool, k: nat)
    requires k < |steps| && Throws(steps[k], fails)
    requires forall i :: 0 <= i < k ==> !Throws(steps[i], fails)
    ensures Exec(steps, fails) == Outcome(Plan(steps[..k], fails) + [Invoke(steps[k].call)], true)
  {
    if k > 0 {
      assert !Throws(steps[0], fails);
      assert forall i :: 0 <= i < k - 1 ==> steps[1..][i] == steps[i + 1];
      ExecStopsAtFirstFailure(steps[1..], fails, k - 1);
      assert steps[..k][0] == steps[0];
      assert steps[..k][1..] == steps[1..][..k - 1];
    }
  }

  /**
   * Whatever fails, a run follows its plan: its events are a prefix of the plan,
   * it is complete exactly when no step throws, and an aborted run ends with
   * the call that threw.
   */
  lemma {:induction false} ExecFollowsPlan(steps: seq<Step>, fails: Call -> bool)
    ensures Exec(steps, fails).events <= Plan(steps, fails)
    ensures !Exec(steps, fails).aborted <==> forall i :: 0 <= i < |steps| ==> !Throws(steps[i], fails)
    ensures !Exec(steps, fails).aborted ==> Exec(steps, fails).events == Plan(steps, fails)
    ensures Exec(steps, fails).aborted ==>
      var e := Exec(steps, fails).events;
      |e| > 0 && e[|e| - 1].Invoke? && fails(e[|e| - 1].call) && Stage(e[|e| - 1].call) in steps
  {
    if steps != [] {
      ExecFollowsPlan(steps[1..], fails);
      assert forall i :: 0 <= i < |steps[1..]| ==> steps[1..][i] == steps[i + 1];
      assert forall i :: 0 < i < |steps| ==> steps[i] == steps[1..][i - 1];
      if !Throws(steps[0], fails) {
        var rest := Exec(steps[1..], fails);
        if rest.aborted {
          var e := rest.events;
          assert Stage(e[|e| - 1].call) in steps[1..];
        }
      }
    }
  }

  /**
   * The failure policy stated on events alone: a run is its plan, cut right
   * after the first call that throws and is not one of the `caught` calls.
   */
  function Truncate(plan: seq<Event>, fails: Call -> bool, caught: set<Call>): Outcome
  {
    if plan == [] then Outcome([], false)
    else if plan[0].Invoke? && fails(plan[0].call) && plan[0].call !in caught then Outcome([plan[0]], true)
    else Prepend([plan[0]], Truncate(plan[1..], fails, caught))
  }

  lemma {:induction false} TruncateAppend(a: seq<Event>, b: seq<Event>, fails: Call -> bool, caught: set<Call>)
    ensures Truncate(a + b, fails, caught) == Then(Truncate(a, fails, caught), Truncate(b, fails, caught))
  {
    if a == [] {
      assert a + b == b;
    } else {
      assert (a + b)[0] == a[0];
      assert (a + b)[1..] == a[1..] + b;
      TruncateAppend(a[1..], b, fails, caught);
    }
  }

  /** A truncated plan is a prefix of the plan; it is cut only after a call that threw and was not caught. */
  lemma {:induction false} TruncateIsPrefix(plan: seq<Event>, fails: Call -> bool, caught: set<Call>)
    ensures Truncate(plan, fails, caught).events <= plan
    ensures Truncate(plan, fails, caught).aborted <==>
      exists i :: 0 <= i < |plan| && plan[i].Invoke? && fails(plan[i].call) && plan[i].call !in caught
    ensures Truncate(plan, fails, caught).aborted ==>
      var e := Truncate(plan, fails, caught).events;
      |e| > 0 && e[|e| - 1].Invoke? && fails(e[|e| - 1].call) && e[|e| - 1].call !in caught
  {
    if plan != [] {
      TruncateIsPrefix(plan[1..], fails, caught);
      assert forall i :: 0 <= i < |plan[1..]| ==> plan[1..][i] == plan[i + 1];
      assert forall i :: 0 < i < |plan| ==> plan[i] == plan[1..][i - 1];
    }
  }

  /** A plan in which no call throws uncaught runs to its end. */
  lemma {:induction false} TruncateComplete(plan: seq<Event>, fails: Call -> bool, caught: set<Call>)
    requires forall i :: 0 <= i < |plan| && plan[i].Invoke? ==> !fails(plan[i].call) || plan[i].call in caught
    ensures Truncate(plan, fails, caught) == Outcome(plan, false)
  {
    if plan != [] {
      assert forall i :: 0 <= i < |plan[1..]| ==> plan[1..][i] == plan[i + 1];
      TruncateComplete(plan[1..], fails, caught);
    }
  }

  /** A call that throws uncaught at position `k` of the plan leaves nothing after position `k`. */
  lemma {:induction false} TruncateStopsAt(plan: seq<Event>, fails: Call -> bool, caught: set<Call>, k: nat)
    requires k < |plan| && plan[k].Invoke? && fails(plan[k].call) && plan[k].call !in caught
    ensures Truncate(plan, fails, caught).aborted
    ensures Truncate(plan, fails, caught).events <= plan[..k + 1]
  {
    if k > 0 && !(plan[0].Invoke? && fails(plan[0].call) && plan[0].call !in caught) {
      TruncateStopsAt(plan[1..], fails, caught, k - 1);
      assert plan[..k + 1] == [plan[0]] + plan[1..][..k];
    }
  }

  /**
   * The step-by-step run of a recipe agrees with the policy on its plan, when
   * the caught calls are exactly those of the guarded steps.
   */
  lemma {:induction false} ExecIsTruncatedPlan(steps: seq<Step>, fails: Call -> bool, caught: set<Call>)
    requires forall i :: 0 <= i < |steps| && steps[i].Stage? ==> steps[i].call !in caught
    requires forall i :: 0 <= i < |steps| && steps[i].Guarded? ==> steps[i].call in caught
    ensures Exec(steps, fails) == Truncate(Plan(steps, fails), fails, caught)
  {
    if steps != [] {
      var s, rest := steps[0], steps[1..];
      assert forall i :: 0 <= i < |rest| ==> rest[i] == steps[i + 1];
      ExecIsTruncatedPlan(rest, fails, caught);
      var here := StepEvents(s, fails);
      TruncateAppend(here, Plan(rest, fails), fails, caught);
      if !Throws(s, fails) {
        TruncateComplete(here, fails, caught);
      }
    }
  }

  /** The plan of a recipe made only of stages is the list of their calls. */
  lemma {:induction false} PlanOfStages(steps: seq<Step>, fails: Call -> bool)
    requires forall i :: 0 <= i < |steps| ==> steps[i].Stage?
    ensures Plan(steps, fails) == seq(|steps|, i requires 0 <= i < |steps| => Invoke(steps[i].call))
  {
    if steps != [] {
      assert forall i :: 0 <= i < |steps[1..]| ==> steps[1..][i] == steps[i + 1];
      PlanOfStages(steps[1..], fails);
    }
  }
}
