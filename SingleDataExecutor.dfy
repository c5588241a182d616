/** SingleDataExecutor: the fallback executor, for groups whose formulas
    name plain values. Without conditions it runs the group's formulas once,
    in order; with conditions it judges start and stop, and when start holds
    runs the formulas, then again while stop is false and the thread is not
    interrupted. A group's own number of decimals rewrites every formula to
    round its result. */
module SingleDataExecutor {
  import opened Base
  import opened Text
  import opened Values
  import opened Operators
  import opened Registry
  import opened AbstractDataExecutor
  import opened IndexedStep
  import opened FormulaManager

  /** The stop condition used when a group has conditions but none for stop. */
  const DefaultStop := "1==1"

  /** The decimals doExec rounds to: the group's own setting, never the
      calculation's. */
  function RetainOf(g: Group): Option<int>
  {
    if g.conditions.Some? then g.conditions.value.retainDecimal else None
  }

  /** One formula of doExec: rewritten when a number of decimals is set,
      then evaluated, its assignments applied to the context. */
  function Ran(formula: string, retain: Option<int>, eval: Evaluator, functions: map<string, Operator>,
               store: map<string, Value>): Result<map<string, Value>>
  {
    match Rewrite(formula, retain)
    case Err(e) => Err(e)
    case Ok(f) =>
      match eval(f, store, functions)
      case Err(e) => Err(e)
      case Ok(ev) => Ok(ApplyWrites(store, ev.writes))
  }

  /** doExec over the first k formulas, each on the context the previous
      one left, stopping at the first failure. */
  function PassUpTo(formulas: seq<string>, k: nat, retain: Option<int>, eval: Evaluator,
                    functions: map<string, Operator>, store: map<string, Value>): Result<map<string, Value>>
    requires k <= |formulas|
  {
    if k == 0 then Ok(store)
    else
      match PassUpTo(formulas, k - 1, retain, eval, functions, store)
      case Err(e) => Err(e)
      case Ok(s) => Ran(formulas[k - 1], retain, eval, functions, s)
  }

  /** Once a formula fails, the remaining formulas are not run. */
  lemma {:induction false} PassFailureStays(formulas: seq<string>, k: nat, j: nat, retain: Option<int>, eval: Evaluator,
                                            functions: map<string, Operator>, store: map<string, Value>)
    requires k <= j <= |formulas|
    requires PassUpTo(formulas, k, retain, eval, functions, store).Err?
    ensures PassUpTo(formulas, j, retain, eval, functions, store) == PassUpTo(formulas, k, retain, eval, functions, store)
    decreases j - k
  {
    if k < j {
      PassFailureStays(formulas, k, j - 1, retain, eval, functions, store);
    }
  }

  /** doExec: every formula of the group once, in list order. */
  function Pass(g: Group, eval: Evaluator, functions: map<string, Operator>, store: map<string, Value>): Result<map<string, Value>>
  {
    PassUpTo(g.formulas, |g.formulas|, RetainOf(g), eval, functions, store)
  }

  /** executeForBool as a specification: the value cast to Boolean (null
      stays null) and the context after the condition's assignments. */
  function EvalBool(formula: string, eval: Evaluator, functions: map<string, Operator>,
                    store: map<string, Value>): (r: Result<(Option<bool>, map<string, Value>)>)
    ensures eval(formula, store, functions).Err? ==> r == Err(eval(formula, store, functions).error)
    ensures r.Ok? ==>
      eval(formula, store, functions).Ok? &&
      r.value.1 == ApplyWrites(store, eval(formula, store, functions).value.writes)
  {
    match eval(formula, store, functions)
    case Err(e) => Err(e)
    case Ok(ev) =>
      match AsBoolean(ev.value)
      case Err(e) => Err(e)
      case Ok(b) => Ok((b, ApplyWrites(store, ev.writes)))
  }

  /** judgeWhetherStart: an absent or blank start condition holds without
      being evaluated. */
  function StartJudged(start: Option<string>, eval: Evaluator, functions: map<string, Operator>,
                       store: map<string, Value>): (r: Result<(Option<bool>, map<string, Value>)>)
    ensures start.None? || IsBlank(start.value) ==> r == Ok((Some(true), store))
    ensures start.Some? && !IsBlank(start.value) ==> r == EvalBool(start.value, eval, functions, store)
  {
    if start.None? || IsBlank(start.value) then Ok((Some(true), store))
    else EvalBool(start.value, eval, functions, store)
  }

  /** One more turn of the repeat loop: the formulas run, then the stop
      condition is evaluated; a null result fails the unboxing in the loop
      test. */
  function Again(g: Group, stop: string, eval: Evaluator, functions: map<string, Operator>,
                 store: map<string, Value>): Result<(bool, map<string, Value>)>
  {
    match Pass(g, eval, functions, store)
    case Err(e) => Err(e)
    case Ok(s1) =>
      match EvalBool(stop, eval, functions, s1)
      case Err(e) => Err(e)
      case Ok((None, _)) => Err(NullPointer)
      case Ok((Some(b), s2)) => Ok((b, s2))
  }

  /** The body of the repeat loop, as a function of the context. */
  type Body = map<string, Value> -> Result<(bool, map<string, Value>)>

  /** Again for a group, its stop condition and its function table. */
  function AgainOf(g: Group, stop: string, eval: Evaluator, functions: map<string, Operator>): Body
  {
    (store: map<string, Value>) => Again(g, stop, eval, functions, store)
  }

  /** The body is Again, for this group. */
  ghost predicate BodyIs(body: Body, g: Group, stop: string, eval: Evaluator, functions: map<string, Operator>)
  {
    forall store: map<string, Value> {:trigger Again(g, stop, eval, functions, store)} ::
      body(store) == Again(g, stop, eval, functions, store)
  }

  lemma AgainOfIs(g: Group, stop: string, eval: Evaluator, functions: map<string, Operator>)
    ensures BodyIs(AgainOf(g, stop, eval, functions), g, stop, eval, functions)
  {
  }

  /** while (!stop && !interrupted) { doExec; stop = executeForBool(stop) } */
  function Repeat(body: Body, st: Repeating): Result<Repeating>
    requires |st.stops| > 0
    decreases st.budget
  {
    if st.stops[|st.stops| - 1] || st.budget == 0 then Ok(st)
    else
      match body(st.store)
      case Err(e) => Err(e)
      case Ok((b, s)) => Repeat(body, Repeating(s, st.budget - 1, st.stops + [b], st.runs + 1))
  }

  /** The repeat loop keeps the stop results it started with, adds one per
      run, all false but the last, and ends when the last holds or the
      thread is found interrupted. */
  lemma {:induction false} RepeatShape(body: Body, st: Repeating)
    requires |st.stops| > 0 && Repeat(body, st).Ok?
    ensures var end := Repeat(body, st).value;
      end.budget <= st.budget && |end.stops| >= |st.stops| &&
      end.stops[..|st.stops|] == st.stops && end.runs == st.runs + |end.stops| - |st.stops| &&
      (forall j | |st.stops| - 1 <= j < |end.stops| - 1 :: !end.stops[j]) &&
      (end.stops[|end.stops| - 1] || end.budget == 0)
    decreases st.budget
  {
    if !(st.stops[|st.stops| - 1] || st.budget == 0) {
      var (b, s) := body(st.store).value;
      var next := Repeating(s, st.budget - 1, st.stops + [b], st.runs + 1);
      RepeatRuns(body, st, b, s);
      RepeatShape(body, next);
      var end := Repeat(body, next).value;
      assert end.stops[..|st.stops|] == st.stops by {
        assert end.stops[..|next.stops|][..|st.stops|] == end.stops[..|st.stops|];
      }
      assert end.stops[|st.stops| - 1] == st.stops[|st.stops| - 1];
    }
  }

  lemma RepeatEnds(body: Body, st: Repeating)
    requires |st.stops| > 0 && (st.stops[|st.stops| - 1] || st.budget == 0)
    ensures Repeat(body, st) == Ok(st)
  {
  }

  lemma RepeatRuns(body: Body, st: Repeating,
                   b: bool, s: map<string, Value>)
    requires |st.stops| > 0 && !st.stops[|st.stops| - 1] && st.budget > 0
    requires body(st.store) == Ok((b, s))
    ensures Repeat(body, st) ==
            Repeat(body, Repeating(s, st.budget - 1, st.stops + [b], st.runs + 1))
  {
  }

  lemma RepeatFails(body: Body, st: Repeating)
    requires |st.stops| > 0 && !st.stops[|st.stops| - 1] && st.budget > 0
    requires body(st.store).Err?
    ensures Repeat(body, st) == Err(body(st.store).error)
  {
  }

  /** What exec did with a group: ran it once (no conditions), or judged
      start and stop, with the stop results (the first judged before any
      run, one more after each further run) and the number of runs. */
  datatype Run = RanOnce | Conditioned(started: bool, stops: seq<bool>, runs: nat)

  /** Not started: nothing ran. Started: the formulas ran once, then again
      while stop was false, until it held or the thread was interrupted. */
  predicate ConditionedShape(run: Run, interrupted: bool)
    requires run.Conditioned?
  {
    (!run.started ==> run.runs == 0 && run.stops == []) &&
    (run.started ==> run.runs == |run.stops| >= 1 &&
                     (forall j | 0 <= j < |run.stops| - 1 :: !run.stops[j]) &&
                     (run.stops[|run.stops| - 1] || interrupted))
  }

  /** The stop condition exec evaluates. */
  function StopOf(c: Conditions): string
  {
    if c.stop.Some? then c.stop.value else DefaultStop
  }

  /** exec: the run, the context afterwards and the interrupt checks left.
      A null start fails its unboxing after stop is evaluated; a null stop
      fails the loop test after the first run. */
  function ExecSpec(g: Group, eval: Evaluator, functions: map<string, Operator>,
                    store: map<string, Value>, budget: nat): Result<(Run, map<string, Value>, nat)>
  {
    match g.conditions
    case None =>
      (match Pass(g, eval, functions, store)
       case Err(e) => Err(e)
       case Ok(s) => Ok((RanOnce, s, budget)))
    case Some(c) =>
      match StartJudged(c.start, eval, functions, store)
      case Err(e) => Err(e)
      case Ok((start, s1)) =>
        match EvalBool(StopOf(c), eval, functions, s1)
        case Err(e) => Err(e)
        case Ok((stop, s2)) =>
          if start.None? then Err(NullPointer)
          else if !start.value then Ok((Conditioned(false, [], 0), s2, budget))
          else
            match Pass(g, eval, functions, s2)
            case Err(e) => Err(e)
            case Ok(s3) =>
              if stop.None? then Err(NullPointer)
              else
                match Repeat(AgainOf(g, StopOf(c), eval, functions), Repeating(s3, budget, [stop.value], 1))
                case Err(e) => Err(e)
                case Ok(end) => Ok((Conditioned(true, end.stops, end.runs), end.store, end.budget))
  }

  /** With conditions, exec's run has the shape ConditionedShape states,
      and no interrupt check is given back. */
  lemma ExecShape(g: Group, eval: Evaluator, functions: map<string, Operator>, store: map<string, Value>, budget: nat)
    requires g.conditions.Some? && ExecSpec(g, eval, functions, store, budget).Ok?
    ensures var (run, _, b) := ExecSpec(g, eval, functions, store, budget).value;
      run.Conditioned? && ConditionedShape(run, b == 0) && b <= budget
  {
    var c := g.conditions.value;
    var (start, s1) := StartJudged(c.start, eval, functions, store).value;
    var (stop, s2) := EvalBool(StopOf(c), eval, functions, s1).value;
    if start.value {
      var s3 := Pass(g, eval, functions, s2).value;
      RepeatShape(AgainOf(g, StopOf(c), eval, functions), Repeating(s3, budget, [stop.value], 1));
    }
  }

  /** Without conditions every formula runs exactly once, in list order,
      and the interrupt flag is never read. */
  lemma ExecWithoutConditions(g: Group, eval: Evaluator, functions: map<string, Operator>, store: map<string, Value>, budget: nat)
    requires g.conditions.None?
    ensures var r := ExecSpec(g, eval, functions, store, budget);
      var pass := PassUpTo(g.formulas, |g.formulas|, None, eval, functions, store);
      (r.Ok? <==> pass.Ok?) && (r.Ok? ==> r.value == (RanOnce, pass.value, budget)) && (r.Err? ==> r.error == pass.error)
  {
  }

  /** A start condition that is false runs no formula: the context is the
      one the two conditions left. */
  lemma ExecNotStarted(g: Group, eval: Evaluator, functions: map<string, Operator>, store: map<string, Value>, budget: nat)
    requires g.conditions.Some?
    requires StartJudged(g.conditions.value.start, eval, functions, store).Ok?
    requires StartJudged(g.conditions.value.start, eval, functions, store).value.0 == Some(false)
    ensures var s1 := StartJudged(g.conditions.value.start, eval, functions, store).value.1;
      var stop := EvalBool(StopOf(g.conditions.value), eval, functions, s1);
      var r := ExecSpec(g, eval, functions, store, budget);
      (r.Ok? <==> stop.Ok?) && (r.Ok? ==> r.value == (Conditioned(false, [], 0), stop.value.1, budget))
  {
  }

  /** Without a stop condition, and with an evaluator for which 1==1 holds
      and assigns nothing, a started group runs its formulas exactly once. */
  lemma ExecDefaultStop(g: Group, eval: Evaluator, functions: map<string, Operator>, store: map<string, Value>, budget: nat)
    requires g.conditions.Some? && g.conditions.value.stop.None?
    requires forall s: map<string, Value> :: eval(DefaultStop, s, functions) == Ok(Evaluation([], Some(Bool(true))))
    requires ExecSpec(g, eval, functions, store, budget).Ok?
    ensures var (run, _, b) := ExecSpec(g, eval, functions, store, budget).value;
      run.Conditioned? && run.runs <= 1 && b == budget &&
      (run.started ==> run.stops == [true])
  {
    var c := g.conditions.value;
    var (start, s1) := StartJudged(c.start, eval, functions, store).value;
    assert EvalBool(DefaultStop, eval, functions, s1) == Ok((Some(true), s1));
  }

  class SingleDataExecutor {
    /** The runner this executor owns, with its function table. */
    const runner: Runner

    constructor()
      ensures fresh(runner) && runner.functions == Builtins()
    {
      runner := new Runner();
    }

    /** canHandle: the fallback takes every group. */
    method CanHandle(g: Group) returns (b: bool)
      ensures b
    {
      b := true;
    }

    /** doExec: every formula of the group in list order, rewritten to round
        to the group's decimals when it sets them. */
    method DoExec(g: Group, reg: Registry, eval: Evaluator) returns (r: Result<()>)
      requires reg.Valid()
      modifies reg
      ensures reg.Valid()
      ensures match Pass(g, eval, runner.functions, old(reg.values))
        case Ok(s) => r == Ok(()) && reg.values == s
        case Err(e) => r == Err(e)
    {
      var retain := RetainOf(g);
      ghost var store := reg.values;
      var k := 0;
      while k < |g.formulas|
        invariant 0 <= k <= |g.formulas| && reg.Valid()
        invariant PassUpTo(g.formulas, k, retain, eval, runner.functions, store) == Ok(reg.values)
      {
        var ran := PassStep(g.formulas, k, retain, reg, eval, store);
        if ran.Err? {
          PassFailureStays(g.formulas, k + 1, |g.formulas|, retain, eval, runner.functions, store);
          return Err(ran.error);
        }
        k := k + 1;
      }
      r := Ok(());
    }

    /** The turn of doExec's loop after the first k formulas. */
    method PassStep(formulas: seq<string>, k: nat, retain: Option<int>, reg: Registry, eval: Evaluator,
                    ghost store: map<string, Value>) returns (r: Result<()>)
      requires reg.Valid() && k < |formulas|
      requires PassUpTo(formulas, k, retain, eval, runner.functions, store) == Ok(reg.values)
      modifies reg
      ensures reg.Valid()
      ensures match PassUpTo(formulas, k + 1, retain, eval, runner.functions, store)
        case Ok(s) => r == Ok(()) && reg.values == s
        case Err(e) => r == Err(e)
    {
      r := RunFormula(formulas[k], retain, reg, eval);
    }

    /** One turn of doExec's loop: the rounding rewrite, then execute. */
    method RunFormula(formula: string, retain: Option<int>, reg: Registry, eval: Evaluator) returns (r: Result<()>)
      requires reg.Valid()
      modifies reg
      ensures reg.Valid()
      ensures match Ran(formula, retain, eval, runner.functions, old(reg.values))
        case Ok(s) => r == Ok(()) && reg.values == s
        case Err(e) => r == Err(e)
    {
      var f := formula;
      if retain.Some? {
        var rounded := ModifyFormula(formula, retain.value);
        if rounded.Err? {
          return Err(rounded.error);
        }
        f := rounded.value;
      }
      var ran := runner.Execute(f, reg, eval);
      if ran.Err? {
        return Err(ran.error);
      }
      r := Ok(());
    }

    /** judgeWhetherStart */
    method JudgeWhetherStart(start: Option<string>, reg: Registry, eval: Evaluator) returns (r: Result<Option<bool>>)
      requires reg.Valid()
      modifies reg
      ensures reg.Valid()
      ensures match StartJudged(start, eval, runner.functions, old(reg.values))
        case Ok((b, s)) => r == Ok(b) && reg.values == s
        case Err(e) => r == Err(e)
    {
      if start.None? || IsBlank(start.value) {
        return Ok(Some(true));
      }
      r := runner.ExecuteForBool(start.value, reg, eval);
    }

    /** The body of the repeat loop: doExec, then stop evaluated again. */
    method RunAgain(g: Group, stop: string, reg: Registry, eval: Evaluator) returns (r: Result<bool>)
      requires reg.Valid()
      modifies reg
      ensures reg.Valid()
      ensures match Again(g, stop, eval, runner.functions, old(reg.values))
        case Ok((b, s)) => r == Ok(b) && reg.values == s
        case Err(e) => r == Err(e)
    {
      var ran := DoExec(g, reg, eval);
      if ran.Err? {
        return Err(ran.error);
      }
      var b := runner.ExecuteForBool(stop, reg, eval);
      if b.Err? {
        return Err(b.error);
      }
      if b.value.None? {
        return Err(NullPointer);
      }
      r := Ok(b.value.value);
    }

    /** The repeat loop, from the stop result judged before the first run. */
    method RepeatUntilStop(g: Group, stop: string, stopped: bool, reg: Registry, eval: Evaluator,
                           thread: CurrentThread, ghost body: Body) returns (r: Result<()>)
      requires reg.Valid() && BodyIs(body, g, stop, eval, runner.functions)
      modifies reg, thread
      ensures reg.Valid()
      ensures match Repeat(body, Repeating(old(reg.values), old(thread.budget), [stopped], 1))
        case Ok(end) => r == Ok(()) && reg.values == end.store && thread.budget == end.budget
        case Err(e) => r == Err(e)
    {
      ghost var first := Repeating(reg.values, thread.budget, [stopped], 1);
      ghost var stops := [stopped];
      ghost var runs := 1;
      var last := stopped;
      while !last
        invariant reg.Valid() && |stops| > 0 && stops[|stops| - 1] == last
        invariant Repeat(body, Repeating(reg.values, thread.budget, stops, runs)) ==
                  Repeat(body, first)
        decreases thread.budget
      {
        var step := RepeatStep(g, stop, reg, eval, thread, body, Repeating(reg.values, thread.budget, stops, runs));
        if step.Err? {
          return Err(step.error);
        }
        if step.value.None? {
          return Ok(());
        }
        last := step.value.value;
        stops := stops + [last];
        runs := runs + 1;
      }
      RepeatEnds(body, Repeating(reg.values, thread.budget, stops, runs));
      r := Ok(());
    }

    /** One turn of the repeat loop while stop is false: the interrupt flag
        is checked (None when it is set), then the body runs. */
    method RepeatStep(g: Group, stop: string, reg: Registry, eval: Evaluator, thread: CurrentThread,
                      ghost body: Body, ghost st: Repeating) returns (r: Result<Option<bool>>)
      requires reg.Valid() && BodyIs(body, g, stop, eval, runner.functions)
      requires |st.stops| > 0 && !st.stops[|st.stops| - 1]
      requires reg.values == st.store && thread.budget == st.budget
      modifies reg, thread
      ensures reg.Valid()
      ensures r.Err? ==> Repeat(body, st) == Err(r.error)
      ensures r == Ok(None) ==>
                Repeat(body, st) == Ok(Repeating(reg.values, thread.budget, st.stops, st.runs))
      ensures r.Ok? && r.value.Some? ==>
                thread.budget < old(thread.budget) &&
                Repeat(body, st) ==
                Repeat(body, Repeating(reg.values, thread.budget, st.stops + [r.value.value], st.runs + 1))
    {
      var interrupted := thread.IsInterrupted();
      if interrupted {
        RepeatEnds(body, st);
        return Ok(None);
      }
      var again := RunAgain(g, stop, reg, eval);
      if again.Err? {
        RepeatFails(body, st);
        return Err(again.error);
      }
      RepeatRuns(body, st, again.value, reg.values);
      r := Ok(Some(again.value));
    }

    /** exec */
    method Exec(g: Group, reg: Registry, eval: Evaluator, thread: CurrentThread) returns (r: Result<()>)
      requires reg.Valid()
      modifies reg, thread
      ensures reg.Valid()
      ensures match ExecSpec(g, eval, runner.functions, old(reg.values), old(thread.budget))
        case Ok((_, s, b)) => r == Ok(()) && reg.values == s && thread.budget == b
        case Err(e) => r == Err(e)
    {
      if g.conditions.None? {
        r := DoExec(g, reg, eval);
        return;
      }
      var c := g.conditions.value;
      var stop := if c.stop.Some? then c.stop.value else DefaultStop;
      var started := JudgeWhetherStart(c.start, reg, eval);
      if started.Err? {
        return Err(started.error);
      }
      var stopped := runner.ExecuteForBool(stop, reg, eval);
      if stopped.Err? {
        return Err(stopped.error);
      }
      if started.value.None? {
        return Err(NullPointer);
      }
      if !started.value.value {
        return Ok(());
      }
      var ran := DoExec(g, reg, eval);
      if ran.Err? {
        return Err(ran.error);
      }
      if stopped.value.None? {
        return Err(NullPointer);
      }
      AgainOfIs(g, stop, eval, runner.functions);
      r := RepeatUntilStop(g, stop, stopped.value.value, reg, eval, thread, AgainOf(g, stop, eval, runner.functions));
    }
  }
}
