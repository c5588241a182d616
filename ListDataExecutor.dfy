/** ListDataExecutor: runs a group whose formulas all use "_index" once per
    index of the list parameters. It reads each formula's names, checks the
    parameter lengths, and for each index judges the start condition, sizes
    the result lists, runs every formula at that index (again and again
    until the stop condition holds) and writes each result into its list. */
module ListDataExecutor {
  import opened Base
  import opened Text
  import opened Values
  import opened Operators
  import opened Registry
  import opened AbstractDataExecutor
  import opened IndexedFormula
  import opened LengthChecks
  import opened IndexedStep
  import opened FormulaManager

  /** canHandle: every formula of the group mentions "_index". */
  predicate Handles(g: Group)
  {
    forall k | 0 <= k < |g.formulas| :: Contains(g.formulas[k], IndexMark)
  }

  /** extractFormulaMessage: a blank or absent text has no message; a
      condition is first wrapped in its own assignment; the text must pass
      the result-name check, and its scanned names the parameter check. */
  function Extracted(formula: Option<string>, condition: bool, store: map<string, Value>,
                     demise: bool, paramTotalSize: Option<int>): (r: Result<Option<Message>>)
    ensures r.Ok? && r.value.Some? ==> |r.value.value.names| > 0
    ensures formula.None? || IsBlank(formula.value) <==> r == Ok(None)
  {
    if formula.None? || IsBlank(formula.value) then Ok(None)
    else
      var f := if condition then ConditionFormula(formula.value) else formula.value;
      match CheckResultName(f)
      case Err(e) => Err(e)
      case Ok(_) =>
        match ParamChecked(f, Names(f), store, demise, paramTotalSize)
        case Err(e) => Err(e)
        case Ok(m) => Ok(Some(m))
  }

  /** The messages of the first k formulas, stopping at the first failure. */
  function ExtractedUpTo(formulas: seq<string>, k: nat, store: map<string, Value>,
                         demise: bool, paramTotalSize: Option<int>): (r: Result<seq<Message>>)
    requires k <= |formulas|
    ensures r.Ok? ==> forall j | 0 <= j < |r.value| :: |r.value[j].names| > 0
  {
    if k == 0 then Ok([])
    else
      match ExtractedUpTo(formulas, k - 1, store, demise, paramTotalSize)
      case Err(e) => Err(e)
      case Ok(ms) =>
        match Extracted(Some(formulas[k - 1]), false, store, demise, paramTotalSize)
        case Err(e) => Err(e)
        case Ok(None) => Ok(ms)
        case Ok(Some(m)) => Ok(ms + [m])
  }

  lemma {:induction false} ExtractedFailureStays(formulas: seq<string>, k: nat, j: nat, store: map<string, Value>,
                                                 demise: bool, paramTotalSize: Option<int>)
    requires k <= j <= |formulas|
    requires ExtractedUpTo(formulas, k, store, demise, paramTotalSize).Err?
    ensures ExtractedUpTo(formulas, j, store, demise, paramTotalSize) == ExtractedUpTo(formulas, k, store, demise, paramTotalSize)
    decreases j - k
  {
    if k < j {
      ExtractedFailureStays(formulas, k, j - 1, store, demise, paramTotalSize);
    }
  }

  /** The conditions of a group, or the interface defaults (none). */
  function ConditionsOf(g: Group): Conditions
  {
    if g.conditions.Some? then g.conditions.value else Conditions(None, None, None)
  }

  /** The check list: the formulas' messages, then the start and stop conditions'. */
  function Checklist(ms: seq<Message>, start: Option<Message>, stop: Option<Message>): seq<Option<Message>>
  {
    seq(|ms|, k requires 0 <= k < |ms| => Some(ms[k])) + [start, stop]
  }

  /** What doDetailExec settles before it runs anything: the messages, the
      conditions' messages, and the number of indices, or the failure. */
  datatype Plan = Plan(messages: seq<Message>, start: Option<Message>, stop: Option<Message>, size: int)

  function Planned(g: Group, config: CalculateConfig, store: map<string, Value>): (r: Result<Plan>)
    ensures r.Ok? ==> MessagesNamed(r.value.messages)
    ensures r.Ok? && r.value.start.Some? ==> |r.value.start.value.names| > 0
    ensures r.Ok? && r.value.stop.Some? ==> |r.value.stop.value.names| > 0
  {
    var demise := config.currentIndex.Some?;
    var total := config.paramTotalSize;
    var conditions := ConditionsOf(g);
    match ExtractedUpTo(g.formulas, |g.formulas|, store, demise, total)
    case Err(e) => Err(e)
    case Ok(ms) =>
      match Extracted(conditions.start, true, store, demise, total)
      case Err(e) => Err(e)
      case Ok(start) =>
        match Extracted(conditions.stop, true, store, demise, total)
        case Err(e) => Err(e)
        case Ok(stop) =>
          var checklist := Checklist(ms, start, stop);
          match CheckedSizes(checklist, config.currentIndex, total)
          case Err(e) => Err(e)
          case Ok(_) =>
            var sized := Sized(checklist);
            Ok(Plan(ms, start, stop, if |sized| > 0 then sized[0].size else total.value))
  }

  /** new ArrayList<>(Collections.nCopies(size, BigDecimal.ZERO)) */
  function Zeros(size: nat): (r: seq<Value>)
    ensures |r| == size && forall i | 0 <= i < size :: r[i] == ZeroValue
  {
    seq(size, _ => ZeroValue)
  }

  /** initResultList over the first k messages: a result name with no value
      gets a list of `size` zeros. */
  function InitUpTo(ms: seq<Message>, k: nat, size: nat, store: map<string, Value>): map<string, Value>
    requires k <= |ms| && forall j | 0 <= j < |ms| :: |ms[j].names| > 0
  {
    if k == 0 then store
    else
      var s := InitUpTo(ms, k - 1, size, store);
      var name := ms[k - 1].names[0];
      if name in s then s else s[name := List(Zeros(size))]
  }

  /** After initResultList every result name is bound; a name already bound
      keeps its value, and a name it binds gets `size` zeros. */
  lemma {:induction false} InitUpToShape(ms: seq<Message>, k: nat, size: nat, store: map<string, Value>)
    requires k <= |ms| && forall j | 0 <= j < |ms| :: |ms[j].names| > 0
    ensures var r := InitUpTo(ms, k, size, store);
      (forall key | key in store :: key in r && r[key] == store[key]) &&
      (forall j | 0 <= j < k :: ms[j].names[0] in r) &&
      (forall key | key in r && key !in store :: r[key] == List(Zeros(size)))
  {
    if k > 0 {
      InitUpToShape(ms, k - 1, size, store);
    }
  }

  /** How one formula runs at one index with a rounding (execute): the value
      computed for its result and the context afterwards, or the failure. */
  type Step = (Message, nat, Option<int>, map<string, Value>) -> Result<(Value, map<string, Value>)>

  /** The step is execute as ExecuteSpec states it, for this calculation. */
  ghost predicate StepIs(step: Step, currentIndex: Option<nat>, eval: Evaluator, functions: map<string, Operator>)
  {
    forall m: Message, index: nat, rounding: Option<int>, store: map<string, Value>
      {:trigger ExecuteSpec(m, index, currentIndex, rounding, eval, functions, store)}
      | |m.names| > 0 :: step(m, index, rounding, store) == ExecuteSpec(m, index, currentIndex, rounding, eval, functions, store)
  }

  /** ExecuteSpec as a step; a formula without names fails on get(0). */
  function ExecuteStep(currentIndex: Option<nat>, eval: Evaluator, functions: map<string, Operator>): Step
  {
    (m: Message, index: nat, rounding: Option<int>, store: map<string, Value>) =>
      if |m.names| > 0 then ExecuteSpec(m, index, currentIndex, rounding, eval, functions, store) else Err(IndexOutOfRange)
  }

  /** Every calculation has its step. */
  lemma ExecuteStepIs(currentIndex: Option<nat>, eval: Evaluator, functions: map<string, Operator>)
    ensures StepIs(ExecuteStep(currentIndex, eval, functions), currentIndex, eval, functions)
  {
  }

  /** executiveFormula over the first k messages: each runs at the index in
      turn on the context the previous one left. */
  function RunUpTo(ms: seq<Message>, k: nat, index: nat, rounding: Option<int>, step: Step,
                   store: map<string, Value>): Result<map<string, Value>>
    requires k <= |ms|
  {
    if k == 0 then Ok(store)
    else
      match RunUpTo(ms, k - 1, index, rounding, step, store)
      case Err(e) => Err(e)
      case Ok(s) =>
        match step(ms[k - 1], index, rounding, s)
        case Err(e) => Err(e)
        case Ok((_, s')) => Ok(s')
  }

  /** Once a formula fails, the remaining formulas are not run. */
  lemma {:induction false} RunFailureStays(ms: seq<Message>, k: nat, j: nat, index: nat, rounding: Option<int>,
                                           step: Step, store: map<string, Value>)
    requires k <= j <= |ms|
    requires RunUpTo(ms, k, index, rounding, step, store).Err?
    ensures RunUpTo(ms, j, index, rounding, step, store) == RunUpTo(ms, k, index, rounding, step, store)
    decreases j - k
  {
    if k < j {
      RunFailureStays(ms, k, j - 1, index, rounding, step, store);
    }
  }

  /** judgeWhetherStartOrStop: no condition holds; otherwise the wrapped
      condition is run at the index without rounding and must be a Boolean. */
  function Judged(msg: Option<Message>, index: nat, step: Step, store: map<string, Value>): (r: Result<(bool, map<string, Value>)>)
    ensures msg.None? ==> r == Ok((true, store))
    ensures msg.Some? ==> var e := step(msg.value, index, None, store);
      (r.Ok? <==> e.Ok? && e.value.0.Bool?) && (r.Ok? ==> e.value.0 == Bool(r.value.0) && r.value.1 == e.value.1)
  {
    match msg
    case None => Ok((true, store))
    case Some(m) =>
      match step(m, index, None, store)
      case Err(e) => Err(e)
      case Ok((v, out)) => if v.Bool? then Ok((v.b, out)) else Err(ConditionNotBoolean(m.formula))
  }

  /** One index of doDetailExec's loop: whether the start condition held,
      the stop condition's results (the first judged before any run, one
      more after each further run), and how often the formulas ran. */
  datatype Round = Round(index: nat, started: bool, stops: seq<bool>, runs: nat)

  /** Not started: nothing ran. Started: the formulas ran once, then again
      while the stop condition was false, until it held or the thread was
      interrupted. */
  predicate RoundShape(rd: Round, interrupted: bool)
  {
    (!rd.started ==> rd.runs == 0 && |rd.stops| == 1) &&
    (rd.started ==> rd.runs == |rd.stops| >= 1 &&
                    (forall j | 0 <= j < |rd.stops| - 1 :: !rd.stops[j]) &&
                    (rd.stops[|rd.stops| - 1] || interrupted))
  }

  /** One more turn of the repeat loop: the formulas run at the index, then
      the stop condition is judged on the context they leave. */
  function Again(p: Plan, index: nat, rounding: Option<int>, step: Step, store: map<string, Value>): Result<(bool, map<string, Value>)>
  {
    match RunUpTo(p.messages, |p.messages|, index, rounding, step, store)
    case Err(e) => Err(e)
    case Ok(s1) => Judged(p.stop, index, step, s1)
  }

  /** while (!stop && !interrupted) { run the formulas; judge stop again } */
  function Repeat(p: Plan, index: nat, rounding: Option<int>, step: Step, st: Repeating): Result<Repeating>
    requires |st.stops| > 0
    decreases st.budget
  {
    if st.stops[|st.stops| - 1] || st.budget == 0 then Ok(st)
    else
      match Again(p, index, rounding, step, st.store)
      case Err(e) => Err(e)
      case Ok((b, s2)) => Repeat(p, index, rounding, step, Repeating(s2, st.budget - 1, st.stops + [b], st.runs + 1))
  }

  /** The repeat loop keeps the stop results it started with, adds one per
      run, all false but the last, and ends when the last holds or the
      thread is found interrupted. */
  lemma {:induction false} RepeatShape(p: Plan, index: nat, rounding: Option<int>, step: Step, st: Repeating)
    requires |st.stops| > 0 && Repeat(p, index, rounding, step, st).Ok?
    ensures var end := Repeat(p, index, rounding, step, st).value;
      end.budget <= st.budget && |end.stops| >= |st.stops| &&
      end.stops[..|st.stops|] == st.stops && end.runs == st.runs + |end.stops| - |st.stops| &&
      (forall j | |st.stops| - 1 <= j < |end.stops| - 1 :: !end.stops[j]) &&
      (end.stops[|end.stops| - 1] || end.budget == 0)
    decreases st.budget
  {
    if !(st.stops[|st.stops| - 1] || st.budget == 0) {
      var (b, s2) := Again(p, index, rounding, step, st.store).value;
      var next := Repeating(s2, st.budget - 1, st.stops + [b], st.runs + 1);
      RepeatRuns(p, index, rounding, step, st, b, s2);
      RepeatShape(p, index, rounding, step, next);
      var end := Repeat(p, index, rounding, step, next).value;
      assert end.stops[..|st.stops|] == st.stops by {
        assert end.stops[..|next.stops|][..|st.stops|] == end.stops[..|st.stops|];
      }
      assert end.stops[|st.stops| - 1] == st.stops[|st.stops| - 1];
    }
  }

  /** The repeat loop ends as soon as stop holds or the thread is interrupted. */
  lemma RepeatEnds(p: Plan, index: nat, rounding: Option<int>, step: Step, st: Repeating)
    requires |st.stops| > 0 && (st.stops[|st.stops| - 1] || st.budget == 0)
    ensures Repeat(p, index, rounding, step, st) == Ok(st)
  {
  }

  /** Otherwise one more run and one more stop result, with one check spent. */
  lemma RepeatRuns(p: Plan, index: nat, rounding: Option<int>, step: Step, st: Repeating, b: bool, s2: map<string, Value>)
    requires |st.stops| > 0 && !st.stops[|st.stops| - 1] && st.budget > 0
    requires Again(p, index, rounding, step, st.store) == Ok((b, s2))
    ensures Repeat(p, index, rounding, step, st) ==
            Repeat(p, index, rounding, step, Repeating(s2, st.budget - 1, st.stops + [b], st.runs + 1))
  {
  }

  /** A failing run or stop judgement ends the repeat loop with its failure. */
  lemma RepeatFails(p: Plan, index: nat, rounding: Option<int>, step: Step, st: Repeating)
    requires |st.stops| > 0 && !st.stops[|st.stops| - 1] && st.budget > 0
    requires Again(p, index, rounding, step, st.store).Err?
    ensures Repeat(p, index, rounding, step, st) == Err(Again(p, index, rounding, step, st.store).error)
  {
  }

  /** Every formula's result name is a list. */
  predicate MessagesNamed(ms: seq<Message>)
  {
    forall j | 0 <= j < |ms| :: |ms[j].names| > 0
  }

  /** One turn of doDetailExec's loop at an index: judge start, then stop;
      if started, size the result lists, run the formulas, and repeat. */
  function RoundAt(p: Plan, index: nat, size: nat, rounding: Option<int>, step: Step,
                   store: map<string, Value>, budget: nat): Result<(Round, map<string, Value>, nat)>
    requires MessagesNamed(p.messages)
  {
    match Judged(p.start, index, step, store)
    case Err(e) => Err(e)
    case Ok((started, s1)) =>
      match Judged(p.stop, index, step, s1)
      case Err(e) => Err(e)
      case Ok((stop, s2)) =>
        if !started then Ok((Round(index, false, [stop], 0), s2, budget))
        else
          var s3 := InitUpTo(p.messages, |p.messages|, size, s2);
          match RunUpTo(p.messages, |p.messages|, index, rounding, step, s3)
          case Err(e) => Err(e)
          case Ok(s4) =>
            match Repeat(p, index, rounding, step, Repeating(s4, budget, [stop], 1))
            case Err(e) => Err(e)
            case Ok(end) => Ok((Round(index, true, end.stops, end.runs), end.store, end.budget))
  }

  /** A turn records its own index and the shape of its runs, and never
      gives back interrupt checks. */
  lemma RoundAtShape(p: Plan, index: nat, size: nat, rounding: Option<int>, step: Step,
                     store: map<string, Value>, budget: nat)
    requires MessagesNamed(p.messages)
    requires RoundAt(p, index, size, rounding, step, store, budget).Ok?
    ensures var (rd, _, b) := RoundAt(p, index, size, rounding, step, store, budget).value;
      rd.index == index && RoundShape(rd, b == 0) && b <= budget
  {
    var (started, s1) := Judged(p.start, index, step, store).value;
    var (stop, s2) := Judged(p.stop, index, step, s1).value;
    if started {
      var s3 := InitUpTo(p.messages, |p.messages|, size, s2);
      var s4 := RunUpTo(p.messages, |p.messages|, index, rounding, step, s3).value;
      RepeatShape(p, index, rounding, step, Repeating(s4, budget, [stop], 1));
    }
  }

  /** One turn of doDetailExec's loop as a function of the index, the
      context and the interrupt checks left. */
  type Turn = (nat, map<string, Value>, nat) -> Result<(Round, map<string, Value>, nat)>

  /** The turn of a plan: RoundAt with the plan's sizes and rounding. */
  function TurnAt(p: Plan, size: nat, rounding: Option<int>, step: Step): Turn
  {
    (index: nat, store: map<string, Value>, budget: nat) =>
      if MessagesNamed(p.messages) then RoundAt(p, index, size, rounding, step, store, budget) else Err(IndexOutOfRange)
  }

  /** The turn is RoundAt, for this plan. */
  ghost predicate TurnIs(turn: Turn, p: Plan, size: nat, rounding: Option<int>, step: Step)
  {
    MessagesNamed(p.messages) &&
    forall index: nat, store: map<string, Value>, budget: nat
      {:trigger RoundAt(p, index, size, rounding, step, store, budget)} ::
      turn(index, store, budget) == RoundAt(p, index, size, rounding, step, store, budget)
  }

  lemma TurnAtIs(p: Plan, size: nat, rounding: Option<int>, step: Step)
    requires MessagesNamed(p.messages)
    ensures TurnIs(TurnAt(p, size, rounding, step), p, size, rounding, step)
  {
  }

  /** Every successful turn records its own index and the shape of its
      runs, and gives back no interrupt check. */
  ghost predicate TurnShaped(turn: Turn)
  {
    forall index: nat, store: map<string, Value>, budget: nat | turn(index, store, budget).Ok? ::
      var (rd, _, b) := turn(index, store, budget).value;
      rd.index == index && RoundShape(rd, b == 0) && b <= budget
  }

  lemma TurnAtShaped(p: Plan, size: nat, rounding: Option<int>, step: Step)
    ensures TurnShaped(TurnAt(p, size, rounding, step))
  {
    var turn := TurnAt(p, size, rounding, step);
    forall index: nat, store: map<string, Value>, budget: nat | turn(index, store, budget).Ok?
      ensures var (rd, _, b) := turn(index, store, budget).value;
        rd.index == index && RoundShape(rd, b == 0) && b <= budget
    {
      RoundAtShape(p, index, size, rounding, step, store, budget);
    }
  }

  /** The first n turns of doDetailExec's loop, from index start. */
  function RoundsUpTo(turn: Turn, start: nat, n: nat, store: map<string, Value>, budget: nat): Result<(seq<Round>, map<string, Value>, nat)>
  {
    if n == 0 then Ok(([], store, budget))
    else
      match RoundsUpTo(turn, start, n - 1, store, budget)
      case Err(e) => Err(e)
      case Ok((rounds, s, b)) =>
        match turn(start + n - 1, s, b)
        case Err(e) => Err(e)
        case Ok((rd, s', b')) => Ok((rounds + [rd], s', b'))
  }

  /** n turns run on consecutive indices from start, each with the shape of
      RoundShape; an interrupted thread stays interrupted, so a turn cut
      short by it is followed only by turns that are cut short too. */
  lemma {:induction false} RoundsShape(turn: Turn, start: nat, n: nat, store: map<string, Value>, budget: nat)
    requires TurnShaped(turn)
    requires RoundsUpTo(turn, start, n, store, budget).Ok?
    ensures var (rounds, _, b) := RoundsUpTo(turn, start, n, store, budget).value;
      |rounds| == n && b <= budget &&
      forall j | 0 <= j < n :: rounds[j].index == start + j && RoundShape(rounds[j], b == 0)
  {
    if n > 0 {
      RoundsShape(turn, start, n - 1, store, budget);
      var (rounds, s, b) := RoundsUpTo(turn, start, n - 1, store, budget).value;
      var (rd, s', b') := turn(start + n - 1, s, b).value;
      assert RoundsUpTo(turn, start, n, store, budget).value == (rounds + [rd], s', b');
      forall j | 0 <= j < n
        ensures (rounds + [rd])[j].index == start + j && RoundShape((rounds + [rd])[j], b' == 0)
      {
        if j < n - 1 {
          RoundShapeLater(rounds[j], b == 0, b' == 0);
        }
      }
    }
  }

  /** A turn that was not cut short keeps its shape whatever happens later. */
  lemma RoundShapeLater(rd: Round, interrupted: bool, later: bool)
    requires RoundShape(rd, interrupted) && (interrupted ==> later)
    ensures RoundShape(rd, later)
  {
  }

  /** The next turn continues from where the first n left the context and
      the interrupt flag. */
  lemma RoundsNext(turn: Turn, start: nat, n: nat, store: map<string, Value>, budget: nat)
    requires RoundsUpTo(turn, start, n, store, budget).Ok?
    ensures var (_, s, b) := RoundsUpTo(turn, start, n, store, budget).value;
      var t := turn(start + n, s, b);
      var next := RoundsUpTo(turn, start, n + 1, store, budget);
      (t.Ok? ==> next.Ok? && next.value.1 == t.value.1 && next.value.2 == t.value.2) &&
      (t.Err? ==> next == Err(t.error))
  {
  }

  /** Once a turn fails, the later turns are not run. */
  lemma {:induction false} RoundsFailureStays(turn: Turn, start: nat, k: nat, j: nat, store: map<string, Value>, budget: nat)
    requires k <= j
    requires RoundsUpTo(turn, start, k, store, budget).Err?
    ensures RoundsUpTo(turn, start, j, store, budget) == RoundsUpTo(turn, start, k, store, budget)
    decreases j - k
  {
    if k < j {
      RoundsFailureStays(turn, start, k, j - 1, store, budget);
    }
  }

  /** What doDetailExec does: the turns of its loop, the context and the
      interrupt checks left afterwards. */
  datatype Detail = Detail(rounds: seq<Round>, store: map<string, Value>, budget: nat)

  /** The first index: the fixed one, else 0. */
  function FirstIndex(config: CalculateConfig): nat
  {
    if config.currentIndex.Some? then config.currentIndex.value else 0
  }

  /** The number of turns: none when the first index is not below the
      length, one when the index is fixed (control goes back to the caller),
      otherwise one per remaining index. */
  function Turns(config: CalculateConfig, size: int): nat
  {
    if size <= FirstIndex(config) then 0
    else if config.currentIndex.Some? then 1
    else size - FirstIndex(config)
  }

  /** The length the result lists are sized to (only used when some turn
      runs, that is when the first index is below the length). */
  function Span(config: CalculateConfig, size: int): nat
  {
    if size <= FirstIndex(config) then 0 else size
  }

  /** doDetailExec */
  function DetailSpec(g: Group, config: CalculateConfig, step: Step, store: map<string, Value>, budget: nat): (r: Result<Detail>)
    ensures Planned(g, config, store).Err? ==> r == Err(Planned(g, config, store).error)
  {
    match Planned(g, config, store)
    case Err(e) => Err(e)
    case Ok(p) =>
      var rounding := Rounding(config.retainDecimal, ConditionsOf(g).retainDecimal);
      match RoundsUpTo(TurnAt(p, Span(config, p.size), rounding, step), FirstIndex(config), Turns(config, p.size), store, budget)
      case Err(e) => Err(e)
      case Ok((rounds, s, b)) => Ok(Detail(rounds, s, b))
  }

  /** doDetailExec, once its plan is settled: one turn per index from the
      first, each with the shape RoundShape states, and no interrupt check
      given back. */
  lemma DetailShape(g: Group, config: CalculateConfig, step: Step, store: map<string, Value>, budget: nat)
    requires DetailSpec(g, config, step, store, budget).Ok?
    ensures Planned(g, config, store).Ok?
    ensures var p := Planned(g, config, store).value;
      var d := DetailSpec(g, config, step, store, budget).value;
      |d.rounds| == Turns(config, p.size) && d.budget <= budget &&
      forall j | 0 <= j < |d.rounds| :: d.rounds[j].index == FirstIndex(config) + j && RoundShape(d.rounds[j], d.budget == 0)
  {
    var p := Planned(g, config, store).value;
    var rounding := Rounding(config.retainDecimal, ConditionsOf(g).retainDecimal);
    TurnAtShaped(p, Span(config, p.size), rounding, step);
    RoundsShape(TurnAt(p, Span(config, p.size), rounding, step), FirstIndex(config), Turns(config, p.size), store, budget);
  }

  /** Fixed-index mode runs at most the one turn at the given index, and
      none when that index is not below the length; otherwise every index
      from 0 below the length gets a turn. */
  lemma TurnsByMode(config: CalculateConfig, size: int)
    ensures config.currentIndex.Some? ==>
      Turns(config, size) == (if config.currentIndex.value < size then 1 else 0) && FirstIndex(config) == config.currentIndex.value
    ensures config.currentIndex.None? ==>
      Turns(config, size) == (if size > 0 then size else 0) && FirstIndex(config) == 0
  {
  }

  /** With neither a start nor a stop condition a turn always starts, runs
      the formulas exactly once, and spends no interrupt check. */
  lemma UnconditionedRound(p: Plan, index: nat, size: nat, rounding: Option<int>, step: Step,
                           store: map<string, Value>, budget: nat)
    requires MessagesNamed(p.messages) && p.start.None? && p.stop.None?
    ensures var run := RunUpTo(p.messages, |p.messages|, index, rounding, step, InitUpTo(p.messages, |p.messages|, size, store));
      var r := RoundAt(p, index, size, rounding, step, store, budget);
      (r.Ok? <==> run.Ok?) &&
      (r.Ok? ==> r.value == (Round(index, true, [true], 1), run.value, budget)) &&
      (r.Err? ==> r.error == run.error)
  {
  }

  /** A turn whose start condition is false runs nothing and leaves the
      context as the two judgements left it. */
  lemma NotStartedRound(p: Plan, index: nat, size: nat, rounding: Option<int>, step: Step,
                        store: map<string, Value>, budget: nat)
    requires MessagesNamed(p.messages)
    requires Judged(p.start, index, step, store).Ok? && !Judged(p.start, index, step, store).value.0
    ensures var s1 := Judged(p.start, index, step, store).value.1;
      var r := RoundAt(p, index, size, rounding, step, store, budget);
      (r.Ok? <==> Judged(p.stop, index, step, s1).Ok?) &&
      (r.Ok? ==> r.value.0.runs == 0 && !r.value.0.started && r.value.1 == Judged(p.stop, index, step, s1).value.1 && r.value.2 == budget)
  {
  }

  /** The rounding applied to a formula: the calculation's decimals when
      set, else the group's, else none. */
  lemma RoundingPrecedence(formula: string, configRetain: Option<int>, groupRetain: Option<int>)
    ensures configRetain.Some? ==> Rewrite(formula, Rounding(configRetain, groupRetain)) == ModifyFormula(formula, configRetain.value)
    ensures configRetain.None? && groupRetain.Some? ==> Rewrite(formula, Rounding(configRetain, groupRetain)) == ModifyFormula(formula, groupRetain.value)
    ensures configRetain.None? && groupRetain.None? ==> Rewrite(formula, Rounding(configRetain, groupRetain)) == Ok(formula)
  {
  }

  class ListDataExecutor {
    /** Whether the caller fixes the index to run (the loop hands control
        back after one index). */
    var demise: bool
    var currentIndex: Option<nat>
    var paramTotalSize: Option<int>
    /** The runner this executor owns, with its function table. */
    const runner: Runner

    ghost predicate Valid()
      reads this
    {
      demise <==> currentIndex.Some?
    }

    constructor()
      ensures Valid() && !demise && currentIndex.None? && paramTotalSize.None?
      ensures fresh(runner) && runner.functions == Builtins()
    {
      demise := false;
      currentIndex := None;
      paramTotalSize := None;
      runner := new Runner();
    }

    /** canHandle: a loop that stops at the first formula without "_index". */
    method CanHandle(g: Group) returns (b: bool)
      ensures b <==> Handles(g)
    {
      b := true;
      var k := 0;
      while k < |g.formulas|
        invariant 0 <= k <= |g.formulas|
        invariant b && forall j | 0 <= j < k :: Contains(g.formulas[j], IndexMark)
      {
        if !Contains(g.formulas[k], IndexMark) {
          b := false;
          break;
        }
        k := k + 1;
      }
    }

    /** paramCheck */
    method ParamCheck(f: string, names: seq<string>, reg: Registry) returns (r: Result<Message>)
      requires reg.Valid()
      ensures r == ParamChecked(f, names, reg.values, demise, paramTotalSize)
    {
      if |names| == 0 {
        return Err(NoIndexedParameter(f));
      }
      if |names| == 1 {
        return Ok(Message(f, names, -1, false));
      }
      var nullJudge := Contains(f, "null");
      var ns := names[1..];
      var markSize: Option<int> := None;
      var markName := "";
      var j := 0;
      ScanStart(ns, reg.values, demise);
      while j < |ns|
        invariant 0 <= j <= |ns|
        invariant ScanState(ns, reg.values, j, demise, markSize, markName)
      {
        var name := ns[j];
        var config := reg.GetParamConfig(name);
        if config.None? {
          ScanUnbound(ns, reg.values, j, demise, markSize, markName);
          j := j + 1;
          continue;
        }
        assert config.value.size == ConfigOf(reg.values[name]).size;
        var first := markSize.None?;
        if !demise && !first && markSize.value != config.value.size {
          ScanMismatch(f, names, reg.values, j, markSize, markName, paramTotalSize);
          return Err(ParamLengthMismatch(f, markName, name, markSize.value, config.value.size));
        }
        ScanBound(ns, reg.values, j, demise, markSize, markName);
        markSize := Some(config.value.size);
        markName := name;
        j := j + 1;
      }
      ScanDone(f, names, reg.values, demise, markSize, markName, paramTotalSize);
      if markSize.None? && paramTotalSize.None? {
        return Ok(Message(f, names, -1, nullJudge));
      }
      r := Ok(Message(f, names, if markSize.Some? then markSize.value else paramTotalSize.value, nullJudge));
    }

    /** extractFormulaMessage */
    method ExtractFormulaMessage(formula: Option<string>, condition: bool, reg: Registry) returns (r: Result<Option<Message>>)
      requires reg.Valid()
      ensures r == Extracted(formula, condition, reg.values, demise, paramTotalSize)
    {
      if formula.None? || IsBlank(formula.value) {
        return Ok(None);
      }
      var f := formula.value;
      if condition {
        f := ConditionFormula(f);
      }
      var checked := CheckResultName(f);
      if checked.Err? {
        return Err(checked.error);
      }
      var names := ScanNames(f);
      var m := ParamCheck(f, names, reg);
      if m.Err? {
        return Err(m.error);
      }
      r := Ok(Some(m.value));
    }

    /** The stream that extracts every formula's message: a group this
        executor handles has no blank formula, so each gives a message. */
    method ExtractAll(formulas: seq<string>, reg: Registry) returns (r: Result<seq<Message>>)
      requires reg.Valid()
      requires forall k | 0 <= k < |formulas| :: Contains(formulas[k], IndexMark)
      ensures r == ExtractedUpTo(formulas, |formulas|, reg.values, demise, paramTotalSize)
      ensures r.Ok? ==> |r.value| == |formulas|
    {
      var ms: seq<Message> := [];
      var k := 0;
      while k < |formulas|
        invariant 0 <= k <= |formulas| && |ms| == k
        invariant ExtractedUpTo(formulas, k, reg.values, demise, paramTotalSize) == Ok(ms)
      {
        var next := ExtractStep(formulas, k, ms, reg);
        if next.Err? {
          ExtractedFailureStays(formulas, k + 1, |formulas|, reg.values, demise, paramTotalSize);
          return next;
        }
        ms := next.value;
        k := k + 1;
      }
      r := Ok(ms);
    }

    /** One round of the extraction loop: a formula with "_index" is never
        blank, so it adds a message or fails. */
    method ExtractStep(formulas: seq<string>, k: nat, ms: seq<Message>, reg: Registry) returns (r: Result<seq<Message>>)
      requires reg.Valid() && k < |formulas| && Contains(formulas[k], IndexMark)
      requires ExtractedUpTo(formulas, k, reg.values, demise, paramTotalSize) == Ok(ms)
      ensures r == ExtractedUpTo(formulas, k + 1, reg.values, demise, paramTotalSize)
      ensures r.Ok? ==> |r.value| == |ms| + 1
    {
      var m := ExtractFormulaMessage(Some(formulas[k]), false, reg);
      if m.Err? {
        return Err(m.error);
      }
      MarkedNotBlank(formulas[k]);
      r := Ok(ms + [m.value.value]);
    }

    /** checkParamSize */
    method CheckParamSize(checklist: seq<Option<Message>>) returns (r: Result<()>)
      requires Valid()
      ensures r == CheckedSizes(checklist, currentIndex, paramTotalSize)
    {
      var mark: Option<Message> := None;
      var i := 0;
      SizeStart(checklist, currentIndex);
      while i < |checklist|
        invariant 0 <= i <= |checklist|
        invariant SizeState(checklist, i, currentIndex, mark)
      {
        if checklist[i].None? || checklist[i].value.size == -1 {
          SizeSkip(checklist, i, currentIndex, mark);
          i := i + 1;
          continue;
        }
        var m := checklist[i].value;
        var markMessage := if mark.Some? then mark.value else m;
        if demise {
          if markMessage.size <= currentIndex.value && !m.nullJudge {
            SizeFail(checklist, i, currentIndex, mark, paramTotalSize);
            return Err(IndexBeyondLength(markMessage.formula, currentIndex.value));
          }
        } else {
          if markMessage.size != m.size {
            SizeFail(checklist, i, currentIndex, mark, paramTotalSize);
            return Err(FormulaLengthMismatch(markMessage.formula, m.formula, markMessage.size, m.size));
          }
        }
        SizePass(checklist, i, currentIndex, mark);
        mark := Some(m);
        i := i + 1;
      }
      SizeDone(checklist, currentIndex, mark, paramTotalSize);
      if mark.None? && paramTotalSize.None? {
        return Err(UnresolvableLength(PresentFormulas(checklist)));
      }
      r := Ok(());
    }

    /** parameterResolution: the binding of the k-th name's element at the
        index, through the registry's put; a failure binds nothing. */
    method ParameterResolution(m: Message, k: nat, index: nat, reg: Registry) returns (r: Result<()>)
      requires reg.Valid() && k < |m.names|
      modifies reg
      ensures reg.Valid()
      ensures match Resolve(m, k, index, old(reg.values))
        case Ok(store) => r == Ok(()) && reg.values == store
        case Err(e) => r == Err(e) && reg.values == old(reg.values)
    {
      var name := m.names[k];
      var newName := IndexedName(name, index);
      if reg.Get(newName).Some? {
        return Ok(());
      }
      var isDefault := DefaultFun(m.formula, name);
      if k != 0 && !m.nullJudge {
        var o := reg.Get(name);
        if o.None? {
          if isDefault {
            return Ok(());
          }
          return Err(ParameterUndefined(m.formula, name));
        }
        if !o.value.List? {
          return Err(ClassCast);
        }
        var items := o.value.items;
        if !(isDefault && |items| <= index) {
          if index >= |items| {
            return Err(IndexOutOfRange);
          }
          reg.Put(newName, items[index]);
        }
      }
      r := Ok(());
    }

    /** One turn of execute's loop, for the k-th name: the checks on the
        parameter's recorded config, then the token replaced in the formula
        and the element bound, as NameStep says. */
    method SubstituteName(m: Message, index: nat, k: nat, formula: string, reg: Registry) returns (r: Result<string>)
      requires Valid() && reg.Valid() && k < |m.names|
      modifies reg
      ensures reg.Valid()
      ensures match NameStep(m, index, currentIndex, k, Subst(formula, old(reg.values)))
        case Ok(st) => r == Ok(st.formula) && reg.values == st.store
        case Err(e) => r == Err(e)
    {
      var name := m.names[k];
      var token := Token(name);
      var config := reg.GetParamConfig(name);
      if k > 0 && !m.nullJudge {
        if config.None? {
          if DefaultFun(m.formula, name) {
            return Ok(formula);
          }
          return Err(ParameterMissing(m.formula, name));
        }
        if !config.value.isArray {
          return Err(NotAList(name));
        }
      }
      if k > 0 && demise {
        if config.None? {
          return Err(NullPointer);
        }
        if config.value.size <= currentIndex.value && !DefaultFun(m.formula, token) && !m.nullJudge {
          return Err(IndexBeyondLength(m.formula, currentIndex.value));
        }
      }
      var newName := IndexedName(name, index);
      var replaced := formula;
      if Contains(formula, token) {
        replaced := ReplaceAll(formula, token, newName);
      }
      var resolved := ParameterResolution(m, k, index, reg);
      if resolved.Err? {
        return Err(resolved.error);
      }
      r := Ok(replaced);
    }

    /** The loop of execute: each name checked, its token replaced in the
        formula and its element bound, as SubstUpTo says. */
    method Substitute(m: Message, index: nat, reg: Registry) returns (r: Result<string>)
      requires Valid() && reg.Valid()
      modifies reg
      ensures reg.Valid()
      ensures match SubstUpTo(m, index, currentIndex, |m.names|, Subst(m.formula, old(reg.values)))
        case Ok(st) => r == Ok(st.formula) && reg.values == st.store
        case Err(e) => r == Err(e)
    {
      ghost var start := Subst(m.formula, reg.values);
      var formula := m.formula;
      var k := 0;
      while k < |m.names|
        invariant 0 <= k <= |m.names| && reg.Valid()
        invariant SubstUpTo(m, index, currentIndex, k, start) == Ok(Subst(formula, reg.values))
      {
        var next := SubstituteName(m, index, k, formula, reg);
        if next.Err? {
          SubstFailureStays(m, index, currentIndex, k + 1, |m.names|, start);
          return Err(next.error);
        }
        formula := next.value;
        k := k + 1;
      }
      r := Ok(formula);
    }

    /** execute(formulaMessage, index, rewrite): the value computed for the
        result at the index, with the context afterwards as ExecuteSpec says. */
    method Execute(m: Message, index: nat, rounding: Option<int>, reg: Registry, eval: Evaluator, ghost step: Step)
      returns (r: Result<Value>)
      requires Valid() && reg.Valid() && |m.names| > 0 && StepIs(step, currentIndex, eval, runner.functions)
      modifies reg
      ensures reg.Valid()
      ensures match step(m, index, rounding, old(reg.values))
        case Ok((v, out)) => r == Ok(v) && reg.values == out
        case Err(e) => r == Err(e)
    {
      assert step(m, index, rounding, reg.values) == ExecuteSpec(m, index, currentIndex, rounding, eval, runner.functions, reg.values);
      var formula := Substitute(m, index, reg);
      if formula.Err? {
        return Err(formula.error);
      }
      var rewritten := Rewrite(formula.value, rounding);
      if rewritten.Err? {
        return Err(rewritten.error);
      }
      var ran := runner.Execute(rewritten.value, reg, eval);
      if ran.Err? {
        return Err(ran.error);
      }
      var resultName := m.names[0];
      var resultIndexName := IndexedName(resultName, index);
      var result := reg.Get(resultName);
      var resultForIndex := reg.Get(resultIndexName);
      if resultForIndex.None? {
        return Err(MissingComputedValue(resultIndexName));
      }
      if result.Some? && !result.value.List? {
        return Err(ResultNotList(resultName));
      }
      var items := if result.None? then [] else result.value.items;
      if |items| > index {
        items := items[index := resultForIndex.value];
      } else {
        items := items + [resultForIndex.value];
      }
      reg.Put(resultName, List(items));
      r := Ok(resultForIndex.value);
    }


    /** judgeWhetherStartOrStop */
    method Judge(msg: Option<Message>, index: nat, reg: Registry, eval: Evaluator, ghost step: Step) returns (r: Result<bool>)
      requires Valid() && reg.Valid() && StepIs(step, currentIndex, eval, runner.functions)
      requires msg.Some? ==> |msg.value.names| > 0
      modifies reg
      ensures reg.Valid()
      ensures match Judged(msg, index, step, old(reg.values))
        case Ok((b, out)) => r == Ok(b) && reg.values == out
        case Err(e) => r == Err(e)
    {
      if msg.None? {
        return Ok(true);
      }
      var v := Execute(msg.value, index, None, reg, eval, step);
      if v.Err? {
        return Err(v.error);
      }
      if !v.value.Bool? {
        return Err(ConditionNotBoolean(msg.value.formula));
      }
      r := Ok(v.value.b);
    }

    /** initResultList: a result name with no value gets a list of `size` zeros. */
    method InitResultList(ms: seq<Message>, size: nat, reg: Registry)
      requires reg.Valid() && MessagesNamed(ms)
      modifies reg
      ensures reg.Valid()
      ensures reg.values == InitUpTo(ms, |ms|, size, old(reg.values))
    {
      var k := 0;
      while k < |ms|
        invariant 0 <= k <= |ms| && reg.Valid()
        invariant reg.values == InitUpTo(ms, k, size, old(reg.values))
      {
        var name := ms[k].names[0];
        if reg.Get(name).None? {
          var _ := reg.Add(name, Some(List(Zeros(size))));
        }
        k := k + 1;
      }
    }

    /** executiveFormula: every formula in turn at the index, rewritten to
        round to the calculation's decimals, else the group's. */
    method ExecutiveFormula(ms: seq<Message>, groupRetain: Option<int>, index: nat, config: CalculateConfig,
                            reg: Registry, eval: Evaluator, ghost step: Step) returns (r: Result<()>)
      requires Valid() && reg.Valid() && StepIs(step, currentIndex, eval, runner.functions) && MessagesNamed(ms)
      modifies reg
      ensures reg.Valid()
      ensures match RunUpTo(ms, |ms|, index, Rounding(config.retainDecimal, groupRetain), step, old(reg.values))
        case Ok(out) => r == Ok(()) && reg.values == out
        case Err(e) => r == Err(e)
    {
      var rounding := if config.retainDecimal.Some? then config.retainDecimal else groupRetain;
      var k := 0;
      while k < |ms|
        invariant 0 <= k <= |ms| && reg.Valid()
        invariant RunUpTo(ms, k, index, rounding, step, old(reg.values)) == Ok(reg.values)
      {
        var v := Execute(ms[k], index, rounding, reg, eval, step);
        if v.Err? {
          RunFailureStays(ms, k + 1, |ms|, index, rounding, step, old(reg.values));
          return Err(v.error);
        }
        k := k + 1;
      }
      r := Ok(());
    }

    /** One turn of doDetailExec's loop at an index: judge start and stop; if
        started, size the result lists and run the formulas, then again while
        stop is false and the thread is not interrupted. */
    method RunIndex(p: Plan, index: nat, size: nat, groupRetain: Option<int>, config: CalculateConfig,
                    reg: Registry, eval: Evaluator, thread: CurrentThread, ghost step: Step) returns (r: Result<()>)
      requires Valid() && reg.Valid() && StepIs(step, currentIndex, eval, runner.functions)
      requires MessagesNamed(p.messages)
      requires p.start.Some? ==> |p.start.value.names| > 0
      requires p.stop.Some? ==> |p.stop.value.names| > 0
      modifies reg, thread
      ensures reg.Valid()
      ensures match RoundAt(p, index, size, Rounding(config.retainDecimal, groupRetain), step, old(reg.values), old(thread.budget))
        case Ok((_, out, b)) => r == Ok(()) && reg.values == out && thread.budget == b
        case Err(e) => r == Err(e)
    {
      ghost var rounding := Rounding(config.retainDecimal, groupRetain);
      var started := Judge(p.start, index, reg, eval, step);
      if started.Err? {
        return Err(started.error);
      }
      var stop := Judge(p.stop, index, reg, eval, step);
      if stop.Err? {
        return Err(stop.error);
      }
      if !started.value {
        return Ok(());
      }
      InitResultList(p.messages, size, reg);
      var ran := ExecutiveFormula(p.messages, groupRetain, index, config, reg, eval, step);
      if ran.Err? {
        return Err(ran.error);
      }
      r := RepeatUntilStop(p, index, groupRetain, config, stop.value, reg, eval, thread, step);
    }

    /** The inner loop: while stop is false and the thread is not
        interrupted, run the formulas again and judge stop again. */
    method RepeatUntilStop(p: Plan, index: nat, groupRetain: Option<int>, config: CalculateConfig, stop: bool,
                           reg: Registry, eval: Evaluator, thread: CurrentThread, ghost step: Step) returns (r: Result<()>)
      requires Valid() && reg.Valid() && StepIs(step, currentIndex, eval, runner.functions)
      requires MessagesNamed(p.messages)
      requires p.stop.Some? ==> |p.stop.value.names| > 0
      modifies reg, thread
      ensures reg.Valid()
      ensures match Repeat(p, index, Rounding(config.retainDecimal, groupRetain), step,
                           Repeating(old(reg.values), old(thread.budget), [stop], 1))
        case Ok(end) => r == Ok(()) && reg.values == end.store && thread.budget == end.budget
        case Err(e) => r == Err(e)
    {
      ghost var rounding := Rounding(config.retainDecimal, groupRetain);
      ghost var first := Repeating(reg.values, thread.budget, [stop], 1);
      ghost var stops := [stop];
      ghost var runs := 1;
      var stopped := stop;
      while !stopped
        invariant reg.Valid() && |stops| > 0 && stops[|stops| - 1] == stopped
        invariant Repeat(p, index, rounding, step, Repeating(reg.values, thread.budget, stops, runs)) ==
                  Repeat(p, index, rounding, step, first)
        decreases thread.budget
      {
        ghost var st := Repeating(reg.values, thread.budget, stops, runs);
        var interrupted := thread.IsInterrupted();
        if interrupted {
          RepeatEnds(p, index, rounding, step, st);
          return Ok(());
        }
        var again := RunAgain(p, index, groupRetain, config, reg, eval, step);
        if again.Err? {
          RepeatFails(p, index, rounding, step, st);
          return Err(again.error);
        }
        RepeatRuns(p, index, rounding, step, st, again.value, reg.values);
        stopped := again.value;
        stops := stops + [stopped];
        runs := runs + 1;
      }
      RepeatEnds(p, index, rounding, step, Repeating(reg.values, thread.budget, stops, runs));
      r := Ok(());
    }

    /** The body of the repeat loop: the formulas run again, then stop is
        judged again. */
    method RunAgain(p: Plan, index: nat, groupRetain: Option<int>, config: CalculateConfig,
                    reg: Registry, eval: Evaluator, ghost step: Step) returns (r: Result<bool>)
      requires Valid() && reg.Valid() && StepIs(step, currentIndex, eval, runner.functions)
      requires MessagesNamed(p.messages)
      requires p.stop.Some? ==> |p.stop.value.names| > 0
      modifies reg
      ensures reg.Valid()
      ensures match Again(p, index, Rounding(config.retainDecimal, groupRetain), step, old(reg.values))
        case Ok((b, out)) => r == Ok(b) && reg.values == out
        case Err(e) => r == Err(e)
    {
      var ran := ExecutiveFormula(p.messages, groupRetain, index, config, reg, eval, step);
      if ran.Err? {
        return Err(ran.error);
      }
      r := Judge(p.stop, index, reg, eval, step);
    }

    /** The part of doDetailExec before its loop: the formulas' messages,
        the conditions' messages, the length check and the number of
        indices. Nothing is written to the context. */
    method PlanDetail(g: Group, config: CalculateConfig, reg: Registry) returns (r: Result<Plan>)
      requires Valid() && reg.Valid() && Handles(g)
      requires currentIndex == config.currentIndex && paramTotalSize == config.paramTotalSize
      ensures r == Planned(g, config, reg.values)
    {
      var ms := ExtractAll(g.formulas, reg);
      if ms.Err? {
        return Err(ms.error);
      }
      var conditions := if g.conditions.Some? then g.conditions.value else Conditions(None, None, None);
      var start := ExtractFormulaMessage(conditions.start, true, reg);
      if start.Err? {
        return Err(start.error);
      }
      var stop := ExtractFormulaMessage(conditions.stop, true, reg);
      if stop.Err? {
        return Err(stop.error);
      }
      var checklist := Checklist(ms.value, start.value, stop.value);
      var checked := CheckParamSize(checklist);
      if checked.Err? {
        return Err(checked.error);
      }
      var sized := Sized(checklist);
      var size := if |sized| > 0 then sized[0].size else paramTotalSize.value;
      r := Ok(Plan(ms.value, start.value, stop.value, size));
    }

    /** The turn after the first n: the one at index start + n. */
    method NextRound(p: Plan, start: nat, n: nat, size: nat, groupRetain: Option<int>, config: CalculateConfig,
                     reg: Registry, eval: Evaluator, thread: CurrentThread, ghost step: Step, ghost turn: Turn,
                     ghost store: map<string, Value>, ghost budget: nat) returns (r: Result<()>)
      requires Valid() && reg.Valid() && StepIs(step, currentIndex, eval, runner.functions)
      requires TurnIs(turn, p, size, Rounding(config.retainDecimal, groupRetain), step)
      requires p.start.Some? ==> |p.start.value.names| > 0
      requires p.stop.Some? ==> |p.stop.value.names| > 0
      requires RoundsUpTo(turn, start, n, store, budget).Ok?
      requires var (_, out, b) := RoundsUpTo(turn, start, n, store, budget).value;
        reg.values == out && thread.budget == b
      modifies reg, thread
      ensures reg.Valid()
      ensures match RoundsUpTo(turn, start, n + 1, store, budget)
        case Ok((_, out, b)) => r == Ok(()) && reg.values == out && thread.budget == b
        case Err(e) => r == Err(e)
    {
      RoundsNext(turn, start, n, store, budget);
      r := RunIndex(p, start + n, size, groupRetain, config, reg, eval, thread, step);
    }

    /** The loop of doDetailExec: one turn per index from the first one, and
        only that one in fixed-index mode. */
    method RunRounds(p: Plan, config: CalculateConfig, groupRetain: Option<int>, reg: Registry, eval: Evaluator,
                     thread: CurrentThread, ghost step: Step, ghost turn: Turn) returns (r: Result<()>)
      requires Valid() && reg.Valid() && currentIndex == config.currentIndex
      requires StepIs(step, currentIndex, eval, runner.functions)
      requires TurnIs(turn, p, Span(config, p.size), Rounding(config.retainDecimal, groupRetain), step)
      requires p.start.Some? ==> |p.start.value.names| > 0
      requires p.stop.Some? ==> |p.stop.value.names| > 0
      modifies reg, thread
      ensures reg.Valid()
      ensures match RoundsUpTo(turn, FirstIndex(config), Turns(config, p.size), old(reg.values), old(thread.budget))
        case Ok((_, out, b)) => r == Ok(()) && reg.values == out && thread.budget == b
        case Err(e) => r == Err(e)
    {
      var size := p.size;
      var first := if config.currentIndex.Some? then config.currentIndex.value else 0;
      var sz: nat := if size <= first then 0 else size;
      assert first == FirstIndex(config) && sz == Span(config, size);
      ghost var turns := Turns(config, size);
      ghost var s0, b0 := reg.values, thread.budget;
      var i := first;
      ghost var n := 0;
      while i < size
        invariant i == first + n && n <= turns && (n > 0 ==> i <= size) && (demise ==> n == 0)
        invariant reg.Valid()
        invariant RoundsUpTo(turn, first, n, s0, b0).Ok?
        invariant var (_, out, b) := RoundsUpTo(turn, first, n, s0, b0).value;
          reg.values == out && thread.budget == b
      {
        var ran := NextRound(p, first, i - first, sz, groupRetain, config, reg, eval, thread, step, turn, s0, b0);
        if ran.Err? {
          RoundsFailureStays(turn, first, n + 1, turns, s0, b0);
          return Err(ran.error);
        }
        i := i + 1;
        n := n + 1;
        if demise {
          break;
        }
      }
      assert n == turns;
      r := Ok(());
    }

    /** doDetailExec: the per-call fields are set from the configuration,
        the plan is settled, then the loop runs. */
    method DoDetailExec(g: Group, config: CalculateConfig, reg: Registry, eval: Evaluator,
                        thread: CurrentThread, ghost step: Step) returns (r: Result<()>)
      requires reg.Valid() && Handles(g) && StepIs(step, config.currentIndex, eval, runner.functions)
      modifies this, reg, thread
      ensures Valid() && reg.Valid()
      ensures currentIndex == config.currentIndex && paramTotalSize == config.paramTotalSize
      ensures match DetailSpec(g, config, step, old(reg.values), old(thread.budget))
        case Ok(d) => r == Ok(()) && reg.values == d.store && thread.budget == d.budget
        case Err(e) => r == Err(e)
    {
      demise := config.currentIndex.Some?;
      currentIndex := config.currentIndex;
      paramTotalSize := config.paramTotalSize;
      var p := PlanDetail(g, config, reg);
      if p.Err? {
        return Err(p.error);
      }
      var conditions := if g.conditions.Some? then g.conditions.value else Conditions(None, None, None);
      ghost var turn := TurnAt(p.value, Span(config, p.value.size), Rounding(config.retainDecimal, conditions.retainDecimal), step);
      TurnAtIs(p.value, Span(config, p.value.size), Rounding(config.retainDecimal, conditions.retainDecimal), step);
      r := RunRounds(p.value, config, conditions.retainDecimal, reg, eval, thread, step, turn);
    }
  }
}
