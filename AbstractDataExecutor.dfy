/** What the executors share (AbstractDataExecutor): the expression runner
    with its function table, the calls that run one formula against the
    parameter context, and the rewrite that rounds a formula's result.
    The expression language itself (QLExpress) is not part of this model: it
    is an Evaluator, a function given by the caller. */
module AbstractDataExecutor {
  import opened Base
  import opened Text
  import opened Values
  import opened Operators
  import opened Registry

  /** One run of the evaluator: the assignments it makes to the context, in
      order, and the value of the expression (null when it has none). */
  datatype Evaluation = Evaluation(writes: seq<(string, Value)>, value: Option<Value>)

  /** ExpressRunner.execute: formula text, the context's values and the
      function table in; an evaluation, or the failure it raises. A failure
      carries no assignments: evaluation is taken to be all-or-nothing. */
  type Evaluator = (string, map<string, Value>, map<string, Operator>) -> Result<Evaluation>

  /** CalculateConfig: decimals to keep for every formula, a fallback length
      for indexed formulas, a fixed index to run, and custom functions. */
  datatype CalculateConfig = CalculateConfig(
    retainDecimal: Option<int>,
    paramTotalSize: Option<int>,
    currentIndex: Option<nat>,
    functionConfig: Option<map<string, Operator>>)

  /** new CalculateConfig() */
  const DefaultConfig := CalculateConfig(None, None, None, None)

  /** The function table of a fresh runner. */
  function Builtins(): map<string, Operator>
  {
    map["listMax" := ListMax, "listMin" := ListMin, "listSum" := ListSum,
        "defaultZero" := DefaultZero, "default" := Default]
  }

  /** Every executor can call the five builtins as soon as it exists. */
  lemma BuiltinsRegistered()
    ensures Builtins().Keys == {"listMax", "listMin", "listSum", "defaultZero", "default"}
    ensures Builtins()["listSum"] == ListSum && Builtins()["default"] == Default
  {
  }

  /** Some assignment targets the name. */
  predicate Written(writes: seq<(string, Value)>, key: string)
  {
    exists k | 0 <= k < |writes| :: writes[k].0 == key
  }

  /** The context after the assignments, applied in order: it binds what it
      bound and every assigned name, and a name nobody assigns keeps its value. */
  function ApplyWrites(store: map<string, Value>, writes: seq<(string, Value)>): (r: map<string, Value>)
    ensures forall key :: key in r <==> key in store || Written(writes, key)
    ensures forall key | key in store && !Written(writes, key) :: r[key] == store[key]
    decreases |writes|
  {
    if |writes| == 0 then store
    else
      var r := ApplyWrites(store[writes[0].0 := writes[0].1], writes[1..]);
      assert forall key :: Written(writes, key) <==> key == writes[0].0 || Written(writes[1..], key) by {
        forall key | Written(writes, key)
          ensures key == writes[0].0 || Written(writes[1..], key)
        {
          var k :| 0 <= k < |writes| && writes[k].0 == key;
          if k > 0 { assert writes[1..][k - 1].0 == key; }
        }
        forall key | Written(writes[1..], key)
          ensures Written(writes, key)
        {
          var k :| 0 <= k < |writes[1..]| && writes[1..][k].0 == key;
          assert writes[k + 1].0 == key;
        }
      }
      r
  }

  /** The last assignment to a name is the value it ends with. */
  lemma {:induction false} ApplyWritesLast(store: map<string, Value>, writes: seq<(string, Value)>, k: nat)
    requires k < |writes|
    requires forall j | k < j < |writes| :: writes[j].0 != writes[k].0
    ensures ApplyWrites(store, writes)[writes[k].0] == writes[k].1
    decreases |writes|
  {
    if k > 0 {
      ApplyWritesLast(store[writes[0].0 := writes[0].1], writes[1..], k - 1);
    } else {
      var s := store[writes[0].0 := writes[0].1];
      assert forall j | 0 <= j < |writes[1..]| :: writes[1..][j].0 != writes[0].0;
    }
  }

  /** The thread the calculation runs on, as far as its interrupt flag goes:
      `budget` more checks find it not interrupted, and once a check finds it
      interrupted every later check does too. */
  class CurrentThread {
    var budget: nat

    constructor(budget: nat)
      ensures this.budget == budget
    {
      this.budget := budget;
    }

    /** Thread.currentThread().isInterrupted() */
    method IsInterrupted() returns (b: bool)
      modifies this
      ensures b <==> old(budget) == 0
      ensures budget == if b then 0 else old(budget) - 1
    {
      b := budget == 0;
      if !b {
        budget := budget - 1;
      }
    }
  }

  /** The state of an executor's repeat loop (while the stop condition is
      false and the thread is not interrupted): the context, the checks of
      the interrupt flag left before it is found set, the stop results so
      far and the number of runs. */
  datatype Repeating = Repeating(store: map<string, Value>, budget: nat, stops: seq<bool>, runs: nat)

  /** The ExpressRunner an executor owns, with its function table. */
  class Runner {
    var functions: map<string, Operator>

    /** The instance initialiser: a new runner knows the five builtins. */
    constructor()
      ensures functions == Builtins()
    {
      functions := Builtins();
    }

    /** registerFunction: a function under the same name is replaced. */
    method AddFunction(name: string, operator: Operator)
      modifies this
      ensures functions == old(functions)[name := operator]
    {
      functions := functions[name := operator];
    }

    /** execute(formula, param): runs the formula; its assignments go through
        the registry's put, so their configs are recorded too. A failure
        writes nothing, since the Evaluator reports none. */
    method Execute(formula: string, reg: Registry, eval: Evaluator) returns (r: Result<Option<Value>>)
      requires reg.Valid()
      modifies reg
      ensures reg.Valid()
      ensures eval(formula, old(reg.values), functions).Err? ==>
                r == Err(eval(formula, old(reg.values), functions).error) && reg.values == old(reg.values)
      ensures eval(formula, old(reg.values), functions).Ok? ==>
                var e := eval(formula, old(reg.values), functions).value;
                r == Ok(e.value) && reg.values == ApplyWrites(old(reg.values), e.writes)
    {
      var outcome := eval(formula, reg.values, functions);
      if outcome.Err? {
        return Err(outcome.error);
      }
      var writes := outcome.value.writes;
      var k := 0;
      while k < |writes|
        invariant 0 <= k <= |writes|
        invariant reg.Valid()
        invariant ApplyWrites(old(reg.values), writes) == ApplyWrites(reg.values, writes[k..])
      {
        assert writes[k..][1..] == writes[k + 1..];
        reg.Put(writes[k].0, writes[k].1);
        k := k + 1;
      }
      r := Ok(outcome.value.value);
    }

    /** executeForBool: the formula's value cast to Boolean; null stays null,
        any other type fails the cast. */
    method ExecuteForBool(formula: string, reg: Registry, eval: Evaluator) returns (r: Result<Option<bool>>)
      requires reg.Valid()
      modifies reg
      ensures reg.Valid()
      ensures eval(formula, old(reg.values), functions).Err? ==>
                r == Err(eval(formula, old(reg.values), functions).error) && reg.values == old(reg.values)
      ensures eval(formula, old(reg.values), functions).Ok? ==>
                var e := eval(formula, old(reg.values), functions).value;
                reg.values == ApplyWrites(old(reg.values), e.writes) &&
                r == AsBoolean(e.value)
    {
      var v := Execute(formula, reg, eval);
      if v.Err? {
        return Err(v.error);
      }
      r := AsBoolean(v.value);
    }
  }

  /** The cast (Boolean) of a possibly-null object. */
  function AsBoolean(v: Option<Value>): (r: Result<Option<bool>>)
    ensures v.None? ==> r == Ok(None)
    ensures v.Some? && v.value.Bool? ==> r == Ok(Some(v.value.b))
    ensures v.Some? && !v.value.Bool? ==> r == Err(ClassCast)
  {
    match v
    case None => Ok(None)
    case Some(Bool(b)) => Ok(Some(b))
    case Some(_) => Err(ClassCast)
  }

  /** modificationFormula: `name = expr` becomes `name =  round(name = expr,n)`;
      a text with no '=', or whose first '=' starts "==", is returned as it
      is; a first '=' at the very end fails on the character lookup. */
  function ModifyFormula(formula: string, n: int): (r: Result<string>)
    ensures '=' !in formula ==> r == Ok(formula)
    ensures '=' in formula && IndexOf(formula, '=') + 1 == |formula| ==> r == Err(IndexOutOfRange)
    ensures '=' in formula && IndexOf(formula, '=') + 1 < |formula| && formula[IndexOf(formula, '=') + 1] == '=' ==>
              r == Ok(formula)
    ensures '=' in formula && IndexOf(formula, '=') + 1 < |formula| && formula[IndexOf(formula, '=') + 1] != '=' ==>
              r.Ok? && r.value != formula && RoundsResult(formula, n, r.value)
    ensures r.Ok? && r.value != formula ==> RoundsResult(formula, n, r.value)
  {
    var e := IndexOf(formula, '=');
    if e == -1 then Ok(formula)
    else if e + 1 == |formula| then Err(IndexOutOfRange)
    else if formula[e + 1] == '=' then Ok(formula)
    else
      var head := formula[..e] + " = " + " round(";
      var tail := "," + IntToString(n) + ")";
      var out := head + formula + tail;
      RoundingRewrite(formula, IntToString(n), e, head, tail, out);
      RoundsResultIntro(formula, n, e, out);
      Ok(out)
  }

  /** `out` is, position by position, the name before the first '=' of
      `formula`, then " =  round(", then `formula` verbatim, then ",n)"; so
      it assigns the same name, its first '=' being one place on. */
  predicate RoundsResult(formula: string, n: int, out: string)
  {
    var e := IndexOf(formula, '=');
    var digits := IntToString(n);
    0 <= e && |out| == e + 10 + |formula| + |digits| + 2 &&
    out[..e] == formula[..e] && out[e..e + 10] == " =  round(" &&
    IndexOf(out, '=') == e + 1 &&
    OccursAt(out, formula, e + 10) &&
    out[e + 10 + |formula|..] == "," + digits + ")"
  }

  lemma RoundsResultIntro(formula: string, n: int, e: int, out: string)
    requires 0 <= e == IndexOf(formula, '=') && |out| == e + 10 + |formula| + |IntToString(n)| + 2
    requires out[..e] == formula[..e] && out[e..e + 10] == " =  round(" && IndexOf(out, '=') == e + 1
    requires OccursAt(out, formula, e + 10)
    requires out[e + 10 + |formula|..] == "," + IntToString(n) + ")"
    ensures RoundsResult(formula, n, out)
  {
  }

  /** RoundsResult leaves no freedom: the only text it admits is the one
      modificationFormula builds. */
  lemma RoundsResultIsRewrite(formula: string, n: int, out: string)
    requires RoundsResult(formula, n, out)
    ensures out == (formula[..IndexOf(formula, '=')] + " = " + " round(") + formula + ("," + IntToString(n) + ")")
  {
    var e := IndexOf(formula, '=');
    PiecesDetermine(out, formula[..e], formula, IntToString(n));
  }

  /** The four pieces RoundsResult fixes determine the whole text. */
  lemma PiecesDetermine(out: string, name: string, formula: string, digits: string)
    requires |out| == |name| + 10 + |formula| + |digits| + 2
    requires out[..|name|] == name && out[|name|..|name| + 10] == " =  round("
    requires OccursAt(out, formula, |name| + 10)
    requires out[|name| + 10 + |formula|..] == "," + digits + ")"
    ensures out == (name + " = " + " round(") + formula + ("," + digits + ")")
  {
    var e := |name|;
    var head := name + " = " + " round(";
    var tail := "," + digits + ")";
    var built := head + formula + tail;
    ThreeParts(head, formula, tail, built);
    HeadPieces(out, name, e);
    assert built[..e + 10] == head;
    EqualByParts(out, built, e + 10, e + 10 + |formula|);
  }

  /** A head of name length plus ten, made of the name and " =  round(". */
  lemma HeadPieces(out: string, name: string, e: int)
    requires 0 <= e == |name| && e + 10 <= |out|
    requires out[..e] == name && out[e..e + 10] == " =  round("
    ensures out[..e + 10] == name + " = " + " round("
  {
    assert out[..e + 10] == out[..e] + out[e..e + 10];
  }

  /** Two texts of one length that agree piece by piece are equal. */
  lemma EqualByParts(s: string, t: string, i: int, j: int)
    requires 0 <= i <= j <= |s| == |t|
    requires s[..i] == t[..i] && s[i..j] == t[i..j] && s[j..] == t[j..]
    ensures s == t
  {
    assert s == s[..i] + s[i..j] + s[j..];
    assert t == t[..i] + t[i..j] + t[j..];
  }

  /** The pieces of the rounding rewrite, each where it lands in the result. */
  lemma RoundingRewrite(formula: string, digits: string, e: int, head: string, tail: string, out: string)
    requires 0 <= e < |formula| && e == IndexOf(formula, '=')
    requires head == formula[..e] + " = " + " round(" && tail == "," + digits + ")"
    requires out == head + formula + tail
    ensures |out| == e + 10 + |formula| + |digits| + 2
    ensures out[..e] == formula[..e] && out[e..e + 10] == " =  round(" && IndexOf(out, '=') == e + 1
    ensures OccursAt(out, formula, e + 10)
    ensures out[e + 10 + |formula|..] == "," + digits + ")"
  {
    RewriteHead(formula, e, head, tail, out);
    RewriteBody(formula, digits, e, head, tail, out);
  }

  /** The head of the rewrite keeps the assigned name, follows it with
      " =  round(", and so moves the first '=' one place on. */
  lemma RewriteHead(formula: string, e: int, head: string, tail: string, out: string)
    requires 0 <= e < |formula| && e == IndexOf(formula, '=')
    requires head == formula[..e] + " = " + " round(" && out == head + formula + tail
    ensures out[..e] == formula[..e] && out[e..e + 10] == " =  round(" && IndexOf(out, '=') == e + 1
  {
    var name := formula[..e];
    assert |head| == e + 10;
    assert out[..|head|] == head;
    assert out[..e] == head[..e] == name;
    assert out[e..e + 10] == head[e..] == " =  round(";
    assert out[e] == head[e] == ' ';
    assert out[e + 1] == head[e + 1] == '=';
    assert out[..e + 1] == name + [' '];
    FirstAt(out, '=', e + 1);
  }

  /** The formula follows the head verbatim, and the text ends by passing
      the digits to round. */
  lemma RewriteBody(formula: string, digits: string, e: int, head: string, tail: string, out: string)
    requires 0 <= e && |head| == e + 10 && tail == "," + digits + ")" && out == head + formula + tail
    ensures |out| == e + 10 + |formula| + |digits| + 2
    ensures OccursAt(out, formula, e + 10)
    ensures out[e + 10 + |formula|..] == "," + digits + ")"
  {
    ThreeParts(head, formula, tail, out);
  }

  /** Where the three parts of a concatenation land. */
  lemma ThreeParts(a: string, b: string, c: string, s: string)
    requires s == a + b + c
    ensures |s| == |a| + |b| + |c|
    ensures s[|a|..|a| + |b|] == b
    ensures s[|a| + |b|..] == c
  {
  }

  /** The first occurrence, found by its position. */
  lemma FirstAt(s: string, c: char, e: int)
    requires 0 <= e < |s| && s[e] == c && c !in s[..e]
    ensures IndexOf(s, c) == e
  {
  }
}
