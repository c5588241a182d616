/** The builtin functions every executor registers with the expression
    evaluator: listSum, listMax, listMin, default and defaultZero. Each takes
    the evaluator's argument array, whose entries may be null. */
module Operators {
  import opened Base
  import opened Decimals
  import opened Values

  /** An evaluator function: argument array in, a possibly-null object out, or a failure. */
  type Operator = seq<Option<Value>> -> Result<Option<Value>>

  /** The exact sum of the numbers, from the front. */
  ghost function RealSum(ds: seq<Decimal>): real
  {
    if |ds| == 0 then 0.0 else ToReal(ds[0]) + RealSum(ds[1..])
  }

  lemma {:induction false} RealSumSnoc(ds: seq<Decimal>, d: Decimal)
    ensures RealSum(ds + [d]) == RealSum(ds) + ToReal(d)
    decreases |ds|
  {
    if |ds| > 0 {
      assert (ds + [d])[1..] == ds[1..] + [d];
      RealSumSnoc(ds[1..], d);
    }
  }

  /** reduce(BigDecimal::add) on a non-empty stream: a left fold of exact additions. */
  function SumOf(ds: seq<Decimal>): (r: Decimal)
    requires |ds| > 0
    ensures ToReal(r) == RealSum(ds)
  {
    if |ds| == 1 then ds[0]
    else
      var init := ds[..|ds| - 1];
      assert ds == init + [ds[|ds| - 1]];
      RealSumSnoc(init, ds[|ds| - 1]);
      Add(SumOf(init), ds[|ds| - 1])
  }

  /** ListSum.executeInner */
  function ListSum(args: seq<Option<Value>>): Result<Option<Value>>
  {
    if |args| == 0 then Ok(None)
    else match args[0]
      case Some(List(items)) =>
        (match ConvertAll(items)
         case None => Err(NotANumber("listSum"))
         case Some(ds) => if |ds| == 0 then Err(EmptyCollection) else Ok(Some(Num(SumOf(ds)))))
      case _ => Err(NotACollection("listSum"))
  }

  /** The builtin sums the collection exactly; extra arguments play no part. */
  lemma ListSumIsSum(items: seq<Value>, rest: seq<Option<Value>>)
    requires |items| > 0
    requires forall k | 0 <= k < |items| :: ToDecimal(items[k]).Some?
    ensures var r := ListSum([Some(List(items))] + rest);
      r.Ok? && r.value.Some? && r.value.value.Num? &&
      ToReal(r.value.value.d) == RealSum(ConvertAll(items).value)
  {
  }

  /** Failures of listSum: no argument gives null, a non-collection, an empty
      collection or an element without a numeric string form is an error. */
  lemma ListSumFailures(args: seq<Option<Value>>)
    ensures |args| == 0 ==> ListSum(args) == Ok(None)
    ensures |args| > 0 && !(args[0].Some? && args[0].value.List?) ==> ListSum(args) == Err(NotACollection("listSum"))
    ensures |args| > 0 && args[0] == Some(List([])) ==> ListSum(args) == Err(EmptyCollection)
  {
  }

  /** All elements are numbers: Comparable elements of one class. */
  function Numbers(items: seq<Value>): Option<seq<Decimal>>
  {
    if forall k | 0 <= k < |items| :: items[k].Num? then ConvertAll(items) else None
  }

  /** Position of Stream.max(naturalOrder()): maxBy keeps the earlier element on a tie. */
  function MaxIndex(ds: seq<Decimal>): (k: nat)
    requires |ds| > 0
    ensures k < |ds|
    ensures forall j | 0 <= j < |ds| :: Compare(ds[j], ds[k]) <= 0
    ensures forall j | 0 <= j < k :: Compare(ds[j], ds[k]) < 0
  {
    if |ds| == 1 then 0
    else
      var k := MaxIndex(ds[..|ds| - 1]);
      assert forall j | 0 <= j < |ds| - 1 :: ds[..|ds| - 1][j] == ds[j];
      if Compare(ds[k], ds[|ds| - 1]) >= 0 then k else |ds| - 1
  }

  /** Position of Stream.min(naturalOrder()): minBy keeps the earlier element on a tie. */
  function MinIndex(ds: seq<Decimal>): (k: nat)
    requires |ds| > 0
    ensures k < |ds|
    ensures forall j | 0 <= j < |ds| :: Compare(ds[k], ds[j]) <= 0
    ensures forall j | 0 <= j < k :: Compare(ds[k], ds[j]) < 0
  {
    if |ds| == 1 then 0
    else
      var k := MinIndex(ds[..|ds| - 1]);
      assert forall j | 0 <= j < |ds| - 1 :: ds[..|ds| - 1][j] == ds[j];
      if Compare(ds[k], ds[|ds| - 1]) <= 0 then k else |ds| - 1
  }

  /** items[k] is the greatest element, and the first of those equal to it. */
  predicate FirstGreatest(items: seq<Value>, k: int)
  {
    0 <= k < |items| && (forall j | 0 <= j < |items| :: items[j].Num?) &&
    (forall j | 0 <= j < |items| :: Compare(items[j].d, items[k].d) <= 0) &&
    (forall j | 0 <= j < k :: Compare(items[j].d, items[k].d) < 0)
  }

  /** items[k] is the least element, and the first of those equal to it. */
  predicate FirstLeast(items: seq<Value>, k: int)
  {
    0 <= k < |items| && (forall j | 0 <= j < |items| :: items[j].Num?) &&
    (forall j | 0 <= j < |items| :: Compare(items[k].d, items[j].d) <= 0) &&
    (forall j | 0 <= j < k :: Compare(items[k].d, items[j].d) < 0)
  }

  /** The first argument is a collection of numbers. */
  predicate NumberList(args: seq<Option<Value>>)
  {
    |args| > 0 && args[0].Some? && args[0].value.List? &&
    forall j | 0 <= j < |args[0].value.items| :: args[0].value.items[j].Num?
  }

  /** ListMax.executeInner */
  function ListMax(args: seq<Option<Value>>): (r: Result<Option<Value>>)
    ensures |args| == 0 <==> r == Ok(None)
    ensures r.Ok? && r.value.Some? <==> NumberList(args) && |args[0].value.items| > 0
    ensures r.Ok? && r.value.Some? ==>
      exists k :: FirstGreatest(args[0].value.items, k) && r.value.value == args[0].value.items[k]
  {
    if |args| == 0 then Ok(None)
    else match args[0]
      case Some(List(items)) =>
        (match Numbers(items)
         case None => Err(NotComparable)
         case Some(ds) =>
           if |ds| == 0 then Err(EmptyCollection)
           else
             var k := MaxIndex(ds);
             assert FirstGreatest(items, k);
             Ok(Some(items[k])))
      case _ => Err(NotACollection("listMax"))
  }

  /** ListMin.executeInner */
  function ListMin(args: seq<Option<Value>>): (r: Result<Option<Value>>)
    ensures |args| == 0 <==> r == Ok(None)
    ensures r.Ok? && r.value.Some? <==> NumberList(args) && |args[0].value.items| > 0
    ensures r.Ok? && r.value.Some? ==>
      exists k :: FirstLeast(args[0].value.items, k) && r.value.value == args[0].value.items[k]
  {
    if |args| == 0 then Ok(None)
    else match args[0]
      case Some(List(items)) =>
        (match Numbers(items)
         case None => Err(NotComparable)
         case Some(ds) =>
           if |ds| == 0 then Err(EmptyCollection)
           else
             var k := MinIndex(ds);
             assert FirstLeast(items, k);
             Ok(Some(items[k])))
      case _ => Err(NotACollection("listMin"))
  }

  /** Default.executeInner: exactly one argument is refused; otherwise the
      first argument unless it is null, then the second. */
  function Default(args: seq<Option<Value>>): (r: Result<Option<Value>>)
    ensures |args| == 1 ==> r == Err(MissingArgument)
    ensures |args| >= 2 && args[0].Some? ==> r == Ok(args[0])
    ensures |args| >= 2 && args[0].None? ==> r == Ok(args[1])
    ensures |args| == 0 ==> r == Err(IndexOutOfRange)
  {
    if |args| == 1 then Err(MissingArgument)
    else if |args| == 0 then Err(IndexOutOfRange)
    else if args[0].Some? then Ok(args[0]) else Ok(args[1])
  }

  /** DefaultZero.executeInner: the first argument, or zero when it is null. */
  function DefaultZero(args: seq<Option<Value>>): (r: Result<Option<Value>>)
    ensures |args| == 0 <==> r.Err?
    ensures r.Ok? ==> r.value.Some?
    ensures |args| > 0 && args[0].Some? ==> r == Ok(args[0])
    ensures |args| > 0 && args[0].None? ==> r == Ok(Some(ZeroValue))
  {
    if |args| == 0 then Err(IndexOutOfRange)
    else match args[0]
      case Some(v) => Ok(Some(v))
      case None => Ok(Some(ZeroValue))
  }
}
