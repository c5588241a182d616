/** DefaultResultManager: typed reads of calculated values from the
    parameter context. Every read is a lookup in the context's values and
    leaves them as they are; an absent name reads as null. */
module ResultManager {
  import opened Base
  import opened Text
  import opened Decimals
  import opened Values

  /** getOriginalNumResult: a BigDecimal as it is, any other value parsed
      from its string form; a value that does not parse is an error. */
  function GetOriginalNumResult(store: map<string, Value>, name: string): (r: Result<Option<Decimal>>)
    ensures r == Ok(None) <==> name !in store
    ensures r.Err? <==> name in store && ToDecimal(store[name]).None?
    ensures r.Err? ==> r.error == NotANumber(name)
    ensures r.Ok? && r.value.Some? ==> Some(r.value.value) == ToDecimal(store[name])
    ensures name in store && store[name].Num? ==> r == Ok(Some(store[name].d))
  {
    if name !in store then Ok(None)
    else match ToDecimal(store[name])
      case None => Err(NotANumber(name))
      case Some(d) => Ok(Some(d))
  }

  /** getNumResult(name): the original numeric read. */
  function GetNumResult(store: map<string, Value>, name: string): (r: Result<Option<Decimal>>)
    ensures r == Ok(None) <==> name !in store
    ensures r.Err? <==> name in store && ToDecimal(store[name]).None?
    ensures r.Ok? && r.value.Some? ==> Some(r.value.value) == ToDecimal(store[name])
  {
    GetOriginalNumResult(store, name)
  }

  /** A number stored as the decimal text of an integer reads back as that integer. */
  lemma NumericTextRead(store: map<string, Value>, name: string, n: int)
    requires name in store && store[name] == Str(IntToString(n))
    ensures GetNumResult(store, name) == Ok(Some(Decimal(n, 0)))
  {
    ParseIntToString(n);
  }

  /** getNumResult(name, scale): the numeric read rounded HALF_UP to scale places. */
  function GetScaledNumResult(store: map<string, Value>, name: string, scale: nat): (r: Result<Option<Decimal>>)
    ensures r.Ok? <==> GetOriginalNumResult(store, name).Ok?
    ensures r == Ok(None) <==> name !in store
    ensures r.Ok? && r.value.Some? ==>
      var d := GetOriginalNumResult(store, name).value.value;
      r.value.value.scale == scale && WithinHalfUnit(r.value.value, d) &&
      (scale >= d.scale ==> ToReal(r.value.value) == ToReal(d))
  {
    match GetOriginalNumResult(store, name)
    case Err(e) => Err(e)
    case Ok(None) => Ok(None)
    case Ok(Some(d)) =>
      HalfUpNearest(d, scale);
      HalfUpExact(d, scale);
      Ok(Some(SetScaleHalfUp(d, scale)))
  }

  /** getNumResultList: a list of the same length and order with every
      element converted; a value that is not a list is an error. */
  function GetNumResultList(store: map<string, Value>, name: string): (r: Result<Option<seq<Decimal>>>)
    ensures r == Ok(None) <==> name !in store
    ensures name in store && !store[name].List? ==> r == Err(ResultNotList(name))
    ensures r.Ok? && r.value.Some? ==>
      store[name].List? && |r.value.value| == |store[name].items| &&
      forall k | 0 <= k < |r.value.value| :: ToDecimal(store[name].items[k]) == Some(r.value.value[k])
    ensures name in store && store[name].List? ==>
      (r.Ok? <==> forall k | 0 <= k < |store[name].items| :: ToDecimal(store[name].items[k]).Some?)
  {
    if name !in store then Ok(None)
    else match store[name]
      case List(items) =>
        (match ConvertAll(items)
         case None => Err(NotANumber(name))
         case Some(ds) => Ok(Some(ds)))
      case _ => Err(ResultNotList(name))
  }

  /** getBoolResult: a Boolean as it is; any other value is an error. */
  function GetBoolResult(store: map<string, Value>, name: string): (r: Result<Option<bool>>)
    ensures r == Ok(None) <==> name !in store
    ensures r.Ok? && r.value.Some? <==> name in store && store[name].Bool?
    ensures r.Ok? && r.value.Some? ==> store[name] == Bool(r.value.value)
    ensures r.Err? ==> r == Err(NotABoolean(name))
  {
    if name !in store then Ok(None)
    else match store[name]
      case Bool(b) => Ok(Some(b))
      case _ => Err(NotABoolean(name))
  }
}
