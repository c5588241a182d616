/** The objects the library stores in its parameter context. Java's null is
    never stored: an absent name is the model of a null lookup. */
module Values {
  import opened Base
  import opened Decimals

  /** BigDecimal (and every Java Number, at its exact value), Boolean, String and List. */
  datatype Value = Num(d: Decimal) | Bool(b: bool) | Str(s: string) | List(items: seq<Value>)

  /** The runtime class recorded in a ParamConfig. */
  datatype Kind = NumberKind | BooleanKind | StringKind | ListKind

  function KindOf(v: Value): Kind
  {
    match v
    case Num(_) => NumberKind
    case Bool(_) => BooleanKind
    case Str(_) => StringKind
    case List(_) => ListKind
  }

  /** ParamConfig: whether the value is a Collection, its size (1 for a
      single value) and its class. */
  datatype ParamConfig = ParamConfig(isArray: bool, size: int, kind: Kind)

  /** The config that the registry's put records for a value. */
  function ConfigOf(v: Value): ParamConfig
  {
    ParamConfig(v.List?, if v.List? then |v.items| else 1, KindOf(v))
  }

  /** new BigDecimal(v.toString()), with a BigDecimal taken as it is: a
      Boolean or a List never prints as a number. */
  function ToDecimal(v: Value): Option<Decimal>
  {
    match v
    case Num(d) => Some(d)
    case Str(s) => ParseDecimal(s)
    case Bool(_) => None
    case List(_) => None
  }

  const ZeroValue := Num(Zero)

  /** Converts every element of a list as ToDecimal does, or fails if one does not convert. */
  function ConvertAll(items: seq<Value>): (r: Option<seq<Decimal>>)
    ensures r.Some? <==> forall k | 0 <= k < |items| :: ToDecimal(items[k]).Some?
    ensures r.Some? ==> |r.value| == |items|
    ensures r.Some? ==> forall k | 0 <= k < |items| :: ToDecimal(items[k]) == Some(r.value[k])
  {
    if |items| == 0 then Some([])
    else
      match (ToDecimal(items[0]), ConvertAll(items[1..]))
      case (Some(d), Some(ds)) =>
        assert forall k | 1 <= k < |items| :: items[k] == items[1..][k - 1];
        Some([d] + ds)
      case (None, _) => None
      case (_, None) =>
        assert forall k | 0 <= k < |items| - 1 :: items[1..][k] == items[k + 1];
        None
  }
}
