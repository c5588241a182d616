/** The parameter registry (DefaultParam, and its older twin Param): a map
    from parameter names to values, and beside it a map from the same names
    to the ParamConfig that every put recomputes from the value. The
    executors write their results and index-scoped bindings through the same
    put, so the configs track those as well. */
module Registry {
  import opened Base
  import opened Values
  import StringFormatter

  class Registry {
    /** The evaluator context: name to value. Java's null is an absent name. */
    var values: map<string, Value>
    /** configContext: name to the config of its current value. */
    var configs: map<string, ParamConfig>

    /** Every name has a config, and it is the config of its current value. */
    ghost predicate Valid()
      reads this
    {
      values.Keys == configs.Keys &&
      forall k | k in values :: configs[k] == ConfigOf(values[k])
    }

    constructor()
      ensures Valid()
      ensures values == map[] && configs == map[]
    {
      values := map[];
      configs := map[];
    }

    /** LogContext.put: records the value and recomputes its config; no other
        name's value or config changes. */
    method Put(key: string, value: Value)
      requires Valid()
      modifies this
      ensures Valid()
      ensures values == old(values)[key := value]
      ensures configs == old(configs)[key := ConfigOf(value)]
    {
      values := values[key := value];
      configs := configs[key := ConfigOf(value)];
    }

    /** LogContext.get: the value bound to key, or null. */
    function Get(key: string): (r: Option<Value>)
      reads this
      ensures r.Some? <==> key in values
      ensures r.Some? ==> r.value == values[key]
    {
      if key in values then Some(values[key]) else None
    }

    /** LogContext.containsKey: the key is bound to a non-null value. */
    predicate ContainsKey(key: string)
      reads this
    {
      key in values
    }

    /** getParamConfig / getConfig */
    function GetParamConfig(key: string): (c: Option<ParamConfig>)
      reads this
      requires Valid()
      ensures c.Some? <==> ContainsKey(key)
      ensures c.Some? ==> (c.value.isArray <==> values[key].List?)
      ensures c.Some? && values[key].List? ==> c.value.size == |values[key].items|
      ensures c.Some? && !values[key].List? ==> c.value.size == 1
    {
      if key in configs then Some(configs[key]) else None
    }

    /** The private add: a null value is refused and nothing changes;
        otherwise the value is put under the name. */
    method Add(name: string, value: Option<Value>) returns (r: Result<()>)
      requires Valid()
      modifies this
      ensures Valid()
      ensures value.None? ==> r == Err(NullValue(name)) && values == old(values) && configs == old(configs)
      ensures value.Some? ==> r.Ok? && values == old(values)[name := value.value] &&
                              configs == old(configs)[name := ConfigOf(value.value)]
    {
      if value.None? {
        return Err(NullValue(name));
      }
      Put(name, value.value);
      r := Ok(());
    }

    /** The templated addNumber / addArray / addArrayArray: the name is the
        template formatted with the arguments, then added. */
    method AddFormatted(template: string, args: seq<string>, value: Option<Value>) returns (r: Result<()>)
      requires Valid()
      modifies this
      ensures Valid()
      ensures StringFormatter.Formatted(template, args).Err? ==>
                r == Err(StringFormatter.Formatted(template, args).error) && values == old(values) && configs == old(configs)
      ensures StringFormatter.Formatted(template, args).Ok? ==>
                var name := StringFormatter.Formatted(template, args).value;
                (value.None? ==> r == Err(NullValue(name)) && values == old(values)) &&
                (value.Some? ==> r.Ok? && values == old(values)[name := value.value])
    {
      var name := StringFormatter.Format(template, args);
      if name.Err? {
        return Err(name.error);
      }
      r := Add(name.value, value);
    }
  }

  /** Adding the same name twice keeps the later value and its config;
      every other name keeps what it had. */
  method AddTwice(reg: Registry, name: string, first: Value, second: Value, other: string)
    requires reg.Valid() && other != name
    modifies reg
    ensures reg.Valid()
    ensures reg.Get(name) == Some(second)
    ensures reg.GetParamConfig(name) == Some(ConfigOf(second))
    ensures reg.Get(other) == old(reg.Get(other))
  {
    var _ := reg.Add(name, Some(first));
    var _ := reg.Add(name, Some(second));
  }
}
