/** CalculateExecutor: runs every formula group of a FormulaManager, in
    order, against one parameter context. Each group goes to a new executor:
    the indexed-list executor when every formula of the group mentions
    "_index", the single-value executor otherwise. Custom functions of the
    configuration are registered with that executor before it runs. */
module CalculateExecutor {
  import opened Base
  import opened Values
  import opened Operators
  import opened Registry
  import opened AbstractDataExecutor
  import opened FormulaManager
  import ListDataExecutor
  import SingleDataExecutor

  /** The configuration in force: the first one passed, else a default one. */
  function ConfigIn(configs: seq<CalculateConfig>): CalculateConfig
  {
    if |configs| > 0 then configs[0] else DefaultConfig
  }

  /** The function table an executor runs with: the builtins, with the
      configuration's functions added over them. */
  function Registered(config: CalculateConfig): (r: map<string, Operator>)
  {
    Builtins() + (if config.functionConfig.Some? then config.functionConfig.value else map[])
  }

  /** A custom function replaces a builtin of the same name, and every
      builtin it does not replace stays callable. */
  lemma RegisteredOverrides(config: CalculateConfig, name: string)
    ensures config.functionConfig.Some? && name in config.functionConfig.value ==>
              name in Registered(config) && Registered(config)[name] == config.functionConfig.value[name]
    ensures (config.functionConfig.None? || name !in config.functionConfig.value) ==>
              (name in Registered(config) <==> name in Builtins()) &&
              (name in Builtins() ==> Registered(config)[name] == Builtins()[name])
  {
  }

  /** One group's run: its context and interrupt checks left afterwards. */
  type Stage = (Group, map<string, Value>, nat) -> Result<(map<string, Value>, nat)>

  /** exec of the executor chosen for the group: doDetailExec of the list
      executor when every formula mentions "_index", else the single-value
      executor's exec, either with the registered functions. */
  function GroupRun(g: Group, config: CalculateConfig, eval: Evaluator,
                    store: map<string, Value>, budget: nat): Result<(map<string, Value>, nat)>
  {
    var functions := Registered(config);
    if ListDataExecutor.Handles(g) then
      match ListDataExecutor.DetailSpec(g, config, ListDataExecutor.ExecuteStep(config.currentIndex, eval, functions), store, budget)
      case Err(e) => Err(e)
      case Ok(d) => Ok((d.store, d.budget))
    else
      match SingleDataExecutor.ExecSpec(g, eval, functions, store, budget)
      case Err(e) => Err(e)
      case Ok((_, s, b)) => Ok((s, b))
  }

  /** The stage of a calculation. */
  function StageOf(config: CalculateConfig, eval: Evaluator): Stage
  {
    (g: Group, store: map<string, Value>, budget: nat) => GroupRun(g, config, eval, store, budget)
  }

  /** The stage is GroupRun, for this calculation. */
  ghost predicate StageIs(stage: Stage, config: CalculateConfig, eval: Evaluator)
  {
    forall g: Group, store: map<string, Value>, budget: nat {:trigger GroupRun(g, config, eval, store, budget)} ::
      stage(g, store, budget) == GroupRun(g, config, eval, store, budget)
  }

  lemma StageOfIs(config: CalculateConfig, eval: Evaluator)
    ensures StageIs(StageOf(config, eval), config, eval)
  {
  }

  /** The groups run one after another, each on the context the previous one
      left; the first failure ends the calculation. */
  function RunAll(stage: Stage, groups: seq<Group>, store: map<string, Value>, budget: nat): Result<(map<string, Value>, nat)>
  {
    if |groups| == 0 then Ok((store, budget))
    else
      match RunAll(stage, groups[..|groups| - 1], store, budget)
      case Err(e) => Err(e)
      case Ok((s, b)) => stage(groups[|groups| - 1], s, b)
  }

  /** Groups added later run after the earlier ones, on what those left. */
  lemma {:induction false} RunAllAppend(stage: Stage, first: seq<Group>, second: seq<Group>, store: map<string, Value>, budget: nat)
    ensures RunAll(stage, first + second, store, budget) ==
              match RunAll(stage, first, store, budget)
              case Err(e) => Err(e)
              case Ok((s, b)) => RunAll(stage, second, s, b)
    decreases |second|
  {
    if |second| == 0 {
      assert first + second == first;
    } else {
      var second' := second[..|second| - 1];
      assert (first + second)[..|first + second| - 1] == first + second';
      assert (first + second)[|first + second| - 1] == second[|second| - 1];
      RunAllAppend(stage, first, second', store, budget);
    }
  }

  /** A calculation with no groups leaves the context as it is. */
  lemma RunAllEmpty(stage: Stage, store: map<string, Value>, budget: nat)
    ensures RunAll(stage, [], store, budget) == Ok((store, budget))
  {
  }

  /** Once a group fails, the later groups are not run. */
  lemma {:induction false} RunAllFailureStays(stage: Stage, groups: seq<Group>, k: nat, store: map<string, Value>, budget: nat)
    requires k <= |groups|
    requires RunAll(stage, groups[..k], store, budget).Err?
    ensures RunAll(stage, groups, store, budget) == RunAll(stage, groups[..k], store, budget)
  {
    assert groups == groups[..k] + groups[k..];
    RunAllAppend(stage, groups[..k], groups[k..], store, budget);
  }

  /** The executor ExecutorManage.get hands a group to. */
  datatype Chosen =
    | UseList(list: ListDataExecutor.ListDataExecutor)
    | UseSingle(single: SingleDataExecutor.SingleDataExecutor)

  /** ExecutorManage: a new list executor and a new single-value executor,
      asked in that order. */
  class ExecutorManage {
    const list: ListDataExecutor.ListDataExecutor
    const single: SingleDataExecutor.SingleDataExecutor

    constructor()
      ensures fresh(list) && fresh(single) && fresh(list.runner) && fresh(single.runner)
      ensures list.Valid() && list.runner.functions == Builtins() && single.runner.functions == Builtins()
    {
      list := new ListDataExecutor.ListDataExecutor();
      single := new SingleDataExecutor.SingleDataExecutor();
    }

    /** get: the first executor that can handle the group. The single-value
        executor takes every group, so the failure after the loop is never
        reached. */
    method Get(g: Group) returns (r: Chosen)
      ensures ListDataExecutor.Handles(g) ==> r == UseList(list)
      ensures !ListDataExecutor.Handles(g) ==> r == UseSingle(single)
    {
      var b := list.CanHandle(g);
      if b {
        return UseList(list);
      }
      b := single.CanHandle(g);
      if b {
        return UseSingle(single);
      }
      assert false;
      r := UseSingle(single);
    }
  }

  /** config.getFunctionConfig().getOperatorMap().forEach(registerFunction):
      each entry is registered under its name. */
  method RegisterAll(runner: Runner, operators: map<string, Operator>)
    modifies runner
    ensures runner.functions == old(runner.functions) + operators
  {
    var rest := operators.Keys;
    while rest != {}
      invariant rest <= operators.Keys
      invariant runner.functions == old(runner.functions) + map name | name in operators.Keys - rest :: operators[name]
      decreases rest
    {
      var name :| name in rest;
      runner.AddFunction(name, operators[name]);
      rest := rest - {name};
    }
    assert operators == map name | name in operators.Keys - rest :: operators[name];
  }

  /** Registers the configuration's functions, when it has any. */
  method RegisterConfigured(runner: Runner, config: CalculateConfig)
    modifies runner
    ensures runner.functions == old(runner.functions) + (if config.functionConfig.Some? then config.functionConfig.value else map[])
  {
    if config.functionConfig.Some? {
      RegisterAll(runner, config.functionConfig.value);
    } else {
      assert runner.functions + map[] == runner.functions;
    }
  }

  /** One turn of exec's loop: a new executor for the group, the custom
      functions registered with it, then its exec. */
  method RunGroup(g: Group, config: CalculateConfig, reg: Registry, eval: Evaluator, thread: CurrentThread,
                  ghost stage: Stage) returns (r: Result<()>)
    requires reg.Valid() && StageIs(stage, config, eval)
    modifies reg, thread
    ensures reg.Valid()
    ensures match stage(g, old(reg.values), old(thread.budget))
      case Ok((s, b)) => r == Ok(()) && reg.values == s && thread.budget == b
      case Err(e) => r == Err(e)
  {
    assert stage(g, reg.values, thread.budget) == GroupRun(g, config, eval, reg.values, thread.budget);
    var manage := new ExecutorManage();
    var chosen := manage.Get(g);
    match chosen
    case UseList(x) =>
      RegisterConfigured(x.runner, config);
      ListDataExecutor.ExecuteStepIs(config.currentIndex, eval, x.runner.functions);
      r := x.DoDetailExec(g, config, reg, eval, thread, ListDataExecutor.ExecuteStep(config.currentIndex, eval, x.runner.functions));
    case UseSingle(x) =>
      RegisterConfigured(x.runner, config);
      r := x.Exec(g, reg, eval, thread);
  }

  /** exec's loop over the groups, in the manager's order. */
  method RunGroups(groups: seq<Group>, config: CalculateConfig, reg: Registry, eval: Evaluator, thread: CurrentThread,
                   ghost stage: Stage) returns (r: Result<()>)
    requires reg.Valid() && StageIs(stage, config, eval)
    modifies reg, thread
    ensures reg.Valid()
    ensures match RunAll(stage, groups, old(reg.values), old(thread.budget))
      case Ok((s, b)) => r == Ok(()) && reg.values == s && thread.budget == b
      case Err(e) => r == Err(e)
  {
    ghost var s0, b0 := reg.values, thread.budget;
    var k := 0;
    while k < |groups|
      invariant 0 <= k <= |groups| && reg.Valid()
      invariant RunAll(stage, groups[..k], s0, b0) == Ok((reg.values, thread.budget))
    {
      assert groups[..k + 1][..k] == groups[..k];
      var ran := RunGroup(groups[k], config, reg, eval, thread, stage);
      if ran.Err? {
        RunAllFailureStays(stage, groups, k + 1, s0, b0);
        return Err(ran.error);
      }
      k := k + 1;
    }
    assert groups[..k] == groups;
    r := Ok(());
  }

  /** CalculateExecutorBean.exec: a null parameter object is refused; the
      first configuration passed is used, a default one when none is. */
  method ExecWith(param: Option<Registry>, fm: FormulaManager, configs: seq<CalculateConfig>,
                  eval: Evaluator, thread: CurrentThread) returns (r: Result<()>)
    requires param.Some? ==> param.value.Valid()
    modifies if param.Some? then {param.value} else {}, thread
    ensures param.None? ==> r == Err(NullParam)
    ensures param.Some? ==> param.value.Valid()
    ensures param.Some? ==>
      (match RunAll(StageOf(ConfigIn(configs), eval), old(fm.groups), old(param.value.values), old(thread.budget))
       case Ok((s, b)) => r == Ok(()) && param.value.values == s && thread.budget == b
       case Err(e) => r == Err(e))
  {
    if param.None? {
      return Err(NullParam);
    }
    var config := if |configs| > 0 then configs[0] else DefaultConfig;
    StageOfIs(config, eval);
    r := RunGroups(fm.GetFormulaList(), config, param.value, eval, thread, StageOf(config, eval));
  }

  /** CalculateExecutor: an instance holds the configuration it was created
      with and runs every calculation with it. */
  class CalculateExecutor {
    const config: CalculateConfig

    /** getInstance(config) */
    constructor GetInstance(config: CalculateConfig)
      ensures this.config == config
    {
      this.config := config;
    }

    /** exec(param, formulaManager): the groups run in the manager's order;
        the context the result manager reads is the parameter's own. */
    method Exec(param: Option<Registry>, fm: FormulaManager, eval: Evaluator, thread: CurrentThread) returns (r: Result<()>)
      requires param.Some? ==> param.value.Valid()
      modifies if param.Some? then {param.value} else {}, thread
      ensures param.None? ==> r == Err(NullParam)
      ensures param.Some? ==> param.value.Valid()
      ensures param.Some? ==>
        (match RunAll(StageOf(config, eval), old(fm.groups), old(param.value.values), old(thread.budget))
         case Ok((s, b)) => r == Ok(()) && param.value.values == s && thread.budget == b
         case Err(e) => r == Err(e))
    {
      r := ExecWith(param, fm, [config], eval, thread);
    }
  }
}
