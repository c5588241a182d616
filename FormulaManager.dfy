/** DefaultFormulaManager: the ordered list of formula groups a calculation
    runs. Each add appends one group: a list of formulas that share one
    optional conditions object. */
module FormulaManager {
  import opened Base
  import opened Text
  import StringFormatter

  /** FormulaConditions: a start and a stop condition and a number of decimal
      places to keep, each of which may be null. */
  datatype Conditions = Conditions(start: Option<string>, stop: Option<string>, retainDecimal: Option<int>)

  /** Formula: the formulas of one group and their conditions. */
  datatype Group = Group(formulas: seq<string>, conditions: Option<Conditions>)

  /** The varargs `conditions`: its first element, or null when none is passed. */
  function FirstConditions(conditions: seq<Option<Conditions>>): Option<Conditions>
  {
    if |conditions| == 0 then None else conditions[0]
  }

  class FormulaManager {
    /** formulaList, in insertion order. */
    var groups: seq<Group>

    constructor()
      ensures groups == []
    {
      groups := [];
    }

    /** add(formula, conditions...): a blank formula is refused; otherwise one
        group holding just that formula is appended. */
    method Add(formula: string, conditions: seq<Option<Conditions>>) returns (r: Result<()>)
      modifies this
      ensures IsBlank(formula) ==> r == Err(BlankFormula) && groups == old(groups)
      ensures !IsBlank(formula) ==> r.Ok? && groups == old(groups) + [Group([formula], FirstConditions(conditions))]
    {
      if IsBlank(formula) {
        return Err(BlankFormula);
      }
      groups := groups + [Group([formula], FirstConditions(conditions))];
      r := Ok(());
    }

    /** add(template, args, conditions...): the formula is the template
        formatted with the arguments, then added. */
    method AddTemplate(template: string, args: seq<string>, conditions: seq<Option<Conditions>>) returns (r: Result<()>)
      modifies this
      ensures StringFormatter.Formatted(template, args).Err? ==>
                r == Err(StringFormatter.Formatted(template, args).error) && groups == old(groups)
      ensures StringFormatter.Formatted(template, args).Ok? ==>
                var formula := StringFormatter.Formatted(template, args).value;
                (IsBlank(formula) ==> r == Err(BlankFormula) && groups == old(groups)) &&
                (!IsBlank(formula) ==> r.Ok? && groups == old(groups) + [Group([formula], FirstConditions(conditions))])
    {
      var formula := StringFormatter.Format(template, args);
      if formula.Err? {
        return Err(formula.error);
      }
      r := Add(formula.value, conditions);
    }

    /** addList(formulas, conditions...): a null or empty list is refused;
        otherwise one group holding all of them is appended. */
    method AddList(formulas: Option<seq<string>>, conditions: seq<Option<Conditions>>) returns (r: Result<()>)
      modifies this
      ensures (formulas.None? || formulas.value == []) ==> r == Err(BlankFormula) && groups == old(groups)
      ensures formulas.Some? && formulas.value != [] ==>
                r.Ok? && groups == old(groups) + [Group(formulas.value, FirstConditions(conditions))]
    {
      if formulas.None? || formulas.value == [] {
        return Err(BlankFormula);
      }
      groups := groups + [Group(formulas.value, FirstConditions(conditions))];
      r := Ok(());
    }

    /** getFormulaList */
    function GetFormulaList(): (r: seq<Group>)
      reads this
      ensures r == groups
    {
      groups
    }
  }

  /** Groups come back in insertion order: two successful adds leave the
      earlier groups as they were and the two new groups last, first one first. */
  method AddInOrder(fm: FormulaManager, first: string, second: seq<string>, c: Conditions)
    requires !IsBlank(first) && second != []
    modifies fm
    ensures fm.GetFormulaList() == old(fm.GetFormulaList()) + [Group([first], None), Group(second, Some(c))]
  {
    var _ := fm.Add(first, []);
    var _ := fm.AddList(Some(second), [Some(c), None]);
  }
}
