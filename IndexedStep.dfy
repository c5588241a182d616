/** One indexed formula run at one index, as ListDataExecutor.execute does
    it, as a specification: every name's token "name_index" is replaced by a
    per-index name bound to the list element at that index, the rewritten
    formula is evaluated, and the value computed for the result is written
    back into the result list at the same index. */
module IndexedStep {
  import opened Base
  import opened Text
  import opened Values
  import opened Operators
  import opened AbstractDataExecutor
  import opened IndexedFormula

  /** The name the element at `index` of a list parameter is bound to. */
  function IndexedName(name: string, index: nat): string
  {
    name + "_索引" + IntToString(index)
  }

  /** The bindings made for two different indices never collide. */
  lemma IndexedNamesDistinct(name: string, i: nat, j: nat)
    requires i != j
    ensures IndexedName(name, i) != IndexedName(name, j)
  {
    if IndexedName(name, i) == IndexedName(name, j) {
      var head := name + "_索引";
      assert IndexedName(name, i)[|head|..] == IntToString(i);
      assert IndexedName(name, j)[|head|..] == IntToString(j);
      IntToStringInjective(i, j);
    }
  }

  /** A per-index name is never the name it is made from. */
  lemma IndexedNameDiffers(name: string, index: nat)
    ensures IndexedName(name, index) != name
  {
    assert |IndexedName(name, index)| > |name|;
  }

  /** parameterResolution for the k-th name: a per-index name already bound
      is left as it is; for a parameter (not the result, not in a null
      check) the element at the index is bound to it, except that an absent
      parameter, or one too short, under default/defaultZero binds nothing. */
  function Resolve(m: Message, k: nat, index: nat, store: map<string, Value>): (r: Result<map<string, Value>>)
    requires k < |m.names|
    ensures IndexedName(m.names[k], index) in store ==> r == Ok(store)
    ensures r.Ok? ==> forall key | key != IndexedName(m.names[k], index) ::
              (key in r.value <==> key in store) && (key in store ==> r.value[key] == store[key])
    ensures r.Ok? && IndexedName(m.names[k], index) in r.value && IndexedName(m.names[k], index) !in store ==>
              k != 0 && !m.nullJudge && m.names[k] in store && store[m.names[k]].List? &&
              index < |store[m.names[k]].items| &&
              r.value[IndexedName(m.names[k], index)] == store[m.names[k]].items[index]
    ensures k != 0 && !m.nullJudge && IndexedName(m.names[k], index) !in store && m.names[k] in store &&
            store[m.names[k]].List? && index < |store[m.names[k]].items| ==>
              r.Ok? && IndexedName(m.names[k], index) in r.value && r.value[IndexedName(m.names[k], index)] == store[m.names[k]].items[index]
  {
    var name := m.names[k];
    var newName := IndexedName(name, index);
    if newName in store then Ok(store)
    else
      var isDefault := DefaultFun(m.formula, name);
      if k != 0 && !m.nullJudge then
        if name !in store then
          if isDefault then Ok(store) else Err(ParameterUndefined(m.formula, name))
        else if !store[name].List? then Err(ClassCast)
        else
          var items := store[name].items;
          if isDefault && |items| <= index then Ok(store)
          else if index < |items| then Ok(store[newName := items[index]])
          else Err(IndexOutOfRange)
      else Ok(store)
  }

  /** The formula text as rewritten so far, and the context. */
  datatype Subst = Subst(formula: string, store: map<string, Value>)

  /** One turn of execute's loop, for the k-th name: the checks on the
      parameter, then the token replaced and the element bound. */
  function NameStep(m: Message, index: nat, currentIndex: Option<nat>, k: nat, st: Subst): (r: Result<Subst>)
    requires k < |m.names|
  {
    var name := m.names[k];
    var token := Token(name);
    if k > 0 && !m.nullJudge && name !in st.store then
      if DefaultFun(m.formula, name) then Ok(st) else Err(ParameterMissing(m.formula, name))
    else if k > 0 && !m.nullJudge && !st.store[name].List? then Err(NotAList(name))
    else if k > 0 && currentIndex.Some? && name !in st.store then Err(NullPointer)
    else if k > 0 && currentIndex.Some? && ConfigOf(st.store[name]).size <= currentIndex.value &&
            !DefaultFun(m.formula, token) && !m.nullJudge then
      Err(IndexBeyondLength(m.formula, currentIndex.value))
    else
      var newName := IndexedName(name, index);
      var formula := if Contains(st.formula, token) then ReplaceAll(st.formula, token, newName) else st.formula;
      match Resolve(m, k, index, st.store)
      case Err(e) => Err(e)
      case Ok(store) => Ok(Subst(formula, store))
  }

  /** The first k turns of execute's loop. */
  function SubstUpTo(m: Message, index: nat, currentIndex: Option<nat>, k: nat, start: Subst): Result<Subst>
    requires k <= |m.names|
  {
    if k == 0 then Ok(start)
    else
      match SubstUpTo(m, index, currentIndex, k - 1, start)
      case Err(e) => Err(e)
      case Ok(st) => NameStep(m, index, currentIndex, k - 1, st)
  }

  /** Once a turn fails, the remaining turns keep that failure. */
  lemma {:induction false} SubstFailureStays(m: Message, index: nat, currentIndex: Option<nat>, k: nat, j: nat, start: Subst)
    requires k <= j <= |m.names|
    requires SubstUpTo(m, index, currentIndex, k, start).Err?
    ensures SubstUpTo(m, index, currentIndex, j, start) == SubstUpTo(m, index, currentIndex, k, start)
    decreases j - k
  {
    if k < j {
      SubstFailureStays(m, index, currentIndex, k, j - 1, start);
    }
  }

  /** A turn never unbinds a name, and changes no binding it does not make. */
  lemma NameStepKeeps(m: Message, index: nat, currentIndex: Option<nat>, k: nat, st: Subst)
    requires k < |m.names|
    requires NameStep(m, index, currentIndex, k, st).Ok?
    ensures var st' := NameStep(m, index, currentIndex, k, st).value;
      forall key | key in st.store :: key in st'.store && st'.store[key] == st.store[key]
  {
  }

  /** In fixed-index mode a parameter that is too short is refused before
      it is read, unless a default supplies its value or the formula is a
      null check. */
  lemma NameStepFixedIndex(m: Message, index: nat, ci: nat, k: nat, st: Subst)
    requires 0 < k < |m.names| && !m.nullJudge
    requires m.names[k] in st.store && st.store[m.names[k]].List?
    requires |st.store[m.names[k]].items| <= ci && !DefaultFun(m.formula, Token(m.names[k]))
    ensures NameStep(m, index, Some(ci), k, st) == Err(IndexBeyondLength(m.formula, ci))
  {
  }

  /** The write-back: the value replaces the element at the index when the
      list is long enough, and is appended otherwise. */
  function Place(items: seq<Value>, index: nat, v: Value): (r: seq<Value>)
    ensures index < |items| ==> |r| == |items| && r[index] == v &&
                                forall j | 0 <= j < |items| && j != index :: r[j] == items[j]
    ensures index >= |items| ==> r == items + [v]
  {
    if |items| > index then items[index := v] else items + [v]
  }

  /** Once the result list has been sized (initResultList), runs at indices
      below its length keep its length and each fills its own position. */
  lemma PlaceAligned(items: seq<Value>, i: nat, j: nat, v: Value, w: Value)
    requires i < |items| && j < |items| && i != j
    ensures |Place(Place(items, i, v), j, w)| == |items|
    ensures Place(Place(items, i, v), j, w)[i] == v
    ensures Place(Place(items, i, v), j, w)[j] == w
  {
  }

  /** The decimals to round to: the calculation's setting first, then the
      group's. */
  function Rounding(configRetain: Option<int>, groupRetain: Option<int>): Option<int>
  {
    if configRetain.Some? then configRetain else groupRetain
  }

  /** The rewrite handed to execute: rounding when a number of decimals is set. */
  function Rewrite(formula: string, rounding: Option<int>): Result<string>
  {
    match rounding
    case None => Ok(formula)
    case Some(n) => ModifyFormula(formula, n)
  }

  /** execute(formulaMessage, index, rewrite): the value computed for the
      result at this index, and the context afterwards. */
  function ExecuteSpec(m: Message, index: nat, currentIndex: Option<nat>, rounding: Option<int>,
                       eval: Evaluator, functions: map<string, Operator>, store: map<string, Value>): (r: Result<(Value, map<string, Value>)>)
    requires |m.names| > 0
    ensures r.Ok? ==> var (v, out) := r.value;
      IndexedName(m.names[0], index) in out && out[IndexedName(m.names[0], index)] == v &&
      m.names[0] in out && out[m.names[0]].List? && |out[m.names[0]].items| > 0
  {
    match SubstUpTo(m, index, currentIndex, |m.names|, Subst(m.formula, store))
    case Err(e) => Err(e)
    case Ok(st) =>
      match Rewrite(st.formula, rounding)
      case Err(e) => Err(e)
      case Ok(formula) =>
        match eval(formula, st.store, functions)
        case Err(e) => Err(e)
        case Ok(ev) =>
          var after := ApplyWrites(st.store, ev.writes);
          var result := m.names[0];
          var resultIndexName := IndexedName(result, index);
          if resultIndexName !in after then Err(MissingComputedValue(resultIndexName))
          else if result in after && !after[result].List? then Err(ResultNotList(result))
          else
            var items := if result in after then after[result].items else [];
            var v := after[resultIndexName];
            IndexedNameDiffers(result, index);
            Ok((v, after[result := List(Place(items, index, v))]))
  }

  /** What a successful run leaves in the context: the result list holds the
      computed value at the index (or, when the list was shorter, at its
      end), every other element of a long enough list is unchanged, and the
      per-index result name stays bound to the value. */
  lemma ExecuteWritesBack(m: Message, index: nat, currentIndex: Option<nat>, rounding: Option<int>,
                          eval: Evaluator, functions: map<string, Operator>, store: map<string, Value>)
    requires |m.names| > 0
    requires ExecuteSpec(m, index, currentIndex, rounding, eval, functions, store).Ok?
    ensures var st := SubstUpTo(m, index, currentIndex, |m.names|, Subst(m.formula, store)).value;
      var formula := Rewrite(st.formula, rounding).value;
      var after := ApplyWrites(st.store, eval(formula, st.store, functions).value.writes);
      var (v, out) := ExecuteSpec(m, index, currentIndex, rounding, eval, functions, store).value;
      var before := if m.names[0] in after then after[m.names[0]].items else [];
      var items := out[m.names[0]].items;
      v == after[IndexedName(m.names[0], index)] &&
      (index < |before| ==> |items| == |before| && items[index] == v &&
                            forall j | 0 <= j < |before| && j != index :: items[j] == before[j]) &&
      (index >= |before| ==> items == before + [v]) &&
      forall key | key in after && key != m.names[0] :: key in out && out[key] == after[key]
  {
  }
}
