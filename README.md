# calculate — a verified model of the formula executors

This project models the core of the `calculate` library in Dafny. `calculate` is a Java library that runs groups of
spreadsheet-like formulas against a named parameter context, with QLExpress as the expression engine.

## What is modelled

- **The parameter context (`Registry`).**
  - Values are held by name, and each value has a config recording its kind and length.
  - The model covers `add`, the templated `add*` calls, `put`, `get`, `containsKey` and `getParamConfig`.
- **The formula manager (`FormulaManager`).** It holds a list of groups in insertion order. `add`, the templated `add` and `addList` refuse blank input.
- **Template formatting (`StringFormatter`).**
  - The placeholder scan runs over a character stack, with its own `reverse` and `getKey`.
  - The count check compares placeholders with arguments.
  - Substitution goes through a key-to-argument map.
- **The builtin functions (`Operators`).**
  - `listSum` is an exact left fold of decimal additions.
  - `listMax` and `listMin` pick the first greatest or least element.
  - `default` and `defaultZero` are also modelled.
- **The executors' shared part (`AbstractDataExecutor`).**
  - The runner's function table, with its five builtins.
  - `execute` and `executeForBool`: the evaluator's assignments go through the context's `put`.
  - The rounding rewrite `modificationFormula`.
- **The single-value executor (`SingleDataExecutor`).**
  - Start and stop conditions, and the repeat loop `while (!stop && !interrupted)`.
  - The group's own rounding.
- **The list executor (`ListDataExecutor`).** It handles groups in which every formula mentions `_index`, in four parts:
  - *Lexing* (`IndexedFormula`):
    - the result-name check;
    - the scan that collects the names in front of `_index`;
    - the wrapping of a condition into its own assignment.
  - *Length checks* (`LengthChecks`): `paramCheck` and `checkParamSize`, in normal and in fixed-index mode.
  - *One formula at one index* (`IndexedStep`):
    - name substitution and element binding (`parameterResolution`);
    - evaluation;
    - the write-back into the result list.
  - *The run over all indices* (`ListDataExecutor`):
    - `initResultList` and the rounding precedence;
    - the start and stop judgements and the repeat loop;
    - the hand-back after one index in fixed-index mode.
- **The entry point (`CalculateExecutor`).**
  - A null parameter object is refused.
  - The configuration in force is chosen.
  - A fresh executor manager picks the list executor or the single-value one for each group.
  - Custom functions are registered over the builtins, and the groups run in order.
- **Result reads (`ResultManager`).** Numeric, scaled numeric (HALF_UP), list and Boolean reads of the context.

### How the model is built

- **QLExpress.** The expression language is not modelled. An `Evaluator` parameter stands for it: it takes the formula text, the context's values and the function table. It returns either the assignments the formula makes plus its value, or the failure it raises.
- **Values.** Java objects in the context become `Value`: a number (`BigDecimal`, modelled as unscaled integer plus scale), a Boolean, a string or a list. Java `null` is the absence of a binding, or `None`.
- **Exceptions.** Every `CalculateException`, `RuntimeException` and runtime failure of the source (a failed cast, an index out of range) is an `Err` of `Result`.
- **Interruption.** `Thread.currentThread().isInterrupted()` is modelled by `CurrentThread`. It holds a budget of checks that find the thread not interrupted. Once the budget is used up, every later check finds it interrupted, as the Java flag stays set.
- **Imperative code.** The classes of the source whose methods update fields or the context become Dafny classes with `modifies` clauses. Their loops are methods with invariants. Each method is proved against a specification function, and the properties the source promises are lemmas about those functions.

## Model

All source paths are below `src/main/java/com/github/byw/`; the table writes them in full.

| member | source | states |
|---|---|---|
| Values.ConvertAll | src/main/java/com/github/byw/result/DefaultResultManager.java:44-49 | converting a list succeeds exactly when every element has a numeric string form; the result has the same length and each element is that element's conversion |
| Decimals.Add | src/main/java/com/github/byw/exec/operator/ListSum.java:29 | BigDecimal.add is exact: the sum's value is the sum of the values, at the larger scale |
| Decimals.Compare | src/main/java/com/github/byw/exec/operator/ListMax.java:23 | compareTo is zero, negative or positive exactly when the first value is equal to, below or above the second, whatever the scales |
| Decimals.SetScaleHalfUp | src/main/java/com/github/byw/result/DefaultResultManager.java:59 | setScale(n, HALF_UP): the scale becomes n; growing the scale is exact; otherwise the result is within half a unit of its last place, a tie goes away from zero, and the sign is kept |
| Decimals.RoundMagnitude | src/main/java/com/github/byw/result/DefaultResultManager.java:59 | rounding a magnitude HALF_UP lands within half a unit, a tie upwards |
| Decimals.HalfUpNearest | src/main/java/com/github/byw/result/DefaultResultManager.java:59 | the rounded value is within half a unit of its last place of the exact value |
| Decimals.HalfUpExact | src/main/java/com/github/byw/result/DefaultResultManager.java:59 | rounding to at least as many places as the value has keeps the value |
| Decimals.HalfUpDropped | src/main/java/com/github/byw/result/DefaultResultManager.java:59 | dropping places moves the value by at most half a unit of the new last place |
| Decimals.ParseIntToString | src/main/java/com/github/byw/result/DefaultResultManager.java:88-94 | the decimal text of an integer parses back to that integer at scale 0 |
| Text.IndexOf | src/main/java/com/github/byw/exec/exector/ListDataExecutor.java:463-466 | indexOf(char) is -1 exactly when the character is absent; otherwise it is a position holding it with none before |
| Text.NatToString | src/main/java/com/github/byw/exec/exector/ListDataExecutor.java:224 | the decimal text of an index is non-empty and all digits |
| Text.DigitsOfNatToString | src/main/java/com/github/byw/exec/exector/ListDataExecutor.java:224 | the digits of an index read back as the index |
| Text.IntToStringInjective | src/main/java/com/github/byw/exec/exector/ListDataExecutor.java:224 | distinct integers print differently |
| Text.NegativeToString | src/main/java/com/github/byw/exec/exector/AbstractDataExecutor.java:108 | a negative decimal count prints as '-' followed by the digits of its magnitude |
| Text.ReplaceAllAbsent | src/main/java/com/github/byw/exec/exector/ListDataExecutor.java:229-231 | String.replace with no occurrence changes nothing, so the contains guard is redundant |
| Text.ReplaceAllFirst | src/main/java/com/github/byw/exec/exector/ListDataExecutor.java:230 | String.replace keeps everything before the first occurrence, puts the replacement there and carries on after it |
| Text.ReplaceAllBefore | src/main/java/com/github/byw/exec/exector/ListDataExecutor.java:230 | from any position up to the next occurrence, replace keeps the text and then puts the replacement |
| Text.ReplaceAllSkip | src/main/java/com/github/byw/exec/exector/ListDataExecutor.java:230 | where the target does not start, replace keeps the character |
| Operators.SumOf | src/main/java/com/github/byw/exec/operator/ListSum.java:23-29 | reduce(BigDecimal::add) yields exactly the real sum of the elements |
| Operators.ListSumIsSum | src/main/java/com/github/byw/exec/operator/ListSum.java:18-32 | listSum of a non-empty collection of convertible elements is a number equal to their exact sum; extra arguments play no part |
| Operators.ListSumFailures | src/main/java/com/github/byw/exec/operator/ListSum.java:18-32 | no argument gives null; a first argument that is not a collection, or an empty collection, is an error |
| Operators.MaxIndex | src/main/java/com/github/byw/exec/operator/ListMax.java:23 | the chosen element is at least every element and strictly greater than each one before it |
| Operators.MinIndex | src/main/java/com/github/byw/exec/operator/ListMin.java:23 | the chosen element is at most every element and strictly less than each one before it |
| Operators.ListMax | src/main/java/com/github/byw/exec/operator/ListMax.java:18-26 | null exactly for no argument; a value exactly for a non-empty collection of numbers, and then it is the first greatest element |
| Operators.ListMin | src/main/java/com/github/byw/exec/operator/ListMin.java:18-26 | null exactly for no argument; a value exactly for a non-empty collection of numbers, and then it is the first least element |
| Operators.Default | src/main/java/com/github/byw/exec/operator/Default.java:10-15 | exactly one argument is refused; otherwise the first argument unless it is null, then the second; no argument fails on the index |
| Operators.DefaultZero | src/main/java/com/github/byw/exec/operator/DefaultZero.java:16-19 | fails only without an argument, never yields null, and is the first argument or zero when that is null |
| StringFormatter.CloseFrom | src/main/java/com/github/byw/helper/StringFormatter.java:45-62 | the position the inner loop stops at is the first '}' from there, or the end of the text |
| StringFormatter.Keys | src/main/java/com/github/byw/helper/StringFormatter.java:39-69 | the only failure of the placeholder scan is unbalanced braces; when it happens is KeysFail |
| StringFormatter.StrayCloseSkipped | src/main/java/com/github/byw/helper/StringFormatter.java:42-44 | a '}' with no open '{' produces no key |
| StringFormatter.NestedOpenInKey | src/main/java/com/github/byw/helper/StringFormatter.java:42-62 | for any template, the first key is the whole text from the first '{' to the next '}', so a second '{' before that '}' is part of the key, and the scan resumes after that '}' |
| StringFormatter.KeysFail | src/main/java/com/github/byw/helper/StringFormatter.java:44-67 | the scan fails exactly when some '{' has no later '}' (both directions); a '{' inside a key is closed by that key's '}' |
| StringFormatter.UnclosedFrom | src/main/java/com/github/byw/helper/StringFormatter.java:44-62 | every '{' inside a closed key, or outside any key, is closed, so only a '{' after the last key can be left open |
| StringFormatter.KeysAreBracketed | src/main/java/com/github/byw/helper/StringFormatter.java:39-69 | the keys are found left to right, each the text between a '{' and the next '}' |
| StringFormatter.Reverse | src/main/java/com/github/byw/helper/StringFormatter.java:78-87 | reverse yields a fresh array of the same length with the characters in reverse order |
| StringFormatter.GetKey | src/main/java/com/github/byw/helper/StringFormatter.java:71-76 | getKey drops the first and the last character |
| StringFormatter.PopKey | src/main/java/com/github/byw/helper/StringFormatter.java:48-58 | popping the stack, reversing and stripping the brackets yields the characters between the first and the last pushed |
| StringFormatter.ReadPlaceholder | src/main/java/com/github/byw/helper/StringFormatter.java:44-63 | the inner loop stops at the next '}' with an empty stack and the key between the brackets, or at the end with the rest of the text on the stack |
| StringFormatter.GetPlaceholderNameList | src/main/java/com/github/byw/helper/StringFormatter.java:39-69 | the stack-based scan yields exactly the keys Keys defines, or its unbalanced-braces failure |
| StringFormatter.ArgMapLaterWins | src/main/java/com/github/byw/helper/StringFormatter.java:31-35 | a key that appears more than once is bound to the argument at its last position |
| StringFormatter.ArgMapDomain | src/main/java/com/github/byw/helper/StringFormatter.java:31-35 | the parameter map binds exactly the placeholder keys |
| StringFormatter.SubstituteNoPlaceholder | src/main/java/com/github/byw/helper/StringFormatter.java:36 | a text without '{' is left as it is |
| StringFormatter.SubstitutePlaceholder | src/main/java/com/github/byw/helper/StringFormatter.java:36 | a bound `{key}` is replaced by its value and the rest substituted in turn |
| StringFormatter.KeysSkip | src/main/java/com/github/byw/helper/StringFormatter.java:42-44 | characters other than '{' contribute no key |
| StringFormatter.FormatOnePlaceholder | src/main/java/com/github/byw/helper/StringFormatter.java:26-37 | a template with one placeholder and one argument formats to the text around it with the argument in its place |
| StringFormatter.Format | src/main/java/com/github/byw/helper/StringFormatter.java:26-37 | format refuses a count of placeholders that differs from the count of arguments, and otherwise substitutes from the key-to-argument map |
| Registry.Registry.constructor | src/main/java/com/github/byw/param/DefaultParam.java:27-33 | a new context binds nothing and records no config |
| Registry.Registry.Put | src/main/java/com/github/byw/param/DefaultParam.java:173-183 | put binds the value and records its config (list or not, its length or 1, its kind); no other name changes |
| Registry.Registry.Get | src/main/java/com/github/byw/param/DefaultParam.java:186-192 | get yields the bound value, or null exactly when the name is unbound |
| Registry.Registry.GetParamConfig | src/main/java/com/github/byw/param/DefaultParam.java:159-161 | a config exists exactly for a bound name; it says list exactly for a list, with the list's length, else length 1 |
| Registry.Registry.Add | src/main/java/com/github/byw/param/DefaultParam.java:163-168 | a null value is refused and nothing changes; otherwise the value is put |
| Registry.Registry.AddFormatted | src/main/java/com/github/byw/param/DefaultParam.java:77-82 | the templated adds: a template that does not format is refused unchanged; otherwise the value is added under the formatted name |
| Registry.AddTwice | src/main/java/com/github/byw/param/DefaultParam.java:173-183 | adding a name twice keeps the later value and its config; every other name keeps its value |
| FormulaManager.FormulaManager.constructor | src/main/java/com/github/byw/formula/DefaultFormulaManager.java:23-27 | a new manager holds no group |
| FormulaManager.FormulaManager.Add | src/main/java/com/github/byw/formula/DefaultFormulaManager.java:37-44 | a blank formula is refused and nothing changes; otherwise one group with that formula and the first conditions passed (or none) is appended |
| FormulaManager.FormulaManager.AddTemplate | src/main/java/com/github/byw/formula/DefaultFormulaManager.java:68-71 | the formula is the formatted template; a formatting failure or a blank result is refused unchanged; otherwise it is added |
| FormulaManager.FormulaManager.AddList | src/main/java/com/github/byw/formula/DefaultFormulaManager.java:82-89 | a null or empty list is refused and nothing changes; otherwise one group holding the whole list is appended |
| FormulaManager.FormulaManager.GetFormulaList | src/main/java/com/github/byw/formula/DefaultFormulaManager.java:92-94 | the groups, as held |
| FormulaManager.AddInOrder | src/main/java/com/github/byw/formula/DefaultFormulaManager.java:37-89 | groups come back in insertion order, the earlier ones unchanged |
| ResultManager.GetOriginalNumResult | src/main/java/com/github/byw/result/DefaultResultManager.java:80-95 | null exactly for an unbound name; a BigDecimal as it is; another value by its string form; an error exactly when that does not parse |
| ResultManager.GetNumResult | src/main/java/com/github/byw/result/DefaultResultManager.java:28-30 | the original numeric read |
| ResultManager.NumericTextRead | src/main/java/com/github/byw/result/DefaultResultManager.java:85-94 | an integer stored as text reads back as that integer |
| ResultManager.GetScaledNumResult | src/main/java/com/github/byw/result/DefaultResultManager.java:54-60 | fails exactly when the original read fails; null exactly for an unbound name; otherwise at the requested scale, within half a unit of the original and equal to it when no place is dropped |
| ResultManager.GetNumResultList | src/main/java/com/github/byw/result/DefaultResultManager.java:34-51 | null for an unbound name; a non-list is an error; otherwise the same length and order with each element converted, succeeding exactly when every element converts |
| ResultManager.GetBoolResult | src/main/java/com/github/byw/result/DefaultResultManager.java:63-73 | null for an unbound name; a Boolean as it is; any other value is an error |
| AbstractDataExecutor.BuiltinsRegistered | src/main/java/com/github/byw/exec/exector/AbstractDataExecutor.java:36-42 | a fresh runner knows exactly the five builtins |
| AbstractDataExecutor.ApplyWrites | src/main/java/com/github/byw/exec/exector/AbstractDataExecutor.java:84-86 | after the evaluator's assignments the context binds what it bound plus every assigned name; an unassigned name keeps its value |
| AbstractDataExecutor.ApplyWritesLast | src/main/java/com/github/byw/exec/exector/AbstractDataExecutor.java:84-86 | the last assignment to a name is its value afterwards |
| AbstractDataExecutor.CurrentThread.IsInterrupted | src/main/java/com/github/byw/exec/exector/SingleDataExecutor.java:49 | the flag reads set exactly when no check is left, and stays set |
| AbstractDataExecutor.Runner.constructor | src/main/java/com/github/byw/exec/exector/AbstractDataExecutor.java:36-42 | a new runner's table is the builtins |
| AbstractDataExecutor.Runner.AddFunction | src/main/java/com/github/byw/exec/exector/AbstractDataExecutor.java:61-63 | registerFunction binds the name, replacing an earlier operator |
| AbstractDataExecutor.Runner.Execute | src/main/java/com/github/byw/exec/exector/AbstractDataExecutor.java:84-86 | a failing evaluation is reported (the context is unchanged only because the evaluator is all-or-nothing, see Left out); otherwise its assignments are applied through put, in order, and its value returned |
| AbstractDataExecutor.Runner.ExecuteForBool | src/main/java/com/github/byw/exec/exector/AbstractDataExecutor.java:73-75 | as Execute, with the value cast to Boolean: null stays null, a non-Boolean fails the cast |
| AbstractDataExecutor.AsBoolean | src/main/java/com/github/byw/exec/exector/AbstractDataExecutor.java:74 | the cast yields null for null, the Boolean for a Boolean, and fails otherwise |
| AbstractDataExecutor.ModifyFormula | src/main/java/com/github/byw/exec/exector/AbstractDataExecutor.java:97-110 | no '=' or a first "==" leaves the text; a first '=' at the very end fails; otherwise the text is always rewritten, and the rewrite is exactly the name, " =  round(", the formula verbatim and ",n)" (RoundsResult) |
| AbstractDataExecutor.RoundsResultIsRewrite | src/main/java/com/github/byw/exec/exector/AbstractDataExecutor.java:107-108 | RoundsResult admits one text only: the name before the first '=' + " = " + " round(" + formula + "," + n + ")" |
| AbstractDataExecutor.PiecesDetermine | src/main/java/com/github/byw/exec/exector/AbstractDataExecutor.java:108 | a text of the right length holding the name, " =  round(", the formula and ",n)" at their places is that concatenation |
| AbstractDataExecutor.RoundingRewrite | src/main/java/com/github/byw/exec/exector/AbstractDataExecutor.java:107-108 | the rewritten text has the length of its pieces; the name comes first, then " =  round(" (so the first '=' moves one place on), the formula at its place, and ",n)" at the end |
| IndexedFormula.NameStart | src/main/java/com/github/byw/exec/exector/ListDataExecutor.java:411-421 | the name collected before a marker starts just after the last keyword or '(' and holds none |
| IndexedFormula.NamesSkip | src/main/java/com/github/byw/exec/exector/ListDataExecutor.java:422 | no name is found on a stretch without '_' |
| IndexedFormula.OnlyAtUnderscore | src/main/java/com/github/byw/exec/exector/ListDataExecutor.java:422 | a marker starts with '_' |
| IndexedFormula.NamesPrefix | src/main/java/com/github/byw/exec/exector/ListDataExecutor.java:411-449 | the names found earlier come first, in text order |
| IndexedFormula.NamesAreTokens | src/main/java/com/github/byw/exec/exector/ListDataExecutor.java:435-451 | each name found is followed by "_index" in the text and holds no keyword and no '(' |
| IndexedFormula.ScanMarker | src/main/java/com/github/byw/exec/exector/ListDataExecutor.java:424-443 | the inner loop matches exactly when "_index" starts there and ends at a keyword or the end; it runs off only near the end without a match |
| IndexedFormula.ScanStep | src/main/java/com/github/byw/exec/exector/ListDataExecutor.java:412-447 | one round of the scan moves forward and keeps the names found equal to those the marker definition gives for the text read, with the buffer holding the name in progress |
| IndexedFormula.ScanNames | src/main/java/com/github/byw/exec/exector/ListDataExecutor.java:405-451 | the character scan with its buffer yields exactly the names the marker definition gives |
| IndexedFormula.MarkedNotBlank | src/main/java/com/github/byw/exec/exector/ListDataExecutor.java:397-399 | a formula that mentions "_index" is never skipped as blank |
| IndexedFormula.CheckResultName | src/main/java/com/github/byw/exec/exector/ListDataExecutor.java:462-475 | accepted exactly for an assignment (first '=' not starting "==") whose left side mentions "_index"; each refusal as the source raises it |
| IndexedFormula.ConditionFormulaHead | src/main/java/com/github/byw/exec/exector/ListDataExecutor.java:401 | a wrapped condition starts with the condition's result name and " = " |
| IndexedFormula.ConditionFormulaChecked | src/main/java/com/github/byw/exec/exector/ListDataExecutor.java:400-404 | a wrapped condition always passes the result-name check |
| IndexedFormula.ConditionFormulaResultName | src/main/java/com/github/byw/exec/exector/ListDataExecutor.java:401 | the first name of a wrapped condition is the condition's own result name, whatever the condition says |
| IndexedFormula.HeadNames | src/main/java/com/github/byw/exec/exector/ListDataExecutor.java:401-449 | the head of a wrapped condition yields just that result name |
| IndexedStep.IndexedNamesDistinct | src/main/java/com/github/byw/exec/exector/ListDataExecutor.java:224 | the names bound for two different indices never collide |
| IndexedStep.IndexedNameDiffers | src/main/java/com/github/byw/exec/exector/ListDataExecutor.java:224 | a per-index name is never the name it comes from |
| IndexedStep.Resolve | src/main/java/com/github/byw/exec/exector/ListDataExecutor.java:274-296 | a bound per-index name is left; only the per-index name can change; it is bound only for a parameter with a long enough list, to the element at the index, and is then always bound |
| IndexedStep.SubstFailureStays | src/main/java/com/github/byw/exec/exector/ListDataExecutor.java:199-233 | once a name fails its checks the later names are not processed |
| IndexedStep.NameStepKeeps | src/main/java/com/github/byw/exec/exector/ListDataExecutor.java:199-233 | a turn of the substitution loop never unbinds or changes an existing binding |
| IndexedStep.NameStepFixedIndex | src/main/java/com/github/byw/exec/exector/ListDataExecutor.java:217-223 | in fixed-index mode a too-short parameter is refused unless a default supplies it or the formula is a null check |
| IndexedStep.Place | src/main/java/com/github/byw/exec/exector/ListDataExecutor.java:254-258 | the value replaces the element at the index of a long enough list, leaving the others, and is appended otherwise |
| IndexedStep.PlaceAligned | src/main/java/com/github/byw/exec/exector/ListDataExecutor.java:130-137 | in a pre-sized result list two indices fill their own positions and the length stays |
| IndexedStep.ExecuteSpec | src/main/java/com/github/byw/exec/exector/ListDataExecutor.java:191-261 | a successful run binds the per-index result to the returned value and leaves the result name bound to a non-empty list |
| IndexedStep.ExecuteWritesBack | src/main/java/com/github/byw/exec/exector/ListDataExecutor.java:237-260 | the result list holds the computed value at the index (or at its end when shorter), other elements unchanged, and every other binding is what evaluation left |
| LengthChecks.Registered | src/main/java/com/github/byw/exec/exector/ListDataExecutor.java:354-359 | the bound names among the scanned ones, with their recorded sizes |
| LengthChecks.RegisteredHas | src/main/java/com/github/byw/exec/exector/ListDataExecutor.java:354-359 | every bound name takes part with its size |
| LengthChecks.RegisteredBound | src/main/java/com/github/byw/exec/exector/ListDataExecutor.java:354-359 | only bound names take part, each with its size |
| LengthChecks.FirstMismatch | src/main/java/com/github/byw/exec/exector/ListDataExecutor.java:364 | the first size that differs from the one before, with all earlier neighbours equal |
| LengthChecks.ParamChecked | src/main/java/com/github/byw/exec/exector/ListDataExecutor.java:339-376 | no names is refused; one name is an assignment of size -1; otherwise the null-check flag says whether the formula mentions "null" |
| LengthChecks.NoMismatchAllEqual | src/main/java/com/github/byw/exec/exector/ListDataExecutor.java:364 | sizes without a neighbouring mismatch are all equal |
| LengthChecks.ParamCheckAgreement | src/main/java/com/github/byw/exec/exector/ListDataExecutor.java:339-376 | outside fixed-index mode a formula passes exactly when all its bound parameters after the result have one length, which is then its size |
| LengthChecks.FirstFault | src/main/java/com/github/byw/exec/exector/ListDataExecutor.java:303-324 | the first message that fails its check, all earlier ones passing |
| LengthChecks.Sized | src/main/java/com/github/byw/exec/exector/ListDataExecutor.java:300-306 | only present messages of known size take part |
| LengthChecks.CheckedSizes | src/main/java/com/github/byw/exec/exector/ListDataExecutor.java:299-330 | passing requires some sized message or a configured total |
| LengthChecks.CheckedSizesAgreement | src/main/java/com/github/byw/exec/exector/ListDataExecutor.java:299-330 | outside fixed-index mode the check passes exactly when every sized message has one length and some length is known |
| LengthChecks.CheckedSizesFixedIndex | src/main/java/com/github/byw/exec/exector/ListDataExecutor.java:312-315 | in fixed-index mode a pass means every compared length reaches past the index unless the next message is a null check |
| LengthChecks.MismatchReported | src/main/java/com/github/byw/exec/exector/ListDataExecutor.java:364-366 | the mismatch the loop meets is the first one of the whole list, between the same two names |
| LengthChecks.FaultReported | src/main/java/com/github/byw/exec/exector/ListDataExecutor.java:312-320 | the failure the loop meets is the first of the whole list, between the same two messages |
| LengthChecks.ScanMismatch | src/main/java/com/github/byw/exec/exector/ListDataExecutor.java:364-366 | a bound name disagreeing with the mark is reported with both names and both sizes |
| LengthChecks.ScanBound | src/main/java/com/github/byw/exec/exector/ListDataExecutor.java:360-368 | a bound name that agrees with the mark (any, in fixed-index mode) becomes the mark |
| LengthChecks.ScanDone | src/main/java/com/github/byw/exec/exector/ListDataExecutor.java:371-375 | after the scan the size is the mark's, else the configured total, else -1 |
| LengthChecks.SizePass | src/main/java/com/github/byw/exec/exector/ListDataExecutor.java:307-323 | a sized message that passes its check becomes the mark |
| LengthChecks.SizeFail | src/main/java/com/github/byw/exec/exector/ListDataExecutor.java:312-320 | a failing message is reported as an index beyond the length in fixed-index mode and as two differing lengths otherwise |
| LengthChecks.SizeDone | src/main/java/com/github/byw/exec/exector/ListDataExecutor.java:326-329 | the length is unresolvable exactly when no message was sized and no total is configured |
| ListDataExecutor.Extracted | src/main/java/com/github/byw/exec/exector/ListDataExecutor.java:396-455 | a blank or absent text has no message; a message always has a result name |
| ListDataExecutor.ExtractedUpTo | src/main/java/com/github/byw/exec/exector/ListDataExecutor.java:81 | every extracted message has a result name |
| ListDataExecutor.ExtractedFailureStays | src/main/java/com/github/byw/exec/exector/ListDataExecutor.java:81 | the first failing formula's failure is the stream's |
| ListDataExecutor.Planned | src/main/java/com/github/byw/exec/exector/ListDataExecutor.java:78-98 | a settled plan has a result name for every formula and condition |
| ListDataExecutor.Zeros | src/main/java/com/github/byw/exec/exector/ListDataExecutor.java:134 | nCopies(size, ZERO): size zeros |
| ListDataExecutor.InitUpToShape | src/main/java/com/github/byw/exec/exector/ListDataExecutor.java:130-137 | after initResultList every result name is bound, bound names keep their values, and new ones get size zeros |
| ListDataExecutor.RunFailureStays | src/main/java/com/github/byw/exec/exector/ListDataExecutor.java:141-153 | once a formula fails the rest are not run |
| ListDataExecutor.Judged | src/main/java/com/github/byw/exec/exector/ListDataExecutor.java:163-180 | no condition holds; otherwise the wrapped condition runs at the index unrounded and succeeds exactly when it yields a Boolean, which is the result |
| ListDataExecutor.RepeatShape | src/main/java/com/github/byw/exec/exector/ListDataExecutor.java:110-113 | the repeat loop adds one stop result per run, all false but the last, and ends when the last holds or the thread is interrupted |
| ListDataExecutor.RepeatEnds | src/main/java/com/github/byw/exec/exector/ListDataExecutor.java:110 | the loop stops as soon as stop holds or the flag is set |
| ListDataExecutor.RepeatRuns | src/main/java/com/github/byw/exec/exector/ListDataExecutor.java:110-113 | otherwise it runs once more, spending one check |
| ListDataExecutor.RepeatFails | src/main/java/com/github/byw/exec/exector/ListDataExecutor.java:111-112 | a failing run or judgement ends the loop with its failure |
| ListDataExecutor.RoundAtShape | src/main/java/com/github/byw/exec/exector/ListDataExecutor.java:104-114 | a turn records its index, runs nothing when not started, else once plus the repeats, and never gives back checks |
| ListDataExecutor.RoundsShape | src/main/java/com/github/byw/exec/exector/ListDataExecutor.java:103-119 | the turns run on consecutive indices, each with that shape |
| ListDataExecutor.RoundsNext | src/main/java/com/github/byw/exec/exector/ListDataExecutor.java:103-119 | the next index runs on the context and checks the earlier turns left |
| ListDataExecutor.RoundsFailureStays | src/main/java/com/github/byw/exec/exector/ListDataExecutor.java:103-119 | once a turn fails, later indices are not run |
| ListDataExecutor.DetailSpec | src/main/java/com/github/byw/exec/exector/ListDataExecutor.java:77-120 | a failing plan is the failure of doDetailExec |
| ListDataExecutor.DetailShape | src/main/java/com/github/byw/exec/exector/ListDataExecutor.java:77-120 | doDetailExec runs one turn per index from the first, as many as Turns says, each shaped as RoundShape states |
| ListDataExecutor.TurnsByMode | src/main/java/com/github/byw/exec/exector/ListDataExecutor.java:99-118 | fixed-index mode runs at most the one turn at that index, none when it is not below the length; otherwise every index below the length |
| ListDataExecutor.UnconditionedRound | src/main/java/com/github/byw/exec/exector/ListDataExecutor.java:104-113 | without conditions a turn starts, runs the formulas exactly once on the initialised context, and spends no check |
| ListDataExecutor.NotStartedRound | src/main/java/com/github/byw/exec/exector/ListDataExecutor.java:104-107 | a false start runs nothing and leaves the context as the two judgements left it |
| ListDataExecutor.RoundingPrecedence | src/main/java/com/github/byw/exec/exector/ListDataExecutor.java:143-152 | the calculation's decimals win over the group's; with neither the formula is unchanged |
| ListDataExecutor.ListDataExecutor.constructor | src/main/java/com/github/byw/exec/exector/AbstractDataExecutor.java:26-42 | a new list executor is not in fixed-index mode and its runner knows the builtins |
| ListDataExecutor.ListDataExecutor.CanHandle | src/main/java/com/github/byw/exec/exector/ListDataExecutor.java:61-70 | the loop answers yes exactly when every formula mentions "_index" |
| ListDataExecutor.ListDataExecutor.ParamCheck | src/main/java/com/github/byw/exec/exector/ListDataExecutor.java:339-376 | the loop over the names computes ParamChecked |
| ListDataExecutor.ListDataExecutor.ExtractFormulaMessage | src/main/java/com/github/byw/exec/exector/ListDataExecutor.java:396-455 | computes Extracted |
| ListDataExecutor.ListDataExecutor.ExtractAll | src/main/java/com/github/byw/exec/exector/ListDataExecutor.java:81 | for a handled group every formula yields a message |
| ListDataExecutor.ListDataExecutor.CheckParamSize | src/main/java/com/github/byw/exec/exector/ListDataExecutor.java:299-330 | the loop over the check list computes CheckedSizes |
| ListDataExecutor.ListDataExecutor.ParameterResolution | src/main/java/com/github/byw/exec/exector/ListDataExecutor.java:274-296 | the context afterwards is Resolve's; a failure changes nothing |
| ListDataExecutor.ListDataExecutor.SubstituteName | src/main/java/com/github/byw/exec/exector/ListDataExecutor.java:200-232 | one name: the config checks, the token replaced and the element bound, as NameStep states |
| ListDataExecutor.ListDataExecutor.Substitute | src/main/java/com/github/byw/exec/exector/ListDataExecutor.java:199-233 | the substitution loop yields SubstUpTo's formula and context |
| ListDataExecutor.ListDataExecutor.Execute | src/main/java/com/github/byw/exec/exector/ListDataExecutor.java:191-261 | execute returns the value and leaves the context ExecuteSpec states |
| ListDataExecutor.ListDataExecutor.Judge | src/main/java/com/github/byw/exec/exector/ListDataExecutor.java:163-180 | computes Judged |
| ListDataExecutor.ListDataExecutor.InitResultList | src/main/java/com/github/byw/exec/exector/ListDataExecutor.java:130-137 | leaves the context InitUpTo states |
| ListDataExecutor.ListDataExecutor.ExecutiveFormula | src/main/java/com/github/byw/exec/exector/ListDataExecutor.java:140-154 | runs every formula at the index with the precedence rounding, as RunUpTo states |
| ListDataExecutor.ListDataExecutor.RunIndex | src/main/java/com/github/byw/exec/exector/ListDataExecutor.java:104-114 | one turn of the loop, as RoundAt states, including the interrupt checks |
| ListDataExecutor.ListDataExecutor.RepeatUntilStop | src/main/java/com/github/byw/exec/exector/ListDataExecutor.java:110-113 | the inner loop, as Repeat states |
| ListDataExecutor.ListDataExecutor.RunAgain | src/main/java/com/github/byw/exec/exector/ListDataExecutor.java:111-112 | the loop body, as Again states: the formulas again, then stop judged again |
| ListDataExecutor.ListDataExecutor.PlanDetail | src/main/java/com/github/byw/exec/exector/ListDataExecutor.java:81-98 | the part before the loop computes Planned and writes nothing |
| ListDataExecutor.ListDataExecutor.NextRound | src/main/java/com/github/byw/exec/exector/ListDataExecutor.java:104-118 | the turn at the next index continues from the context and checks the earlier turns left |
| ListDataExecutor.ListDataExecutor.RunRounds | src/main/java/com/github/byw/exec/exector/ListDataExecutor.java:99-119 | the loop over indices, as RoundsUpTo states |
| ListDataExecutor.ListDataExecutor.DoDetailExec | src/main/java/com/github/byw/exec/exector/ListDataExecutor.java:77-120 | sets the per-call fields from the configuration and leaves the context and checks DetailSpec states |
| SingleDataExecutor.PassFailureStays | src/main/java/com/github/byw/exec/exector/SingleDataExecutor.java:64-76 | once a formula fails the rest are not run |
| SingleDataExecutor.EvalBool | src/main/java/com/github/byw/exec/exector/AbstractDataExecutor.java:73-75 | an evaluation failure is reported; success applies the assignments |
| SingleDataExecutor.StartJudged | src/main/java/com/github/byw/exec/exector/SingleDataExecutor.java:79-84 | an absent or blank start holds without evaluation; otherwise it is evaluated |
| SingleDataExecutor.RepeatShape | src/main/java/com/github/byw/exec/exector/SingleDataExecutor.java:49-52 | the repeat loop adds one stop result per run, all false but the last, and ends when the last holds or the thread is interrupted |
| SingleDataExecutor.RepeatEnds | src/main/java/com/github/byw/exec/exector/SingleDataExecutor.java:49 | the loop stops as soon as stop holds or the flag is set |
| SingleDataExecutor.RepeatRuns | src/main/java/com/github/byw/exec/exector/SingleDataExecutor.java:49-52 | otherwise it runs once more, spending one check |
| SingleDataExecutor.RepeatFails | src/main/java/com/github/byw/exec/exector/SingleDataExecutor.java:50-51 | a failing run or a null stop ends the loop with its failure |
| SingleDataExecutor.ExecShape | src/main/java/com/github/byw/exec/exector/SingleDataExecutor.java:36-53 | with conditions: not started runs nothing; started runs once plus repeats until stop or interruption |
| SingleDataExecutor.ExecWithoutConditions | src/main/java/com/github/byw/exec/exector/SingleDataExecutor.java:37-40 | without conditions every formula runs once, unrounded, and the flag is never read |
| SingleDataExecutor.ExecNotStarted | src/main/java/com/github/byw/exec/exector/SingleDataExecutor.java:44-47 | a false start runs nothing, after both conditions are evaluated |
| SingleDataExecutor.ExecDefaultStop | src/main/java/com/github/byw/exec/exector/SingleDataExecutor.java:42 | with the default stop "1==1" a started group runs once |
| SingleDataExecutor.SingleDataExecutor.constructor | src/main/java/com/github/byw/exec/exector/AbstractDataExecutor.java:26-42 | a new single-value executor's runner knows the builtins |
| SingleDataExecutor.SingleDataExecutor.CanHandle | src/main/java/com/github/byw/exec/exector/SingleDataExecutor.java:27-29 | the fallback handles every group |
| SingleDataExecutor.SingleDataExecutor.DoExec | src/main/java/com/github/byw/exec/exector/SingleDataExecutor.java:57-77 | every formula in order, rounded to the group's decimals, as Pass states |
| SingleDataExecutor.SingleDataExecutor.RunFormula | src/main/java/com/github/byw/exec/exector/SingleDataExecutor.java:72-75 | one formula, rewritten then executed, as Ran states |
| SingleDataExecutor.SingleDataExecutor.JudgeWhetherStart | src/main/java/com/github/byw/exec/exector/SingleDataExecutor.java:79-84 | computes StartJudged |
| SingleDataExecutor.SingleDataExecutor.RunAgain | src/main/java/com/github/byw/exec/exector/SingleDataExecutor.java:50-51 | the loop body, as Again states |
| SingleDataExecutor.SingleDataExecutor.RepeatUntilStop | src/main/java/com/github/byw/exec/exector/SingleDataExecutor.java:49-52 | the repeat loop, as Repeat states |
| SingleDataExecutor.SingleDataExecutor.Exec | src/main/java/com/github/byw/exec/exector/SingleDataExecutor.java:33-54 | exec leaves the context and checks ExecSpec states |
| CalculateExecutor.RegisteredOverrides | src/main/java/com/github/byw/exec/CalculateExecutor.java:60-62 | a custom function replaces a builtin of its name; every other builtin stays callable |
| CalculateExecutor.RunAllAppend | src/main/java/com/github/byw/exec/CalculateExecutor.java:58-64 | later groups run after earlier ones, on what those left |
| CalculateExecutor.RunAllEmpty | src/main/java/com/github/byw/exec/CalculateExecutor.java:58-64 | no groups leave the context as it is |
| CalculateExecutor.RunAllFailureStays | src/main/java/com/github/byw/exec/CalculateExecutor.java:58-64 | once a group fails the later groups are not run |
| CalculateExecutor.ExecutorManage.constructor | src/main/java/com/github/byw/exec/CalculateExecutor.java:73-76 | a fresh manager holds a fresh list executor and a fresh single-value executor with the builtins |
| CalculateExecutor.ExecutorManage.Get | src/main/java/com/github/byw/exec/CalculateExecutor.java:78-85 | the list executor exactly when every formula mentions "_index", else the single-value executor; the throw is never reached |
| CalculateExecutor.RegisterAll | src/main/java/com/github/byw/exec/CalculateExecutor.java:61 | every configured operator is registered under its name, over the existing table |
| CalculateExecutor.RegisterConfigured | src/main/java/com/github/byw/exec/CalculateExecutor.java:60-62 | the configuration's functions, when any, are added to the table |
| CalculateExecutor.RunGroup | src/main/java/com/github/byw/exec/CalculateExecutor.java:59-63 | one group runs on the chosen executor with the registered functions, as GroupRun states |
| CalculateExecutor.RunGroups | src/main/java/com/github/byw/exec/CalculateExecutor.java:58-64 | the groups run in order, as RunAll states |
| CalculateExecutor.ExecWith | src/main/java/com/github/byw/exec/CalculateExecutor.java:49-66 | a null parameter object is refused; the first configuration passed (or a default) is used; the context is what RunAll leaves |
| CalculateExecutor.CalculateExecutor.GetInstance | src/main/java/com/github/byw/exec/CalculateExecutor.java:32-40 | the executor keeps the configuration it is given |
| CalculateExecutor.CalculateExecutor.Exec | src/main/java/com/github/byw/exec/CalculateExecutor.java:42-44 | runs the manager's groups with the executor's configuration, the result being the parameter's own context |

## Left out

- Logging: `LogOperator`, `printFormulaLog`, the loggers and the reflective `newInstance` of the log operator class. They only write text.
- QLExpress itself: the expression language, its parsing and its builtin `round`. It is the `Evaluator` parameter: a function of the formula, the context and the function table, whose failures carry no assignments.
- `StrSubstitutor` escapes (`${`) and nested substitution. The model replaces `{key}` occurrences whose key is bound, left to right.
- BigDecimal parsing of exponent notation (`1E+3`), and of non-ASCII digits: `new BigDecimal(String)` accepts any character `Character.isDigit` accepts ("١٢" is 12), while `ParseDecimal` reads only `'0'..'9'`, so `GetOriginalNumResult`, `ConvertAll` and `ListSum` report such text as an error. A negative scale in `getNumResult(name, scale)` is not modelled either (`GetScaledNumResult` takes a `nat`).
- ListMax, ListMin: only collections of numbers are compared. Other `Comparable` elements (strings, mixed classes raising `ClassCastException`) are not modelled. A non-numeric element is reported as an error instead.
- listSum: the case of an element whose string form is not a number is stated as a failure without its exact message.
- Java aliasing of lists. `addList` stores the caller's list, and `execute` mutates the result list it reads from the context. The model treats lists as values, so later changes by the caller are not seen.
- An evaluator assigning `null`. Assignments always carry a value.
- A `null` element inside a list. `addArray` takes lists such as `Arrays.asList(BigDecimal.ONE, null)`, but list elements here are always values. So `Resolve` binds every element, and the null-pointer failures are not modelled. These are the put of a null element at ListDataExecutor.java:293 (`value.getClass()` at DefaultParam.java:181), `t.toString()` in listSum, and the comparisons in listMax and listMin.
- Integer width: `int` sizes and indices are unbounded integers here. `currentIndex` is a `nat`; a negative configured index is not modelled.
- `Thread.isInterrupted` is a budget of checks. No other thread, timing or concurrency is modelled.
- `getResultManager` and the `DefaultResultManager` object: result reads are functions of the context's values.
- `DefaultParam.java` and `Param.java` are twins. One `Registry` class models both.
- `ParamContext`/`ParamManager` indirection and `setCalculateConfig`. They only carry the log operator.
- The `paramTotalSize` fallback at ListDataExecutor.java:95-97 cannot be reached, because `checkParamSize` has already refused the same case. The model keeps the one reachable failure.
- `ExecuteSpec`: a message without names fails on `get(0)`. Such a message cannot come out of extraction, so this is modelled only as an `Err`.
- The thread id in a wrapped condition's name is the constant `1` (`Thread.currentThread().getId()`).
- A `null` element in the configuration varargs, and `getInstance(null)`, are not modelled. A configuration is always a value.
- SingleDataExecutor: the calculation's `retainDecimal` is not applied to single-value groups. Only the group's own setting is, as the code does. A test of the repository expects the calculation's setting to apply; the model follows the code.
- ListDataExecutor.ListDataExecutor.DoDetailExec: requires the group to be one it handles. `ExecutorManage.get` only hands it such groups.
- Registering the same custom function twice is modelled only as map overriding. Operator identity and QLExpress's own duplicate checks are not modelled.
- AbstractDataExecutor.Runner.Execute, AbstractDataExecutor.Runner.ExecuteForBool: evaluation is all-or-nothing. QLExpress applies assignments as it runs, so `a = 1; b = listSum(c)` leaves `a` bound when it then throws. The model's evaluator cannot report such partial writes, and the unchanged context on `Err` holds only for that reason. The spec functions of the executors state only the error after a failure: the source throws part-way through, and the model does not promise what was already written.
