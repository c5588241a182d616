/** Option and Result, and the library's failures. Every Java exception the
    core can raise becomes one Error constructor; the Java code reports them
    all as CalculateException (or a runtime exception) carrying the offending
    formula text, parameter names and sizes, kept here as fields. */
module Base {

  datatype Option<T> = None | Some(value: T)

  datatype Error =
    // formula text
    | NotAnEquation(formula: string)
    | InvalidResultName(resultName: string)
    | NoIndexedParameter(formula: string)
    // lengths
    | ParamLengthMismatch(formula: string, first: string, second: string, firstSize: int, secondSize: int)
    | FormulaLengthMismatch(firstFormula: string, secondFormula: string, firstSize: int, secondSize: int)
    | IndexBeyondLength(formula: string, index: int)
    | UnresolvableLength(formulas: seq<string>)
    // parameters and results
    | ParameterMissing(formula: string, name: string)
    | NotAList(name: string)
    | ParameterUndefined(formula: string, name: string)
    | ConditionNotBoolean(formula: string)
    | MissingComputedValue(name: string)
    | ResultNotList(name: string)
    // Java runtime failures
    | IndexOutOfRange
    | NullPointer
    | ClassCast
    | EvaluatorFailure(message: string)
    // inputs of the public API
    | NullParam
    | NullValue(name: string)
    | BlankFormula
    | PlaceholderCountMismatch(template: string)
    | UnbalancedBraces
    | NotANumber(name: string)
    | NotABoolean(name: string)
    // builtin functions
    | NotACollection(operator: string)
    | EmptyCollection
    | NotComparable
    | MissingArgument

  datatype Result<T> = Ok(value: T) | Err(error: Error)
}
