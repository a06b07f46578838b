/**
 * The reader's warnings.  Each `print("Warning: ...")` of the reader is one
 * constructor, carrying the values the message interpolates; a parser returns
 * them in order beside its value instead of printing them.
 */
module Diagnostics {

  datatype Warning =
    | NoRecipeName(using: string)
    | OvenFanInvalid
    | MultipleOvenTemps
    | NoOvenTempUnit
    | OvenTempUnitInvalid
    | NoOvenTempAmount
    | OvenTempFloat
    | OvenTempNotNumeric
    | YieldFloat
    | YieldNotNumeric
    | NoYieldsUnit(using: string)
    | AmountsMismatch
    | NoIngredientUnit(ingredient: string, using: string)
    | NoIngredientAmount(ingredient: string, usingAmount: int)
    | UnknownAmountField(key: string, ingredient: string)
    | NoAmounts(ingredient: string)
    | NoIngredients
    | NoSubstitutions
    | NoUuid(using: string)
    | SourceBookUnknownField(field: string)
    | NoSourceAuthor(using: string)
    | NoSourceUrl(using: string)
    | StepMissing
    | BothControlPoints
    | NonStandardHaccp
    | NoSteps
    | XFieldNotUnderstood(field: string)
    | UnknownField(field: string)

  /** A parser's result: the normalised value and the warnings, in the order
      the reader prints them. */
  datatype Parsed<T> = Parsed(value: T, log: seq<Warning>)
}
