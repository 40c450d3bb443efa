/**
  The error kinds of the money package. Only the kind and the data it
  carries are modelled; the message text is not.
*/
module Errors {
  import opened Binary
  import Currencies
  import Decimals

  datatype Error =
    /** A standard-locked collection refused a currency of another standard. */
    | StandardNotAllowed(standard: string, allowed: string)
    /** Another currency instance already holds the unique ID. */
    | UniqueIDCollision(added: Currencies.Currency, existing: Currencies.Currency)
    /** Another currency instance already holds the unique code. */
    | UniqueCodeCollision(added: Currencies.Currency, existing: Currencies.Currency)
    /** Another currency instance already holds the numeric code. */
    | NumericCodeCollision(added: Currencies.Currency, existing: Currencies.Currency)
    /** Another currency instance already holds the code. */
    | CodeCollision(added: Currencies.Currency, existing: Currencies.Currency)
    /** `ErrorDifferentCurrencies`: two values whose currencies are not the same instance. */
    | DifferentCurrencies(c1: Currencies.Currency?, c2: Currencies.Currency?)
    /** `ErrorCantFindUniqueID`. */
    | CantFindUniqueID(uniqueID: Int32)
    /** `ErrorCantFindUniqueCode`. */
    | CantFindUniqueCode(uniqueCode: string)
    /** A value text with more than one separator. */
    | TooManySpaces(input: string)
    /** The currency named in a text is not the currency the caller fixed. */
    | CurrencyMismatch(matched: Currencies.Currency?, given: Currencies.Currency?)
    /** A failure of the decimal amount's own parser or decoder. */
    | InvalidAmount(cause: Decimals.DecimalError)
    /** Binary data shorter than the 4-byte currency prefix. */
    | BinaryTooShort(length: nat)
    /** A database column that is not a string. */
    | IncompatibleType
    /** A product of two values that both carry a currency. */
    | CurrencyProduct(factor1: Currencies.Currency, factor2: Currencies.Currency)
}
