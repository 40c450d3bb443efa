/**
  `ISO4217Currency`: a currency of the ISO 4217 standard, described by its
  table row. Every accessor of the `Currency` interface is computed from the
  row, and `Info` collects them.
*/
module Iso4217 {
  import opened Binary
  import opened Currencies

  /** The name of the standard. */
  const StandardName: string := "ISO4217"

  /** The prefix of every unique code of the standard. */
  const CodePrefix: string := "ISO4217-"

  /** Added to the numeric code to give the unique ID. */
  const UniqueIDOffset: int := 42170000

  /** A row of the ISO 4217 table. A decimal-place count of -1 means the currency has no smallest unit. */
  datatype Iso4217Currency = Iso4217Currency(
    name: string,
    alphabeticCode: string,
    numericCode: int,
    narrowSymbol: string,
    symbol: string,
    decimalPlaces: int)
  {
    function Standard(): string
    {
      StandardName
    }

    /**
      The unique ID: the numeric code truncated to 32 bits plus the offset,
      wrapping around like Go's `int32` addition.
    */
    function UniqueID(): Int32
    {
      WrapInt32(WrapInt32(numericCode) + UniqueIDOffset)
    }

    function UniqueCode(): string
    {
      CodePrefix + alphabeticCode
    }

    function Code(): string
    {
      alphabeticCode
    }

    function Symbol(): string
    {
      symbol
    }

    /** The narrow symbol, falling back to the symbol when the row has none. */
    function NarrowSymbol(): (s: string)
      ensures s == "" ==> symbol == ""
      ensures s == narrowSymbol || s == symbol
      ensures narrowSymbol != "" ==> s == narrowSymbol
    {
      if narrowSymbol != "" then narrowSymbol else symbol
    }

    /** The decimal places and whether there is a smallest unit: -1 stands for "none". */
    function DecimalPlaces(): (r: (int, bool))
      ensures r.0 == decimalPlaces
      ensures r.1 <==> decimalPlaces != -1
    {
      if decimalPlaces == -1 then (-1, false) else (decimalPlaces, true)
    }

    function String(): string
    {
      CodePrefix + alphabeticCode
    }

    /** What this currency reports through the `Currency` interface. */
    function Info(): CurrencyInfo
    {
      var (places, hasSmallestUnit) := DecimalPlaces();
      CurrencyInfo(name, Standard(), UniqueID(), UniqueCode(), Code(), numericCode,
                   Symbol(), NarrowSymbol(), places, hasSmallestUnit)
    }
  }

  /** The numeric codes for which the unique ID is the plain sum, without wrap-around. */
  predicate InIDRange(numericCode: int)
  {
    0 <= numericCode <= 0x7FFF_FFFF - UniqueIDOffset
  }

  /**
    For numeric codes in range the unique ID is numeric code + 42170000, so
    it is positive (never the 0 that stands for "no currency"), and two such
    currencies have the same unique ID exactly when they have the same
    numeric code.
  */
  lemma UniqueIDExact(a: Iso4217Currency, b: Iso4217Currency)
    requires InIDRange(a.numericCode) && InIDRange(b.numericCode)
    ensures a.UniqueID() as int == a.numericCode + UniqueIDOffset
    ensures a.UniqueID() > 0
    ensures a.UniqueID() == b.UniqueID() <==> a.numericCode == b.numericCode
  {
    assert WrapInt32(a.numericCode) == a.numericCode;
    assert WrapInt32(b.numericCode) == b.numericCode;
  }

  /**
    The unique code is the standard name, a dash and the code, as the
    `Currency` interface demands, and `String` prints the unique code.
  */
  lemma UniqueCodeForm(c: Iso4217Currency)
    ensures c.UniqueCode() == c.Standard() + "-" + c.Code()
    ensures c.String() == c.UniqueCode()
  {
  }

  /**
    A row validates exactly when its code is alphanumeric, its decimal places
    are at least -1 and it does not have a narrow symbol without a symbol.
    The standard name and the unique code are right by construction.
  */
  lemma ValidIff(c: Iso4217Currency)
    ensures ValidateCurrency(c.Info()).None? <==>
      AlphaNumeric(c.alphabeticCode) && c.decimalPlaces >= -1 && !(c.symbol == "" && c.narrowSymbol != "")
  {
    assert AlphaNumeric(StandardName) by {
      assert forall i | 0 <= i < |StandardName| :: IsAlphaNumeric(StandardName[i]);
    }
    assert c.Info().uniqueCode == StandardName + "-" + c.alphabeticCode;
  }
}
