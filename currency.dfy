/**
  The `Currency` interface and its validation. A currency is an instance
  whose accessors report fixed strings and numbers; two currencies are the
  same exactly when they are the same instance.
*/
module Currencies {
  import opened Wrappers
  import opened Binary
  import Text

  /** What a currency reports through the accessors of the `Currency` interface. */
  datatype CurrencyInfo = CurrencyInfo(
    name: string,
    standardName: string,
    uniqueID: Int32,
    uniqueCode: string,
    code: string,
    numericCode: int,
    symbol: string,
    shortSymbol: string,
    decimalPlaces: int,
    hasSmallestUnit: bool)

  /**
    A currency instance. Go compares `Currency` interface values by the
    instance they point to, and Dafny compares references the same way.
  */
  class Currency {
    const info: CurrencyInfo

    constructor (info: CurrencyInfo)
      ensures this.info == info
    {
      this.info := info;
    }
  }

  /** The characters of the class `[a-zA-Z0-9]`. */
  predicate IsAlphaNumeric(c: char)
  {
    'a' <= c <= 'z' || 'A' <= c <= 'Z' || '0' <= c <= '9'
  }

  predicate AlphaNumeric(s: string)
  {
    forall i | 0 <= i < |s| :: IsAlphaNumeric(s[i])
  }

  /**
    Where `regexFindNonAlphaNumeric` first matches in `s`: the position of the
    first character outside `[a-zA-Z0-9]`, or -1 when there is none.
  */
  function FirstNonAlphaNumeric(s: string): (i: int)
    ensures -1 <= i < |s|
    ensures i == -1 <==> AlphaNumeric(s)
    ensures 0 <= i ==> !IsAlphaNumeric(s[i]) && AlphaNumeric(s[..i])
  {
    if s == [] then -1
    else if !IsAlphaNumeric(s[0]) then 0
    else
      var j := FirstNonAlphaNumeric(s[1..]);
      if j == -1 then -1
      else
        assert s[..j + 1] == [s[0]] + s[1..][..j];
        j + 1
  }

  /** Why `ValidateCurrency` refused a currency, in the order it checks. */
  datatype InvalidReason =
    | IllegalCodeCharacter(found: char)
    | IllegalStandardCharacter(found: char)
    | MalformedUniqueCode(uniqueCode: string, expected: string)
    | NegativeDecimalPlaces(decimalPlaces: int)
    | DecimalPlacesWithoutSmallestUnit(decimalPlaces: int)
    | SymbolMismatch(symbol: string, shortSymbol: string)
    | ReservedUniqueID

  /**
    The rules a currency definition must follow, stated declaratively:
    alphanumeric code and standard name, unique code "StandardName-Code",
    decimal places matching the smallest-unit flag, and a symbol pair that is
    either equal or both non-empty.
  */
  predicate WellFormed(c: CurrencyInfo)
  {
    && AlphaNumeric(c.code)
    && AlphaNumeric(c.standardName)
    && c.uniqueCode == c.standardName + "-" + c.code
    && (if c.hasSmallestUnit then c.decimalPlaces >= 0 else c.decimalPlaces == -1)
    && (c.symbol == c.shortSymbol || (c.symbol != "" && c.shortSymbol != ""))
  }

  /**
    `ValidateCurrency`: no error exactly for a well-formed currency. The
    checks run in a fixed order, so the reported reason is the first rule
    broken, and an illegal character reported is one the string contains.
  */
  function ValidateCurrency(c: CurrencyInfo): (r: Option<InvalidReason>)
    ensures r.None? <==> WellFormed(c)
    ensures !AlphaNumeric(c.code) ==>
      r.Some? && r.value.IllegalCodeCharacter? && r.value.found in c.code && !IsAlphaNumeric(r.value.found)
    ensures AlphaNumeric(c.code) && !AlphaNumeric(c.standardName) ==>
      r.Some? && r.value.IllegalStandardCharacter? && r.value.found in c.standardName && !IsAlphaNumeric(r.value.found)
    ensures AlphaNumeric(c.code) && AlphaNumeric(c.standardName) && c.uniqueCode != c.standardName + "-" + c.code ==>
      r == Some(MalformedUniqueCode(c.uniqueCode, c.standardName + "-" + c.code))
  {
    var codeBad := FirstNonAlphaNumeric(c.code);
    var standardBad := FirstNonAlphaNumeric(c.standardName);
    if codeBad >= 0 then Some(IllegalCodeCharacter(c.code[codeBad]))
    else if standardBad >= 0 then Some(IllegalStandardCharacter(c.standardName[standardBad]))
    else if c.standardName + "-" + c.code != c.uniqueCode then
      Some(MalformedUniqueCode(c.uniqueCode, c.standardName + "-" + c.code))
    else if c.hasSmallestUnit && c.decimalPlaces < 0 then Some(NegativeDecimalPlaces(c.decimalPlaces))
    else if !c.hasSmallestUnit && c.decimalPlaces != -1 then Some(DecimalPlacesWithoutSmallestUnit(c.decimalPlaces))
    else if c.shortSymbol != c.symbol && (c.shortSymbol == "" || c.symbol == "") then
      Some(SymbolMismatch(c.symbol, c.shortSymbol))
    else None
  }

  /**
    `ValidateCurrency` with the rule the binary form of a value relies on:
    the unique ID 0 stands for "no currency", so a currency holding it is
    refused. Any other currency gets `ValidateCurrency`'s verdict.
  */
  function ValidateCurrencyReservingZero(c: CurrencyInfo): (r: Option<InvalidReason>)
    ensures r.None? <==> WellFormed(c) && c.uniqueID != 0
    ensures c.uniqueID == 0 ==> r == Some(ReservedUniqueID)
    ensures r.None? ==> ValidateCurrency(c).None?
  {
    if c.uniqueID == 0 then Some(ReservedUniqueID) else ValidateCurrency(c)
  }

  /** Of an otherwise valid currency, the symbol pair is accepted iff the symbols are equal or both non-empty. */
  lemma SymbolPairRule(c: CurrencyInfo)
    requires AlphaNumeric(c.code) && AlphaNumeric(c.standardName)
    requires c.uniqueCode == c.standardName + "-" + c.code
    requires if c.hasSmallestUnit then c.decimalPlaces >= 0 else c.decimalPlaces == -1
    ensures ValidateCurrency(c).None? <==> (c.symbol == c.shortSymbol || (c.symbol != "" && c.shortSymbol != ""))
    ensures ValidateCurrency(c).Some? ==> ValidateCurrency(c) == Some(SymbolMismatch(c.symbol, c.shortSymbol))
  {
  }

  /**
    For accepted currencies the unique code is reversible: neither the
    standard name nor the code can contain the '-' that joins them.
  */
  lemma UniqueCodeDetermines(a: CurrencyInfo, b: CurrencyInfo)
    requires ValidateCurrency(a).None? && ValidateCurrency(b).None?
    requires a.uniqueCode == b.uniqueCode
    ensures a.standardName == b.standardName && a.code == b.code
  {
    AlphaNumericHasNoDash(a.standardName);
    AlphaNumericHasNoDash(a.code);
    AlphaNumericHasNoDash(b.standardName);
    AlphaNumericHasNoDash(b.code);
    Text.SplitPair(a.standardName, a.code, '-');
    Text.SplitPair(b.standardName, b.code, '-');
  }

  lemma AlphaNumericHasNoDash(s: string)
    requires AlphaNumeric(s)
    ensures '-' !in s
  {
  }

  /** A custom currency outside every standard: ID -1, unique code "FOO-BAR". */
  const FooBar: CurrencyInfo := CurrencyInfo("Bar", "FOO", -1, "FOO-BAR", "BAR", 0, "❚", "❚", 2, true)

  /** The custom FOO/BAR currency with the unique ID 0 that binary data reserves for "no currency". */
  const FooBarZero: CurrencyInfo := FooBar.(uniqueID := 0)

  /** `ValidateCurrency` as written accepts the unique ID 0; the corrected validation refuses it. */
  lemma ZeroIDValidates()
    ensures ValidateCurrency(FooBarZero) == None
    ensures ValidateCurrencyReservingZero(FooBarZero) == Some(ReservedUniqueID)
  {
    FooBarValidates();
    assert WellFormed(FooBar);
    assert WellFormed(FooBarZero);
  }

  /** The custom FOO/BAR currency validates. */
  lemma FooBarValidates()
    ensures ValidateCurrency(FooBar) == None
  {
    assert AlphaNumeric("BAR") by {
      assert forall i | 0 <= i < 3 :: IsAlphaNumeric("BAR"[i]);
    }
    assert AlphaNumeric("FOO") by {
      assert forall i | 0 <= i < 3 :: IsAlphaNumeric("FOO"[i]);
    }
    assert "FOO" + "-" + "BAR" == "FOO-BAR";
  }
}
