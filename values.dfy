/**
  Monetary values: a decimal amount and an optional currency, their text
  form "Amount" or "Amount UniqueCode", and the parser that reads it back
  with the help of a currency collection and a currency the caller names.
*/
module Values {
  import opened Wrappers
  import opened Currencies
  import opened Errors
  import opened CurrencyCollections
  import Decimals
  import Text

  /** `Value`: an amount, and a currency that may be nil. */
  datatype Value = Value(amount: Decimals.Decimal, currency: Currency?)
  {
    /** `String`: the amount's text, then a space and the unique code when there is a currency. */
    function String(): (s: string)
    {
      if currency != null then Decimals.String(amount) + " " + currency.info.uniqueCode
      else Decimals.String(amount)
    }
  }

  /** The no-break space U+00A0, read as an ordinary space. */
  const NoBreakSpace: char := '\U{00A0}'

  /** What `parse` returns: an amount, a currency and an error. */
  datatype Parsed = Parsed(amount: Decimals.Decimal, currency: Currency?, err: Option<Error>)

  /** The amount text read by the decimal library; on failure the zero amount and no currency. */
  function AmountOf(text: string, currency: Currency?): (p: Parsed)
    ensures p.err.None? <==> Decimals.FromString(text).Success?
    ensures p.err.None? ==> p.amount == Decimals.FromString(text).value && p.currency == currency
    ensures p.err.Some? ==> p == Parsed(Decimals.Zero, null, Some(InvalidAmount(Decimals.FromString(text).error)))
  {
    match Decimals.FromString(text)
    case Failure(e) => Parsed(Decimals.Zero, null, Some(InvalidAmount(e)))
    case Success(d) => Parsed(d, currency, None)
  }

  /** The space-separated fields of `str` once every no-break space is a space. */
  function Fields(str: string): seq<string>
  {
    Text.Split(Text.ReplaceAll(str, NoBreakSpace, ' '), ' ')
  }

  /**
    The currency named by a unique code: the caller's currency if its unique
    code is that code, else the collection's member with it, else nil.
  */
  function Resolve(code: string, cc: CurrencyCollection?, additional: Currency?): (c: Currency?)
    reads cc
    ensures additional != null && additional.info.uniqueCode == code ==> c == additional
    ensures c != null && c != additional ==> cc != null && c == cc.ByUniqueCode(code)
    ensures c == null ==> (additional == null || additional.info.uniqueCode != code) &&
                          (cc == null || cc.ByUniqueCode(code) == null)
    ensures additional == null || additional.info.uniqueCode != code ==>
      c == (if cc != null then cc.ByUniqueCode(code) else null)
  {
    if additional != null && code == additional.info.uniqueCode then additional
    else if cc != null then cc.ByUniqueCode(code)
    else null
  }

  /**
    `parse`: one field is an amount without currency; two fields are an
    amount and a unique code, resolved before the amount is read; more fail.
    Any failure gives the zero amount and no currency.
  */
  function Parse(str: string, cc: CurrencyCollection?, additional: Currency?): (p: Parsed)
    reads cc
    ensures p.err.Some? ==> p.amount == Decimals.Zero && p.currency == null
    ensures |Fields(str)| > 2 ==> p.err == Some(TooManySpaces(Text.ReplaceAll(str, NoBreakSpace, ' ')))
    ensures p.err.None? && p.currency != null ==>
      |Fields(str)| == 2 && p.currency == Resolve(Fields(str)[1], cc, additional)
  {
    var fields := Fields(str);
    if |fields| == 1 then AmountOf(fields[0], null)
    else if |fields| == 2 then
      var matched := Resolve(fields[1], cc, additional);
      if matched == null then Parsed(Decimals.Zero, null, Some(CantFindUniqueCode(fields[1])))
      else AmountOf(fields[0], matched)
    else Parsed(Decimals.Zero, null, Some(TooManySpaces(Text.ReplaceAll(str, NoBreakSpace, ' '))))
  }

  /** Text without any space or no-break space: one field. */
  predicate Unbroken(s: string)
  {
    ' ' !in s && NoBreakSpace !in s
  }

  /** Text without separators is one field, and it is read as an amount without currency. */
  lemma ParseOneField(str: string, cc: CurrencyCollection?, additional: Currency?)
    requires Unbroken(str)
    ensures Fields(str) == [str]
    ensures Parse(str, cc, additional) == AmountOf(str, null)
  {
    Text.ReplaceAllAbsent(str, NoBreakSpace, ' ');
    Text.SplitNone(str, ' ');
  }

  /** An amount and a code joined by either kind of space are the two fields. */
  lemma FieldsOfPair(a: string, code: string, sep: char)
    requires Unbroken(a) && Unbroken(code)
    requires sep == ' ' || sep == NoBreakSpace
    ensures Fields(a + [sep] + code) == [a, code]
  {
    var s := a + [sep] + code;
    var t := Text.ReplaceAll(s, NoBreakSpace, ' ');
    assert t == a + " " + code by {
      ReplaceAllOutside(a, [sep], code);
    }
    Text.SplitPair(a, code, ' ');
  }

  /** Replacing no-break spaces changes only the separator between two unbroken parts. */
  lemma ReplaceAllOutside(a: string, sep: string, code: string)
    requires Unbroken(a) && Unbroken(code)
    requires sep == " " || sep == [NoBreakSpace]
    ensures Text.ReplaceAll(a + sep + code, NoBreakSpace, ' ') == a + " " + code
  {
    var s := a + sep + code;
    var t := Text.ReplaceAll(s, NoBreakSpace, ' ');
    forall i | 0 <= i < |s|
      ensures t[i] == (a + " " + code)[i]
    {
      ReplaceAllAt(s, NoBreakSpace, ' ', i);
      if i < |a| {
        assert s[i] == a[i];
      } else if i > |a| {
        assert s[i] == code[i - |a| - 1];
      }
    }
  }

  /** `ReplaceAll` works character by character. */
  lemma {:induction false} ReplaceAllAt(s: string, from: char, to: char, i: nat)
    requires i < |s|
    ensures Text.ReplaceAll(s, from, to)[i] == (if s[i] == from then to else s[i])
    decreases |s|
  {
    if i > 0 {
      ReplaceAllAt(s[1..], from, to, i - 1);
    }
  }

  /** More than two fields: the parse fails, whatever the collection holds. */
  lemma ParseTooManySpaces(str: string, cc: CurrencyCollection?, additional: Currency?)
    requires Text.Count(Text.ReplaceAll(str, NoBreakSpace, ' '), ' ') >= 2
    ensures Parse(str, cc, additional) ==
      Parsed(Decimals.Zero, null, Some(TooManySpaces(Text.ReplaceAll(str, NoBreakSpace, ' '))))
  {
    Text.SplitCount(Text.ReplaceAll(str, NoBreakSpace, ' '), ' ');
  }

  /**
    Two fields: the currency is resolved before the amount is read, so an
    unknown code is reported even when the amount text is also bad, and the
    caller's currency wins over the collection when its code matches.
  */
  lemma ParseTwoFields(a: string, code: string, sep: char, cc: CurrencyCollection?, additional: Currency?)
    requires Unbroken(a) && Unbroken(code)
    requires sep == ' ' || sep == NoBreakSpace
    ensures Resolve(code, cc, additional) == null ==>
      Parse(a + [sep] + code, cc, additional) == Parsed(Decimals.Zero, null, Some(CantFindUniqueCode(code)))
    ensures Resolve(code, cc, additional) != null ==>
      Parse(a + [sep] + code, cc, additional) == AmountOf(a, Resolve(code, cc, additional))
    ensures additional != null && additional.info.uniqueCode == code && Decimals.FromString(a).Success? ==>
      Parse(a + [sep] + code, cc, additional).currency == additional
  {
    FieldsOfPair(a, code, sep);
  }

  /** The unique code of a valid currency has no space of either kind. */
  lemma ValidCodeUnbroken(c: CurrencyInfo)
    requires ValidateCurrency(c).None?
    ensures Unbroken(c.uniqueCode)
  {
    assert forall i | 0 <= i < |c.standardName| :: IsAlphaNumeric(c.standardName[i]);
    assert forall i | 0 <= i < |c.code| :: IsAlphaNumeric(c.code[i]);
    assert c.uniqueCode == c.standardName + "-" + c.code;
    forall i | 0 <= i < |c.uniqueCode|
      ensures c.uniqueCode[i] != ' ' && c.uniqueCode[i] != NoBreakSpace
    {
      if i < |c.standardName| {
        assert c.uniqueCode[i] == c.standardName[i];
      } else if i > |c.standardName| {
        assert c.uniqueCode[i] == c.code[i - |c.standardName| - 1];
      }
    }
  }

  /** The text of an amount has no space of either kind. */
  lemma AmountUnbroken(d: Decimals.Decimal)
    ensures Unbroken(Decimals.String(d))
  {
    Decimals.StringShape(d);
    var s := Decimals.String(d);
    assert forall j | 0 <= j < |s| :: s[j] == '-' || Decimals.IsDigit(s[j]) || s[j] == '.';
  }

  /**
    `parse` reads back what `String` prints: the amount (in the form its
    text gives back: the same number, with exponent at most 0) and the very
    same currency, provided the collection finds the currency under its
    unique code and the currency is valid.
  */
  lemma StringRoundTrip(v: Value, cc: CurrencyCollection?)
    requires v.currency != null ==> ValidateCurrency(v.currency.info).None?
    requires v.currency != null ==> cc != null && cc.ByUniqueCode(v.currency.info.uniqueCode) == v.currency
    ensures Parse(v.String(), cc, null) == Parsed(Decimals.Canonical(v.amount), v.currency, None)
    ensures Decimals.Equal(Decimals.Canonical(v.amount), v.amount)
  {
    var a := Decimals.String(v.amount);
    AmountUnbroken(v.amount);
    Decimals.StringRoundTrip(v.amount);
    if v.currency == null {
      ParseOneField(a, cc, null);
    } else {
      ValidCodeUnbroken(v.currency.info);
      assert v.String() == a + [' '] + v.currency.info.uniqueCode;
      ParseTwoFields(a, v.currency.info.uniqueCode, ' ', cc, null);
    }
  }

  /** `FromString`: the parsed value, with the registry's currencies; any parse error is returned. */
  function FromString(str: string, cc: CurrencyCollection): (r: Result<Value, Error>)
    reads cc
    ensures r.Success? <==> Parse(str, cc, null).err.None?
    ensures r.Success? ==> r.value == Value(Parse(str, cc, null).amount, Parse(str, cc, null).currency)
    ensures r.Failure? ==> r.error == Parse(str, cc, null).err.value
  {
    var p := Parse(str, cc, null);
    if p.err.Some? then Failure(p.err.value) else Success(Value(p.amount, p.currency))
  }

  /** `MustFromString`: `FromString` for input known to parse. */
  function MustFromString(str: string, cc: CurrencyCollection): (v: Value)
    reads cc
    requires FromString(str, cc).Success?
    ensures Success(v) == FromString(str, cc)
  {
    FromString(str, cc).value
  }

  /**
    `FromStringAndCurrency`: the text may name a currency, but the result
    always has the caller's currency `cur`; a text naming another currency
    (or any currency when `cur` is nil) fails.
  */
  function FromStringAndCurrency(str: string, cc: CurrencyCollection, cur: Currency?): (r: Result<Value, Error>)
    reads cc
    ensures r.Success? ==> r.value.currency == cur
    ensures r.Success? ==> r.value.amount == Parse(str, cc, cur).amount && Parse(str, cc, cur).err.None?
    ensures Parse(str, cc, cur).err.Some? ==> r == Failure(Parse(str, cc, cur).err.value)
    ensures Parse(str, cc, cur).err.None? && Parse(str, cc, cur).currency != null && Parse(str, cc, cur).currency != cur ==>
      r == Failure(CurrencyMismatch(Parse(str, cc, cur).currency, cur))
    ensures Parse(str, cc, cur).err.None? && (Parse(str, cc, cur).currency == null || Parse(str, cc, cur).currency == cur) ==>
      r == Success(Value(Parse(str, cc, cur).amount, cur))
  {
    var p := Parse(str, cc, cur);
    if p.err.Some? then Failure(p.err.value)
    else
      var newCur := if p.currency == null then cur else p.currency;
      if newCur != cur then Failure(CurrencyMismatch(newCur, cur))
      else Success(Value(p.amount, newCur))
  }

  /** A text with no currency takes the caller's currency, and one naming the caller's currency keeps it. */
  lemma FromStringAndCurrencySucceeds(a: string, cc: CurrencyCollection, cur: Currency?)
    requires Unbroken(a) && Decimals.FromString(a).Success?
    ensures FromStringAndCurrency(a, cc, cur) == Success(Value(Decimals.FromString(a).value, cur))
    ensures cur != null && Unbroken(cur.info.uniqueCode) ==>
      FromStringAndCurrency(a + " " + cur.info.uniqueCode, cc, cur) == Success(Value(Decimals.FromString(a).value, cur))
    ensures cur != null && Unbroken(cur.info.uniqueCode) ==>
      FromStringAndCurrency(a + [NoBreakSpace] + cur.info.uniqueCode, cc, cur) == Success(Value(Decimals.FromString(a).value, cur))
  {
    ParseOneField(a, cc, cur);
    if cur != null && Unbroken(cur.info.uniqueCode) {
      assert a + " " + cur.info.uniqueCode == a + [' '] + cur.info.uniqueCode;
      ParseTwoFields(a, cur.info.uniqueCode, ' ', cc, cur);
      ParseTwoFields(a, cur.info.uniqueCode, NoBreakSpace, cc, cur);
    }
  }

  /**
    A text naming a currency of the collection that is not the caller's
    currency fails, also when the caller gives none.
  */
  lemma FromStringAndCurrencyMismatch(a: string, code: string, cc: CurrencyCollection, cur: Currency?)
    requires Unbroken(a) && Unbroken(code) && Decimals.FromString(a).Success?
    requires cc.ByUniqueCode(code) != null && cc.ByUniqueCode(code) != cur
    requires cur == null || cur.info.uniqueCode != code
    ensures FromStringAndCurrency(a + " " + code, cc, cur) == Failure(CurrencyMismatch(cc.ByUniqueCode(code), cur))
  {
    assert a + " " + code == a + [' '] + code;
    ParseTwoFields(a, code, ' ', cc, cur);
  }

  /** `MustFromStringAndCurrency`: `FromStringAndCurrency` for input known to be accepted. */
  function MustFromStringAndCurrency(str: string, cc: CurrencyCollection, cur: Currency?): (v: Value)
    reads cc
    requires FromStringAndCurrency(str, cc, cur).Success?
    ensures v.currency == cur
    ensures Success(v) == FromStringAndCurrency(str, cc, cur)
  {
    FromStringAndCurrency(str, cc, cur).value
  }

  /** `FromDecimal`: the amount and the currency as given. */
  function FromDecimal(amount: Decimals.Decimal, cur: Currency?): (v: Value)
    ensures v.amount == amount && v.currency == cur
  {
    Value(amount, cur)
  }

  /** `FromInt64`: the integer as an amount with exponent 0. */
  function FromInt64(i: int, cur: Currency?): (v: Value)
    requires -0x8000_0000_0000_0000 <= i < 0x8000_0000_0000_0000
    ensures v.amount.exp == 0 && Decimals.Rescaled(v.amount, 0) == i && v.currency == cur
    ensures Decimals.String(v.amount) == Decimals.IntString(i)
  {
    Value(Decimals.Decimal(i, 0), cur)
  }

  /** `FromInt32`: the integer as an amount with exponent 0. */
  function FromInt32(i: int, cur: Currency?): (v: Value)
    requires -0x8000_0000 <= i < 0x8000_0000
    ensures v == FromInt64(i, cur)
  {
    Value(Decimals.Decimal(i, 0), cur)
  }
}
