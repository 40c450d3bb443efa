/**
  The encodings of a monetary value: the binary form (also used by gob),
  the text form (also the database column), and the JSON record. Encoding
  is a function of the value; decoding fills a receiver in place, and what
  the receiver holds afterwards, together with the error, is stated by a
  function of what it held before. The currency registry the decoders
  consult is passed in as `cc`.
*/
module DataBindings {
  import opened Wrappers
  import opened Binary
  import opened Currencies
  import opened Errors
  import opened CurrencyCollections
  import opened Values
  import Decimals

  /** What a receiver holds after a decode, and the error the decode returned. */
  datatype Decoded = Decoded(value: Value, err: Option<Error>)

  // ---------------------------------------------------------------------
  // Binary and gob

  /** The 4-byte currency prefix: the unique ID as a big-endian int32, or all zero bytes for no currency. */
  function IDPrefix(c: Currency?): (b: seq<Byte>)
    ensures |b| == 4
    ensures b == [0, 0, 0, 0] <==> c == null || c.info.uniqueID == 0
    ensures c != null ==> DecodeInt32(b) == c.info.uniqueID
  {
    if c == null then [0, 0, 0, 0]
    else
      EncodeInt32Zero(c.info.uniqueID);
      Int32RoundTrip(c.info.uniqueID);
      EncodeInt32(c.info.uniqueID)
  }

  /** `MarshalBinary`: the currency prefix, then the binary form of the amount. */
  function MarshalBinary(v: Value): (b: seq<Byte>)
    ensures |b| >= 9
    ensures b[..4] == [0, 0, 0, 0] <==> v.currency == null || v.currency.info.uniqueID == 0
    ensures v.currency != null ==> DecodeInt32(b[..4]) == v.currency.info.uniqueID
    ensures b[4..] == Decimals.MarshalBinary(v.amount)
  {
    var b := IDPrefix(v.currency) + Decimals.MarshalBinary(v.amount);
    assert b[..4] == IDPrefix(v.currency);
    b
  }

  /** `GobEncode`: the binary form. */
  function GobEncode(v: Value): seq<Byte>
  {
    MarshalBinary(v)
  }

  /**
    `UnmarshalBinary` on a receiver holding `prior`. Fewer than 4 bytes, or
    a non-zero ID the registry does not know, fail before anything is
    written. Otherwise the currency is stored first (nil for ID 0) and the
    amount is decoded into the receiver afterwards, so a bad amount leaves
    the new currency behind.
  */
  function BinaryDecoded(prior: Value, data: seq<Byte>, cc: CurrencyCollection): Decoded
    reads cc
  {
    if |data| < 4 then Decoded(prior, Some(BinaryTooShort(|data|)))
    else
      var id := DecodeInt32(data[..4]);
      var cur := if id == 0 then null else cc.ByUniqueID(id);
      if id != 0 && cur == null then Decoded(prior, Some(CantFindUniqueID(id)))
      else
        var amount := Decimals.UnmarshalBinary(prior.amount, data[4..]);
        Decoded(Value(amount.0, cur), if amount.1.Some? then Some(InvalidAmount(amount.1.value)) else None)
  }

  /**
    Decoding the binary form gives back the very value, whatever the
    receiver held, when its currency (if any) has a non-zero unique ID under
    which the registry finds it.
  */
  lemma BinaryRoundTrip(prior: Value, v: Value, cc: CurrencyCollection)
    requires v.currency != null ==> v.currency.info.uniqueID != 0 && cc.ByUniqueID(v.currency.info.uniqueID) == v.currency
    ensures BinaryDecoded(prior, MarshalBinary(v), cc) == Decoded(v, None)
  {
    Decimals.BinaryRoundTrip(prior.amount, v.amount);
  }

  /**
    For a member of a valid registry that passes the corrected validation,
    the binary form, and so gob, round-trips exactly.
  */
  lemma BinaryRoundTripRegistered(prior: Value, v: Value, cc: CurrencyCollection)
    requires cc.Valid()
    requires v.currency != null ==> v.currency in cc.hasCurrency && ValidateCurrencyReservingZero(v.currency.info).None?
    ensures BinaryDecoded(prior, MarshalBinary(v), cc) == Decoded(v, None)
    ensures BinaryDecoded(prior, GobEncode(v), cc) == Decoded(v, None)
  {
    if v.currency != null {
      MemberFindable(cc, v.currency);
    }
    BinaryRoundTrip(prior, v, cc);
  }

  /**
    A currency with unique ID 0 passes `ValidateCurrency` as written, yet its
    binary form decodes to the same amount without any currency.
  */
  lemma ZeroIDLosesCurrency(prior: Value, d: Decimals.Decimal, c: Currency, cc: CurrencyCollection)
    requires c.info == FooBarZero
    ensures ValidateCurrency(c.info).None?
    ensures BinaryDecoded(prior, MarshalBinary(Value(d, c)), cc) == Decoded(Value(d, null), None)
  {
    ZeroIDValidates();
    Decimals.BinaryRoundTrip(prior.amount, d);
  }

  /**
    The failures of the binary decoder: too short and unknown ID leave the
    receiver as it was; a known or zero ID is stored even when the amount
    then fails to decode, and only the amount's failure is reported.
  */
  lemma BinaryDecodedFailures(prior: Value, data: seq<Byte>, cc: CurrencyCollection)
    requires cc.Valid()
    ensures |data| < 4 ==> BinaryDecoded(prior, data, cc) == Decoded(prior, Some(BinaryTooShort(|data|)))
    ensures (|data| >= 4 && DecodeInt32(data[..4]) != 0 &&
             forall d | d in cc.hasCurrency :: d.info.uniqueID != DecodeInt32(data[..4])) ==>
      BinaryDecoded(prior, data, cc) == Decoded(prior, Some(CantFindUniqueID(DecodeInt32(data[..4]))))
    ensures |data| >= 4 && data[..4] == [0, 0, 0, 0] ==> BinaryDecoded(prior, data, cc).value.currency == null
    ensures (|data| >= 4 && BinaryDecoded(prior, data, cc).err != Some(CantFindUniqueID(DecodeInt32(data[..4]))) &&
             BinaryDecoded(prior, data, cc).value.currency != null) ==>
      BinaryDecoded(prior, data, cc).value.currency in cc.hasCurrency &&
      BinaryDecoded(prior, data, cc).value.currency.info.uniqueID == DecodeInt32(data[..4])
    ensures |data| >= 4 && BinaryDecoded(prior, data, cc).err.Some? && BinaryDecoded(prior, data, cc).value != prior ==>
      BinaryDecoded(prior, data, cc).err.value.InvalidAmount?
  {
    if |data| >= 4 {
      var id := DecodeInt32(data[..4]);
      if data[..4] == [0, 0, 0, 0] {
        assert id == 0 by {
          EncodeInt32Zero(0);
          Int32RoundTrip(0);
        }
      }
      if id != 0 {
        var found := cc.ByUniqueID(id);
        assert found != null ==> found in cc.hasCurrency && found.info.uniqueID == id;
      }
    }
  }

  // ---------------------------------------------------------------------
  // Text and database column

  /** `MarshalText`: the value's text. */
  function MarshalText(v: Value): string
  {
    v.String()
  }

  /** `Value`, the database driver's view: the value's text. */
  function DriverValue(v: Value): string
  {
    v.String()
  }

  /**
    `UnmarshalText` on a receiver holding `prior`: the text is parsed with
    the registry and no extra currency; on success amount and currency are
    replaced, on failure the receiver is left as it was.
  */
  function TextDecoded(prior: Value, text: string, cc: CurrencyCollection): (r: Decoded)
    reads cc
    ensures r.err.Some? ==> r.value == prior && r.err == Parse(text, cc, null).err
    ensures r.err.None? <==> FromString(text, cc).Success?
    ensures r.err.None? ==> r.value == FromString(text, cc).value
  {
    var p := Parse(text, cc, null);
    if p.err.Some? then Decoded(prior, p.err) else Decoded(Value(p.amount, p.currency), None)
  }

  /**
    Decoding the text of a value gives the same currency and the same
    number, whatever the receiver held, when the currency is valid and the
    registry finds it under its unique code. The amount comes back in the
    form its text gives (an exponent of at most 0).
  */
  lemma TextRoundTrip(prior: Value, v: Value, cc: CurrencyCollection)
    requires v.currency != null ==> ValidateCurrency(v.currency.info).None?
    requires v.currency != null ==> cc.ByUniqueCode(v.currency.info.uniqueCode) == v.currency
    ensures TextDecoded(prior, MarshalText(v), cc) == Decoded(Value(Decimals.Canonical(v.amount), v.currency), None)
    ensures Decimals.Equal(Decimals.Canonical(v.amount), v.amount)
  {
    StringRoundTrip(v, cc);
  }

  /** A database column: a string, or anything else. */
  datatype Column = Text(s: string) | Other

  /** `Scan` on a receiver holding `prior`: a string column is read like `UnmarshalText`; anything else fails untouched. */
  function Scanned(prior: Value, column: Column, cc: CurrencyCollection): (r: Decoded)
    reads cc
    ensures column.Other? ==> r == Decoded(prior, Some(IncompatibleType))
    ensures column.Text? ==> r == TextDecoded(prior, column.s, cc)
  {
    match column
    case Other => Decoded(prior, Some(IncompatibleType))
    case Text(s) => TextDecoded(prior, s, cc)
  }

  /** A member of a valid registry that validates survives the database column, up to the amount's form. */
  lemma ScanRoundTrip(prior: Value, v: Value, cc: CurrencyCollection)
    requires cc.Valid()
    requires v.currency != null ==> v.currency in cc.hasCurrency && ValidateCurrency(v.currency.info).None?
    ensures Scanned(prior, Text(DriverValue(v)), cc) == Decoded(Value(Decimals.Canonical(v.amount), v.currency), None)
  {
    if v.currency != null {
      MemberFindable(cc, v.currency);
    }
    TextRoundTrip(prior, v, cc);
  }

  // ---------------------------------------------------------------------
  // JSON

  /**
    The JSON object `{"Value": ..., "Currency": ...}`: the amount as the
    decimal library writes it, and the unique code, "" meaning the field is
    left out.
  */
  datatype JsonRecord = JsonRecord(amount: string, currency: string)

  /** `MarshalJSON`: the amount's text, and the unique code when there is a currency. */
  function MarshalJSON(v: Value): (j: JsonRecord)
    ensures j.amount == Decimals.String(v.amount)
    ensures v.currency != null ==> j.currency == v.currency.info.uniqueCode
    ensures v.currency == null ==> j.currency == ""
  {
    JsonRecord(Decimals.String(v.amount), if v.currency != null then v.currency.info.uniqueCode else "")
  }

  /**
    `UnmarshalJSON` on a receiver holding `prior`: the amount is read first;
    a non-empty code the registry does not know fails; only a full success
    replaces amount and currency, an absent code giving no currency.
  */
  function JsonDecoded(prior: Value, j: JsonRecord, cc: CurrencyCollection): (r: Decoded)
    reads cc
    ensures r.err.Some? ==> r.value == prior
    ensures Decimals.FromString(j.amount).Failure? ==> r.err == Some(InvalidAmount(Decimals.FromString(j.amount).error))
    ensures r.err.None? <==>
      Decimals.FromString(j.amount).Success? && (j.currency == "" || cc.ByUniqueCode(j.currency) != null)
    ensures r.err.None? ==> r.value.amount == Decimals.FromString(j.amount).value
    ensures r.err.None? && j.currency == "" ==> r.value.currency == null
    ensures r.err.None? && j.currency != "" ==> r.value.currency == cc.ByUniqueCode(j.currency)
  {
    match Decimals.FromString(j.amount)
    case Failure(e) => Decoded(prior, Some(InvalidAmount(e)))
    case Success(d) =>
      if j.currency == "" then Decoded(Value(d, null), None)
      else
        var cur := cc.ByUniqueCode(j.currency);
        if cur == null then Decoded(prior, Some(CantFindUniqueCode(j.currency)))
        else Decoded(Value(d, cur), None)
  }

  /** The JSON record of a value decodes to the same currency and the same number, whatever the receiver held. */
  lemma JsonRoundTrip(prior: Value, v: Value, cc: CurrencyCollection)
    requires cc.Valid()
    requires v.currency != null ==> v.currency in cc.hasCurrency && ValidateCurrency(v.currency.info).None?
    ensures JsonDecoded(prior, MarshalJSON(v), cc) == Decoded(Value(Decimals.Canonical(v.amount), v.currency), None)
  {
    Decimals.StringRoundTrip(v.amount);
    if v.currency != null {
      MemberFindable(cc, v.currency);
      assert |v.currency.info.uniqueCode| > 0 by {
        assert v.currency.info.uniqueCode == v.currency.info.standardName + "-" + v.currency.info.code;
      }
    }
  }

  // ---------------------------------------------------------------------
  // The receiver

  /** A `*Value` receiver: the two fields the decoders overwrite. */
  class ValueVar {
    var amount: Decimals.Decimal
    var currency: Currency?

    constructor (v: Value)
      ensures Get() == v
    {
      amount := v.amount;
      currency := v.currency;
    }

    /** The value the receiver holds. */
    function Get(): Value
      reads this
    {
      Value(amount, currency)
    }

    /** `UnmarshalBinary`: checks the length, resolves and stores the currency, then decodes the amount in place. */
    method UnmarshalBinary(data: seq<Byte>, cc: CurrencyCollection) returns (err: Option<Error>)
      modifies this
      ensures Decoded(Get(), err) == BinaryDecoded(old(Get()), data, cc)
    {
      if |data| < 4 {
        return Some(BinaryTooShort(|data|));
      }
      var id := DecodeInt32(data[..4]);
      if id == 0 {
        currency := null;
      } else {
        var cur := cc.ByUniqueID(id);
        if cur == null {
          return Some(CantFindUniqueID(id));
        }
        currency := cur;
      }
      var decoded := Decimals.UnmarshalBinary(amount, data[4..]);
      amount := decoded.0;
      err := if decoded.1.Some? then Some(InvalidAmount(decoded.1.value)) else None;
    }

    /** `GobDecode`: the binary decoder. */
    method GobDecode(data: seq<Byte>, cc: CurrencyCollection) returns (err: Option<Error>)
      modifies this
      ensures Decoded(Get(), err) == BinaryDecoded(old(Get()), data, cc)
    {
      err := UnmarshalBinary(data, cc);
    }

    /** `UnmarshalText`: parses with the registry; assigns both fields only on success. */
    method UnmarshalText(text: string, cc: CurrencyCollection) returns (err: Option<Error>)
      modifies this
      ensures Decoded(Get(), err) == TextDecoded(old(Get()), text, cc)
    {
      var p := Parse(text, cc, null);
      if p.err.Some? {
        return p.err;
      }
      amount, currency := p.amount, p.currency;
      err := None;
    }

    /** `Scan`: refuses a column that is not a string, else reads it like `UnmarshalText`. */
    method Scan(column: Column, cc: CurrencyCollection) returns (err: Option<Error>)
      modifies this
      ensures Decoded(Get(), err) == Scanned(old(Get()), column, cc)
    {
      if column.Other? {
        return Some(IncompatibleType);
      }
      var p := Parse(column.s, cc, null);
      if p.err.Some? {
        return p.err;
      }
      amount, currency := p.amount, p.currency;
      err := None;
    }

    /** `UnmarshalJSON`: reads the record's amount, resolves a non-empty code, then assigns both fields. */
    method UnmarshalJSON(j: JsonRecord, cc: CurrencyCollection) returns (err: Option<Error>)
      modifies this
      ensures Decoded(Get(), err) == JsonDecoded(old(Get()), j, cc)
    {
      var parsed := Decimals.FromString(j.amount);
      if parsed.Failure? {
        return Some(InvalidAmount(parsed.error));
      }
      var cur: Currency? := null;
      if j.currency != "" {
        cur := cc.ByUniqueCode(j.currency);
        if cur == null {
          return Some(CantFindUniqueCode(j.currency));
        }
      }
      amount, currency := parsed.value, cur;
      err := None;
    }
  }
}
