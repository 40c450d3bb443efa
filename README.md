# money — a Dafny model of currencies, monetary values and their encodings

This project models the core of the Go package `money` (D3money):

- **Currencies.** Each currency is an instance reporting a name, a standard, a unique ID, a unique code `Standard-Code`, a code, a numeric code, two symbols and its decimal places. `ValidateCurrency` checks these values.
- **The ISO 4217 table.** The table has 179 currencies. Each row's accessors are computed from the row: the unique ID is the numeric code plus 42170000, and the unique code is `"ISO4217-"` plus the alphabetic code.
- **`CurrencyCollection`.** This is a registry that keeps members in insertion order, with a membership set and lookups by unique ID and unique code. When it is locked to one standard, it also looks up by numeric code and by code.
- **Monetary values.** A value is a decimal amount and an optional currency. The model covers its text form `Amount` or `Amount UniqueCode`, the parser that reads the text back, comparison, arithmetic, and `Sum`.
- **The data bindings.** These are the binary codec (also used by gob), the text codec (also used for the database column), and the JSON record.

Currencies are compared by instance, as Go compares `Currency` interface values: `Currency` is a Dafny class, and equality is reference equality.

`CurrencyCollection` is a class whose fields `all`, `hasCurrency` and the four indices are updated in place by `add` and `Add`. Pure functions (`Added`, `AddedAll`) say what those methods do to the contents, and the representation invariant `Indexed` is proved to be preserved.

`Sum` is a loop proved against the recursive specification `SumSpec`. The decoders of the data bindings are methods of the class `ValueVar`, the `*Value` receiver. Their new contents and error are tied to the functions `BinaryDecoded`, `TextDecoded`, `Scanned` and `JsonDecoded`, which take the receiver's previous contents as input.

The decimal library the package uses (shopspring `decimal`) is not part of this model. A small stand-in, `Decimals.Decimal(value, exp)`, holds the number `value × 10^exp`. It provides:

- exact comparison, addition, subtraction, multiplication, negation and sign;
- the text form: digits, with a point for a negative exponent;
- the binary form: the exponent as a big-endian int32, then a gob-style signed integer.

The stand-in proves its own round trips, so the value-level round trips rest on proofs rather than on assumed facts.

The registry that the Go code reads from the package-level variable `Currencies` (currency-all.go:11) is a parameter `cc` here.

Modules, one per file:

- `Binary`: 32-bit layout.
- `Text`: `strings.Split`/`ReplaceAll` on characters.
- `Positional` and `Decimals`: the decimal stand-in.
- `Currencies`: `Currency` and `ValidateCurrency`.
- `Iso4217`: `ISO4217Currency`.
- `Iso4217Table`: the table, stored column by column.
- `Iso4217Registry`: the table's instances and the locked collection.
- `CurrencyCollections`.
- `Errors`.
- `Values`: `Value`, `String`, `parse` and the constructors.
- `ValueMath`.
- `MoneyMath`: `Sum`.
- `DataBindings`.

## Model

| member | source | states |
|---|---|---|
| Currencies.ValidateCurrency | currency.go:32-76 | no error exactly for a well-formed currency: alphanumeric code and standard name, unique code `Standard-Code`, decimal places matching the smallest-unit flag, symbols equal or both non-empty; an illegal code or standard character is reported as one the string really contains; a malformed unique code is reported with the expected form |
| Currencies.SymbolPairRule | currency.go:65-73 | once the earlier checks pass, the symbol pair is accepted iff the symbols are equal or both non-empty, and a refusal is `SymbolMismatch` |
| Currencies.UniqueCodeDetermines | currency.go:36-50 | two accepted currencies with the same unique code have the same standard name and the same code (the unique code is reversible, since neither part contains `-`) |
| Currencies.FooBarValidates | value_test.go:16-33 | the custom FOO/BAR currency with ID -1 and equal symbols validates |
| Currencies.ZeroIDValidates | currency.go:32-76 | as written, the FOO/BAR currency with unique ID 0 passes `ValidateCurrency`; the corrected validation refuses it with `ReservedUniqueID` |
| Currencies.ValidateCurrencyReservingZero | value-databindings.go:61-64 | corrected validation: no error exactly for a well-formed currency whose unique ID is not the 0 that the binary form reserves for "no currency"; acceptance implies acceptance by `ValidateCurrency` |
| Iso4217.UniqueIDExact | currency-iso4217.go:15 | for numeric codes in range the unique ID is numeric code + 42170000 (the int32 addition does not wrap), is positive, and two rows share it iff they share the numeric code |
| Iso4217.UniqueCodeForm | currency-iso4217.go:60-71 | the unique code is standard + "-" + code, and `String` is the unique code (lines 105-107) |
| Iso4217.NarrowSymbol | currency-iso4217.go:88-93 | the row's narrow symbol when it has one, else the symbol; empty only when the symbol is empty |
| Iso4217.DecimalPlaces | currency-iso4217.go:98-103 | the stored count, with a smallest unit exactly when the count is not -1 |
| Iso4217.ValidIff | currency-iso4217.go:18-107 | a row validates iff its alphabetic code is alphanumeric, its decimal places are at least -1 and it has no narrow symbol without a symbol |
| Iso4217Table.RowFacts | currency-iso4217.go:117-297 | every row of the table: its numeric code (between 8 and 999) and its alphabetic code (three capital letters) each identify that row alone, its decimal places are at least -1, and it has no narrow symbol without a symbol |
| Iso4217Registry.RowValid | currency-iso4217.go:117-297 | every row passes `ValidateCurrency`, also with ID 0 reserved, and its unique ID is its numeric code plus 42170000 |
| Iso4217Registry.RowsDistinct | currency-iso4217.go:117-297 | two different rows differ in numeric code, alphabetic code, unique ID and unique code |
| Iso4217Registry.Infos | currency-iso4217.go:117-297 | the accessor results of the 179 rows, in table order |
| Iso4217Registry.Instantiate | currency-iso4217.go:117 | one new instance per entry, in order, no two the same instance |
| Iso4217Registry.NewCurrencies | currency-iso4217.go:117-297 | `iso4217Currencies`: 179 distinct instances, the k-th reporting row k |
| Iso4217Registry.ListFits | currency-iso4217.go:117-300 | the table's instances never clash, so they fit an empty collection locked to the standard or unlocked |
| Iso4217Registry.ListAdded | currency-iso4217.go:300 | adding the table to an empty collection locked to "ISO4217" succeeds and its members are exactly the table's instances |
| Iso4217Registry.MembersValid | currency-all_test.go:10-16 | every member of a collection holding only the table's instances validates, also with ID 0 reserved |
| Iso4217Registry.CodesFindRows | currency-collection.go:126-134 | in that collection the lookup by each row's code returns that row's instance |
| Iso4217Registry.NewCollection | currency-iso4217.go:300 | `ISO4217Currencies`: building it cannot fail; named and locked "ISO4217"; members are exactly the table's instances, all valid; each row's code finds its instance |
| CurrencyCollections.Empty | currency-collection.go:36-49 | a new collection is empty, has the code indices exactly when locked, and satisfies the invariant |
| CurrencyCollections.LookupUniqueIDFinds | currency-collection.go:95-100 | under the invariant a lookup by unique ID gives a member holding that ID, and nil iff no member holds it |
| CurrencyCollections.LookupUniqueCodeFinds | currency-collection.go:103-108 | the same for the unique code |
| CurrencyCollections.LookupCodesFind | currency-collection.go:113-134 | unlocked, the numeric-code and code lookups always give nil; locked, a member holding the key or nil iff none does |
| CurrencyCollections.Added | currency-collection.go:137-191 | `add`: a rejected currency leaves the contents unchanged; a standard mismatch in a locked collection is rejected; an instance already present changes nothing; a new one is appended once and becomes a member |
| CurrencyCollections.AddedIff | currency-collection.go:141-172 | `add` succeeds exactly when the standard is allowed and the currency clashes with no other member (unique ID, unique code, and when locked numeric code or code) |
| CurrencyCollections.AddedPresent | currency-collection.go:174-177 | adding an instance that is already a member is a no-op |
| CurrencyCollections.FreshKeys | currency-collection.go:160-177 | a new currency that passes the checks finds none of its keys in any index |
| CurrencyCollections.AddedIndexed | currency-collection.go:179-188 | `add` preserves the invariant: list, set and indices agree, every member is stored under each of its keys, every entry is a member under its own key |
| CurrencyCollections.InsertedIndexed | currency-collection.go:179-188 | appending and indexing a new, clash-free currency of the allowed standard preserves the invariant |
| CurrencyCollections.InsertedListing | currency-collection.go:179-180 | appending a non-member keeps the list free of repeats and equal to the set |
| CurrencyCollections.InsertedIndexedUnder | currency-collection.go:181-188 | after indexing a currency with fresh keys, every member is still stored under each of its keys |
| CurrencyCollections.InsertedEntriesListed | currency-collection.go:179-188 | after inserting, every index entry is a member stored under its own key |
| CurrencyCollections.AddedFindable | currency-collection.go:179-188 | after a successful add, the new currency is found by its unique ID and unique code, and when locked by its numeric code and code |
| CurrencyCollections.AddedAll | currency-collection.go:194-205 | `Add`: currencies are added in order and the first rejection ends the batch; nothing registered before is lost; on success every currency of the batch is a member |
| CurrencyCollections.AddedAllIndexed | currency-collection.go:194-205 | a batch preserves the invariant |
| CurrencyCollections.AddedAllStops | currency-collection.go:198-201 | a batch that fails at position k reports that rejection and keeps exactly what the first k currencies registered |
| CurrencyCollections.AddedAllAppend | currency-collection.go:51-55 | a batch in two parts is the second part added after the first, unless the first failed |
| CurrencyCollections.AddedAllFits | currency-collection.go:141-191 | a batch of allowed, mutually clash-free currencies that clash with no member is added without error, and the members become the old ones plus the batch |
| CurrencyCollections.CurrencyCollection.constructor | currency-collection.go:36-49 | a new collection with the given name and standard, empty, code indices only when locked |
| CurrencyCollections.CurrencyCollection.AddOne | currency-collection.go:137-191 | `add` in place: the new contents and the error are those of `Added`, and the invariant holds |
| CurrencyCollections.CurrencyCollection.Insert | currency-collection.go:179-188 | appends to the list and the set and stores the currency under each key the collection indexes |
| CurrencyCollections.CurrencyCollection.Add | currency-collection.go:194-205 | `Add` in place: a loop whose new contents and error are those of `AddedAll`, and the invariant holds |
| CurrencyCollections.CurrencyCollection.All | currency-collection.go:87-92 | the list holds every member exactly once and nothing else |
| CurrencyCollections.CurrencyCollection.ByUniqueID | currency-collection.go:95-100 | a member holding the unique ID, or nil exactly when no member holds it |
| CurrencyCollections.CurrencyCollection.ByUniqueCode | currency-collection.go:103-108 | a member holding the unique code, or nil exactly when no member holds it |
| CurrencyCollections.CurrencyCollection.ByNumericCode | currency-collection.go:113-121 | always nil when unlocked; otherwise a member holding the numeric code, or nil when none does |
| CurrencyCollections.CurrencyCollection.ByCode | currency-collection.go:126-134 | always nil when unlocked; otherwise a member holding the code, or nil when none does |
| CurrencyCollections.MemberFindable | currency-collection.go:95-108 | every member of a valid collection is what the lookups by its own unique ID and unique code return |
| CurrencyCollections.NewCurrencyCollection | currency-collection.go:35-58 | the lists are added one after another; the error is that of the concatenated batch, there is no collection exactly when it fails, and otherwise the collection holds the batch's outcome |
| CurrencyCollections.ConcatNext | currency-collection.go:51-55 | once the first j lists went in without error, list j is added to the contents they left |
| CurrencyCollections.ConcatStops | currency-collection.go:51-55 | once a list fails, the remaining lists change nothing |
| CurrencyCollections.MustNewCurrencyCollection | currency-collection.go:66-73 | for lists known to fit, the collection with the contents of the whole batch |
| Text.SplitCount | value.go:159 | `strings.Split` on one character gives one more piece than the separators in the string |
| Text.SplitPair | value.go:159-167 | two separator-free strings joined by the separator split back into exactly those two |
| Text.ReplaceAllRemoves | value.go:156 | after `ReplaceAll` of U+00A0 by a space none is left |
| Values.AmountOf | value.go:190-196 | the amount text read by the decimal library: on success that amount with the given currency, on failure the zero amount, no currency and the library's error |
| Values.Resolve | value.go:169-179 | the caller's currency when its unique code is the token, else the collection's member with it, else nil |
| Values.Parse | value.go:150-198 | any error gives the zero amount and no currency; more than two fields fail with "too many spaces"; a currency is returned only from two fields, and it is the resolved one |
| Values.ParseOneField | value.go:161-163 | text without a space or no-break space is one field, read as an amount without currency |
| Values.ParseTooManySpaces | value.go:186-187 | two or more separators, after U+00A0 became a space, fail with `TooManySpaces` |
| Values.ParseTwoFields | value.go:165-184 | amount and code joined by a space or a no-break space: an unresolved code fails with `CantFindUniqueCode` whatever the amount; a resolved one gives the amount and that currency; the caller's currency wins over the collection |
| Values.ValidCodeUnbroken | currency.go:48-50 | the unique code of a valid currency contains no space of either kind |
| Values.AmountUnbroken | value.go:136 | the text of an amount contains no space of either kind |
| Values.StringRoundTrip | value.go:133-149 | `parse(String(v), cc, nil)` gives `v`'s currency and an amount equal to `v`'s number, when the currency is valid and the collection finds it under its unique code |
| Values.FromString | value.go:30-37 | success exactly when `parse` succeeds with the registry and no extra currency, with its amount and currency; otherwise its error |
| Values.MustFromString | value.go:46-53 | `FromString` for input known to parse |
| Values.FromStringAndCurrency | value.go:69-87 | a success always has the caller's currency; a parse error is returned; a text naming another currency fails with `CurrencyMismatch`; a text that parses with no currency or with the caller's currency succeeds with the parsed amount and the caller's currency |
| Values.FromStringAndCurrencySucceeds | value_test.go:75-82 | a text without currency takes the caller's currency, and a text naming the caller's currency after a space or a U+00A0 keeps it |
| Values.FromStringAndCurrencyMismatch | value_test.go:76-83 | a text naming a registered currency other than the caller's fails, also when the caller gives none |
| Values.MustFromStringAndCurrency | value.go:97-104 | `FromStringAndCurrency` for accepted input; the result has the caller's currency |
| Values.FromDecimal | value.go:107-109 | the amount and currency as given |
| Values.FromInt64 | value.go:122-124 | the integer as an amount with exponent 0, printed as the integer's decimal text |
| Values.FromInt32 | value.go:127-129 | the same value as `FromInt64` of the integer |
| ValueMath.EqualMeansSameNumber | value-math.go:10-15 | `Equal` holds iff the currencies are the same instance and the amounts agree at every common scale |
| ValueMath.EqualReflexive | value-math.go:10-15 | `Equal(v, v)` |
| ValueMath.EqualSymmetric | value-math.go:10-15 | `Equal` is symmetric |
| ValueMath.EqualTransitive | value-math.go:10-15 | `Equal` is transitive |
| ValueMath.Compare | value-math_test.go:57-61 | an error naming both currencies exactly when they differ; otherwise -1, 0 or 1 with the sign of the difference of the amounts at every common scale |
| ValueMath.EqualChecked | value-math_test.go:27-30 | the variant of `Equal` with an error: an error exactly for different currencies, otherwise `Equal` |
| ValueMath.GreaterThan | value-math_test.go:46-75 | an error exactly for different currencies, otherwise true exactly when `v` is the larger amount (the sign of `Compare`) |
| ValueMath.GreaterThanOrEqual | value-math_test.go:77-106 | an error exactly for different currencies, otherwise true exactly when `v` is not the smaller amount (the sign of `Compare`) |
| ValueMath.LessThan | value-math_test.go:108-137 | an error exactly for different currencies, otherwise true exactly when `v` is the smaller amount (the sign of `Compare`) |
| ValueMath.LessThanOrEqual | value-math_test.go:139-168 | an error exactly for different currencies, otherwise true exactly when `v` is not the larger amount (the sign of `Compare`) |
| ValueMath.OrderFollowsAmounts | value-math_test.go:57-61 | with the same currency the four orderings and the checked equality are the integer comparisons of the amounts at any common scale |
| ValueMath.OrderDuality | value-math_test.go:88-92 | `v > w` iff `w < v`, `v >= w` iff `w <= v`, `>=` is `>` or equal, `<` is not `>=` |
| ValueMath.Add | value-math_test.go:234-237 | an error for different currencies; otherwise the exact sum in the shared currency |
| ValueMath.Sub | value-math_test.go:264-267 | an error for different currencies; otherwise the exact difference in the shared currency |
| ValueMath.AddThenSub | value-math_test.go:223-267 | subtracting what was added gives a value equal to the original |
| ValueMath.Mul | value-math_test.go:294-298 | an error when both have a currency; otherwise the exact product with whichever currency is present, exponent the sum of the exponents |
| ValueMath.Abs | value-math_test.go:314-333 | the same currency, a non-negative sign, the value itself or its negation |
| ValueMath.Neg | value-math_test.go:335-354 | the same currency, the opposite sign, and adding it to the value gives zero |
| ValueMath.Sign | value-math_test.go:356-374 | -1, 0 or 1: the amount's comparison with zero |
| ValueMath.SignCases | value-math_test.go:376-434 | `IsPositive`, `IsNegative`, `IsZero` follow the amount's sign, and the currency plays no part in the sign |
| ValueMath.NegAbsLaws | value-math_test.go:314-354 | `Neg` is its own inverse, `Abs` is idempotent and ignores negation |
| ValueMath.CurrencyGate | value-math.go:11-13 | values of different currencies are never `Equal`, and every checked comparison and `Add`/`Sub` refuse them |
| MoneyMath.SumSpec | math.go:8-18 | a successful sum has `first`'s currency |
| MoneyMath.SumSpecStops | math.go:11-13 | once a prefix fails, the whole input fails the same way |
| MoneyMath.SumSucceeds | math.go:8-18 | the sum succeeds exactly when every value has `first`'s currency (nil matching only nil) |
| MoneyMath.SumExact | math.go:10-15 | a successful sum is exact: at any common scale its amount is `first`'s plus every value's |
| MoneyMath.SumFirstMismatch | math_test.go:24 | a failing sum reports `first`'s currency and that of the first value with another currency |
| MoneyMath.Sum | math.go:8-18 | the loop computes `SumSpec`, and with no values the result is `first` |
| MoneyMath.MustSum | math.go:24-30 | for values sharing `first`'s currency, the value `Sum` succeeds with |
| Binary.Int32RoundTrip | value-databindings.go:63-80 | `int32(BigEndian.Uint32(PutUint32(uint32(id))))` is `id` for every int32, negative ones included |
| Binary.EncodeInt32Zero | value-databindings.go:61-81 | the 4-byte layout is all zero bytes exactly for the ID 0 |
| DataBindings.IDPrefix | value-databindings.go:61-64 | four bytes, all zero exactly for no currency or ID 0, and decoding to the currency's unique ID |
| DataBindings.MarshalBinary | value-databindings.go:60-72 | the currency prefix (zero bytes exactly for no currency or ID 0, else decoding to the unique ID) followed by the amount's binary form; at least 9 bytes |
| DataBindings.BinaryRoundTrip | value-databindings.go:60-91 | decoding the binary form gives back the very value whatever the receiver held, when the currency has a non-zero ID under which the registry finds it |
| DataBindings.BinaryRoundTripRegistered | value-databindings_test.go:76-115 | for a member of a valid registry passing the corrected validation, binary and gob round-trip exactly |
| DataBindings.ZeroIDLosesCurrency | value-databindings.go:63-81 | as written: a currency with unique ID 0 validates, yet its binary form decodes to the same amount without currency |
| DataBindings.BinaryDecodedFailures | value-databindings.go:76-90 | fewer than 4 bytes, or a non-zero ID no member holds, fail and leave the receiver unchanged; a zero prefix clears the currency; unless the ID was unknown, the stored currency is the member with that ID, also when the amount then fails; a changed receiver with an error means the amount failed |
| DataBindings.TextDecoded | value-databindings.go:99-107 | on failure the receiver is unchanged and the error is `parse`'s; success exactly when `FromString` succeeds, with its value |
| DataBindings.TextRoundTrip | value-databindings_test.go:117-176 | `UnmarshalText(MarshalText(v))` gives `v`'s currency and an amount equal to `v`'s, whatever the receiver held |
| DataBindings.Scanned | value-databindings.go:125-139 | a non-string column fails with `IncompatibleType` and leaves the receiver unchanged; a string column is read like `UnmarshalText` |
| DataBindings.ScanRoundTrip | value-databindings.go:120-139 | `Scan(Value())` of a valid registered currency's value gives that currency and an equal amount |
| DataBindings.MarshalJSON | value-databindings.go:20-33 | the record holds the amount's text and the unique code, the code empty (left out) exactly without currency |
| DataBindings.JsonDecoded | value-databindings.go:37-57 | every failure leaves the receiver unchanged; a bad amount fails first; success iff the amount parses and the code is empty or registered; an empty code gives no currency |
| DataBindings.JsonRoundTrip | value-databindings_test.go:15-34 | the record of a value with a valid registered currency decodes to that currency and an equal amount |
| DataBindings.ValueVar.constructor | value-databindings.go:75 | a receiver holding the given value |
| DataBindings.ValueVar.UnmarshalBinary | value-databindings.go:75-91 | in place: writes the currency, then the amount; the new contents and error are those of `BinaryDecoded` |
| DataBindings.ValueVar.GobDecode | value-databindings.go:115-117 | in place, exactly as `UnmarshalBinary` |
| DataBindings.ValueVar.UnmarshalText | value-databindings.go:99-107 | in place: the new contents and error are those of `TextDecoded` |
| DataBindings.ValueVar.Scan | value-databindings.go:125-139 | in place: the new contents and error are those of `Scanned` |
| DataBindings.ValueVar.UnmarshalJSON | value-databindings.go:37-57 | in place: the new contents and error are those of `JsonDecoded` |

## Findings

| source | as written | input that shows it | evidently intended | confidence | as-written member | corrected member |
|---|---|---|---|---|---|---|
| currency.go:32-76 | `ValidateCurrency` accepts a currency with unique ID 0, and `MarshalBinary` writes such a currency's ID as four zero bytes (value-databindings.go:61-64), which `UnmarshalBinary` reads as "no currency" (value-databindings.go:80-81) | the custom FOO/BAR currency with `UniqueID() == 0`: it validates, and a value in it comes back from `UnmarshalBinary(MarshalBinary(v))` without currency | 0 is reserved for "no currency", so validation refuses it | medium, not executed | DataBindings.ZeroIDLosesCurrency | Currencies.ValidateCurrencyReservingZero |

The corrected validation is what the rest of the model relies on: the ISO 4217 members are proved to pass it (`Iso4217Registry.RowValid`, `Iso4217Registry.NewCollection`), and the registered binary round trip (`DataBindings.BinaryRoundTripRegistered`) requires it.

## Left out

- **Decimal library.** The shopspring `decimal` type is replaced by the stand-in `Decimals.Decimal`. Its arbitrary-precision details, rounding modes, `NewFromFloat`, exponent overflow and exact textual grammar are not those of the library. Its binary form is a simplified gob layout. Two differences reach the value's own operations:
  - `Decimals.String` keeps trailing zeros where the library's `String` trims them: the amount 150 × 10^-2 prints as "1.50", not "1.5". This carries over to `Value.String`, `MarshalText`, the database `Value` and `MarshalJSON`.
  - `Decimals.FromString` refuses exponent notation such as "1e3", which the library's `NewFromString` accepts. This carries over to `parse`, `FromString`, `UnmarshalText`, `Scan` and `UnmarshalJSON`.
- CurrencyCollections.MustNewCurrencyCollection: the panic of currency-collection.go:69 is not modelled; the requires admits only lists that `NewCurrencyCollection` accepts.
- Values.MustFromString: the panic of value.go:49 is not modelled; the requires admits only text that `FromString` accepts.
- Values.MustFromStringAndCurrency: the panic of value.go:100 is not modelled; the requires admits only text that `FromStringAndCurrency` accepts.
- MoneyMath.MustSum: the panic of math.go:27 is not modelled; the requires admits only values that `Sum` accepts.
- ValueMath.Mul: requires that the product's exponent fits an int32 (`MulDefined`); the library's behaviour on exponent overflow is not modelled.
- **Floating point.** `FromFloat64` and `FromFloat32` (value.go:112-119) and `Float64`/`InexactFloat64` are left out.
- **Concurrency.** The `sync.RWMutex` of `CurrencyCollection` is left out; the collection is single-threaded here.
- **`GormDBDataType` and the ORM.** `GormDBDataType` (value-databindings.go:142-154) and the ORM tests are database I/O.
- **JSON bytes.** The JSON byte syntax and `encoding/json` are left out; `JsonRecord` is the decoded object.
  - The amount's key is `Value` in value-databindings.go:22 but `Amount` in value-databindings_test.go:27; the record does not model key names.
  - An absent `Value` field, and the library's `null` amount, are not modelled.
- **Error messages.** Only the error kind and the data it carries are modelled, not the message text or the `%w` wrapping.
- **Value formatting.** value-formatter.go and the localized formatting are left out.
- **The older snapshot.** The files currencies_iso4217.go, currencies-iso4217.go, value_databindings.go and value_databindings_test.go belong to an older snapshot of the package whose behaviour contradicts this one; they are not part of this model.
- **The global registry.** currency-all.go builds the package-level registry `Currencies`; the decoders and `FromString` take the registry as the parameter `cc` instead.
- **Line 300's call.** currency-iso4217.go:300 passes `true` where `MustNewCurrencyCollection` expects the standard's name. `Iso4217Registry.NewCollection` models the evident intent: name and standard both "ISO4217".
- **Two interface snapshots.** The source files disagree on the `Currency` interface. The model uses one set: `StandardName` for `Standard`, `ShortSymbol` for `NarrowSymbol`, plus the `NumericCode` that `add` calls but the interface does not declare.
- **The ISO 4217 table's layout.** The table is stored column by column, and the instances are created by a loop (`Iso4217Registry.Instantiate`) rather than a slice literal; the contents are the same.
- **The `Currency()` accessor.** `Value.Currency()` (value.go:201-203) is the field `currency` itself.
- **Unchecked checks.** `parse` accepts a `nil` collection (value.go:177); `Values.Resolve` models this with a nullable `cc`. The check the source marks as missing at value.go:154, between the extra currency and the collection, is not added.
