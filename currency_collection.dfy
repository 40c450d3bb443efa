/**
  `CurrencyCollection`: an insertion-ordered container of currency instances
  with lookup indices by unique ID and unique code, and, when the collection
  is locked to one currency standard, by numeric code and by code.

  The contents of a collection are described by the value `Registry`; the
  pure functions `Added` and `AddedAll` say what adding does to it, and the
  class `CurrencyCollection` performs the same steps in place.
*/
module CurrencyCollections {
  import opened Wrappers
  import opened Binary
  import opened Currencies
  import opened Errors

  /**
    The mutable fields of a collection. The numeric-code and code indices
    are `None` (Go's nil map) unless the collection is locked to a standard.
  */
  datatype Registry = Registry(
    all: seq<Currency>,
    hasCurrency: set<Currency>,
    byUniqueID: map<Int32, Currency>,
    byUniqueCode: map<string, Currency>,
    byNumericCode: Option<map<int, Currency>>,
    byCode: Option<map<string, Currency>>)

  /** What one add or a batch of adds reports, and the contents afterwards. */
  datatype Outcome = Outcome(err: Option<Error>, registry: Registry)

  /** The contents of a new collection: empty, with the code indices present iff locked to a standard. */
  function Empty(standard: string): (r: Registry)
    ensures r.all == [] && r.hasCurrency == {}
    ensures Indexed(standard, r)
  {
    var locked := standard != "";
    Registry([], {}, map[], map[],
      if locked then Some(map[]) else None,
      if locked then Some(map[]) else None)
  }

  // ---------------------------------------------------------------------
  // The representation invariant

  /** The code indices exist exactly in a collection locked to a standard. */
  predicate Locks(standard: string, r: Registry)
  {
    (r.byNumericCode.Some? <==> standard != "") && (r.byCode.Some? <==> standard != "")
  }

  /** `all` lists every member exactly once, and `hasCurrency` is the set of members. */
  predicate Listing(r: Registry)
  {
    && (forall i, j | 0 <= i < j < |r.all| :: r.all[i] != r.all[j])
    && (forall c | c in r.hasCurrency :: c in r.all)
    && (forall i | 0 <= i < |r.all| :: r.all[i] in r.hasCurrency)
  }

  /** Every index maps the keys of `c` to `c`. */
  predicate IndexedUnder(r: Registry, c: Currency)
  {
    && c.info.uniqueID in r.byUniqueID && r.byUniqueID[c.info.uniqueID] == c
    && c.info.uniqueCode in r.byUniqueCode && r.byUniqueCode[c.info.uniqueCode] == c
    && (r.byNumericCode.Some? ==>
          c.info.numericCode in r.byNumericCode.value && r.byNumericCode.value[c.info.numericCode] == c)
    && (r.byCode.Some? ==> c.info.code in r.byCode.value && r.byCode.value[c.info.code] == c)
  }

  /** Every index entry is a member stored under its own key. */
  predicate EntriesListed(r: Registry)
  {
    && (forall k | k in r.byUniqueID :: r.byUniqueID[k] in r.hasCurrency && r.byUniqueID[k].info.uniqueID == k)
    && (forall k | k in r.byUniqueCode :: r.byUniqueCode[k] in r.hasCurrency && r.byUniqueCode[k].info.uniqueCode == k)
    && (r.byNumericCode.Some? ==> forall k | k in r.byNumericCode.value ::
          r.byNumericCode.value[k] in r.hasCurrency && r.byNumericCode.value[k].info.numericCode == k)
    && (r.byCode.Some? ==> forall k | k in r.byCode.value ::
          r.byCode.value[k] in r.hasCurrency && r.byCode.value[k].info.code == k)
  }

  /**
    The representation invariant of a collection: the list, the set and the
    indices agree, and a locked collection holds only its own standard.
  */
  predicate Indexed(standard: string, r: Registry)
  {
    && Locks(standard, r)
    && Listing(r)
    && (forall c | c in r.hasCurrency :: IndexedUnder(r, c))
    && EntriesListed(r)
    && (standard != "" ==> forall c | c in r.hasCurrency :: c.info.standardName == standard)
  }

  // ---------------------------------------------------------------------
  // Lookups

  function LookupUniqueID(r: Registry, uniqueID: Int32): Currency?
  {
    if uniqueID in r.byUniqueID then r.byUniqueID[uniqueID] else null
  }

  function LookupUniqueCode(r: Registry, uniqueCode: string): Currency?
  {
    if uniqueCode in r.byUniqueCode then r.byUniqueCode[uniqueCode] else null
  }

  function LookupNumericCode(r: Registry, numericCode: int): Currency?
  {
    if r.byNumericCode.Some? && numericCode in r.byNumericCode.value then r.byNumericCode.value[numericCode] else null
  }

  function LookupCode(r: Registry, code: string): Currency?
  {
    if r.byCode.Some? && code in r.byCode.value then r.byCode.value[code] else null
  }

  /** A lookup by unique ID finds the member holding that ID, or nil when no member does. */
  lemma LookupUniqueIDFinds(standard: string, r: Registry, uniqueID: Int32)
    requires Indexed(standard, r)
    ensures LookupUniqueID(r, uniqueID) != null ==>
      LookupUniqueID(r, uniqueID) in r.hasCurrency && LookupUniqueID(r, uniqueID).info.uniqueID == uniqueID
    ensures LookupUniqueID(r, uniqueID) == null <==> forall c | c in r.hasCurrency :: c.info.uniqueID != uniqueID
  {
    if LookupUniqueID(r, uniqueID) == null {
      forall c | c in r.hasCurrency ensures c.info.uniqueID != uniqueID {
        assert IndexedUnder(r, c);
      }
    }
  }

  /** A lookup by unique code finds the member holding that code, or nil when no member does. */
  lemma LookupUniqueCodeFinds(standard: string, r: Registry, uniqueCode: string)
    requires Indexed(standard, r)
    ensures LookupUniqueCode(r, uniqueCode) != null ==>
      LookupUniqueCode(r, uniqueCode) in r.hasCurrency && LookupUniqueCode(r, uniqueCode).info.uniqueCode == uniqueCode
    ensures LookupUniqueCode(r, uniqueCode) == null <==> forall c | c in r.hasCurrency :: c.info.uniqueCode != uniqueCode
  {
    if LookupUniqueCode(r, uniqueCode) == null {
      forall c | c in r.hasCurrency ensures c.info.uniqueCode != uniqueCode {
        assert IndexedUnder(r, c);
      }
    }
  }

  /**
    In a locked collection the lookups by numeric code and by code find the
    member holding the key, or nil; in an unlocked one they always give nil.
  */
  lemma LookupCodesFind(standard: string, r: Registry, numericCode: int, code: string)
    requires Indexed(standard, r)
    ensures standard == "" ==> LookupNumericCode(r, numericCode) == null && LookupCode(r, code) == null
    ensures LookupNumericCode(r, numericCode) != null ==>
      LookupNumericCode(r, numericCode) in r.hasCurrency && LookupNumericCode(r, numericCode).info.numericCode == numericCode
    ensures LookupCode(r, code) != null ==> LookupCode(r, code) in r.hasCurrency && LookupCode(r, code).info.code == code
    ensures standard != "" ==>
      (LookupNumericCode(r, numericCode) == null <==> forall c | c in r.hasCurrency :: c.info.numericCode != numericCode)
    ensures standard != "" ==> (LookupCode(r, code) == null <==> forall c | c in r.hasCurrency :: c.info.code != code)
  {
    if standard != "" {
      if LookupNumericCode(r, numericCode) == null {
        forall c | c in r.hasCurrency ensures c.info.numericCode != numericCode {
          assert IndexedUnder(r, c);
        }
      }
      if LookupCode(r, code) == null {
        forall c | c in r.hasCurrency ensures c.info.code != code {
          assert IndexedUnder(r, c);
        }
      }
    }
  }

  // ---------------------------------------------------------------------
  // Adding

  /**
    The checks `add` makes before it changes anything, in its order: the
    standard, then a different instance already holding the unique ID, the
    unique code, the numeric code or the code.
  */
  function AddCheck(standard: string, r: Registry, c: Currency): Option<Error>
  {
    var info := c.info;
    if standard != "" && standard != info.standardName then
      Some(StandardNotAllowed(info.standardName, standard))
    else if info.uniqueID in r.byUniqueID && r.byUniqueID[info.uniqueID] != c then
      Some(UniqueIDCollision(c, r.byUniqueID[info.uniqueID]))
    else if info.uniqueCode in r.byUniqueCode && r.byUniqueCode[info.uniqueCode] != c then
      Some(UniqueCodeCollision(c, r.byUniqueCode[info.uniqueCode]))
    else if r.byNumericCode.Some? && info.numericCode in r.byNumericCode.value
         && r.byNumericCode.value[info.numericCode] != c then
      Some(NumericCodeCollision(c, r.byNumericCode.value[info.numericCode]))
    else if r.byCode.Some? && info.code in r.byCode.value && r.byCode.value[info.code] != c then
      Some(CodeCollision(c, r.byCode.value[info.code]))
    else
      None
  }

  /** The contents after a new currency is appended and indexed under its keys. */
  function Inserted(r: Registry, c: Currency): Registry
  {
    var info := c.info;
    Registry(
      r.all + [c],
      r.hasCurrency + {c},
      r.byUniqueID[info.uniqueID := c],
      r.byUniqueCode[info.uniqueCode := c],
      if r.byNumericCode.Some? then Some(r.byNumericCode.value[info.numericCode := c]) else None,
      if r.byCode.Some? then Some(r.byCode.value[info.code := c]) else None)
  }

  /**
    `add`: a rejected currency leaves the contents as they were, an instance
    already present is ignored, and a new one is appended once and becomes a
    member.
  */
  function Added(standard: string, r: Registry, c: Currency): (o: Outcome)
    ensures o.err.Some? ==> o.registry == r
    ensures o.err.None? ==> c in o.registry.hasCurrency
    ensures standard != "" && standard != c.info.standardName ==>
      o == Outcome(Some(StandardNotAllowed(c.info.standardName, standard)), r)
    ensures o.err.None? && c in r.hasCurrency ==> o.registry == r
    ensures o.err.None? && c !in r.hasCurrency ==> o.registry.all == r.all + [c]
    ensures o.registry.hasCurrency <= r.hasCurrency + {c}
    ensures r.hasCurrency <= o.registry.hasCurrency && r.all <= o.registry.all
  {
    var err := AddCheck(standard, r, c);
    if err.Some? then Outcome(err, r)
    else if c in r.hasCurrency then Outcome(None, r)
    else Outcome(None, Inserted(r, c))
  }

  /** Two distinct currencies clash when they share a key the collection indexes. */
  predicate Clash(standard: string, a: Currency, b: Currency)
  {
    || a.info.uniqueID == b.info.uniqueID
    || a.info.uniqueCode == b.info.uniqueCode
    || (standard != "" && (a.info.numericCode == b.info.numericCode || a.info.code == b.info.code))
  }

  /** `c` may join: its standard is allowed and it clashes with no other member. */
  predicate Admissible(standard: string, r: Registry, c: Currency)
  {
    && (standard == "" || c.info.standardName == standard)
    && forall d | d in r.hasCurrency && d != c :: !Clash(standard, c, d)
  }

  /** `add` succeeds exactly for an admissible currency. */
  lemma AddedIff(standard: string, r: Registry, c: Currency)
    requires Indexed(standard, r)
    ensures Added(standard, r, c).err.None? <==> Admissible(standard, r, c)
  {
    if AddCheck(standard, r, c).None? {
      forall d | d in r.hasCurrency && d != c ensures !Clash(standard, c, d) {
        assert IndexedUnder(r, d);
      }
    }
  }

  /** Adding an instance that is already a member is a no-op. */
  lemma AddedPresent(standard: string, r: Registry, c: Currency)
    requires Indexed(standard, r)
    requires c in r.hasCurrency
    ensures Added(standard, r, c) == Outcome(None, r)
  {
    assert IndexedUnder(r, c);
  }

  /** The keys of an accepted new currency are not yet in any index. */
  lemma FreshKeys(standard: string, r: Registry, c: Currency)
    requires Indexed(standard, r)
    requires c !in r.hasCurrency && AddCheck(standard, r, c).None?
    ensures c.info.uniqueID !in r.byUniqueID && c.info.uniqueCode !in r.byUniqueCode
    ensures r.byNumericCode.Some? ==> c.info.numericCode !in r.byNumericCode.value
    ensures r.byCode.Some? ==> c.info.code !in r.byCode.value
  {
  }

  /** `add` keeps the representation invariant. */
  lemma AddedIndexed(standard: string, r: Registry, c: Currency)
    requires Indexed(standard, r)
    ensures Indexed(standard, Added(standard, r, c).registry)
  {
    if AddCheck(standard, r, c).None? && c !in r.hasCurrency {
      FreshKeys(standard, r, c);
      assert Added(standard, r, c).registry == Inserted(r, c);
      InsertedIndexed(standard, r, c);
    } else {
      assert Added(standard, r, c).registry == r;
    }
  }

  lemma InsertedIndexed(standard: string, r: Registry, c: Currency)
    requires Indexed(standard, r) && c !in r.hasCurrency
    requires standard == "" || c.info.standardName == standard
    requires c.info.uniqueID !in r.byUniqueID && c.info.uniqueCode !in r.byUniqueCode
    requires r.byNumericCode.Some? ==> c.info.numericCode !in r.byNumericCode.value
    requires r.byCode.Some? ==> c.info.code !in r.byCode.value
    ensures Indexed(standard, Inserted(r, c))
  {
    InsertedListing(r, c);
    InsertedIndexedUnder(r, c);
    InsertedEntriesListed(r, c);
  }

  lemma InsertedListing(r: Registry, c: Currency)
    requires Listing(r) && c !in r.hasCurrency
    ensures Listing(Inserted(r, c))
  {
    var r' := Inserted(r, c);
    forall i, j | 0 <= i < j < |r'.all| ensures r'.all[i] != r'.all[j] {
      if j == |r.all| {
        assert r.all[i] in r.hasCurrency;
      }
    }
  }

  lemma InsertedIndexedUnder(r: Registry, c: Currency)
    requires forall d | d in r.hasCurrency :: IndexedUnder(r, d)
    requires c.info.uniqueID !in r.byUniqueID && c.info.uniqueCode !in r.byUniqueCode
    requires r.byNumericCode.Some? ==> c.info.numericCode !in r.byNumericCode.value
    requires r.byCode.Some? ==> c.info.code !in r.byCode.value
    ensures forall d | d in Inserted(r, c).hasCurrency :: IndexedUnder(Inserted(r, c), d)
  {
    var r' := Inserted(r, c);
    forall d | d in r'.hasCurrency ensures IndexedUnder(r', d) {
      if d != c {
        assert IndexedUnder(r, d);
      }
    }
  }

  lemma InsertedEntriesListed(r: Registry, c: Currency)
    requires EntriesListed(r)
    ensures EntriesListed(Inserted(r, c))
  {
  }

  /**
    After a new currency is added, each of its keys finds it, the unique ID
    and unique code always and the numeric code and code when locked.
  */
  lemma AddedFindable(standard: string, r: Registry, c: Currency)
    requires Indexed(standard, r)
    requires Added(standard, r, c).err.None?
    ensures LookupUniqueID(Added(standard, r, c).registry, c.info.uniqueID) == c
    ensures LookupUniqueCode(Added(standard, r, c).registry, c.info.uniqueCode) == c
    ensures standard != "" ==> LookupNumericCode(Added(standard, r, c).registry, c.info.numericCode) == c
    ensures standard != "" ==> LookupCode(Added(standard, r, c).registry, c.info.code) == c
  {
    AddedIndexed(standard, r, c);
    assert IndexedUnder(Added(standard, r, c).registry, c);
  }

  /**
    `Add`: the currencies are added one at a time, in order, and the first
    rejection ends the batch.
  */
  function AddedAll(standard: string, r: Registry, cs: seq<Currency>): (o: Outcome)
    ensures r.hasCurrency <= o.registry.hasCurrency && r.all <= o.registry.all
    ensures o.err.None? ==> forall c | c in cs :: c in o.registry.hasCurrency
    decreases |cs|
  {
    if cs == [] then Outcome(None, r)
    else
      var prev := AddedAll(standard, r, cs[..|cs| - 1]);
      if prev.err.Some? then prev
      else
        var o := Added(standard, prev.registry, cs[|cs| - 1]);
        assert forall c | c in cs :: c in cs[..|cs| - 1] || c == cs[|cs| - 1];
        o
  }

  /** A batch keeps the representation invariant. */
  lemma {:induction false} AddedAllIndexed(standard: string, r: Registry, cs: seq<Currency>)
    requires Indexed(standard, r)
    ensures Indexed(standard, AddedAll(standard, r, cs).registry)
    decreases |cs|
  {
    if cs != [] {
      AddedAllIndexed(standard, r, cs[..|cs| - 1]);
      var prev := AddedAll(standard, r, cs[..|cs| - 1]);
      if prev.err.None? {
        AddedIndexed(standard, prev.registry, cs[|cs| - 1]);
      }
    }
  }

  /**
    A batch stops at its first rejected currency: the outcome is that
    rejection, and the currencies before it stay registered.
  */
  lemma {:induction false} AddedAllStops(standard: string, r: Registry, cs: seq<Currency>, k: nat)
    requires k < |cs|
    requires AddedAll(standard, r, cs[..k]).err.None?
    requires Added(standard, AddedAll(standard, r, cs[..k]).registry, cs[k]).err.Some?
    ensures AddedAll(standard, r, cs) == Outcome(Added(standard, AddedAll(standard, r, cs[..k]).registry, cs[k]).err,
                                                 AddedAll(standard, r, cs[..k]).registry)
    decreases |cs| - k
  {
    if k == |cs| - 1 {
      assert cs[..|cs| - 1] == cs[..k];
    } else {
      assert cs[..|cs| - 1][..k] == cs[..k];
      AddedAllStops(standard, r, cs[..|cs| - 1], k);
    }
  }

  /** A batch made of two parts is the second added after the first, unless the first failed. */
  lemma {:induction false} AddedAllAppend(standard: string, r: Registry, xs: seq<Currency>, ys: seq<Currency>)
    ensures AddedAll(standard, r, xs + ys) ==
      (var first := AddedAll(standard, r, xs);
       if first.err.Some? then first else AddedAll(standard, first.registry, ys))
    decreases |ys|
  {
    if ys == [] {
      assert xs + ys == xs;
    } else {
      assert (xs + ys)[..|xs + ys| - 1] == xs + ys[..|ys| - 1];
      AddedAllAppend(standard, r, xs, ys[..|ys| - 1]);
    }
  }

  /** Facts about the prefixes a loop over `xs` visits. */
  lemma PrefixStep<T>(xs: seq<T>, i: nat)
    requires i <= |xs|
    ensures i < |xs| ==> xs[..i + 1][..i] == xs[..i] && xs[..i + 1] == xs[..i] + [xs[i]]
    ensures xs[..|xs|] == xs
  {
  }

  /** The batches of `NewCurrencyCollection`, one after another. */
  function Concat(lists: seq<seq<Currency>>): seq<Currency>
    decreases |lists|
  {
    if lists == [] then [] else Concat(lists[..|lists| - 1]) + lists[|lists| - 1]
  }

  /**
    A batch fits a collection when its currencies are of the allowed
    standard, no two distinct ones clash, and none clashes with another member.
  */
  predicate Fits(standard: string, r: Registry, cs: seq<Currency>)
  {
    && (forall a | a in cs :: standard == "" || a.info.standardName == standard)
    && (forall a, b | a in cs && b in cs && a != b :: !Clash(standard, a, b))
    && (forall a, d | a in cs && d in r.hasCurrency && a != d :: !Clash(standard, a, d))
  }

  /** A batch that fits is added without error, and the members become exactly the old ones and the batch. */
  lemma {:induction false} AddedAllFits(standard: string, r: Registry, cs: seq<Currency>)
    requires Indexed(standard, r)
    requires Fits(standard, r, cs)
    ensures AddedAll(standard, r, cs).err.None?
    ensures forall d | d in AddedAll(standard, r, cs).registry.hasCurrency :: d in r.hasCurrency || d in cs
    decreases |cs|
  {
    if cs != [] {
      var init := cs[..|cs| - 1];
      var c := cs[|cs| - 1];
      assert forall a | a in init :: a in cs;
      AddedAllFits(standard, r, init);
      AddedAllIndexed(standard, r, init);
      var prev := AddedAll(standard, r, init).registry;
      assert Admissible(standard, prev, c) by {
        forall d | d in prev.hasCurrency && d != c ensures !Clash(standard, c, d) {
          if d !in r.hasCurrency {
            assert d in init;
          }
        }
      }
      AddedIff(standard, prev, c);
    }
  }

  // ---------------------------------------------------------------------
  // The collection object

  class CurrencyCollection {
    const name: string
    /** The one standard this collection accepts, or "" for any. */
    const currencyStandard: string

    var all: seq<Currency>
    var hasCurrency: set<Currency>
    var byUniqueID: map<Int32, Currency>
    var byUniqueCode: map<string, Currency>
    var byNumericCode: Option<map<int, Currency>>
    var byCode: Option<map<string, Currency>>

    function State(): Registry
      reads this
    {
      Registry(all, hasCurrency, byUniqueID, byUniqueCode, byNumericCode, byCode)
    }

    predicate Valid()
      reads this
    {
      Indexed(currencyStandard, State())
    }

    /** An empty collection; the code indices exist only when locked to a standard. */
    constructor (name: string, currencyStandard: string)
      ensures this.name == name && this.currencyStandard == currencyStandard
      ensures State() == Empty(currencyStandard) && Valid()
    {
      this.name := name;
      this.currencyStandard := currencyStandard;
      all := [];
      hasCurrency := {};
      byUniqueID := map[];
      byUniqueCode := map[];
      byNumericCode := None;
      byCode := None;
      new;
      if currencyStandard != "" {
        byNumericCode, byCode := Some(map[]), Some(map[]);
      }
    }

    /** `add`: check, then either ignore a present instance or append and index a new one. */
    method AddOne(c: Currency) returns (err: Option<Error>)
      requires Valid()
      modifies this
      ensures Valid()
      ensures Outcome(err, State()) == Added(currencyStandard, old(State()), c)
    {
      err := AddCheck(currencyStandard, State(), c);
      if err.Some? || c in hasCurrency {
        return;
      }
      AddedIndexed(currencyStandard, State(), c);
      Insert(c);
    }

    /** Appends `c` to the list and the set and stores it under each of its keys. */
    method Insert(c: Currency)
      modifies this
      ensures State() == Inserted(old(State()), c)
    {
      var info := c.info;
      all := all + [c];
      hasCurrency := hasCurrency + {c};
      byUniqueID := byUniqueID[info.uniqueID := c];
      byUniqueCode := byUniqueCode[info.uniqueCode := c];
      if byNumericCode.Some? {
        byNumericCode := Some(byNumericCode.value[info.numericCode := c]);
      }
      if byCode.Some? {
        byCode := Some(byCode.value[info.code := c]);
      }
    }

    /** `Add`: adds the currencies in order and returns the first error. */
    method Add(cs: seq<Currency>) returns (err: Option<Error>)
      requires Valid()
      modifies this
      ensures Valid()
      ensures Outcome(err, State()) == AddedAll(currencyStandard, old(State()), cs)
    {
      var i := 0;
      while i < |cs|
        invariant 0 <= i <= |cs|
        invariant Valid()
        invariant AddedAll(currencyStandard, old(State()), cs[..i]) == Outcome(None, State())
      {
        PrefixStep(cs, i);
        err := AddOne(cs[i]);
        if err.Some? {
          AddedAllStops(currencyStandard, old(State()), cs, i);
          return;
        }
        i := i + 1;
      }
      PrefixStep(cs, i);
      return None;
    }

    /** `All`: every member, each once, in the order added. */
    function All(): (r: seq<Currency>)
      reads this
      ensures Valid() ==> (forall c | c in hasCurrency :: c in r) && (forall i | 0 <= i < |r| :: r[i] in hasCurrency)
      ensures Valid() ==> forall i, j | 0 <= i < j < |r| :: r[i] != r[j]
    {
      all
    }

    /** `ByUniqueID`: the member with that unique ID, or nil. */
    function ByUniqueID(uniqueID: Int32): (c: Currency?)
      reads this
      ensures Valid() && c != null ==> c in hasCurrency && c.info.uniqueID == uniqueID
      ensures Valid() && c == null ==> forall d | d in hasCurrency :: d.info.uniqueID != uniqueID
    {
      if Valid() then
        LookupUniqueIDFinds(currencyStandard, State(), uniqueID);
        LookupUniqueID(State(), uniqueID)
      else
        LookupUniqueID(State(), uniqueID)
    }

    /** `ByUniqueCode`: the member with that unique code, or nil. */
    function ByUniqueCode(uniqueCode: string): (c: Currency?)
      reads this
      ensures Valid() && c != null ==> c in hasCurrency && c.info.uniqueCode == uniqueCode
      ensures Valid() && c == null ==> forall d | d in hasCurrency :: d.info.uniqueCode != uniqueCode
    {
      if Valid() then
        LookupUniqueCodeFinds(currencyStandard, State(), uniqueCode);
        LookupUniqueCode(State(), uniqueCode)
      else
        LookupUniqueCode(State(), uniqueCode)
    }

    /** `ByNumericCode`: the member with that numeric code; always nil unless locked to a standard. */
    function ByNumericCode(numericCode: int): (c: Currency?)
      reads this
      ensures Valid() && currencyStandard == "" ==> c == null
      ensures Valid() && c != null ==> c in hasCurrency && c.info.numericCode == numericCode
      ensures Valid() && currencyStandard != "" && c == null ==>
        forall d | d in hasCurrency :: d.info.numericCode != numericCode
    {
      if Valid() then
        LookupCodesFind(currencyStandard, State(), numericCode, "");
        LookupNumericCode(State(), numericCode)
      else
        LookupNumericCode(State(), numericCode)
    }

    /** `ByCode`: the member with that code; always nil unless locked to a standard. */
    function ByCode(code: string): (c: Currency?)
      reads this
      ensures Valid() && currencyStandard == "" ==> c == null
      ensures Valid() && c != null ==> c in hasCurrency && c.info.code == code
      ensures Valid() && currencyStandard != "" && c == null ==> forall d | d in hasCurrency :: d.info.code != code
    {
      if Valid() then
        LookupCodesFind(currencyStandard, State(), 0, code);
        LookupCode(State(), code)
      else
        LookupCode(State(), code)
    }
  }

  /** A member of a valid collection is what the lookups by its own unique ID and unique code return. */
  lemma MemberFindable(cc: CurrencyCollection, c: Currency)
    requires cc.Valid() && c in cc.hasCurrency
    ensures cc.ByUniqueID(c.info.uniqueID) == c
    ensures cc.ByUniqueCode(c.info.uniqueCode) == c
  {
    assert IndexedUnder(cc.State(), c);
  }

  /**
    `NewCurrencyCollection`: a collection holding the lists' currencies in
    order, or an error and no collection when any add fails.
  */
  method NewCurrencyCollection(name: string, currencyStandard: string, lists: seq<seq<Currency>>)
    returns (cc: CurrencyCollection?, err: Option<Error>)
    ensures err == AddedAll(currencyStandard, Empty(currencyStandard), Concat(lists)).err
    ensures cc == null <==> err.Some?
    ensures cc != null ==> fresh(cc) && cc.Valid() && cc.name == name && cc.currencyStandard == currencyStandard
    ensures cc != null ==> cc.State() == AddedAll(currencyStandard, Empty(currencyStandard), Concat(lists)).registry
  {
    var c := new CurrencyCollection(name, currencyStandard);
    var j := 0;
    while j < |lists|
      invariant 0 <= j <= |lists|
      invariant c.Valid() && fresh(c) && c.name == name && c.currencyStandard == currencyStandard
      invariant AddedAll(currencyStandard, Empty(currencyStandard), Concat(lists[..j])) == Outcome(None, c.State())
    {
      ConcatNext(currencyStandard, lists, j, c.State());
      var e := c.Add(lists[j]);
      if e.Some? {
        ConcatStops(currencyStandard, lists, j);
        return null, e;
      }
      j := j + 1;
    }
    PrefixStep(lists, j);
    return c, None;
  }

  /** After the first `j` lists went in without error, list `j` is added to what they left. */
  lemma ConcatNext(standard: string, lists: seq<seq<Currency>>, j: nat, r: Registry)
    requires j < |lists|
    requires AddedAll(standard, Empty(standard), Concat(lists[..j])) == Outcome(None, r)
    ensures AddedAll(standard, Empty(standard), Concat(lists[..j + 1])) == AddedAll(standard, r, lists[j])
  {
    PrefixStep(lists, j);
    AddedAllAppend(standard, Empty(standard), Concat(lists[..j]), lists[j]);
  }

  /** Once the batch of list `j` fails, the remaining lists change nothing. */
  lemma {:induction false} ConcatStops(standard: string, lists: seq<seq<Currency>>, j: nat)
    requires j < |lists|
    requires AddedAll(standard, Empty(standard), Concat(lists[..j + 1])).err.Some?
    ensures AddedAll(standard, Empty(standard), Concat(lists)) == AddedAll(standard, Empty(standard), Concat(lists[..j + 1]))
    decreases |lists| - j
  {
    if j + 1 < |lists| {
      var init := lists[..|lists| - 1];
      assert init[..j + 1] == lists[..j + 1];
      ConcatStops(standard, init, j);
      AddedAllAppend(standard, Empty(standard), Concat(init), lists[|lists| - 1]);
    } else {
      assert lists[..j + 1] == lists;
    }
  }

  /** `MustNewCurrencyCollection`: as `NewCurrencyCollection`, for lists the caller knows fit. */
  method MustNewCurrencyCollection(name: string, currencyStandard: string, lists: seq<seq<Currency>>)
    returns (cc: CurrencyCollection)
    requires AddedAll(currencyStandard, Empty(currencyStandard), Concat(lists)).err.None?
    ensures fresh(cc) && cc.Valid() && cc.name == name && cc.currencyStandard == currencyStandard
    ensures cc.State() == AddedAll(currencyStandard, Empty(currencyStandard), Concat(lists)).registry
  {
    var c, err := NewCurrencyCollection(name, currencyStandard, lists);
    cc := c;
  }
}
