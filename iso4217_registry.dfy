/**
  The currencies of the ISO 4217 table as `Currency` instances, and the
  collection locked to the standard that holds them all. The facts about
  single rows come from `Iso4217Table.RowFacts`; here they become the
  validity of every row and the absence of any clash between two rows,
  which is what building the locked collection needs.
*/
module Iso4217Registry {
  import opened Currencies
  import opened Iso4217
  import opened Iso4217Table
  import opened CurrencyCollections

  lemma UpperCodeAlphaNumeric(s: string)
    requires UpperCode(s)
    ensures AlphaNumeric(s)
  {
    forall i | 0 <= i < |s|
      ensures IsAlphaNumeric(s[i])
    {
      assert i == 0 || i == 1 || i == 2;
    }
  }

  /** Every row passes `ValidateCurrency`, also with ID 0 reserved, and its unique ID is its numeric code plus 42170000. */
  lemma RowValid(i: nat)
    requires i < Count
    ensures ValidateCurrency(Row(i).Info()).None?
    ensures ValidateCurrencyReservingZero(Row(i).Info()).None?
    ensures Row(i).UniqueID() as int == Row(i).numericCode + UniqueIDOffset
  {
    RowFacts(i);
    UpperCodeAlphaNumeric(Row(i).alphabeticCode);
    ValidIff(Row(i));
    UniqueIDExact(Row(i), Row(i));
  }

  /** Two different rows share no numeric code, alphabetic code, unique ID or unique code. */
  lemma RowsDistinct(i: nat, j: nat)
    requires i < Count && j < Count && i != j
    ensures Row(i).numericCode != Row(j).numericCode
    ensures Row(i).alphabeticCode != Row(j).alphabeticCode
    ensures Row(i).UniqueID() != Row(j).UniqueID()
    ensures Row(i).UniqueCode() != Row(j).UniqueCode()
  {
    RowFacts(i);
    RowFacts(j);
    UniqueIDExact(Row(i), Row(j));
    assert Row(i).UniqueCode()[|CodePrefix|..] == Row(i).alphabeticCode;
    assert Row(j).UniqueCode()[|CodePrefix|..] == Row(j).alphabeticCode;
  }

  /** The information of every row, in the table's order. */
  function Infos(): (infos: seq<CurrencyInfo>)
    ensures |infos| == Count
    ensures forall k | 0 <= k < Count :: infos[k] == Row(k).Info()
  {
    seq(Count, k requires 0 <= k < Count => Row(k).Info())
  }

  /** One new instance per entry of `infos`, in order; being new, no two are the same currency. */
  method Instantiate(infos: seq<CurrencyInfo>) returns (list: seq<Currency>)
    ensures |list| == |infos|
    ensures forall k | 0 <= k < |list| :: list[k].info == infos[k]
    ensures forall k, l | 0 <= k < l < |list| :: list[k] != list[l]
  {
    list := [];
    var i := 0;
    while i < |infos|
      invariant i == |list| <= |infos|
      invariant forall k | 0 <= k < i :: list[k].info == infos[k]
      invariant forall k, l | 0 <= k < l < i :: list[k] != list[l]
    {
      var c := new Currency(infos[i]);
      list := list + [c];
      i := i + 1;
    }
  }

  /** `iso4217Currencies`: one instance per row, in the table's order. */
  method NewCurrencies() returns (list: seq<Currency>)
    ensures |list| == Count
    ensures forall k | 0 <= k < |list| :: list[k].info == Row(k).Info()
    ensures forall k, l | 0 <= k < l < |list| :: list[k] != list[l]
  {
    list := Instantiate(Infos());
  }

  /** The instances of distinct rows never clash, in a collection locked to the standard or not. */
  lemma ListFits(list: seq<Currency>, standard: string)
    requires |list| == Count
    requires forall k | 0 <= k < |list| :: list[k].info == Row(k).Info()
    requires standard == "" || standard == StandardName
    ensures Fits(standard, Empty(standard), list)
  {
    forall a | a in list
      ensures standard == "" || a.info.standardName == standard
    {
    }
    forall a, b | a in list && b in list && a != b
      ensures !Clash(standard, a, b)
    {
      var k :| 0 <= k < |list| && list[k] == a;
      var l :| 0 <= l < |list| && list[l] == b;
      RowsDistinct(k, l);
    }
  }

  /** Adding the table's instances to an empty collection locked to the standard succeeds and adds exactly them. */
  lemma ListAdded(list: seq<Currency>)
    requires |list| == Count
    requires forall k | 0 <= k < |list| :: list[k].info == Row(k).Info()
    ensures AddedAll(StandardName, Empty(StandardName), Concat([list])).err.None?
    ensures forall k | 0 <= k < Count :: list[k] in AddedAll(StandardName, Empty(StandardName), Concat([list])).registry.hasCurrency
    ensures forall d | d in AddedAll(StandardName, Empty(StandardName), Concat([list])).registry.hasCurrency :: d in list
  {
    ListFits(list, StandardName);
    AddedAllFits(StandardName, Empty(StandardName), list);
    assert Concat([list]) == list by {
      assert [list][..0] == [];
    }
  }

  /** Every member of a registry holding only the table's instances validates, with ID 0 reserved. */
  lemma MembersValid(list: seq<Currency>, r: Registry)
    requires |list| == Count
    requires forall k | 0 <= k < |list| :: list[k].info == Row(k).Info()
    requires forall d | d in r.hasCurrency :: d in list
    ensures forall d | d in r.hasCurrency :: ValidateCurrencyReservingZero(d.info).None?
  {
    forall d | d in r.hasCurrency
      ensures ValidateCurrencyReservingZero(d.info).None?
    {
      var k :| 0 <= k < |list| && list[k] == d;
      RowValid(k);
    }
  }

  /** In a locked registry holding exactly the table's instances, each row's code finds that row's instance. */
  lemma CodesFindRows(list: seq<Currency>, r: Registry)
    requires |list| == Count
    requires forall k | 0 <= k < |list| :: list[k].info == Row(k).Info()
    requires Indexed(StandardName, r)
    requires forall k | 0 <= k < Count :: list[k] in r.hasCurrency
    requires forall d | d in r.hasCurrency :: d in list
    ensures forall k | 0 <= k < Count :: LookupCode(r, Row(k).alphabeticCode) == list[k]
  {
    forall k | 0 <= k < Count
      ensures LookupCode(r, Row(k).alphabeticCode) == list[k]
    {
      LookupCodesFind(StandardName, r, 0, Row(k).alphabeticCode);
      var found := LookupCode(r, Row(k).alphabeticCode);
      var l :| 0 <= l < |list| && list[l] == found;
      if l != k {
        RowsDistinct(k, l);
      }
    }
  }

  /**
    `ISO4217Currencies`: the collection named and locked to "ISO4217",
    holding exactly the table's currencies. Building it cannot fail, every
    member validates, and each row's code looks up that row's instance.
  */
  method NewCollection() returns (list: seq<Currency>, cc: CurrencyCollection)
    ensures |list| == Count
    ensures forall k | 0 <= k < Count :: list[k].info == Row(k).Info()
    ensures cc.Valid() && cc.name == StandardName && cc.currencyStandard == StandardName
    ensures forall k | 0 <= k < Count :: list[k] in cc.hasCurrency
    ensures forall d | d in cc.hasCurrency :: d in list
    ensures forall d | d in cc.hasCurrency :: ValidateCurrencyReservingZero(d.info).None?
    ensures forall k | 0 <= k < Count :: cc.ByCode(Row(k).alphabeticCode) == list[k]
  {
    list := NewCurrencies();
    ListAdded(list);
    cc := MustNewCurrencyCollection(StandardName, StandardName, [list]);
    MembersValid(list, cc.State());
    CodesFindRows(list, cc.State());
  }
}
