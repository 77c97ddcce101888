/**
 * The two per-city baseline tables (average price per square foot and
 * rental yield) and the start-up code that fills them in place.
 * Yields are kept in tenths of a percent: 35 stands for 3.5 %.
 */
module Baselines {
  import opened Cities

  /** The two lookup tables, keyed by city name. */
  datatype Tables = Tables(avgPrice: map<string, int>, yieldTenths: map<string, int>)

  /** Baseline price per square foot for a tier. */
  function TierPrice(t: Tier): (p: int)
    ensures p == 18000 <==> t == Tier1
    ensures p == 12000 <==> t == Tier2
    ensures p == 10000 <==> t == Tier3
  {
    match t
    case Tier1 => 18000
    case Tier2 => 12000
    case Tier3 => 10000
  }

  /** Baseline rental yield, in tenths of a percent, for a tier. */
  function TierYieldTenths(t: Tier): (y: int)
    ensures y == 35 <==> t == Tier1
    ensures y == 30 <==> t != Tier1
  {
    match t
    case Tier1 => 35
    case Tier2 => 30
    case Tier3 => 30
  }

  /** The tables the start-up code is meant to produce: one entry per offered city, by tier. */
  function ReferenceTables(): (t: Tables)
  {
    Tables(map c | c in AllCities :: TierPrice(TierOf(c)),
           map c | c in AllCities :: TierYieldTenths(TierOf(c)))
  }

  /** A table with the value `v` for every key in `keys`, as a dictionary comprehension builds it. */
  function Fill<K>(keys: seq<K>, v: int): (r: map<K, int>)
    ensures r.Keys == set k | k in keys
    ensures forall k :: k in r ==> r[k] == v
  {
    map k | k in keys :: v
  }

  /**
   * The effect of `for k in keys: m[k] = v`: assigns `v` to every key of `keys`,
   * in order, adding the keys `m` does not have yet.
   */
  function Overwrite<K>(m: map<K, int>, keys: seq<K>, v: int): (r: map<K, int>)
    ensures r.Keys == m.Keys + set k | k in keys
    ensures forall k :: k in r ==> r[k] == if k in keys then v else m[k]
    decreases |keys|
  {
    if keys == [] then m
    else
      var front := keys[..|keys| - 1];
      assert keys == front + [keys[|keys| - 1]];
      Overwrite(m, front, v)[keys[|keys| - 1] := v]
  }

  /** Overwriting keys a table already has never adds a key. */
  lemma OverwriteKeepsKeys<K>(m: map<K, int>, keys: seq<K>, v: int)
    requires forall k :: k in keys ==> k in m
    ensures Overwrite(m, keys, v).Keys == m.Keys
  {
  }

  /** Two overwriting loops over disjoint key lists may run in either order. */
  lemma OverwriteCommutes<K>(m: map<K, int>, a: seq<K>, va: int, b: seq<K>, vb: int)
    requires forall k :: k in a ==> k !in b
    ensures Overwrite(Overwrite(m, a, va), b, vb) == Overwrite(Overwrite(m, b, vb), a, va)
  {
    var ab := Overwrite(Overwrite(m, a, va), b, vb);
    var ba := Overwrite(Overwrite(m, b, vb), a, va);
    assert ab.Keys == ba.Keys;
    forall k | k in ab
      ensures ab[k] == ba[k]
    {
    }
  }

  /**
   * Filling every key of `all` with `d` and then overwriting the keys of `a`
   * and then those of `b`, all of them keys of `all`, gives `vb` on `b`,
   * `va` on the rest of `a` and `d` elsewhere.
   */
  lemma FillThenOverwrite<K>(all: seq<K>, d: int, a: seq<K>, va: int, b: seq<K>, vb: int)
    requires forall k :: k in a ==> k in all
    requires forall k :: k in b ==> k in all
    ensures Overwrite(Overwrite(Fill(all, d), a, va), b, vb)
         == map k | k in all :: if k in b then vb else if k in a then va else d
  {
    var r := Overwrite(Overwrite(Fill(all, d), a, va), b, vb);
    var s := map k | k in all :: if k in b then vb else if k in a then va else d;
    assert r.Keys == s.Keys;
  }

  /** Per-tier values written as the loops assign them: Tier 2 last, then Tier 1, then the default. */
  lemma ByTierAsAssigned(c: string)
    ensures TierPrice(TierOf(c)) == if c in Tier2Cities then 12000 else if c in Tier1Cities then 18000 else 10000
    ensures TierYieldTenths(TierOf(c)) == if c in Tier2Cities then 30 else if c in Tier1Cities then 35 else 30
  {
  }

  /** The reference price table is what the comprehension and the two price loops compute. */
  lemma ReferencePriceIsFillThenOverwrite()
    ensures ReferenceTables().avgPrice
         == Overwrite(Overwrite(Fill(AllCities, 10000), Tier1Cities, 18000), Tier2Cities, 12000)
  {
    var r := ReferenceTables().avgPrice;
    var s := map k | k in AllCities :: if k in Tier2Cities then 12000 else if k in Tier1Cities then 18000 else 10000;
    assert r == s by {
      assert r.Keys == s.Keys;
      forall k | k in r
        ensures r[k] == s[k]
      {
        ByTierAsAssigned(k);
      }
    }
    assert s == Overwrite(Overwrite(Fill(AllCities, 10000), Tier1Cities, 18000), Tier2Cities, 12000) by {
      FillThenOverwrite(AllCities, 10000, Tier1Cities, 18000, Tier2Cities, 12000);
    }
  }

  /** The reference yield table is what the comprehension and the two yield loops compute. */
  lemma ReferenceYieldIsFillThenOverwrite()
    ensures ReferenceTables().yieldTenths
         == Overwrite(Overwrite(Fill(AllCities, 30), Tier1Cities, 35), Tier2Cities, 30)
  {
    var r := ReferenceTables().yieldTenths;
    var s := map k | k in AllCities :: if k in Tier2Cities then 30 else if k in Tier1Cities then 35 else 30;
    assert r == s by {
      assert r.Keys == s.Keys;
      forall k | k in r
        ensures r[k] == s[k]
      {
        ByTierAsAssigned(k);
      }
    }
    assert s == Overwrite(Overwrite(Fill(AllCities, 30), Tier1Cities, 35), Tier2Cities, 30) by {
      FillThenOverwrite(AllCities, 30, Tier1Cities, 35, Tier2Cities, 30);
    }
  }

  /**
   * One overwriting loop of the start-up code: for each city of `keys`, in order,
   * its price entry becomes `price` and its yield entry becomes `yieldTenths`.
   */
  method OverwriteEach(priceTable: map<string, int>, yieldTable: map<string, int>, keys: seq<string>,
                       price: int, yieldTenths: int)
    returns (newPrices: map<string, int>, newYields: map<string, int>)
    ensures newPrices == Overwrite(priceTable, keys, price)
    ensures newYields == Overwrite(yieldTable, keys, yieldTenths)
  {
    newPrices, newYields := priceTable, yieldTable;
    for i := 0 to |keys|
      invariant newPrices == Overwrite(priceTable, keys[..i], price)
      invariant newYields == Overwrite(yieldTable, keys[..i], yieldTenths)
    {
      assert keys[..i + 1][..i] == keys[..i];
      newPrices := newPrices[keys[i] := price];
      newYields := newYields[keys[i] := yieldTenths];
    }
    assert keys[..|keys|] == keys;
  }

  /**
   * The start-up code: every offered city first gets the Tier 3 defaults,
   * then the Tier 1 cities and the Tier 2 cities are overwritten.
   */
  method BuildTables() returns (t: Tables)
    ensures t == ReferenceTables()
    ensures t.avgPrice.Keys == t.yieldTenths.Keys == set c | c in AllCities
  {
    var avgPrice := map c | c in AllCities :: 10000;
    var yieldTenths := map c | c in AllCities :: 30;
    assert avgPrice == Fill(AllCities, 10000);
    assert yieldTenths == Fill(AllCities, 30);
    avgPrice, yieldTenths := OverwriteEach(avgPrice, yieldTenths, Tier1Cities, 18000, 35);
    avgPrice, yieldTenths := OverwriteEach(avgPrice, yieldTenths, Tier2Cities, 12000, 30);
    t := Tables(avgPrice, yieldTenths);
    ReferencePriceIsFillThenOverwrite();
    ReferenceYieldIsFillThenOverwrite();
  }

  /** Each offered city's entries follow its tier; no other name has an entry. */
  lemma ReferenceTablesByTier(c: string)
    ensures c in ReferenceTables().avgPrice <==> c in AllCities
    ensures c in ReferenceTables().yieldTenths <==> c in AllCities
    ensures c in AllCities ==>
      ReferenceTables().avgPrice[c] == (if c in Tier1Cities then 18000
                                        else if c in Tier2Cities then 12000
                                        else 10000)
    ensures c in AllCities ==>
      ReferenceTables().yieldTenths[c] == (if c in Tier1Cities then 35 else 30)
  {
  }

  /** Running the Tier 2 loop before the Tier 1 loop would give the same tables. */
  lemma LoopOrderIrrelevant()
    ensures Overwrite(Overwrite(Fill(AllCities, 10000), Tier2Cities, 12000), Tier1Cities, 18000)
         == ReferenceTables().avgPrice
    ensures Overwrite(Overwrite(Fill(AllCities, 30), Tier2Cities, 30), Tier1Cities, 35)
         == ReferenceTables().yieldTenths
  {
    GroupsDisjoint();
    ReferencePriceIsFillThenOverwrite();
    ReferenceYieldIsFillThenOverwrite();
    OverwriteCommutes(Fill(AllCities, 10000), Tier1Cities, 18000, Tier2Cities, 12000);
    OverwriteCommutes(Fill(AllCities, 30), Tier1Cities, 35, Tier2Cities, 30);
  }
}
