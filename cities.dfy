/**
 * Reference data: the fixed city lists and the classification of a city
 * name into a market tier.
 */
module Cities {

  /** The market tier a city falls into. */
  datatype Tier = Tier1 | Tier2 | Tier3 {
    /** The label the price pipeline's encoder was fitted on. */
    function Name(): (s: string)
      ensures s in ["Tier_1", "Tier_2", "Tier_3"]
      ensures s == "Tier_1" <==> this == Tier1
      ensures s == "Tier_2" <==> this == Tier2
      ensures s == "Tier_3" <==> this == Tier3
    {
      match this
      case Tier1 => "Tier_1"
      case Tier2 => "Tier_2"
      case Tier3 => "Tier_3"
    }
  }

  /** The eight major metros. */
  const Tier1Cities: seq<string> :=
    ["Mumbai", "Delhi", "Bengaluru", "Chennai", "Hyderabad", "Pune", "Kolkata", "Ahmedabad"]

  /** The fourteen secondary cities. */
  const Tier2Cities: seq<string> :=
    ["Jaipur", "Chandigarh", "Indore", "Bhopal", "Nagpur", "Lucknow", "Kanpur", "Patna",
     "Vadodara", "Surat", "Ghaziabad", "Thane", "Navi Mumbai", "Gurgaon"]

  /** The remaining cities the city picker offers. */
  const SmallerCities: seq<string> :=
    ["Ludhiana", "Agra", "Nashik", "Faridabad", "Meerut", "Rajkot"]

  /** Every city the picker offers, in picker order. */
  const AllCities: seq<string> := Tier1Cities + Tier2Cities + SmallerCities

  /** No city is listed in two of the three groups. */
  lemma GroupsDisjoint()
    ensures forall c :: c in Tier1Cities ==> c !in Tier2Cities && c !in SmallerCities
    ensures forall c :: c in Tier2Cities ==> c !in SmallerCities
  {
  }

  /** A city is offered exactly when it is in one of the three groups. */
  lemma AllCitiesMembership(c: string)
    ensures c in AllCities <==> c in Tier1Cities || c in Tier2Cities || c in SmallerCities
  {
  }

  /**
   * Tier of a city: Tier 1 for the metros, Tier 2 for the secondary cities,
   * and Tier 3 for every other string (total; there is no error case).
   */
  function TierOf(city: string): (t: Tier)
    ensures t == Tier1 <==> city in Tier1Cities
    ensures t == Tier2 <==> city in Tier2Cities
    ensures t == Tier3 <==> city !in Tier1Cities && city !in Tier2Cities
  {
    GroupsDisjoint();
    if city in Tier1Cities then Tier1
    else if city in Tier2Cities then Tier2
    else Tier3
  }

  /** Among the offered cities, Tier 3 is exactly the group of smaller cities. */
  lemma OfferedTier3IsSmaller(c: string)
    requires c in AllCities
    ensures TierOf(c) == Tier3 <==> c in SmallerCities
  {
    GroupsDisjoint();
    AllCitiesMembership(c);
  }

  /**
   * The label the price record carries for a city: "Tier_1" exactly for the
   * Tier 1 list, "Tier_2" exactly for the Tier 2 list, "Tier_3" for every other string.
   */
  lemma TierOfName(city: string)
    ensures TierOf(city).Name() == "Tier_1" <==> city in Tier1Cities
    ensures TierOf(city).Name() == "Tier_2" <==> city in Tier2Cities
    ensures TierOf(city).Name() == "Tier_3" <==> city !in Tier1Cities && city !in Tier2Cities
  {
  }

  /** Names of distinct tiers are distinct, so the encoder sees three levels. */
  lemma NameInjective(s: Tier, t: Tier)
    ensures s.Name() == t.Name() ==> s == t
  {
    if s != t {
      assert s.Name()[5] != t.Name()[5];
    }
  }
}
