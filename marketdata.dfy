/**
 * The static market table of marketData.js and the MarketDataHelper lookups
 * over it (marketData.js:287-412).  JavaScript objects keyed by name are
 * ordered lists of entries here, so that listing their keys keeps the order
 * of the table; looking a key up finds its entry.
 */
module MarketData {
  import opened Wrappers
  import opened JsMath

  // ---------------------------------------------------------------------------
  // Keyed tables
  // ---------------------------------------------------------------------------

  /** One property of a JavaScript object: its key and its value. */
  datatype Entry<V> = Entry(key: string, value: V)

  /** `r` is the value of the first entry with `key`, or nothing when no entry has it. */
  predicate FirstMatch<V(==)>(entries: seq<Entry<V>>, key: string, r: Option<V>)
  {
    && (r.None? <==> forall i :: 0 <= i < |entries| ==> entries[i].key != key)
    && (r.Some? ==> exists i :: (0 <= i < |entries| && entries[i].key == key && entries[i].value == r.value
                                 && forall j :: 0 <= j < i ==> entries[j].key != key))
  }

  /** `object[key]`: the value of the first entry with that key, or nothing when no entry has it. */
  function Lookup<V(==)>(entries: seq<Entry<V>>, key: string): (r: Option<V>)
    ensures FirstMatch(entries, key, r)
  {
    if |entries| == 0 then None
    else if entries[0].key == key then Some(entries[0].value)
    else
      var r := Lookup(entries[1..], key);
      FirstMatchPastHead(entries, key, r);
      r
  }

  /** A first match among all entries but the first is a first match among all of them, when the first does not match. */
  lemma FirstMatchPastHead<V>(entries: seq<Entry<V>>, key: string, r: Option<V>)
    requires |entries| > 0 && entries[0].key != key
    requires FirstMatch(entries[1..], key, r)
    ensures FirstMatch(entries, key, r)
  {
    var tail := entries[1..];
    if r.Some? {
      var i :| 0 <= i < |tail| && tail[i].key == key && tail[i].value == r.value
               && forall j :: 0 <= j < i ==> tail[j].key != key;
      assert entries[i + 1] == tail[i];
      forall j | 0 <= j < i + 1
        ensures entries[j].key != key
      {
        if j > 0 {
          assert entries[j] == tail[j - 1];
        }
      }
    } else {
      forall i | 0 <= i < |entries|
        ensures entries[i].key != key
      {
        if i > 0 {
          assert entries[i] == tail[i - 1];
        }
      }
    }
  }

  /** `Object.keys(object)`: the keys in table order. */
  function Keys<V>(entries: seq<Entry<V>>): (ks: seq<string>)
    ensures |ks| == |entries|
    ensures forall i :: 0 <= i < |entries| ==> ks[i] == entries[i].key
  {
    seq(|entries|, i requires 0 <= i < |entries| => entries[i].key)
  }

  /** A key is listed exactly when looking it up finds something. */
  lemma KeysLookup<V>(entries: seq<Entry<V>>, key: string)
    ensures key in Keys(entries) <==> Lookup(entries, key).Some?
  {
    var ks := Keys(entries);
    if key in ks {
      var i :| 0 <= i < |ks| && ks[i] == key;
      assert entries[i].key == key;
    }
  }

  // ---------------------------------------------------------------------------
  // The market table (marketData.js:5-284)
  // ---------------------------------------------------------------------------

  /** `neighborhoods[name]`: median price and monthly rent. */
  datatype Neighborhood = Neighborhood(medianPrice: real, medianRent: real)

  /**
   * `regions[city]`: median price and monthly rent, property tax and insurance
   * as yearly percentages of value, yearly appreciation and rent growth,
   * vacancy and cap rate, all in percent, and the city's neighbourhoods.
   */
  datatype Region = Region(
    medianPrice: real,
    medianRent: real,
    propertyTax: real,
    insurance: real,
    appreciation: real,
    rentGrowth: real,
    vacancy: real,
    capRate: real,
    neighborhoods: seq<Entry<Neighborhood>>)

  /** `propertyTypes[type]`: how the type scales price, rent and expenses. */
  datatype PropertyType = PropertyType(priceMultiplier: real, rentMultiplier: real, expenseMultiplier: real)

  /** `buyerProfiles[type]`: the suggested down payment in percent, loan types and tips. */
  datatype BuyerProfile = BuyerProfile(suggestedDownPayment: real, loanTypes: seq<string>, tips: seq<string>)

  /** `nationalRates.mortgage`: current rates in percent by loan type. */
  datatype MortgageRates = MortgageRates(
    current30Year: real, current15Year: real, fhaRate: real, vaRate: real, jumboRate: real)

  /** `nationalRates.expenses`, in percent. */
  datatype NationalExpenses = NationalExpenses(
    propertyTax: real, insurance: real, maintenance: real, propertyManagement: real, vacancy: real,
    capEx: real, utilities: real)

  /** `nationalRates.returns`, in percent. */
  datatype NationalReturns = NationalReturns(avgCapRate: real, avgCashOnCash: real, avgAppreciation: real)

  const NationalMortgage: MortgageRates := MortgageRates(6.35, 5.62, 6.15, 5.85, 6.75)
  const National: NationalExpenses := NationalExpenses(1.2, 0.45, 1.0, 8.0, 5.0, 5.0, 0.0)
  const NationalReturnRates: NationalReturns := NationalReturns(8.5, 8.0, 3.5)

  const Regions: seq<Entry<Region>> := [
    Entry("New York, NY", Region(750000.0, 3500.0, 1.925, 0.55, 3.8, 4.2, 3.5, 4.5, [
        Entry("Manhattan", Neighborhood(1350000.0, 4800.0)),
        Entry("Brooklyn", Neighborhood(850000.0, 3200.0)),
        Entry("Queens", Neighborhood(650000.0, 2800.0)),
        Entry("Bronx", Neighborhood(450000.0, 2200.0)),
        Entry("Staten Island", Neighborhood(550000.0, 2400.0))])),
    Entry("Los Angeles, CA", Region(950000.0, 3200.0, 0.75, 0.42, 5.2, 3.8, 4.2, 5.2, [
        Entry("Beverly Hills", Neighborhood(2500000.0, 6500.0)),
        Entry("Santa Monica", Neighborhood(1400000.0, 4200.0)),
        Entry("Downtown LA", Neighborhood(750000.0, 3000.0)),
        Entry("Hollywood", Neighborhood(850000.0, 3100.0)),
        Entry("Pasadena", Neighborhood(950000.0, 3300.0))])),
    Entry("Chicago, IL", Region(350000.0, 2200.0, 2.1, 0.48, 2.8, 2.5, 5.8, 7.8, [
        Entry("Lincoln Park", Neighborhood(550000.0, 2800.0)),
        Entry("Loop", Neighborhood(450000.0, 2600.0)),
        Entry("Wicker Park", Neighborhood(480000.0, 2400.0)),
        Entry("Hyde Park", Neighborhood(320000.0, 1900.0)),
        Entry("Logan Square", Neighborhood(420000.0, 2200.0))])),
    Entry("Houston, TX", Region(340000.0, 1850.0, 1.81, 0.65, 4.1, 3.2, 6.5, 8.5, [
        Entry("River Oaks", Neighborhood(1200000.0, 4500.0)),
        Entry("The Heights", Neighborhood(450000.0, 2200.0)),
        Entry("Midtown", Neighborhood(380000.0, 2000.0)),
        Entry("Sugar Land", Neighborhood(420000.0, 2100.0)),
        Entry("Katy", Neighborhood(350000.0, 1900.0))])),
    Entry("Phoenix, AZ", Region(430000.0, 1950.0, 0.63, 0.38, 6.2, 5.5, 4.8, 7.2, [
        Entry("Scottsdale", Neighborhood(680000.0, 2800.0)),
        Entry("Tempe", Neighborhood(420000.0, 1900.0)),
        Entry("Chandler", Neighborhood(450000.0, 2000.0)),
        Entry("Mesa", Neighborhood(380000.0, 1700.0)),
        Entry("Gilbert", Neighborhood(490000.0, 2100.0))])),
    Entry("Philadelphia, PA", Region(280000.0, 1750.0, 1.4, 0.52, 3.5, 3.1, 5.2, 8.2, [
        Entry("Center City", Neighborhood(420000.0, 2400.0)),
        Entry("University City", Neighborhood(350000.0, 2000.0)),
        Entry("Fishtown", Neighborhood(380000.0, 1900.0)),
        Entry("South Philadelphia", Neighborhood(260000.0, 1500.0)),
        Entry("Northern Liberties", Neighborhood(410000.0, 2100.0))])),
    Entry("San Antonio, TX", Region(285000.0, 1450.0, 1.85, 0.58, 3.8, 3.5, 6.2, 8.8, [
        Entry("Alamo Heights", Neighborhood(580000.0, 2200.0)),
        Entry("Stone Oak", Neighborhood(380000.0, 1800.0)),
        Entry("Downtown", Neighborhood(320000.0, 1600.0)),
        Entry("Medical Center", Neighborhood(290000.0, 1500.0)),
        Entry("Boerne", Neighborhood(420000.0, 1900.0))])),
    Entry("San Diego, CA", Region(850000.0, 3000.0, 0.78, 0.40, 4.8, 4.1, 3.8, 5.5, [
        Entry("La Jolla", Neighborhood(1800000.0, 5200.0)),
        Entry("Downtown", Neighborhood(750000.0, 3200.0)),
        Entry("Pacific Beach", Neighborhood(950000.0, 3400.0)),
        Entry("North Park", Neighborhood(780000.0, 2800.0)),
        Entry("Chula Vista", Neighborhood(650000.0, 2500.0))])),
    Entry("Dallas, TX", Region(385000.0, 1950.0, 1.75, 0.62, 4.5, 3.8, 5.5, 7.9, [
        Entry("Highland Park", Neighborhood(1500000.0, 5000.0)),
        Entry("Uptown", Neighborhood(480000.0, 2400.0)),
        Entry("Deep Ellum", Neighborhood(420000.0, 2100.0)),
        Entry("Plano", Neighborhood(450000.0, 2200.0)),
        Entry("Frisco", Neighborhood(520000.0, 2500.0))])),
    Entry("Austin, TX", Region(550000.0, 2400.0, 1.68, 0.55, 5.8, 4.5, 4.2, 6.8, [
        Entry("Downtown", Neighborhood(680000.0, 3200.0)),
        Entry("South Congress", Neighborhood(620000.0, 2800.0)),
        Entry("East Austin", Neighborhood(480000.0, 2200.0)),
        Entry("Westlake", Neighborhood(1200000.0, 4500.0)),
        Entry("Round Rock", Neighborhood(420000.0, 2000.0))]))
  ]

  const PropertyTypes: seq<Entry<PropertyType>> := [
    Entry("Single Family", PropertyType(1.0, 1.0, 1.0)),
    Entry("Condo", PropertyType(0.85, 0.9, 0.8)),
    Entry("Townhouse", PropertyType(0.9, 0.95, 0.9)),
    Entry("Multi-Family (2-4 units)", PropertyType(1.5, 1.8, 1.2)),
    Entry("Small Apartment (5-20 units)", PropertyType(3.5, 4.2, 1.3)),
    Entry("Large Apartment (20+ units)", PropertyType(8.0, 10.0, 1.4))
  ]

  const FirstTimeBuyer: string := "First-Time Buyer"

  const BuyerProfiles: seq<Entry<BuyerProfile>> := [
    Entry(FirstTimeBuyer, BuyerProfile(5.0, ["FHA", "Conventional"],
      ["Consider FHA loans with 3.5% down", "Look into first-time buyer programs",
       "Budget for closing costs (2-3% of purchase price)"])),
    Entry("Move-Up Buyer", BuyerProfile(10.0, ["Conventional"],
      ["Consider using equity from current home", "Shop around for best rates",
       "Consider 15-year mortgage for faster equity building"])),
    Entry("Investment Property", BuyerProfile(25.0, ["Conventional Investment", "Portfolio Loan"],
      ["Higher down payment required for investment properties", "Expect higher interest rates",
       "Consider cash flow over appreciation"])),
    Entry("Cash Buyer", BuyerProfile(100.0, ["Cash"],
      ["Negotiate for better price with cash offer", "Consider opportunity cost of cash",
       "Still get inspection and appraisal"]))
  ]

  /** The keys of the three tables, in the order marketDatabase lists them. */
  lemma TableKeys()
    ensures Keys(Regions) == ["New York, NY", "Los Angeles, CA", "Chicago, IL", "Houston, TX", "Phoenix, AZ",
                              "Philadelphia, PA", "San Antonio, TX", "San Diego, CA", "Dallas, TX", "Austin, TX"]
    ensures Keys(PropertyTypes) == ["Single Family", "Condo", "Townhouse", "Multi-Family (2-4 units)",
                                    "Small Apartment (5-20 units)", "Large Apartment (20+ units)"]
    ensures Keys(BuyerProfiles) == [FirstTimeBuyer, "Move-Up Buyer", "Investment Property", "Cash Buyer"]
  {
  }

  /** No price, rent or neighbourhood figure in the table is negative. */
  predicate RegionNonNegative(r: Region)
  {
    && r.medianPrice >= 0.0 && r.medianRent >= 0.0
    && forall j :: 0 <= j < |r.neighborhoods| ==>
         r.neighborhoods[j].value.medianPrice >= 0.0 && r.neighborhoods[j].value.medianRent >= 0.0
  }

  lemma TableNonNegative()
    ensures forall i :: 0 <= i < |Regions| ==> RegionNonNegative(Regions[i].value)
    ensures forall i :: 0 <= i < |PropertyTypes| ==>
              PropertyTypes[i].value.priceMultiplier > 0.0 && PropertyTypes[i].value.rentMultiplier > 0.0
  {
    RegionsNonNegative();
  }

  /** The table's figures, checked five regions at a time to keep each proof small. */
  lemma RegionsNonNegative()
    ensures forall i :: 0 <= i < |Regions| ==> RegionNonNegative(Regions[i].value)
  {
    FirstRegionsNonNegative();
    LastRegionsNonNegative();
  }

  lemma FirstRegionsNonNegative()
    ensures forall i :: 0 <= i < 5 ==> RegionNonNegative(Regions[i].value)
  {
  }

  lemma LastRegionsNonNegative()
    ensures forall i :: 5 <= i < 10 ==> RegionNonNegative(Regions[i].value)
  {
  }

  // ---------------------------------------------------------------------------
  // MarketDataHelper (marketData.js:287-412)
  // ---------------------------------------------------------------------------

  /** getMortgageRate: the rate for the named loan type, the 30-year rate for any other name. */
  function MortgageRate(loanType: string): (rate: real)
    ensures loanType == "15year" ==> rate == 5.62
    ensures loanType == "fha" ==> rate == 6.15
    ensures loanType == "va" ==> rate == 5.85
    ensures loanType == "jumbo" ==> rate == 6.75
    ensures loanType !in {"15year", "fha", "va", "jumbo"} ==> rate == 6.35
  {
    match loanType
    case "15year" => NationalMortgage.current15Year
    case "fha" => NationalMortgage.fhaRate
    case "va" => NationalMortgage.vaRate
    case "jumbo" => NationalMortgage.jumboRate
    case _ => NationalMortgage.current30Year
  }

  /** getLocationData: the city's figures, or null for a city not in the table. */
  function LocationData(city: string): (r: Option<Region>)
    ensures r.Some? <==> city in AvailableCities()
    ensures r.Some? ==> exists i :: 0 <= i < |Regions| && Regions[i].key == city && Regions[i].value == r.value
  {
    KeysLookup(Regions, city);
    Lookup(Regions, city)
  }

  /** getNeighborhoodData: the neighbourhood's figures, or null when the city or the neighbourhood is unknown. */
  function NeighborhoodData(city: string, neighborhood: string): (r: Option<Neighborhood>)
    ensures LocationData(city).None? ==> r.None?
    ensures LocationData(city).Some? ==> r == Lookup(LocationData(city).value.neighborhoods, neighborhood)
  {
    match LocationData(city)
    case None => None
    case Some(cityData) => Lookup(cityData.neighborhoods, neighborhood)
  }

  /** getAvailableCities: the cities of the table, in table order. */
  function AvailableCities(): (cities: seq<string>)
    ensures |cities| == |Regions|
    ensures forall i :: 0 <= i < |Regions| ==> cities[i] == Regions[i].key
  {
    Keys(Regions)
  }

  /** getNeighborhoods: the city's neighbourhoods in table order, none for an unknown city. */
  function Neighborhoods(city: string): (names: seq<string>)
    ensures LocationData(city).None? ==> names == []
    ensures LocationData(city).Some? ==> names == Keys(LocationData(city).value.neighborhoods)
  {
    match LocationData(city)
    case None => []
    case Some(cityData) => Keys(cityData.neighborhoods)
  }

  /** A neighbourhood is listed for a city exactly when its figures can be looked up. */
  lemma NeighborhoodsListed(city: string, neighborhood: string)
    ensures neighborhood in Neighborhoods(city) <==> NeighborhoodData(city, neighborhood).Some?
  {
    if LocationData(city).Some? {
      KeysLookup(LocationData(city).value.neighborhoods, neighborhood);
    }
  }

  /** What getSuggestedPurchasePrice and getSuggestedRent return. */
  datatype Suggestion = Suggestion(suggested: int, low: int, high: int, median: real, source: string)

  /**
   * The figure a suggestion starts from: the neighbourhood's when one is named
   * and known, the city's otherwise.  The empty string stands for no
   * neighbourhood, as JavaScript treats null and "" alike.
   */
  function BaseFigure(cityData: Region, neighborhood: string, ofPrice: bool): (base: real)
  {
    var n := Lookup(cityData.neighborhoods, neighborhood);
    if neighborhood != "" && n.Some? then (if ofPrice then n.value.medianPrice else n.value.medianRent)
    else if ofPrice then cityData.medianPrice else cityData.medianRent
  }

  /**
   * `propertyTypes[type]?.<multiplier> || 1`: a known type scales by its own
   * price or rent multiplier (none of which is zero), an unknown type by 1.
   */
  function TypeMultiplier(propertyType: string, ofPrice: bool): (m: real)
    ensures Lookup(PropertyTypes, propertyType).None? ==> m == 1.0
    ensures Lookup(PropertyTypes, propertyType).Some? ==>
      var t := Lookup(PropertyTypes, propertyType).value;
      m == if ofPrice then t.priceMultiplier else t.rentMultiplier
    ensures m > 0.0
  {
    TableNonNegative();
    var t := Lookup(PropertyTypes, propertyType);
    if t.None? then 1.0
    else
      var m := if ofPrice then t.value.priceMultiplier else t.value.rentMultiplier;
      if m == 0.0 then 1.0 else m
  }

  /** A condo scales a price by 0.85 and a rent by 0.9. */
  lemma CondoMultipliers()
    ensures TypeMultiplier("Condo", true) == 0.85 && TypeMultiplier("Condo", false) == 0.9
  {
    assert Lookup(PropertyTypes, "Condo") == Lookup(PropertyTypes[1..], "Condo") == Some(PropertyTypes[1].value);
  }

  /** Where a suggestion comes from: "neighbourhood, city" when a neighbourhood is named, else the city. */
  function Source(location: string, neighborhood: string): string
  {
    if neighborhood != "" then neighborhood + ", " + location else location
  }

  /**
   * The common shape of the two suggestions: the base scaled by the
   * multiplier, rounded, with the scaled base times the low and the high factor,
   * rounded, as the band.
   */
  function Suggest(base: real, multiplier: real, lowFactor: real, highFactor: real, source: string)
    : (s: Suggestion)
    ensures s.median == base && s.source == source
    ensures s.suggested as real - 0.5 <= base * multiplier < s.suggested as real + 0.5
    ensures s.low as real - 0.5 <= base * multiplier * lowFactor < s.low as real + 0.5
    ensures s.high as real - 0.5 <= base * multiplier * highFactor < s.high as real + 0.5
  {
    Suggestion(Round(base * multiplier), Round(base * multiplier * lowFactor),
               Round(base * multiplier * highFactor), base, source)
  }

  /**
   * getSuggestedPurchasePrice: null for an unknown city; otherwise the base
   * price scaled by the property type, rounded, with a band from 85% to 115%.
   */
  function SuggestedPurchasePrice(location: string, propertyType: string, neighborhood: string)
    : (r: Option<Suggestion>)
    ensures r.None? <==> LocationData(location).None?
    ensures r.Some? ==>
      r.value == Suggest(BaseFigure(LocationData(location).value, neighborhood, true),
                         TypeMultiplier(propertyType, true), 0.85, 1.15, Source(location, neighborhood))
  {
    match LocationData(location)
    case None => None
    case Some(cityData) =>
      var base := BaseFigure(cityData, neighborhood, true);
      Some(Suggest(base, TypeMultiplier(propertyType, true), 0.85, 1.15, Source(location, neighborhood)))
  }

  /**
   * getSuggestedRent: null for an unknown city; otherwise the base rent scaled
   * by the property type, rounded, with a band from 90% to 110%.
   */
  function SuggestedRent(location: string, propertyType: string, neighborhood: string)
    : (r: Option<Suggestion>)
    ensures r.None? <==> LocationData(location).None?
    ensures r.Some? ==>
      r.value == Suggest(BaseFigure(LocationData(location).value, neighborhood, false),
                         TypeMultiplier(propertyType, false), 0.9, 1.1, Source(location, neighborhood))
  {
    match LocationData(location)
    case None => None
    case Some(cityData) =>
      var base := BaseFigure(cityData, neighborhood, false);
      Some(Suggest(base, TypeMultiplier(propertyType, false), 0.9, 1.1, Source(location, neighborhood)))
  }

  /**
   * A named, known neighbourhood overrides the city's median; an unnamed or
   * unknown one falls back to it.
   */
  lemma BaseFigureChoice(location: string, neighborhood: string, ofPrice: bool)
    requires LocationData(location).Some?
    ensures var cityData := LocationData(location).value;
            var n := NeighborhoodData(location, neighborhood);
      && (neighborhood != "" && n.Some? ==>
            BaseFigure(cityData, neighborhood, ofPrice)
            == if ofPrice then n.value.medianPrice else n.value.medianRent)
      && (neighborhood == "" || n.None? ==>
            BaseFigure(cityData, neighborhood, ofPrice)
            == if ofPrice then cityData.medianPrice else cityData.medianRent)
  {
  }

  /** Every base figure the table yields is non-negative. */
  lemma BaseNonNegative(location: string, neighborhood: string, ofPrice: bool)
    requires LocationData(location).Some?
    ensures BaseFigure(LocationData(location).value, neighborhood, ofPrice) >= 0.0
  {
    TableNonNegative();
    var cityData := LocationData(location).value;
    assert RegionNonNegative(cityData);
    var n := Lookup(cityData.neighborhoods, neighborhood);
    if n.Some? {
      var j :| 0 <= j < |cityData.neighborhoods| && cityData.neighborhoods[j].key == neighborhood
               && cityData.neighborhoods[j].value == n.value
               && forall k :: 0 <= k < j ==> cityData.neighborhoods[k].key != neighborhood;
    }
  }

  /** Rounding keeps a non-negative figure's band in order: low <= suggested <= high. */
  lemma BandOrdered(base: real, multiplier: real, lowFactor: real, highFactor: real, source: string)
    requires base >= 0.0 && multiplier >= 0.0 && 0.0 <= lowFactor <= 1.0 <= highFactor
    ensures var s := Suggest(base, multiplier, lowFactor, highFactor, source);
      s.low <= s.suggested <= s.high
  {
    var x := base * multiplier;
    ProductNonNegative(base, multiplier);
    ScaleBounds(x, lowFactor, highFactor);
    RoundMonotone(x * lowFactor, x);
    RoundMonotone(x, x * highFactor);
  }

  lemma ProductNonNegative(a: real, b: real)
    requires a >= 0.0 && b >= 0.0
    ensures a * b >= 0.0
  {
  }

  lemma ScaleBounds(x: real, lowFactor: real, highFactor: real)
    requires x >= 0.0 && lowFactor <= 1.0 <= highFactor
    ensures x * lowFactor <= x <= x * highFactor
  {
    assert x - x * lowFactor == x * (1.0 - lowFactor);
    assert x * highFactor - x == x * (highFactor - 1.0);
    ProductNonNegative(x, 1.0 - lowFactor);
    ProductNonNegative(x, highFactor - 1.0);
  }

  /** Every suggested purchase price lies in its band. */
  lemma PurchasePriceBand(location: string, propertyType: string, neighborhood: string)
    ensures var r := SuggestedPurchasePrice(location, propertyType, neighborhood);
      r.Some? ==> r.value.low <= r.value.suggested <= r.value.high
  {
    if LocationData(location).Some? {
      BaseNonNegative(location, neighborhood, true);
      BandOrdered(BaseFigure(LocationData(location).value, neighborhood, true), TypeMultiplier(propertyType, true),
                  0.85, 1.15, Source(location, neighborhood));
    }
  }

  /** Every suggested rent lies in its band. */
  lemma RentBand(location: string, propertyType: string, neighborhood: string)
    ensures var r := SuggestedRent(location, propertyType, neighborhood);
      r.Some? ==> r.value.low <= r.value.suggested <= r.value.high
  {
    if LocationData(location).Some? {
      BaseNonNegative(location, neighborhood, false);
      BandOrdered(BaseFigure(LocationData(location).value, neighborhood, false), TypeMultiplier(propertyType, false),
                  0.9, 1.1, Source(location, neighborhood));
    }
  }

  /** `Math.round(amount * ratePercent / 100)`: a percentage of an amount to the nearest whole dollar. */
  function Share(amount: real, ratePercent: real): (r: int)
    ensures r as real - 0.5 <= amount * ratePercent / 100.0 < r as real + 0.5
  {
    Round(amount * ratePercent / 100.0)
  }

  /** What getExpenseEstimates returns: yearly amounts rounded to whole dollars, and the rates used. */
  datatype ExpenseEstimates = ExpenseEstimates(
    propertyTax: int,
    insurance: int,
    maintenance: int,
    propertyTaxRate: real,
    insuranceRate: real,
    maintenanceRate: real)

  /**
   * getExpenseEstimates: tax and insurance at the city's rates when the city
   * is known and at the national 1.2% and 0.45% otherwise; maintenance always
   * at the national 1%.  Each amount is its rate's share of the price, rounded.
   */
  function ExpenseEstimatesOf(purchasePrice: real, location: string): (e: ExpenseEstimates)
    ensures LocationData(location).Some? ==>
      e.propertyTaxRate == LocationData(location).value.propertyTax
      && e.insuranceRate == LocationData(location).value.insurance
    ensures LocationData(location).None? ==> e.propertyTaxRate == 1.2 && e.insuranceRate == 0.45
    ensures e.maintenanceRate == 1.0
    ensures e.propertyTax == Share(purchasePrice, e.propertyTaxRate)
    ensures e.insurance == Share(purchasePrice, e.insuranceRate)
    ensures e.maintenance == Share(purchasePrice, e.maintenanceRate)
  {
    var cityData := LocationData(location);
    var propertyTax := if cityData.Some? then cityData.value.propertyTax else National.propertyTax;
    var insurance := if cityData.Some? then cityData.value.insurance else National.insurance;
    ExpenseEstimates(Share(purchasePrice, propertyTax), Share(purchasePrice, insurance),
                     Share(purchasePrice, National.maintenance), propertyTax, insurance, National.maintenance)
  }

  /** What getMarketMetrics returns, in percent. */
  datatype Metrics = Metrics(capRate: real, appreciation: real, rentGrowth: real, vacancy: real)

  /** getMarketMetrics: the city's figures, or the national 8.5, 3.5, 3.0 and 5 for an unknown city. */
  function MarketMetrics(location: string): (m: Metrics)
    ensures LocationData(location).None? ==> m == Metrics(8.5, 3.5, 3.0, 5.0)
    ensures LocationData(location).Some? ==>
      var c := LocationData(location).value;
      m == Metrics(c.capRate, c.appreciation, c.rentGrowth, c.vacancy)
  {
    match LocationData(location)
    case None => Metrics(NationalReturnRates.avgCapRate, NationalReturnRates.avgAppreciation, 3.0, National.vacancy)
    case Some(c) => Metrics(c.capRate, c.appreciation, c.rentGrowth, c.vacancy)
  }

  /** getFinancingSuggestions: the named buyer profile, or the first-time buyer's for any other name. */
  function FinancingSuggestions(buyerType: string): (b: BuyerProfile)
    ensures Lookup(BuyerProfiles, buyerType).Some? ==> b == Lookup(BuyerProfiles, buyerType).value
    ensures Lookup(BuyerProfiles, buyerType).None? ==> b == BuyerProfiles[0].value
    ensures b.suggestedDownPayment in {5.0, 10.0, 25.0, 100.0}
  {
    match Lookup(BuyerProfiles, buyerType)
    case Some(profile) => profile
    case None => BuyerProfiles[0].value
  }
}
