/**
 * The market dashboard's arithmetic in analytics.js: the investment score of a
 * market, the national averages over all markets, the orderings of the
 * markets table, and the chart colour palette.
 */
module Analytics {
  import opened Wrappers
  import opened JsMath
  import opened MarketData

  // ---------------------------------------------------------------------------
  // calculateInvestmentScore (analytics.js:448-456)
  // ---------------------------------------------------------------------------

  /** Ten points per percent of cap rate, at most 50. */
  function CapRateTerm(capRate: real): (t: real)
    ensures t <= 50.0 && t <= capRate * 10.0
    ensures t == 50.0 || t == capRate * 10.0
  {
    Min(capRate * 10.0, 50.0)
  }

  /** Three points per percent of appreciation or rent growth, at most 15. */
  function GrowthTerm(rate: real): (t: real)
    ensures t <= 15.0 && t <= rate * 3.0
    ensures t == 15.0 || t == rate * 3.0
  {
    Min(rate * 3.0, 15.0)
  }

  /** 20 points less two per percent of vacancy, at least 0. */
  function VacancyTerm(vacancy: real): (t: real)
    ensures t >= 0.0 && t >= 20.0 - vacancy * 2.0
    ensures t == 0.0 || t == 20.0 - vacancy * 2.0
    ensures vacancy >= 0.0 ==> t <= 20.0
  {
    Max(20.0 - vacancy * 2.0, 0.0)
  }

  /** calculateInvestmentScore: the four capped terms added up and rounded. */
  function InvestmentScore(data: Region): (score: int)
    ensures score as real - 0.5
            <= CapRateTerm(data.capRate) + GrowthTerm(data.appreciation) + GrowthTerm(data.rentGrowth)
               + VacancyTerm(data.vacancy)
            < score as real + 0.5
  {
    Round(CapRateTerm(data.capRate) + GrowthTerm(data.appreciation) + GrowthTerm(data.rentGrowth)
          + VacancyTerm(data.vacancy))
  }

  /**
   * With a vacancy rate that is not negative the score never exceeds 100, and
   * it is not negative when none of the four figures is.
   */
  lemma ScoreBounds(data: Region)
    ensures data.vacancy >= 0.0 ==> InvestmentScore(data) <= 100
    ensures data.capRate >= 0.0 && data.appreciation >= 0.0 && data.rentGrowth >= 0.0 && data.vacancy >= 0.0
            ==> InvestmentScore(data) >= 0
  {
    var total := CapRateTerm(data.capRate) + GrowthTerm(data.appreciation) + GrowthTerm(data.rentGrowth)
                 + VacancyTerm(data.vacancy);
    if data.vacancy >= 0.0 {
      assert total <= 100.0;
    }
  }

  /**
   * The vacancy term is floored at 0 but not capped at 20, so a negative
   * vacancy rate lifts the score past 100: 5% cap rate, appreciation and rent
   * growth with -10% vacancy score 50 + 15 + 15 + 40.
   */
  lemma ScoreAboveHundred(data: Region)
    requires data.capRate == 5.0 && data.appreciation == 5.0 && data.rentGrowth == 5.0 && data.vacancy == -10.0
    ensures InvestmentScore(data) == 120
  {
    assert CapRateTerm(data.capRate) + GrowthTerm(data.appreciation) + GrowthTerm(data.rentGrowth)
           + VacancyTerm(data.vacancy) == 120.0;
  }

  /** Every market of the table scores between 0 and 100. */
  lemma TableScoresInRange()
    ensures forall i :: 0 <= i < |Regions| ==> 0 <= InvestmentScore(Regions[i].value) <= 100
  {
    forall i | 0 <= i < |Regions|
      ensures 0 <= InvestmentScore(Regions[i].value) <= 100
    {
      var r := Regions[i].value;
      assert r.capRate >= 0.0 && r.appreciation >= 0.0 && r.rentGrowth >= 0.0 && r.vacancy >= 0.0;
      ScoreBounds(r);
    }
  }

  /**
   * A better market never scores lower: a higher cap rate, appreciation or
   * rent growth and a lower vacancy can only raise the score.
   */
  lemma ScoreMonotone(a: Region, b: Region)
    requires a.capRate <= b.capRate && a.appreciation <= b.appreciation && a.rentGrowth <= b.rentGrowth
    requires a.vacancy >= b.vacancy
    ensures InvestmentScore(a) <= InvestmentScore(b)
  {
    var x := CapRateTerm(a.capRate) + GrowthTerm(a.appreciation) + GrowthTerm(a.rentGrowth) + VacancyTerm(a.vacancy);
    var y := CapRateTerm(b.capRate) + GrowthTerm(b.appreciation) + GrowthTerm(b.rentGrowth) + VacancyTerm(b.vacancy);
    assert x <= y;
    RoundMonotone(x, y);
  }

  /** A market at 8.5% cap rate, 3.5% appreciation, 3% rent growth and 5.2% vacancy scores 50 + 10.5 + 9 + 9.6, or 79. */
  lemma ScoreExample(data: Region)
    requires data.capRate == 8.5 && data.appreciation == 3.5 && data.rentGrowth == 3.0 && data.vacancy == 5.2
    ensures InvestmentScore(data) == 79
  {
    assert CapRateTerm(data.capRate) + GrowthTerm(data.appreciation) + GrowthTerm(data.rentGrowth)
           + VacancyTerm(data.vacancy) == 79.1;
  }

  // ---------------------------------------------------------------------------
  // getNationalAverages (analytics.js:104-116)
  // ---------------------------------------------------------------------------

  /** The figures of a region that getNationalAverages averages. */
  datatype Field = MedianPrice | MedianRent | CapRate | Appreciation | RentGrowth | Vacancy | PropertyTax | Insurance

  function FieldOf(r: Region, f: Field): real
  {
    match f
    case MedianPrice => r.medianPrice
    case MedianRent => r.medianRent
    case CapRate => r.capRate
    case Appreciation => r.appreciation
    case RentGrowth => r.rentGrowth
    case Vacancy => r.vacancy
    case PropertyTax => r.propertyTax
    case Insurance => r.insurance
  }

  /** `Object.values(regions)`, in table order. */
  function Values<V>(entries: seq<Entry<V>>): (vs: seq<V>)
    ensures |vs| == |entries|
    ensures forall i :: 0 <= i < |entries| ==> vs[i] == entries[i].value
  {
    seq(|entries|, i requires 0 <= i < |entries| => entries[i].value)
  }

  /** `regions.reduce((sum, r) => sum + r.<field>, 0)`: the field added up from the first region to the last. */
  function Sum(regions: seq<Region>, f: Field): real
  {
    if |regions| == 0 then 0.0 else Sum(regions[..|regions| - 1], f) + FieldOf(regions[|regions| - 1], f)
  }

  /** The sum over the regions, divided by how many there are. */
  function Mean(regions: seq<Region>, f: Field): real
    requires |regions| > 0
  {
    Sum(regions, f) / |regions| as real
  }

  /** When every region's field lies in [lo, hi], the sum lies between n times lo and n times hi. */
  lemma {:induction false} SumBounds(regions: seq<Region>, f: Field, lo: real, hi: real)
    requires forall i :: 0 <= i < |regions| ==> lo <= FieldOf(regions[i], f) <= hi
    ensures |regions| as real * lo <= Sum(regions, f) <= |regions| as real * hi
  {
    if |regions| > 0 {
      var n := |regions| - 1;
      SumBounds(regions[..n], f, lo, hi);
      assert lo <= FieldOf(regions[n], f) <= hi;
      assert (n + 1) as real * lo == n as real * lo + lo;
      assert (n + 1) as real * hi == n as real * hi + hi;
    }
  }

  /** An average lies between any lower and upper bound of the figures it averages, so between their minimum and maximum. */
  lemma MeanBounds(regions: seq<Region>, f: Field, lo: real, hi: real)
    requires |regions| > 0
    requires forall i :: 0 <= i < |regions| ==> lo <= FieldOf(regions[i], f) <= hi
    ensures lo <= Mean(regions, f) <= hi
  {
    SumBounds(regions, f, lo, hi);
    var n := |regions| as real;
    DivBounds(Sum(regions, f), n, lo, hi);
  }

  lemma DivBounds(s: real, n: real, lo: real, hi: real)
    requires n > 0.0 && n * lo <= s <= n * hi
    ensures lo <= s / n <= hi
  {
  }

  /** What getNationalAverages returns. */
  datatype Averages = Averages(
    medianPrice: real,
    medianRent: real,
    capRate: real,
    appreciation: real,
    rentGrowth: real,
    vacancy: real,
    propertyTax: real,
    insurance: real)

  /** The average of one figure. */
  function Average(a: Averages, f: Field): real
  {
    match f
    case MedianPrice => a.medianPrice
    case MedianRent => a.medianRent
    case CapRate => a.capRate
    case Appreciation => a.appreciation
    case RentGrowth => a.rentGrowth
    case Vacancy => a.vacancy
    case PropertyTax => a.propertyTax
    case Insurance => a.insurance
  }

  /**
   * getNationalAverages: each figure averaged over all the regions of the
   * table, so that the number of regions times the average is the figure's
   * sum over the table.
   */
  function NationalAverages(): (a: Averages)
    ensures forall f :: Average(a, f) * |Regions| as real == Sum(Values(Regions), f)
  {
    var regions := Values(Regions);
    Averages(Mean(regions, MedianPrice), Mean(regions, MedianRent), Mean(regions, CapRate),
             Mean(regions, Appreciation), Mean(regions, RentGrowth), Mean(regions, Vacancy),
             Mean(regions, PropertyTax), Mean(regions, Insurance))
  }

  /** A national average lies between the lowest and the highest regional figure. */
  lemma NationalAverageBounds(f: Field, lo: real, hi: real)
    requires forall i :: 0 <= i < |Regions| ==> lo <= FieldOf(Regions[i].value, f) <= hi
    ensures lo <= Average(NationalAverages(), f) <= hi
  {
    MeanBounds(Values(Regions), f, lo, hi);
  }

  // ---------------------------------------------------------------------------
  // The markets table orderings (analytics.js:420-428, 458-481)
  // ---------------------------------------------------------------------------

  /** A row of the markets table: the city, its figures and its score. */
  datatype MarketRow = MarketRow(name: string, data: Region, score: int)

  /** The rows before sorting: one per region, in table order, each with its score. */
  function Rows(): (rows: seq<MarketRow>)
    ensures |rows| == |Regions|
    ensures forall i :: 0 <= i < |rows| ==>
      rows[i] == MarketRow(Regions[i].key, Regions[i].value, InvestmentScore(Regions[i].value))
  {
    seq(|Regions|, i requires 0 <= i < |Regions| =>
          MarketRow(Regions[i].key, Regions[i].value, InvestmentScore(Regions[i].value)))
  }

  /** The orderings sortTable offers; populateMarketsTable uses the cap-rate one. */
  datatype Order = ByCapRate | ByAppreciation | ByRentGrowth | ByAffordability

  /** The `sortBy` keys sortTable recognises; any other key leaves the table in table order. */
  function OrderOf(sortBy: string): (o: Option<Order>)
    ensures o.None? <==> sortBy !in {"capRate", "appreciation", "rentGrowth", "affordability"}
  {
    match sortBy
    case "capRate" => Some(ByCapRate)
    case "appreciation" => Some(ByAppreciation)
    case "rentGrowth" => Some(ByRentGrowth)
    case "affordability" => Some(ByAffordability)
    case _ => None
  }

  /**
   * The figure a row is ranked by, highest first: cap rate, appreciation or
   * rent growth, and for affordability the negated median price, so that the
   * cheapest market comes first.
   */
  function Rank(row: MarketRow, order: Order): real
  {
    match order
    case ByCapRate => row.data.capRate
    case ByAppreciation => row.data.appreciation
    case ByRentGrowth => row.data.rentGrowth
    case ByAffordability => -row.data.medianPrice
  }

  /** The first `n` rows run from the highest rank to the lowest. */
  predicate RankedPrefix(rows: seq<MarketRow>, n: int, order: Order)
    requires n <= |rows|
  {
    forall p, q :: 0 <= p < q < n ==> Rank(rows[p], order) >= Rank(rows[q], order)
  }

  /** The rows run from the highest rank to the lowest. */
  predicate Sorted(rows: seq<MarketRow>, order: Order)
  {
    RankedPrefix(rows, |rows|, order)
  }

  /** The rows of rank exactly `v`, in the order they stand. */
  function Ties(rows: seq<MarketRow>, order: Order, v: real): seq<MarketRow>
  {
    if |rows| == 0 then []
    else (if Rank(rows[0], order) == v then [rows[0]] else []) + Ties(rows[1..], order, v)
  }

  /**
   * The rows keep the relative order of every group of equally ranked rows in
   * `before`, as the stable `Array.prototype.sort` keeps it.
   */
  ghost predicate KeepsTies(rows: seq<MarketRow>, before: seq<MarketRow>, order: Order)
  {
    forall v :: Ties(rows, order, v) == Ties(before, order, v)
  }

  lemma {:induction false} TiesAppend(x: seq<MarketRow>, y: seq<MarketRow>, order: Order, v: real)
    ensures Ties(x + y, order, v) == Ties(x, order, v) + Ties(y, order, v)
  {
    if |x| == 0 {
      assert x + y == y;
    } else {
      var head := if Rank(x[0], order) == v then [x[0]] else [];
      assert (x + y)[0] == x[0] && (x + y)[1..] == x[1..] + y;
      calc {
        Ties(x + y, order, v);
        head + Ties(x[1..] + y, order, v);
        { TiesAppend(x[1..], y, order, v); }
        head + (Ties(x[1..], order, v) + Ties(y, order, v));
        (head + Ties(x[1..], order, v)) + Ties(y, order, v);
        Ties(x, order, v) + Ties(y, order, v);
      }
    }
  }

  /** Swapping two neighbouring rows of different rank keeps every group of ties in order. */
  lemma SwapKeepsTies(rows: seq<MarketRow>, j: int, order: Order)
    requires 0 < j < |rows|
    requires Rank(rows[j - 1], order) != Rank(rows[j], order)
    ensures KeepsTies(rows[j - 1 := rows[j]][j := rows[j - 1]], rows, order)
  {
    var a, b := rows[j - 1], rows[j];
    var front, back := rows[..j - 1], rows[j + 1..];
    assert rows[j - 1 := b][j := a] == front + [b, a] + back;
    assert rows == front + [a, b] + back;
    forall v
      ensures Ties(front + [b, a] + back, order, v) == Ties(front + [a, b] + back, order, v)
    {
      SwapTies(front, a, b, back, order, v);
    }
  }

  /** The group of rank `v` is the same whichever of two rows of different rank comes first. */
  lemma SwapTies(front: seq<MarketRow>, a: MarketRow, b: MarketRow, back: seq<MarketRow>, order: Order, v: real)
    requires Rank(a, order) != Rank(b, order)
    ensures Ties(front + [b, a] + back, order, v) == Ties(front + [a, b] + back, order, v)
  {
    TiesPair(a, b, order, v);
    TiesPair(b, a, order, v);
    var middle := Ties([a, b], order, v);
    assert Ties([b, a], order, v) == middle;
    TiesAppend(front + [b, a], back, order, v);
    TiesAppend(front, [b, a], order, v);
    assert Ties(front + [b, a] + back, order, v) == Ties(front, order, v) + middle + Ties(back, order, v);
    TiesAppend(front + [a, b], back, order, v);
    TiesAppend(front, [a, b], order, v);
  }

  /** The group of rank `v` among two rows. */
  lemma TiesPair(a: MarketRow, b: MarketRow, order: Order, v: real)
    ensures Ties([a, b], order, v) == (if Rank(a, order) == v then [a] else []) + (if Rank(b, order) == v then [b] else [])
  {
    var ha, hb := (if Rank(a, order) == v then [a] else []), (if Rank(b, order) == v then [b] else []);
    assert [a, b][1..] == [b] && [b][1..] == [];
    assert Ties([b], order, v) == hb + [] == hb;
    assert Ties([a, b], order, v) == ha + Ties([b], order, v);
  }

  /** A row of rank `v` stands somewhere in the rows exactly when the group of rank `v` is not empty. */
  lemma {:induction false} TiesWitness(rows: seq<MarketRow>, order: Order, v: real)
    ensures |Ties(rows, order, v)| > 0 <==> exists i :: 0 <= i < |rows| && Rank(rows[i], order) == v
  {
    if |rows| > 0 {
      TiesWitness(rows[1..], order, v);
      if exists i :: 0 <= i < |rows| && Rank(rows[i], order) == v {
        var i :| 0 <= i < |rows| && Rank(rows[i], order) == v;
        if i > 0 {
          assert rows[1..][i - 1] == rows[i];
        }
      }
      if exists i :: 0 <= i < |rows[1..]| && Rank(rows[1..][i], order) == v {
        var i :| 0 <= i < |rows[1..]| && Rank(rows[1..][i], order) == v;
        assert rows[i + 1] == rows[1..][i];
      }
    }
  }

  /**
   * Ranked rows are determined by their groups of ties: two ranked orderings
   * that keep every group in the same order are the same ordering.  So a
   * sort that ranks the rows and keeps the ties of the table order, as the
   * stable sort does, leaves no choice of order.
   */
  lemma {:induction false} SortedTiesUnique(x: seq<MarketRow>, y: seq<MarketRow>, order: Order)
    requires Sorted(x, order) && Sorted(y, order)
    requires KeepsTies(x, y, order)
    ensures x == y
    decreases |x|
  {
    if |x| == 0 || |y| == 0 {
      if |x| > 0 {
        TiesGroupOfHead(x, order);
        TiesWitness(y, order, Rank(x[0], order));
      } else if |y| > 0 {
        TiesGroupOfHead(y, order);
      }
    } else {
      HeadsAgree(x, y, order);
      TiesGroupOfHead(x, order);
      TiesGroupOfHead(y, order);
      forall u
        ensures Ties(x[1..], order, u) == Ties(y[1..], order, u)
      {
        TiesOfTail(x, order, u);
        TiesOfTail(y, order, u);
      }
      SortedTiesUnique(x[1..], y[1..], order);
      assert x == [x[0]] + x[1..] && y == [y[0]] + y[1..];
    }
  }

  /** Two ranked orderings of the same groups of ties start with the same row. */
  lemma HeadsAgree(x: seq<MarketRow>, y: seq<MarketRow>, order: Order)
    requires |x| > 0 && |y| > 0
    requires Sorted(x, order) && Sorted(y, order)
    requires KeepsTies(x, y, order)
    ensures x[0] == y[0]
  {
    var v, w := Rank(x[0], order), Rank(y[0], order);
    TiesGroupOfHead(x, order);
    TiesGroupOfHead(y, order);
    TiesWitness(y, order, v);
    TiesWitness(x, order, w);
    var i :| 0 <= i < |y| && Rank(y[i], order) == v;
    var k :| 0 <= k < |x| && Rank(x[k], order) == w;
    assert Rank(y[0], order) >= Rank(y[i], order) || i == 0;
    assert Rank(x[0], order) >= Rank(x[k], order) || k == 0;
    assert v == w;
    assert x[0] == Ties(x, order, v)[0] == Ties(y, order, v)[0] == y[0];
  }

  /** Dropping the first row drops it from its own group and leaves every other group as it was. */
  lemma TiesOfTail(rows: seq<MarketRow>, order: Order, u: real)
    requires |rows| > 0
    ensures Ties(rows[1..], order, u) == if Rank(rows[0], order) == u then Ties(rows, order, u)[1..] else Ties(rows, order, u)
  {
    var head := if Rank(rows[0], order) == u then [rows[0]] else [];
    assert Ties(rows, order, u) == head + Ties(rows[1..], order, u);
    assert (head + Ties(rows[1..], order, u))[|head|..] == Ties(rows[1..], order, u);
  }

  /** The first row heads the group of its own rank. */
  lemma TiesGroupOfHead(rows: seq<MarketRow>, order: Order)
    requires |rows| > 0
    ensures var g := Ties(rows, order, Rank(rows[0], order)); |g| > 0 && g[0] == rows[0]
    ensures Sorted(rows[1..], order) <== Sorted(rows, order)
  {
    if Sorted(rows, order) {
      forall p, q | 0 <= p < q < |rows[1..]|
        ensures Rank(rows[1..][p], order) >= Rank(rows[1..][q], order)
      {
        assert rows[1..][p] == rows[p + 1] && rows[1..][q] == rows[q + 1];
      }
    }
  }

  /**
   * `Array.prototype.sort` with the comparator of the order, as an insertion
   * sort in place: afterwards the array is ranked highest first and holds the
   * same rows as before.
   */
  method SortRows(a: array<MarketRow>, order: Order)
    modifies a
    ensures Sorted(a[..], order)
    ensures multiset(a[..]) == multiset(old(a[..]))
    ensures KeepsTies(a[..], old(a[..]), order)
  {
    var i := 0;
    while i < a.Length
      invariant 0 <= i <= a.Length
      invariant RankedPrefix(a[..], i, order)
      invariant multiset(a[..]) == multiset(old(a[..]))
      invariant KeepsTies(a[..], old(a[..]), order)
    {
      Insert(a, i, order);
      i := i + 1;
    }
  }

  /**
   * While row `j` moves towards the front: the first `i + 1` rows other than
   * row `j` are ranked, and row `j` ranks strictly above every row behind it.
   */
  predicate Inserting(rows: seq<MarketRow>, i: int, j: int, order: Order)
    requires 0 <= j <= i < |rows|
  {
    && (forall p, q :: 0 <= p < q <= i && p != j && q != j ==> Rank(rows[p], order) >= Rank(rows[q], order))
    && (forall q :: j < q <= i ==> Rank(rows[j], order) > Rank(rows[q], order))
  }

  /** Swapping row `j` with a lower-ranked row in front of it moves it one place on. */
  lemma SwapStep(rows: seq<MarketRow>, i: int, j: int, order: Order)
    requires 0 < j <= i < |rows|
    requires Inserting(rows, i, j, order)
    requires Rank(rows[j - 1], order) < Rank(rows[j], order)
    ensures Inserting(rows[j - 1 := rows[j]][j := rows[j - 1]], i, j - 1, order)
  {
    var swapped := rows[j - 1 := rows[j]][j := rows[j - 1]];
    forall p, q | 0 <= p < q <= i && p != j - 1 && q != j - 1
      ensures Rank(swapped[p], order) >= Rank(swapped[q], order)
    {
      if p == j {
        assert Rank(rows[j - 1], order) >= Rank(rows[q], order);
      } else if q == j {
        assert Rank(rows[p], order) >= Rank(rows[j - 1], order);
      }
    }
    forall q | j - 1 < q <= i
      ensures Rank(swapped[j - 1], order) > Rank(swapped[q], order)
    {
      if q > j {
        assert swapped[q] == rows[q];
      }
    }
  }

  /** Swapping two neighbouring rows keeps the same rows. */
  lemma SwapPermutes(rows: seq<MarketRow>, j: int)
    requires 0 < j < |rows|
    ensures multiset(rows[j - 1 := rows[j]][j := rows[j - 1]]) == multiset(rows)
  {
    assert rows[j - 1 := rows[j]][j := rows[j - 1]] == rows[..j - 1] + [rows[j], rows[j - 1]] + rows[j + 1..];
    assert rows == rows[..j - 1] + [rows[j - 1], rows[j]] + rows[j + 1..];
  }

  /** Once row `j` has stopped behind a row of at least its rank, the first `i + 1` rows are ranked. */
  lemma InsertDone(rows: seq<MarketRow>, i: int, j: int, order: Order)
    requires 0 <= j <= i < |rows|
    requires Inserting(rows, i, j, order)
    requires j == 0 || Rank(rows[j - 1], order) >= Rank(rows[j], order)
    ensures RankedPrefix(rows, i + 1, order)
  {
    forall p, q | 0 <= p < q <= i
      ensures Rank(rows[p], order) >= Rank(rows[q], order)
    {
      if q == j && p < j - 1 {
        assert Rank(rows[p], order) >= Rank(rows[j - 1], order);
      }
    }
  }

  /**
   * One step of the insertion sort: with the first `i` rows ranked, move row
   * `i` towards the front past every row that ranks strictly below it, so the
   * first `i + 1` rows are ranked and rows of equal rank keep their order.
   */
  method Insert(a: array<MarketRow>, i: nat, order: Order)
    requires i < a.Length
    requires RankedPrefix(a[..], i, order)
    modifies a
    ensures RankedPrefix(a[..], i + 1, order)
    ensures multiset(a[..]) == multiset(old(a[..]))
    ensures KeepsTies(a[..], old(a[..]), order)
  {
    var j := i;
    while j > 0 && Rank(a[j - 1], order) < Rank(a[j], order)
      invariant 0 <= j <= i
      invariant Inserting(a[..], i, j, order)
      invariant multiset(a[..]) == multiset(old(a[..]))
      invariant KeepsTies(a[..], old(a[..]), order)
    {
      SwapStep(a[..], i, j, order);
      SwapPermutes(a[..], j);
      SwapKeepsTies(a[..], j, order);
      a[j - 1], a[j] := a[j], a[j - 1];
      j := j - 1;
    }
    InsertDone(a[..], i, j, order);
  }

  /** populateMarketsTable: every market with its score, ranked by cap rate, highest first. */
  method PopulateMarketsTable() returns (rows: seq<MarketRow>)
    ensures Sorted(rows, ByCapRate)
    ensures multiset(rows) == multiset(Rows())
    ensures KeepsTies(rows, Rows(), ByCapRate)
  {
    var a := new MarketRow[|Regions|](i requires 0 <= i < |Regions| => Rows()[i]);
    assert a[..] == Rows();
    SortRows(a, ByCapRate);
    rows := a[..];
  }

  /** sortTable: the markets ranked by the named order, or in table order for a key it does not know. */
  method SortTable(sortBy: string) returns (rows: seq<MarketRow>)
    ensures OrderOf(sortBy).Some? ==> Sorted(rows, OrderOf(sortBy).value)
    ensures OrderOf(sortBy).Some? ==> KeepsTies(rows, Rows(), OrderOf(sortBy).value)
    ensures multiset(rows) == multiset(Rows())
    ensures OrderOf(sortBy).None? ==> rows == Rows()
  {
    var a := new MarketRow[|Regions|](i requires 0 <= i < |Regions| => Rows()[i]);
    assert a[..] == Rows();
    var order := OrderOf(sortBy);
    if order.Some? {
      SortRows(a, order.value);
    }
    rows := a[..];
  }

  /** Ranked by affordability, the median prices rise from the first row to the last. */
  lemma AffordabilityAscending(rows: seq<MarketRow>)
    requires Sorted(rows, ByAffordability)
    ensures forall i, j :: 0 <= i < j < |rows| ==> rows[i].data.medianPrice <= rows[j].data.medianPrice
  {
    forall i, j | 0 <= i < j < |rows|
      ensures rows[i].data.medianPrice <= rows[j].data.medianPrice
    {
      assert Rank(rows[i], ByAffordability) >= Rank(rows[j], ByAffordability);
    }
  }

  // ---------------------------------------------------------------------------
  // getChartColor (analytics.js:521-530)
  // ---------------------------------------------------------------------------

  /** An `rgba(red, green, blue, alpha)` colour. */
  datatype Rgba = Rgba(red: int, green: int, blue: int, alpha: real)

  /** The palette: green, yellow, orange, grey and the primary green, each at the given opacity. */
  function Palette(alpha: real): (colors: seq<Rgba>)
    ensures |colors| == 5
    ensures forall i :: 0 <= i < 5 ==> colors[i].alpha == alpha
  {
    [Rgba(90, 197, 59, alpha), Rgba(244, 182, 67, alpha), Rgba(236, 94, 42, alpha),
     Rgba(106, 109, 112, alpha), Rgba(0, 200, 5, alpha)]
  }

  /** JavaScript's `a % n`: the remainder takes the sign of `a`. */
  function TruncatedRemainder(a: int, n: int): (r: int)
    requires n > 0
    ensures a >= 0 ==> r == a % n
    ensures a < 0 ==> -n < r <= 0 && (r == 0 <==> (-a) % n == 0)
  {
    if a >= 0 then a % n else -((-a) % n)
  }

  /**
   * getChartColor: the palette entry at the index's remainder by five; a
   * negative index whose remainder is not zero reads past the palette and
   * yields undefined.
   */
  function ChartColor(index: int, alpha: real): (c: Option<Rgba>)
    ensures index >= 0 ==> c == Some(Palette(alpha)[index % 5])
    ensures index < 0 ==> (c.Some? <==> index % 5 == 0)
    ensures c.Some? ==> c.value in Palette(alpha) && c.value.alpha == alpha
  {
    var r := TruncatedRemainder(index, |Palette(alpha)|);
    if r < 0 then None else Some(Palette(alpha)[r])
  }

  /** The colours repeat every five indices. */
  lemma ChartColorPeriodic(index: nat, alpha: real)
    ensures ChartColor(index + 5, alpha) == ChartColor(index, alpha)
  {
  }

  /** The first five indices get five different colours. */
  lemma ChartColorsDistinct(i: nat, j: nat, alpha: real)
    requires i < j < 5
    ensures ChartColor(i, alpha) != ChartColor(j, alpha)
  {
  }
}
