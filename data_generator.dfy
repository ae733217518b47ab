/**
 * The synthetic appointment statistics: for every year, every specialty and
 * a region list weighted towards Ile-De-France, one record whose integer
 * parts come from `randomBetween` draws. `Math.random()` is an oracle: each
 * call yields a real number in [0, 1).
 */
module DataGenerator {
  import opened Wrappers
  import opened Text

  const Specialties: seq<string> := [
    "cardiologists", "dermatologists", "ophthalmologists", "psychiatrists",
    "endocrinologists", "pediatricians", "gynecologists", "neurologists",
    "rheumatologists", "urologists"
  ]

  const Regions: seq<string> := [
    "Ile-De-France", "Provence-Alpes-Cote-D-Azur", "Auvergne-Rhones-Alpes",
    "Occitanie", "Nouvelle-Aquitaine"
  ]

  const Favoured: string := "Ile-De-France"

  /** One value of `Math.random()`: a number in [0, 1). */
  type UnitDraw = r: real | 0.0 <= r < 1.0

  /** Scaling a draw by a positive `width` and flooring stays within [0, width). */
  lemma ScaledDrawBounds(r: UnitDraw, width: int)
    requires width >= 1
    ensures 0 <= (r * width as real).Floor < width
  {
    assert r * width as real < width as real;
  }

  /** With `width <= 0` the scaled draw lies in (width - 1, 0], so its floor lies in [width, 0]. */
  lemma ScaledDrawBoundsReversed(r: UnitDraw, width: int)
    requires width <= 0
    ensures width <= (r * width as real).Floor <= 0
  {
    assert (1.0 - r) * width as real <= 0.0;
    assert r * width as real >= width as real;
  }

  /**
   * `Math.floor(Math.random() * (max - min + 1) + min)`. Since `min` is an
   * integer the floor moves inside. For `min <= max` the result lies in
   * [min, max]; reversed bounds give a value in (max, min].
   */
  function RandomBetween(min: int, max: int, r: UnitDraw): (n: int)
    ensures min <= max ==> min <= n <= max
    ensures max < min ==> max < n <= min
  {
    var width := max - min + 1;
    if width >= 1 then ScaledDrawBounds(r, width); min + (r * width as real).Floor
    else ScaledDrawBoundsReversed(r, width); min + (r * width as real).Floor
  }

  /** The draws of one `generateYearlyData` call that feed integer fields, one per call site. */
  datatype YearlyDraws = YearlyDraws(
    share24h: UnitDraw,
    share24to48: UnitDraw,
    share48to7d: UnitDraw,
    clientsTcs: UnitDraw,
    compare: UnitDraw,
    medianTcs: UnitDraw,
    shareTcsAppts: UnitDraw,
    tcsBooked24h: UnitDraw,
    tcsBooked48h: UnitDraw)

  /** The four waiting-time shares, in percent. */
  datatype Shares = Shares(under24h: int, from24hTo48h: int, from48hTo7d: int, moreThan7d: int)

  /**
   * The shares of one record: three drawn in [5,10], [2,5] and [10,20], the
   * fourth the remainder to 100, so it lies in [65, 83] and all four sum to 100.
   */
  function DrawShares(d: YearlyDraws): (s: Shares)
    ensures 5 <= s.under24h <= 10 && 2 <= s.from24hTo48h <= 5 && 10 <= s.from48hTo7d <= 20
    ensures 65 <= s.moreThan7d <= 83
    ensures s.under24h + s.from24hTo48h + s.from48hTo7d + s.moreThan7d == 100
  {
    var a := RandomBetween(5, 10, d.share24h);
    var b := RandomBetween(2, 5, d.share24to48);
    var c := RandomBetween(10, 20, d.share48to7d);
    Shares(a, b, c, 100 - (a + b + c))
  }

  /** `${n}%`. */
  function Percent(n: int): string
  {
    IntText(n) + "%"
  }

  predicate IsPercentText(s: string)
  {
    |s| >= 2 && s[|s| - 1] == '%' && IsIntText(s[..|s| - 1])
  }

  /** The number in front of the percent sign. */
  function ParsePercent(s: string): int
    requires IsPercentText(s)
  {
    ParseInt(s[..|s| - 1])
  }

  /** A rendered percentage reads back as the number it was rendered from. */
  lemma PercentRoundTrip(n: int)
    ensures IsPercentText(Percent(n)) && ParsePercent(Percent(n)) == n
  {
    var p := Percent(n);
    assert p[..|p| - 1] == IntText(n);
    IntTextRoundTrip(n);
  }

  /** `region.toLowerCase().replace(/-/g, '')`, in one pass over the region name. */
  function RegionKey(region: string): string
  {
    if region == [] then []
    else (if region[0] == '-' then [] else [LowerChar(region[0])]) + RegionKey(region[1..])
  }

  /** The one-pass key is the lower-cased name with every hyphen removed, so it has no hyphen. */
  lemma {:induction false} RegionKeyLowersAndStrips(region: string)
    ensures RegionKey(region) == Without(LowerAscii(region), '-')
    ensures '-' !in RegionKey(region)
  {
    if region != [] {
      RegionKeyLowersAndStrips(region[1..]);
      assert LowerAscii(region)[1..] == LowerAscii(region[1..]);
      assert LowerChar(region[0]) == '-' <==> region[0] == '-';
    }
  }

  /** The `concat` key: "44927", the region key, the specialty and the year. */
  function Concat(year: int, specialty: string, region: string): (r: string)
    ensures |r| >= 5 + |IntText(year)| && r[..5] == "44927"
    ensures r[|r| - |IntText(year)|..] == IntText(year)
  {
    "44927" + RegionKey(region) + specialty + IntText(year)
  }

  /**
   * The key is "44927", the region lower-cased with every hyphen removed,
   * the specialty and the year, and two regions that differ only in case or
   * hyphens give the same key.
   */
  lemma ConcatKey(year: int, specialty: string, region: string, other: string)
    ensures Concat(year, specialty, region) ==
      "44927" + Without(LowerAscii(region), '-') + specialty + IntText(year)
    ensures Without(LowerAscii(region), '-') == Without(LowerAscii(other), '-') ==>
      Concat(year, specialty, region) == Concat(year, specialty, other)
  {
    RegionKeyLowersAndStrips(region);
    RegionKeyLowersAndStrips(other);
  }

  /** The integer and text fields of an `AppointmentStats` record. */
  datatype YearlyStats = YearlyStats(
    year: string,
    practiceRegion: string,
    specialty: string,
    concat: string,
    compareVsPreviousExtract: Option<string>,
    share24h: string,
    shareBetween24hAnd48h: string,
    shareUnder48h: string,
    shareBetween48hAnd7d: string,
    shareMoreThan7d: string,
    clientsTcsPercentage: string,
    medianWaitingDaysTcs: int,
    shareTcsApptsAmongClients: string,
    shareTcsBooked24h: string,
    shareTcsBooked48h: string)

  /** The parts of `generateYearlyData` that are not floating point. */
  function GenerateYearlyData(year: int, specialty: string, region: string, d: YearlyDraws): (r: YearlyStats)
    ensures r.year == IntText(year) + "-01-01"
    ensures r.practiceRegion == region && r.specialty == specialty
    ensures r.concat == Concat(year, specialty, region)
    ensures r.compareVsPreviousExtract.None? <==> year <= 2021
    ensures r.compareVsPreviousExtract.Some? ==>
      exists n :: -15 <= n <= 5 && r.compareVsPreviousExtract.value == Percent(n)
    ensures 2 <= r.medianWaitingDaysTcs <= 7
  {
    var s := DrawShares(d);
    var compare := RandomBetween(-15, 5, d.compare);
    YearlyStats(
      IntText(year) + "-01-01",
      region,
      specialty,
      Concat(year, specialty, region),
      if year > 2021 then Some(Percent(compare)) else None,
      Percent(s.under24h),
      Percent(s.from24hTo48h),
      Percent(s.under24h + s.from24hTo48h),
      Percent(s.from48hTo7d),
      Percent(s.moreThan7d),
      Percent(RandomBetween(10, 35, d.clientsTcs)),
      RandomBetween(2, 7, d.medianTcs),
      Percent(RandomBetween(2, 8, d.shareTcsAppts)),
      Percent(RandomBetween(15, 35, d.tcsBooked24h)),
      Percent(RandomBetween(20, 45, d.tcsBooked48h)))
  }

  /** Each of the four share texts of a record reads back as the share drawn for it. */
  lemma ShareTextsReadBack(year: int, specialty: string, region: string, d: YearlyDraws)
    ensures var r := GenerateYearlyData(year, specialty, region, d);
      var s := DrawShares(d);
      IsPercentText(r.share24h) && ParsePercent(r.share24h) == s.under24h &&
      IsPercentText(r.shareBetween24hAnd48h) && ParsePercent(r.shareBetween24hAnd48h) == s.from24hTo48h &&
      IsPercentText(r.shareBetween48hAnd7d) && ParsePercent(r.shareBetween48hAnd7d) == s.from48hTo7d &&
      IsPercentText(r.shareMoreThan7d) && ParsePercent(r.shareMoreThan7d) == s.moreThan7d
  {
    var r := GenerateYearlyData(year, specialty, region, d);
    var s := DrawShares(d);
    assert r.share24h == Percent(s.under24h);
    assert r.shareBetween24hAnd48h == Percent(s.from24hTo48h);
    assert r.shareBetween48hAnd7d == Percent(s.from48hTo7d);
    assert r.shareMoreThan7d == Percent(s.moreThan7d);
    PercentRoundTrip(s.under24h);
    PercentRoundTrip(s.from24hTo48h);
    PercentRoundTrip(s.from48hTo7d);
    PercentRoundTrip(s.moreThan7d);
  }

  /** The under-48h text reads back as the sum of the first two drawn shares. */
  lemma UnderTwoDaysReadBack(year: int, specialty: string, region: string, d: YearlyDraws)
    ensures var r := GenerateYearlyData(year, specialty, region, d);
      var s := DrawShares(d);
      IsPercentText(r.shareUnder48h) && ParsePercent(r.shareUnder48h) == s.under24h + s.from24hTo48h
  {
    var s := DrawShares(d);
    var n := s.under24h + s.from24hTo48h;
    assert GenerateYearlyData(year, specialty, region, d).shareUnder48h == Percent(n);
    PercentRoundTrip(n);
  }

  /**
   * Read back from the record's texts, the four shares sum to 100, the
   * under-48h share is the sum of its two parts, and the remainder share
   * lies in [65, 83].
   */
  lemma SharesAddUp(year: int, specialty: string, region: string, d: YearlyDraws)
    ensures var r := GenerateYearlyData(year, specialty, region, d);
      IsPercentText(r.share24h) && IsPercentText(r.shareBetween24hAnd48h) &&
      IsPercentText(r.shareUnder48h) && IsPercentText(r.shareBetween48hAnd7d) &&
      IsPercentText(r.shareMoreThan7d) &&
      ParsePercent(r.share24h) + ParsePercent(r.shareBetween24hAnd48h) +
        ParsePercent(r.shareBetween48hAnd7d) + ParsePercent(r.shareMoreThan7d) == 100 &&
      ParsePercent(r.shareUnder48h) == ParsePercent(r.share24h) + ParsePercent(r.shareBetween24hAnd48h) &&
      65 <= ParsePercent(r.shareMoreThan7d) <= 83
  {
    ShareTextsReadBack(year, specialty, region, d);
    UnderTwoDaysReadBack(year, specialty, region, d);
  }

  /** `Array(n).fill(x)`. */
  function Repeat(x: string, n: nat): (r: seq<string>)
    ensures |r| == n && forall i :: 0 <= i < n ==> r[i] == x
  {
    if n == 0 then [] else [x] + Repeat(x, n - 1)
  }

  /**
   * `[...Array(8).fill("Ile-De-France"), ...regions.filter(r => r !== "Ile-De-France")]`:
   * the filter drops exactly the first region, so the list holds eight
   * copies of Ile-De-France followed by the other four regions in order.
   */
  function WeightedRegions(): (r: seq<string>)
    ensures r == Repeat(Favoured, 8) + Regions[1..]
  {
    WithoutFavoured();
    Repeat(Favoured, 8) + Without(Regions, Favoured)
  }

  lemma OthersAreNotFavoured()
    ensures Favoured !in Regions[1..]
  {
    var rest := Regions[1..];
    forall i | 0 <= i < |rest| ensures rest[i] != Favoured {
      assert |rest[i]| != |Favoured|;
    }
  }

  /** Filtering Ile-De-France out of the region list removes its first entry and nothing else. */
  lemma WithoutFavoured()
    ensures Without(Regions, Favoured) == Regions[1..]
  {
    var rest := Regions[1..];
    assert Without(Regions, Favoured) == Without(rest, Favoured) by {
      assert Regions[0] == Favoured;
    }
    OthersAreNotFavoured();
    WithoutAbsent(rest, Favoured);
  }

  /** Entry `i` of the weighted list, read off its construction. */
  function RegionAt(i: nat): string
    requires i < 12
  {
    if i < 8 then Favoured else Regions[i - 7]
  }

  /** The weighted list has twelve entries: eight Ile-De-France, then the other four in order. */
  lemma WeightedRegionsValue()
    ensures |WeightedRegions()| == 12
    ensures forall i :: 0 <= i < 12 ==> WeightedRegions()[i] == RegionAt(i)
  {
    var w := WeightedRegions();
    var favoured := Repeat(Favoured, 8);
    forall i | 0 <= i < 12 ensures w[i] == RegionAt(i) {
      if i < 8 {
        assert w[i] == favoured[i];
      } else {
        assert w[i] == Regions[1..][i - 8];
      }
    }
  }

  /** The arguments of one `generateYearlyData` call. */
  datatype Slot = Slot(year: int, specialty: string, region: string)

  /** The arguments of the call at position `k`: by year, then specialty, then weighted region. */
  function SlotAt(startYear: int, k: nat): Slot
  {
    Slot(startYear + k / 120, Specialties[(k % 120) / 12], RegionAt(k % 12))
  }

  /** The record at position `k` of the output; `oracle(k)` supplies its draws. */
  function RecordAt(startYear: int, k: nat, oracle: nat -> YearlyDraws): YearlyStats
  {
    var slot := SlotAt(startYear, k);
    GenerateYearlyData(slot.year, slot.specialty, slot.region, oracle(k))
  }

  /**
   * The order of the calls: years never decrease along the output, within a
   * year the specialty index never decreases, and a position is an
   * Ile-De-France one exactly when it is among the first eight of its block
   * of twelve.
   */
  lemma SlotOrder(startYear: int, j: nat, k: nat)
    requires j <= k
    ensures SlotAt(startYear, j).year <= SlotAt(startYear, k).year
    ensures SlotAt(startYear, j).year == SlotAt(startYear, k).year ==> (j % 120) / 12 <= (k % 120) / 12
    ensures SlotAt(startYear, k).region == Favoured <==> k % 12 < 8
  {
  }

  lemma PositionSplits(n: nat, years: nat, si: nat, ri: nat)
    requires si < 10 && ri < 12
    requires n == 120 * years + 12 * si + ri
    ensures n / 120 == years
    ensures (n % 120) / 12 == si
    ensures n % 12 == ri
  {
    var inYear := 12 * si + ri;
    assert 0 <= inYear < 120;
    assert n / 120 == years && n % 120 == inYear;
    assert n == 12 * (10 * years + si) + ri;
    assert n % 12 == ri;
    assert inYear / 12 == si;
  }

  /** The call made for year offset `years`, specialty `si` and weighted region `ri` is the one of position `n`. */
  lemma SlotOfPush(startYear: int, n: nat, years: nat, si: nat, ri: nat)
    requires si < 10 && ri < 12
    requires n == 120 * years + 12 * si + ri
    ensures SlotAt(startYear, n) == Slot(startYear + years, Specialties[si], RegionAt(ri))
  {
    PositionSplits(n, years, si, ri);
  }

  /**
   * The arguments of every call made before the loops reach year offset
   * `years`, specialty `si` and entry `ri` of `regions`, in call order.
   */
  function Slots(startYear: int, regions: seq<string>, years: nat, si: nat, ri: nat): (r: seq<Slot>)
    requires |regions| == 12
    requires si <= 10 && ri <= 12 && (ri > 0 ==> si < 10)
    ensures |r| == 120 * years + 12 * si + ri
    decreases years, si, ri
  {
    if ri > 0 then
      Slots(startYear, regions, years, si, ri - 1) + [Slot(startYear + years, Specialties[si], regions[ri - 1])]
    else if si > 0 then Slots(startYear, regions, years, si - 1, 12)
    else if years > 0 then Slots(startYear, regions, years - 1, 10, 0)
    else []
  }

  /** Over a list that matches the weighted one, the calls come in the order `SlotAt` gives. */
  lemma {:induction false} SlotsAt(startYear: int, regions: seq<string>, years: nat, si: nat, ri: nat, k: nat)
    requires |regions| == 12 && forall i :: 0 <= i < 12 ==> regions[i] == RegionAt(i)
    requires si <= 10 && ri <= 12 && (ri > 0 ==> si < 10)
    requires k < 120 * years + 12 * si + ri
    ensures Slots(startYear, regions, years, si, ri)[k] == SlotAt(startYear, k)
    decreases years, si, ri
  {
    if ri > 0 {
      if k == 120 * years + 12 * si + ri - 1 {
        SlotOfPush(startYear, k, years, si, ri - 1);
      } else {
        SlotsAt(startYear, regions, years, si, ri - 1, k);
      }
    } else if si > 0 {
      SlotsAt(startYear, regions, years, si - 1, 12, k);
    } else {
      SlotsAt(startYear, regions, years - 1, 10, 0, k);
    }
  }

  /** The number of years a call covers. */
  function Years(startYear: int, endYear: int): nat
  {
    if startYear <= endYear then endYear - startYear + 1 else 0
  }

  /**
   * The three nested loops of `generateAppointmentStats`: one call of
   * `build(year, specialty, region, k)` per year, specialty and entry of the
   * weighted region list `regions`, in that nesting order, `k` counting the
   * calls. `slots` holds the arguments of each call.
   */
  method CollectStats<T>(startYear: int, endYear: int, regions: seq<string>, build: (int, string, string, nat) -> T)
    returns (stats: seq<T>, ghost slots: seq<Slot>)
    requires |regions| == 12
    ensures slots == Slots(startYear, regions, Years(startYear, endYear), 0, 0)
    ensures |stats| == |slots|
    ensures forall k :: 0 <= k < |stats| ==>
      stats[k] == build(slots[k].year, slots[k].specialty, slots[k].region, k)
  {
    stats, slots := [], [];
    var year := startYear;
    while year <= endYear
      invariant startYear <= year && (year <= endYear + 1 || year == startYear)
      invariant slots == Slots(startYear, regions, year - startYear, 0, 0)
      invariant |stats| == |slots|
      invariant forall k :: 0 <= k < |stats| ==>
        stats[k] == build(slots[k].year, slots[k].specialty, slots[k].region, k)
      decreases endYear - year
    {
      var si := 0;
      while si < |Specialties|
        invariant 0 <= si <= |Specialties|
        invariant slots == Slots(startYear, regions, year - startYear, si, 0)
        invariant |stats| == |slots|
        invariant forall k :: 0 <= k < |stats| ==>
          stats[k] == build(slots[k].year, slots[k].specialty, slots[k].region, k)
      {
        var specialty := Specialties[si];
        var ri := 0;
        while ri < |regions|
          invariant 0 <= ri <= |regions|
          invariant slots == Slots(startYear, regions, year - startYear, si, ri)
          invariant |stats| == |slots|
          invariant forall k :: 0 <= k < |stats| ==>
            stats[k] == build(slots[k].year, slots[k].specialty, slots[k].region, k)
        {
          slots := slots + [Slot(year, specialty, regions[ri])];
          stats := stats + [build(year, specialty, regions[ri], |stats|)];
          ri := ri + 1;
        }
        si := si + 1;
      }
      year := year + 1;
    }
  }

  /**
   * `generateAppointmentStats`: one record per year, specialty and entry of
   * the weighted region list, in that nesting order; `oracle(k)` supplies
   * the draws of the `k`-th call. The years default to 2021 through 2024.
   */
  method GenerateAppointmentStats(oracle: nat -> YearlyDraws, startYear: int := 2021, endYear: int := 2024)
    returns (stats: seq<YearlyStats>)
    ensures |stats| == 120 * Years(startYear, endYear)
    ensures forall k :: 0 <= k < |stats| ==> stats[k] == RecordAt(startYear, k, oracle)
  {
    var regionsWithWeight := WeightedRegions();
    WeightedRegionsValue();
    ghost var slots;
    stats, slots := CollectStats(startYear, endYear, regionsWithWeight,
      (year, specialty, region, k) => GenerateYearlyData(year, specialty, region, oracle(k)));
    forall k | 0 <= k < |stats| ensures stats[k] == RecordAt(startYear, k, oracle) {
      SlotsAt(startYear, regionsWithWeight, Years(startYear, endYear), 0, 0, k);
    }
  }

  /** A call that gives no years covers 2021 through 2024: four years of 120 records. */
  method GenerateDefaultStats(oracle: nat -> YearlyDraws) returns (stats: seq<YearlyStats>)
    ensures |stats| == 480
    ensures forall k :: 0 <= k < 480 ==> stats[k] == RecordAt(2021, k, oracle)
  {
    stats := GenerateAppointmentStats(oracle);
  }
}
