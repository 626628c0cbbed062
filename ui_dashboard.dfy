/** ui/pages/dashboard.py: the dashboard's period, its metrics, the per-day
    volume and count charts, the feeding type breakdown, the recent list and
    the growth caption. The feedings are those the API returns for the
    period; nothing here assumes they all fall inside it unless a lemma
    says so. */
module Dashboard {
  import opened Wrappers
  import opened Text
  import opened Clock
  import opened Sorting
  import opened Care
  import opened Buckets
  import HomeView

  /** period_opts: the choices and their number of days; None is "All time". */
  const PeriodOpts: seq<(string, Option<int>)> :=
    [("7 days", Some(7)), ("14 days", Some(14)), ("30 days", Some(30)), ("90 days", Some(90)), ("All time", None)]

  /** date(2020, 1, 1), the start of "All time". */
  const AllTimeStart: Day := 18262

  lemma AllTimeStartIsNewYear2020()
    ensures CivilFromDays(AllTimeStart) == (2020, 1, 1)
  {
    assert 737730 / 146097 == 5;
    assert 7245 / 1460 == 4;
    assert 7245 / 36524 == 0;
    assert 7245 / 146096 == 0;
    assert 7241 / 365 == 19;
    assert 19 / 4 == 4;
    assert 19 / 100 == 0;
    assert 1532 / 153 == 10;
    assert 1532 / 5 == 306;
  }

  /** `if days`: a number of days is taken when present and non-zero. */
  predicate Truthy(days: Option<int>)
  {
    days.Some? && days.value != 0
  }

  /** The first day of the period ending on `end`. */
  function StartDate(days: Option<int>, end: Day): (start: Day)
    ensures Truthy(days) ==> start + days.value - 1 == end
    ensures !Truthy(days) ==> start == AllTimeStart
  {
    if Truthy(days) then end - (days.value - 1) else AllTimeStart
  }

  /** Each fixed period spans exactly its number of days up to the chosen
      end day. */
  lemma PeriodSpansItsDays(k: nat, end: Day)
    requires k < |PeriodOpts|
    ensures var days := PeriodOpts[k].1;
      days.Some? ==> |DayRange(StartDate(days, end), end)| == days.value
  {
  }

  /** day_range: the consecutive days from start to end, both included. */
  function DayRange(start: Day, end: Day): (days: seq<Day>)
    ensures |days| == if end - start + 1 > 0 then end - start + 1 else 0
    ensures forall i :: 0 <= i < |days| ==> days[i] == start + i
  {
    seq(if end - start + 1 > 0 then end - start + 1 else 0, i => start + i)
  }

  /** Every day of the range lies between start and end, and every such day
      is in it once, at its offset from start. */
  lemma DayRangeMembers(start: Day, end: Day, d: Day)
    ensures d in DayRange(start, end) <==> start <= d <= end
    ensures start <= d <= end ==> DayRange(start, end)[d - start] == d
  {
    if start <= d <= end {
      assert DayRange(start, end)[d - start] == d;
    }
  }

  // ---------------------------------------------------------------------------
  // Metrics
  // ---------------------------------------------------------------------------

  /** The days on which there is at least one feeding:
      set(f["fed_at"][:10] for f in feedings). */
  function FeedingDays(fs: seq<Feeding>): (days: set<Day>)
    ensures |days| <= |fs|
    ensures forall k :: 0 <= k < |fs| ==> DayOf(fs[k].fedAt) in days
    ensures forall d :: d in days ==> exists k :: 0 <= k < |fs| && DayOf(fs[k].fedAt) == d
  {
    if |fs| == 0 then {}
    else
      var p := fs[..|fs| - 1];
      assert forall k :: 0 <= k < |p| ==> p[k] == fs[k];
      FeedingDays(p) + {DayOf(fs[|fs| - 1].fedAt)}
  }

  /** The metrics row: the total volume, the number of feedings, and the
      divisors of the daily and per-feeding averages. The averages
      themselves are floating point. */
  datatype Metrics = Metrics(totalMl: int, feedingCount: nat, dayDivisor: int, feedingDivisor: nat)

  /** None when the period has no feedings: the page stops there. */
  function PeriodMetrics(fs: seq<Feeding>, days: Option<int>): (m: Option<Metrics>)
    ensures m.None? <==> |fs| == 0
    ensures m.Some? ==> m.value.totalMl == TotalMl(fs) && m.value.feedingCount == |fs|
    ensures m.Some? ==> m.value.feedingDivisor > 0
    ensures m.Some? && !Truthy(days) ==> 0 < m.value.dayDivisor <= |fs|
    ensures m.Some? && !Truthy(days) ==> m.value.dayDivisor == |FeedingDays(fs)|
    ensures m.Some? && Truthy(days) ==> m.value.dayDivisor == days.value
  {
    if |fs| == 0 then None
    else
      var divisor := if Truthy(days) then days.value else |FeedingDays(fs)|;
      assert DayOf(fs[0].fedAt) in FeedingDays(fs);
      Some(Metrics(TotalMl(fs), |fs|, divisor, |fs|))
  }

  // ---------------------------------------------------------------------------
  // Charts
  // ---------------------------------------------------------------------------

  function FeedingDay(f: Feeding): int { DayOf(f.fedAt) }
  function Quantity(f: Feeding): int { f.quantityMl }
  function One(f: Feeding): int { 1 }

  /** The `daily` loop: the volume and the number of feedings of each day. */
  method DailyTotals(fs: seq<Feeding>) returns (totals: map<Day, int>, counts: map<Day, int>)
    ensures forall d :: Get(totals, d) == DaySum(fs, FeedingDay, Quantity, d)
    ensures forall d :: Get(counts, d) == DaySum(fs, FeedingDay, One, d)
    ensures totals.Keys == counts.Keys
  {
    totals := map[];
    counts := map[];
    var i := 0;
    while i < |fs|
      invariant 0 <= i <= |fs|
      invariant forall d :: Get(totals, d) == DaySum(fs[..i], FeedingDay, Quantity, d)
      invariant forall d :: Get(counts, d) == DaySum(fs[..i], FeedingDay, One, d)
      invariant totals.Keys == counts.Keys
    {
      assert fs[..i + 1][..i] == fs[..i];
      var day := DayOf(fs[i].fedAt);
      totals := totals[day := Get(totals, day) + fs[i].quantityMl];
      counts := counts[day := Get(counts, day) + 1];
      i := i + 1;
    }
    assert fs[..i] == fs;
  }

  /** vol_data and count_data: one entry per day of day_range. */
  method ChartData(fs: seq<Feeding>, start: Day, end: Day) returns (vols: seq<int>, counts: seq<int>)
    ensures |vols| == |DayRange(start, end)| && |counts| == |vols|
    ensures forall i :: 0 <= i < |vols| ==> vols[i] == DaySum(fs, FeedingDay, Quantity, start + i)
    ensures forall i :: 0 <= i < |counts| ==> counts[i] == DaySum(fs, FeedingDay, One, start + i)
  {
    var totalsByDay, countsByDay := DailyTotals(fs);
    vols := Series(totalsByDay, start, end - start + 1);
    counts := Series(countsByDay, start, end - start + 1);
  }

  /** Whether a feeding is dated within the n days from start. */
  function InPeriod(start: Day, n: nat): Feeding -> bool
  {
    (f: Feeding) => start <= DayOf(f.fedAt) < start + n
  }

  /** Counting one for each feeding of a range counts the feedings of the
      range. */
  lemma {:induction false} OnesInRange(fs: seq<Feeding>, start: Day, n: nat)
    ensures InRangeSum(fs, FeedingDay, One, start, n) == Count(fs, InPeriod(start, n))
  {
    if |fs| > 0 {
      var p := fs[..|fs| - 1];
      assert fs == p + [fs[|fs| - 1]];
      OnesInRange(p, start, n);
      CountAppend(p, [fs[|fs| - 1]], InPeriod(start, n));
    }
  }

  /** The volume of a range is the total of the feedings of the range. */
  lemma {:induction false} VolumeInRange(fs: seq<Feeding>, start: Day, n: nat)
    ensures InRangeSum(fs, FeedingDay, Quantity, start, n)
         == TotalMl(Filter(fs, InPeriod(start, n)))
  {
    if |fs| > 0 {
      var p := fs[..|fs| - 1];
      var x := fs[|fs| - 1];
      assert fs == p + [x];
      VolumeInRange(p, start, n);
      FilterAppend(p, [x], InPeriod(start, n));
      TotalMlAppend(Filter(p, InPeriod(start, n)),
                    Filter([x], InPeriod(start, n)));
      assert [x][1..] == [];
    }
  }

  /** The count chart adds up to the number of feedings dated inside the
      period and the volume chart to their volume; when every feeding the
      API returned lies in the period, that is every feeding and the total
      volume metric. */
  lemma ChartsAccountForFeedings(fs: seq<Feeding>, start: Day, end: Day, vols: seq<int>, counts: seq<int>)
    requires |vols| == |DayRange(start, end)| && |counts| == |vols|
    requires forall i :: 0 <= i < |vols| ==> vols[i] == DaySum(fs, FeedingDay, Quantity, start + i)
    requires forall i :: 0 <= i < |counts| ==> counts[i] == DaySum(fs, FeedingDay, One, start + i)
    ensures SeqSum(counts) == Count(fs, InPeriod(start, |counts|))
    ensures SeqSum(vols) == TotalMl(Filter(fs, InPeriod(start, |vols|)))
    ensures (forall k :: 0 <= k < |fs| ==> start <= DayOf(fs[k].fedAt) <= end) ==>
      SeqSum(counts) == |fs| && SeqSum(vols) == TotalMl(fs)
  {
    SeriesSum(counts, fs, FeedingDay, One, start);
    OnesInRange(fs, start, |counts|);
    SeriesSum(vols, fs, FeedingDay, Quantity, start);
    VolumeInRange(fs, start, |vols|);
    if forall k :: 0 <= k < |fs| ==> start <= DayOf(fs[k].fedAt) <= end {
      AllInRange(fs, start, |counts|);
    }
  }

  lemma {:induction false} AllInRange(fs: seq<Feeding>, start: Day, n: nat)
    requires forall k :: 0 <= k < |fs| ==> start <= DayOf(fs[k].fedAt) < start + n
    ensures Count(fs, InPeriod(start, n)) == |fs|
    ensures Filter(fs, InPeriod(start, n)) == fs
  {
    if |fs| > 0 {
      AllInRange(fs[1..], start, n);
    }
  }

  // ---------------------------------------------------------------------------
  // Breakdown and lists
  // ---------------------------------------------------------------------------

  predicate IsBottle(f: Feeding) { TypeName(f.feedingType) == "bottle" }
  predicate IsBreastfeeding(f: Feeding) { TypeName(f.feedingType) == "breastfeeding" }

  /** type_counts: the number of bottle feedings and the number of
      breastfeedings, which together are all the feedings; a slice is
      empty exactly when no feeding has its type. */
  function TypeCounts(fs: seq<Feeding>): (counts: (nat, nat))
    ensures counts.0 == |Filter(fs, IsBottle)| && counts.1 == |Filter(fs, IsBreastfeeding)|
    ensures counts.0 + counts.1 == |fs|
    ensures counts.0 == 0 <==> forall k :: 0 <= k < |fs| ==> !IsBottle(fs[k])
    ensures counts.1 == 0 <==> forall k :: 0 <= k < |fs| ==> !IsBreastfeeding(fs[k])
  {
    CountComplement(fs, IsBottle, IsBreastfeeding);
    CountIsFilterLength(fs, IsBottle);
    CountIsFilterLength(fs, IsBreastfeeding);
    CountZeroIff(fs, IsBottle);
    CountZeroIff(fs, IsBreastfeeding);
    (Count(fs, IsBottle), Count(fs, IsBreastfeeding))
  }

  /** The recent list: the eight newest feedings (all of them when there
      are fewer), newest first; no feeding left out is newer than the last
      one shown. */
  function RecentFeedings(fs: seq<Feeding>): (r: seq<Feeding>)
    ensures |r| == if |fs| < 8 then |fs| else 8
    ensures SortedDesc(r, FedAt)
    ensures multiset(r) <= multiset(fs)
    ensures |r| > 0 ==> forall j :: 0 <= j < |fs| && fs[j] !in r ==> fs[j].fedAt <= r[|r| - 1].fedAt
  {
    NewestSubMultiset(fs, FedAt, 8);
    Newest(fs, FedAt, 8)
  }

  // ---------------------------------------------------------------------------
  // Growth caption
  // ---------------------------------------------------------------------------

  /** The total gain caption as written: a plus sign before any gain. */
  function GainCaptionAsWritten(weights: seq<Weight>): Option<string>
  {
    if |weights| >= 2 then
      var gain := weights[|weights| - 1].weightG - weights[0].weightG;
      Some("+" + IntToString(gain) + "g")
    else None
  }

  /** A loss is shown with both signs: 3300 g then 3250 g reads "+-50g". */
  lemma LossShowsBothSigns()
    ensures GainCaptionAsWritten([Weight(1, 1, 0, 3300, None), Weight(2, 1, 86400, 3250, None)])
         == Some("+-50g")
  {
    assert DigitChar(5) == '5' && DigitChar(0) == '0';
    assert Digits(5) == "5";
    assert Digits(50) == "50";
    assert IntToString(3250 - 3300) == "-50";
    var ws := [Weight(1, 1, 0, 3300, None), Weight(2, 1, 86400, 3250, None)];
    assert ws[|ws| - 1].weightG - ws[0].weightG == -50;
    assert "+" + "-50" + "g" == "+-50g";
  }

  /** The caption with the sign chosen as the home view chooses it. */
  function GainCaption(weights: seq<Weight>): (caption: Option<string>)
    ensures caption.Some? <==> |weights| >= 2
    ensures caption.Some? ==> caption.value == HomeView.GainText(HomeView.WeightGain(weights).value) + "g"
  {
    match HomeView.WeightGain(weights)
    case None => None
    case Some(gain) => Some(HomeView.GainText(gain) + "g")
  }

  /** The corrected caption reads back as the gain, with a single sign. */
  lemma GainCaptionReadsBack(weights: seq<Weight>)
    requires |weights| >= 2
    ensures var gain := weights[|weights| - 1].weightG - weights[0].weightG;
      var text := GainCaption(weights).value;
      && text[|text| - 1] == 'g'
      && (gain >= 0 ==> text[0] == '+' && ParseInt(text[1..|text| - 1]) == Some(gain))
      && (gain < 0 ==> text[0] == '-' && ParseInt(text[..|text| - 1]) == Some(gain))
  {
    var gain := weights[|weights| - 1].weightG - weights[0].weightG;
    var text := GainCaption(weights).value;
    HomeView.GainTextSign(gain);
    IntToStringRoundTrip(gain);
    assert text == HomeView.GainText(gain) + "g";
    if gain >= 0 {
      assert text[1..|text| - 1] == IntToString(gain);
    } else {
      assert text[..|text| - 1] == IntToString(gain);
    }
  }
}
