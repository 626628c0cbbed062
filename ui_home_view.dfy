/** ui/views/home.py: the home view's figures. Today's metrics, the start
    of the chart period, the daily volume and diaper buckets with their
    series, the averages over recorded days, the time since the last
    feeding and the weight gain. */
module HomeView {
  import opened Wrappers
  import opened Text
  import opened Clock
  import opened Sorting
  import opened Care
  import opened Buckets

  // ---------------------------------------------------------------------------
  // Chart period
  // ---------------------------------------------------------------------------

  /** _PERIODS: the choices and their number of days; 0 is today only and
      -1 is since birth. */
  const Periods: seq<(string, int)> :=
    [("Today", 0), ("Last 3 days", 3), ("Last week", 7), ("Last 14 days", 14), ("Last month", 30), ("All time", -1)]

  /** The first day of the charts. */
  function ChartStart(periodDays: int, today: Day, birth: Day): Day
  {
    if periodDays == 0 then today
    else if periodDays == -1 then birth
    else today - (periodDays - 1)
  }

  /** (today - start_date).days + 1 days, as range() counts them. */
  function ChartDays(start: Day, today: Day): nat
  {
    if today - start + 1 > 0 then today - start + 1 else 0
  }

  /** Each fixed period charts exactly its number of days, ending today;
      "All time" charts every day since birth. */
  lemma ChartCoversPeriod(k: nat, today: Day, birth: Day)
    requires k < |Periods|
    ensures var days := Periods[k].1;
      var start := ChartStart(days, today, birth);
      && (days > 0 ==> ChartDays(start, today) == days && start + days - 1 == today)
      && (days == 0 ==> ChartDays(start, today) == 1 && start == today)
      && (days == -1 ==> start == birth && (birth <= today ==> ChartDays(start, today) == today - birth + 1))
  {
  }

  // ---------------------------------------------------------------------------
  // Today's metrics
  // ---------------------------------------------------------------------------

  function FeedingDay(f: Feeding): int { DayOf(f.fedAt) }
  function Quantity(f: Feeding): int { f.quantityMl }

  /** f["fed_at"][:10] == day. */
  function FedOn(day: Day): Feeding -> bool
  {
    (f: Feeding) => DayOf(f.fedAt) == day
  }

  /** Today's volume metric: the total of the feedings dated today. */
  function TodayTotal(all: seq<Feeding>, today: Day): int
  {
    TotalMl(Filter(all, FedOn(today)))
  }

  /** Today's volume metric is the bucket the chart draws for today. */
  lemma {:induction false} TodayTotalIsBucket(all: seq<Feeding>, today: Day)
    ensures TodayTotal(all, today) == DaySum(all, FeedingDay, Quantity, today)
  {
    if |all| > 0 {
      var p := all[..|all| - 1];
      var x := all[|all| - 1];
      assert all == p + [x];
      TodayTotalIsBucket(p, today);
      FilterAppend(p, [x], FedOn(today));
      TotalMlAppend(Filter(p, FedOn(today)), Filter([x], FedOn(today)));
      assert [x][1..] == [];
    }
  }

  /** The latest of today's feedings, by max() on fed_at. */
  function LastFeeding(todayFeedings: seq<Feeding>): (last: Option<Feeding>)
    ensures last.None? <==> |todayFeedings| == 0
    ensures last.Some? ==> (last.value in todayFeedings
      && forall k :: 0 <= k < |todayFeedings| ==> todayFeedings[k].fedAt <= last.value.fedAt)
  {
    if |todayFeedings| == 0 then None else Some(todayFeedings[ArgMax(todayFeedings, FedAt)])
  }

  /** The "time since" text for a number of minutes. */
  function SinceText(minutes: int): string
  {
    if minutes < 60 then IntToString(minutes) + "min ago"
    else IntToString(minutes / 60) + "h" + Pad2(minutes % 60) + " ago"
  }

  /** Under an hour the minutes are shown; from an hour on, hours and the
      remaining minutes, which give back the minutes. */
  lemma SinceTextMeaning(minutes: int)
    ensures minutes < 60 ==> SinceText(minutes) == IntToString(minutes) + "min ago"
    ensures minutes >= 60 ==> exists h, m ::
      && h >= 1 && 0 <= m < 60 && h * 60 + m == minutes
      && SinceText(minutes) == IntToString(h) + "h" + Pad2(m) + " ago"
  {
    if minutes >= 60 {
      var h, m := minutes / 60, minutes % 60;
      assert h * 60 + m == minutes;
      assert SinceText(minutes) == IntToString(h) + "h" + Pad2(m) + " ago";
    }
  }

  /** since_str: None without a feeding today, otherwise the time since the
      latest one, truncated to whole minutes. */
  function SinceLast(todayFeedings: seq<Feeding>, now: Timestamp): Option<string>
  {
    match LastFeeding(todayFeedings)
    case None => None
    case Some(last) => Some(SinceText(MinutesBetween(last.fedAt, now)))
  }

  // ---------------------------------------------------------------------------
  // Daily volume chart
  // ---------------------------------------------------------------------------

  /** The `daily` loop: the volume of each day from start on. */
  method DailyVolumes(all: seq<Feeding>, start: Day) returns (daily: map<Day, int>)
    ensures forall d :: d in daily ==> d >= start
    ensures forall d :: d >= start ==> Get(daily, d) == DaySum(all, FeedingDay, Quantity, d)
  {
    daily := map[];
    var i := 0;
    while i < |all|
      invariant 0 <= i <= |all|
      invariant forall d :: d in daily ==> d >= start
      invariant forall d :: d >= start ==> Get(daily, d) == DaySum(all[..i], FeedingDay, Quantity, d)
    {
      assert all[..i + 1][..i] == all[..i];
      var d := DayOf(all[i].fedAt);
      if d >= start {
        daily := daily[d := Get(daily, d) + all[i].quantityMl];
      }
      i := i + 1;
    }
    assert all[..i] == all;
  }

  /** `vols`: one volume per chart day, 0 for a day without feedings. */
  method VolumeSeries(all: seq<Feeding>, start: Day, today: Day) returns (vols: seq<int>)
    ensures |vols| == ChartDays(start, today)
    ensures forall i :: 0 <= i < |vols| ==> vols[i] == DaySum(all, FeedingDay, Quantity, start + i)
  {
    var daily := DailyVolumes(all, start);
    vols := Series(daily, start, today - start + 1);
  }

  /** The chart adds up to the volume fed during the charted days. */
  lemma VolumeSeriesTotal(all: seq<Feeding>, start: Day, today: Day, vols: seq<int>)
    requires |vols| == ChartDays(start, today)
    requires forall i :: 0 <= i < |vols| ==> vols[i] == DaySum(all, FeedingDay, Quantity, start + i)
    ensures SeqSum(vols) == InRangeSum(all, FeedingDay, Quantity, start, ChartDays(start, today))
  {
    SeriesSum(vols, all, FeedingDay, Quantity, start);
  }

  predicate Positive(v: int) { v > 0 }

  /** The average caption: the total and the number of the days with a
      positive volume, or nothing when there is no such day. */
  function RecordedAverage(vols: seq<int>): (r: Option<(int, nat)>)
    ensures r.None? <==> forall i :: 0 <= i < |vols| ==> vols[i] <= 0
    ensures r.Some? ==> r.value.1 == Count(vols, Positive) && r.value.1 > 0
    ensures r.Some? ==> r.value.0 == SeqSum(Filter(vols, Positive))
    ensures r.Some? && (forall i :: 0 <= i < |vols| ==> vols[i] >= 0) ==> r.value.0 == SeqSum(vols)
  {
    assert (forall i :: 0 <= i < |vols| ==> vols[i] >= 0) ==> SeqSum(Filter(vols, Positive)) == SeqSum(vols) by {
      if forall i :: 0 <= i < |vols| ==> vols[i] >= 0 {
        RecordedTotalIsTotal(vols);
      }
    }
    var recorded := Filter(vols, Positive);
    CountIsFilterLength(vols, Positive);
    if |recorded| == 0 then None
    else
      assert Positive(recorded[0]);
      Some((SeqSum(recorded), |recorded|))
  }

  /** Leaving the empty days out does not change the total, so the average
      is the period's volume spread over the days that have data. */
  lemma {:induction false} RecordedTotalIsTotal(vols: seq<int>)
    requires forall i :: 0 <= i < |vols| ==> vols[i] >= 0
    ensures SeqSum(Filter(vols, Positive)) == SeqSum(vols)
  {
    if |vols| > 0 {
      RecordedTotalIsTotal(vols[1..]);
    }
  }

  // ---------------------------------------------------------------------------
  // Weight
  // ---------------------------------------------------------------------------

  /** The last measurement, in the order the API returns them. */
  function CurrentWeight(weights: seq<Weight>): (w: Option<int>)
    ensures w.Some? <==> |weights| > 0
    ensures w.Some? ==> w.value == weights[|weights| - 1].weightG
  {
    if |weights| == 0 then None else Some(weights[|weights| - 1].weightG)
  }

  /** The gain since the first measurement, shown from two measurements on. */
  function WeightGain(weights: seq<Weight>): Option<int>
  {
    if |weights| >= 2 then Some(weights[|weights| - 1].weightG - weights[0].weightG) else None
  }

  /** The sign shown before the gain. */
  function GainText(gain: int): string
  {
    (if gain >= 0 then "+" else "") + IntToString(gain)
  }

  /** The changes between successive measurements. */
  function Deltas(weights: seq<Weight>): (ds: seq<int>)
    ensures |weights| > 0 ==> |ds| == |weights| - 1
  {
    if |weights| < 2 then [] else [weights[1].weightG - weights[0].weightG] + Deltas(weights[1..])
  }

  /** The gain is the sum of the changes between successive measurements. */
  lemma {:induction false} WeightGainTelescopes(weights: seq<Weight>)
    requires |weights| >= 2
    ensures WeightGain(weights) == Some(SeqSum(Deltas(weights)))
  {
    if |weights| > 2 {
      WeightGainTelescopes(weights[1..]);
    }
  }

  /** A positive gain is shown with a plus sign, a loss with the minus sign
      of the number itself. */
  lemma GainTextSign(gain: int)
    ensures gain >= 0 ==> GainText(gain) == "+" + IntToString(gain)
    ensures gain < 0 ==> GainText(gain)[0] == '-' && ParseInt(GainText(gain)) == Some(gain)
  {
    IntToStringRoundTrip(gain);
    if gain < 0 {
      assert GainText(gain) == IntToString(gain);
    }
  }

  // ---------------------------------------------------------------------------
  // Diapers
  // ---------------------------------------------------------------------------

  function DiaperDay(d: Diaper): int { DayOf(d.changedAt) }
  function PeeMark(d: Diaper): int { if d.hasPee then 1 else 0 }
  function PoopMark(d: Diaper): int { if d.hasPoop then 1 else 0 }

  /** The days from start on with a pee or a poop: the keys of the two
      dicts together. */
  function RecordedDaySet(s: seq<Diaper>, start: Day): set<Day>
  {
    if |s| == 0 then {}
    else
      var x := s[|s| - 1];
      RecordedDaySet(s[..|s| - 1], start)
      + (if DayOf(x.changedAt) >= start && (x.hasPee || x.hasPoop) then {DayOf(x.changedAt)} else {})
  }

  /** total_changes: the diapers changed from start on. */
  function ChangesSince(s: seq<Diaper>, start: Day): (n: nat)
    ensures n <= |s|
  {
    if |s| == 0 then 0
    else ChangesSince(s[..|s| - 1], start) + (if DayOf(s[|s| - 1].changedAt) >= start then 1 else 0)
  }

  /** The `daily_pee` / `daily_poop` loop. */
  method DiaperBuckets(all: seq<Diaper>, start: Day) returns (pee: map<Day, int>, poop: map<Day, int>)
    ensures forall d :: d >= start ==> Get(pee, d) == DaySum(all, DiaperDay, PeeMark, d)
    ensures forall d :: d >= start ==> Get(poop, d) == DaySum(all, DiaperDay, PoopMark, d)
    ensures forall d :: d in pee ==> d >= start
    ensures forall d :: d in poop ==> d >= start
    ensures pee.Keys + poop.Keys == RecordedDaySet(all, start)
  {
    pee := map[];
    poop := map[];
    var i := 0;
    while i < |all|
      invariant 0 <= i <= |all|
      invariant forall d :: d >= start ==> Get(pee, d) == DaySum(all[..i], DiaperDay, PeeMark, d)
      invariant forall d :: d >= start ==> Get(poop, d) == DaySum(all[..i], DiaperDay, PoopMark, d)
      invariant forall d :: d in pee ==> d >= start
      invariant forall d :: d in poop ==> d >= start
      invariant pee.Keys + poop.Keys == RecordedDaySet(all[..i], start)
    {
      assert all[..i + 1][..i] == all[..i];
      var d := DayOf(all[i].changedAt);
      if d >= start {
        if all[i].hasPee {
          pee := pee[d := Get(pee, d) + 1];
        }
        if all[i].hasPoop {
          poop := poop[d := Get(poop, d) + 1];
        }
      }
      i := i + 1;
    }
    assert all[..i] == all;
  }

  /** The days the changes/day average divides by are at most the changes
      it divides: a recorded day has at least one change. */
  lemma {:induction false} RecordedDaysAtMostChanges(all: seq<Diaper>, start: Day)
    ensures |RecordedDaySet(all, start)| <= ChangesSince(all, start)
  {
    if |all| > 0 {
      RecordedDaysAtMostChanges(all[..|all| - 1], start);
    }
  }

  function ChangeMark(d: Diaper): int { 1 }

  /** Today's diaper metric: how many changes today, how many of them with
      pee and how many with poop; each is today's bucket of the per-day sum
      the diaper chart draws, and the last two never exceed the first. */
  function TodayDiapers(all: seq<Diaper>, today: Day): (counts: (nat, nat, nat))
    ensures counts.0 == DaySum(all, DiaperDay, ChangeMark, today)
    ensures counts.1 == DaySum(all, DiaperDay, PeeMark, today)
    ensures counts.2 == DaySum(all, DiaperDay, PoopMark, today)
    ensures counts.1 <= counts.0 && counts.2 <= counts.0
  {
    var onDay := (d: Diaper) => DayOf(d.changedAt) == today;
    var ds := Filter(all, onDay);
    var any := (d: Diaper) => true;
    CountAll(ds, any);
    FilteredCountIsDaySum(all, DiaperDay, onDay, any, ChangeMark, today);
    FilteredCountIsDaySum(all, DiaperDay, onDay, (d: Diaper) => d.hasPee, PeeMark, today);
    FilteredCountIsDaySum(all, DiaperDay, onDay, (d: Diaper) => d.hasPoop, PoopMark, today);
    (|ds|, Count(ds, (d: Diaper) => d.hasPee), Count(ds, (d: Diaper) => d.hasPoop))
  }

  /** Counting the items of one day that satisfy p is that day's bucket of
      the per-day sum of p's 0/1 mark. */
  lemma {:induction false} FilteredCountIsDaySum<T>(s: seq<T>, day: T -> int, onDay: T -> bool, p: T -> bool, mark: T -> int, d: int)
    requires forall x :: onDay(x) == (day(x) == d)
    requires forall x :: mark(x) == if p(x) then 1 else 0
    ensures Count(Filter(s, onDay), p) == DaySum(s, day, mark, d)
  {
    if |s| > 0 {
      var init, last := s[..|s| - 1], s[|s| - 1];
      assert s == init + [last];
      FilteredCountIsDaySum(init, day, onDay, p, mark, d);
      FilterAppend(init, [last], onDay);
      CountAppend(Filter(init, onDay), Filter([last], onDay), p);
      assert [last][1..] == [];
    }
  }
}
