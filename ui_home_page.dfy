/** ui/pages/home.py: the summary page's figures. The age shown, the
    expected number of feedings and the target volume for that age, today's
    volume and per-feeding average, the latest feeding, the recent activity
    list, and the feeding the quick entry form sends. */
module HomePage {
  import opened Wrappers
  import opened Text
  import opened Clock
  import opened Sorting
  import opened Care
  import HomeView

  /** The age in days the header shows, counted from the day the baby was
      registered (created_at), whatever its birth date. */
  function AgeDays(baby: Baby, today: Day): int
  {
    today - DayOf(baby.createdAt)
  }

  /** The age does not depend on the recorded birth date. */
  lemma AgeIgnoresBirthDate(baby: Baby, birth: Day, today: Day)
    ensures AgeDays(baby.(birthDate := birth), today) == AgeDays(baby, today)
    ensures AgeDays(baby, today) + DayOf(baby.createdAt) == today
  {
  }

  /** The expected number of feedings a day for an age in days. */
  function ExpectedPerDay(age: int): (n: int)
    ensures age <= 14 ==> n == 8
    ensures 14 < age <= 30 ==> n == 7
    ensures 30 < age ==> n == 6
  {
    if age <= 3 then 8
    else if age <= 7 then 8
    else if age <= 14 then 8
    else if age <= 30 then 7
    else 6
  }

  /** An older baby is never expected to feed more often. */
  lemma ExpectedNonIncreasing(a: int, b: int)
    requires a <= b
    ensures ExpectedPerDay(b) <= ExpectedPerDay(a)
    ensures 6 <= ExpectedPerDay(b) <= 8
  {
  }

  /** The target volume: 90 ml per expected feeding. */
  function TargetMl(age: int): (ml: int)
    ensures ml == 90 * ExpectedPerDay(age)
    ensures 540 <= ml <= 720
  {
    ExpectedPerDay(age) * 90
  }

  /** today_ml // len(today_feedings), or nothing ("—") without feedings. */
  function AvgPerFeeding(todayFeedings: seq<Feeding>): (avg: Option<int>)
    ensures avg.None? <==> |todayFeedings| == 0
    ensures avg.Some? ==> avg.value * |todayFeedings| <= TotalMl(todayFeedings)
                          < (avg.value + 1) * |todayFeedings|
  {
    if |todayFeedings| == 0 then None else Some(TotalMl(todayFeedings) / |todayFeedings|)
  }

  /** Valid feedings give an average of at least one millilitre. */
  lemma AvgOfValidFeedings(todayFeedings: seq<Feeding>)
    requires |todayFeedings| > 0
    requires forall k :: 0 <= k < |todayFeedings| ==> ValidFeeding(todayFeedings[k])
    ensures AvgPerFeeding(todayFeedings).value >= 1
  {
    TotalMlPositive(todayFeedings);
  }

  /** sorted(today_feedings, key=fed_at, reverse=True)[0]. */
  function LatestFeeding(todayFeedings: seq<Feeding>): (last: Option<Feeding>)
    ensures last.None? <==> |todayFeedings| == 0
  {
    if |todayFeedings| == 0 then None else Some(SortDesc(todayFeedings, FedAt)[0])
  }

  /** The latest feeding is today's feeding with the greatest time, and the
      same one the home view picks with max(). */
  lemma LatestIsNewest(todayFeedings: seq<Feeding>)
    requires |todayFeedings| > 0
    ensures LatestFeeding(todayFeedings) == HomeView.LastFeeding(todayFeedings)
    ensures LatestFeeding(todayFeedings).value in todayFeedings
    ensures forall k :: 0 <= k < |todayFeedings| ==>
      todayFeedings[k].fedAt <= LatestFeeding(todayFeedings).value.fedAt
  {
    SortDescHeadIsArgMax(todayFeedings, FedAt);
  }

  /** The "time since last" delta: always in minutes on this page. */
  function SinceLastText(todayFeedings: seq<Feeding>, now: Timestamp): (text: string)
  {
    match LatestFeeding(todayFeedings)
    case None => "No feedings yet"
    case Some(last) => IntToString(MinutesBetween(last.fedAt, now)) + "min ago"
  }

  /** The minutes shown read back as the minutes elapsed. */
  lemma SinceLastReadsBack(todayFeedings: seq<Feeding>, now: Timestamp)
    requires |todayFeedings| > 0
    ensures var m := MinutesBetween(LatestFeeding(todayFeedings).value.fedAt, now);
      SinceLastText(todayFeedings, now) == IntToString(m) + "min ago"
      && ParseInt(SinceLastText(todayFeedings, now)[..|IntToString(m)|]) == Some(m)
  {
    var m := MinutesBetween(LatestFeeding(todayFeedings).value.fedAt, now);
    var t := SinceLastText(todayFeedings, now);
    assert t[..|IntToString(m)|] == IntToString(m);
    IntToStringRoundTrip(m);
  }

  /** The recent activity list: the five newest of today's feedings (all
      of them when there are fewer), newest first; no feeding left out is
      newer than the last one shown. */
  function Recent(todayFeedings: seq<Feeding>): (r: seq<Feeding>)
    ensures |r| == if |todayFeedings| < 5 then |todayFeedings| else 5
    ensures SortedDesc(r, FedAt)
    ensures multiset(r) <= multiset(todayFeedings)
    ensures |r| > 0 ==> forall j :: 0 <= j < |todayFeedings| && todayFeedings[j] !in r ==>
      todayFeedings[j].fedAt <= r[|r| - 1].fedAt
  {
    NewestSubMultiset(todayFeedings, FedAt, 5);
    Newest(todayFeedings, FedAt, 5)
  }

  /** The icon of a feeding in the recent list. */
  function Icon(t: FeedingType): (icon: string)
    ensures icon == "🍼" <==> t == Bottle
  {
    if TypeName(t) == "bottle" then "🍼" else "🤱"
  }

  // ---------------------------------------------------------------------------
  // Quick entry
  // ---------------------------------------------------------------------------

  const BottleLabel := "🍼 Bottle"
  const BreastLabel := "🤱 Breastfeeding"

  /** "bottle" if "Bottle" in the selected label, else "breastfeeding". */
  function TypeOfLabel(choice: string): FeedingType
  {
    if Contains(choice, "Bottle") then Bottle else Breastfeeding
  }

  /** The two choices of the form map to the two feeding types. */
  lemma TypeOfLabels()
    ensures TypeOfLabel(BottleLabel) == Bottle
    ensures TypeOfLabel(BreastLabel) == Breastfeeding
  {
    ContainsIff(BottleLabel, "Bottle");
    assert OccursAt(BottleLabel, "Bottle", 2);
    AbsentCharBlocksOccurrence(BreastLabel, "Bottle", 1, 'o');
  }

  /** `notes or None`: an empty text area sends no notes. */
  function NotesOrNone(notes: string): (r: Option<string>)
    ensures r.None? <==> |notes| == 0
    ensures r.Some? ==> r.value == notes
  {
    if |notes| == 0 then None else Some(notes)
  }

  /** What "Save feeding" sends to add_feeding. */
  datatype FeedingDraft = FeedingDraft(
    babyId: int, fedAt: Timestamp, quantityMl: int, feedingType: FeedingType, notes: Option<string>)

  function NewFeeding(baby: Baby, fedAt: Timestamp, quantity: int, choice: string, notes: string): FeedingDraft
  {
    FeedingDraft(baby.id, fedAt, quantity, TypeOfLabel(choice), NotesOrNone(notes))
  }

  /** What the form can send (1 to 500 ml) passes the feeding validator when
      the notes fit its 500 characters; the server assigns the id. */
  lemma NewFeedingIsValid(baby: Baby, fedAt: Timestamp, quantity: int, choice: string, notes: string, id: int)
    requires 1 <= quantity <= 500 && |notes| <= 500
    ensures var d := NewFeeding(baby, fedAt, quantity, choice, notes);
      ValidFeeding(Feeding(id, d.babyId, d.fedAt, d.quantityMl, d.feedingType, d.notes))
      && d.babyId == baby.id && d.quantityMl == quantity
  {
  }

  /** What "Save weight" sends to add_weight. */
  datatype WeightDraft = WeightDraft(babyId: int, measuredAt: Timestamp, weightG: int, notes: Option<string>)

  function NewWeight(baby: Baby, measuredAt: Timestamp, grams: int, notes: string): (d: WeightDraft)
    ensures d.babyId == baby.id && d.weightG == grams
    ensures d.notes.None? <==> |notes| == 0
  {
    WeightDraft(baby.id, measuredAt, grams, NotesOrNone(notes))
  }
}
