/** app/api/routes/analysis.py: GET /analysis/{baby_id}, the analysis of a
    baby's feedings over one day or the seven days up to a reference date.

    The database is the list of all feedings and the map of babies by id;
    the two feeding queries are functions over that list. The analyzer is a
    parameter: given the baby, the feedings and the period label, it gives
    the analysis text and the sources it drew on. */
module AnalysisRoute {
  import opened Wrappers
  import opened Text
  import opened Clock
  import opened Sorting
  import opened Care

  /** PeriodType = Literal["day", "week"]. */
  datatype Period = DayPeriod | WeekPeriod

  /** SourceReference: a source name and its score in thousandths. */
  datatype SourceRef = SourceRef(source: string, score: Option<int>)

  datatype AnalysisResponse = AnalysisResponse(
    babyId: int,
    babyName: string,
    period: Period,
    periodLabel: string,
    analysis: string,
    sources: seq<SourceRef>)

  /** An HTTPException (or, for status 500, an unhandled exception). */
  datatype HttpError = HttpError(status: int, detail: string)

  /** The analyzer as the route calls it. */
  type Analyzer = (Baby, seq<Feeding>, string) -> (string, seq<SourceRef>)

  /** Whether a feeding belongs to the baby and falls between two dates,
      both included (date(fed_at) between start and end). */
  predicate InWindow(f: Feeding, babyId: int, start: Day, end: Day)
  {
    f.babyId == babyId && start <= DayOf(f.fedAt) <= end
  }

  /** get_feedings_by_range (and get_feedings_by_day when start == end): the
      baby's feedings in the window, ordered by time. */
  function WindowFeedings(db: seq<Feeding>, babyId: int, start: Day, end: Day): (fs: seq<Feeding>)
    ensures forall k :: 0 <= k < |fs| ==> InWindow(fs[k], babyId, start, end)
    ensures forall k :: 0 <= k < |db| && InWindow(db[k], babyId, start, end) ==> db[k] in fs
    ensures SortedAsc(fs, FedAt)
    ensures |fs| == Count(db, f => InWindow(f, babyId, start, end))
  {
    var selected := Filter(db, f => InWindow(f, babyId, start, end));
    CountIsFilterLength(db, f => InWindow(f, babyId, start, end));
    var fs := SortAsc(selected, FedAt);
    SortAscSameItems(selected, FedAt);
    assert forall k :: 0 <= k < |fs| ==> InWindow(fs[k], babyId, start, end) by {
      forall k | 0 <= k < |fs| ensures InWindow(fs[k], babyId, start, end) {
        assert fs[k] in selected;
        var j :| 0 <= j < |selected| && selected[j] == fs[k];
      }
    }
    fs
  }

  /** The first and last day analysed: the reference day alone, or the six
      days before it and the reference day. */
  function PeriodStart(period: Period, ref: Day): Day
  {
    match period
    case DayPeriod => ref
    case WeekPeriod => ref - 6
  }

  function PeriodLabel(period: Period, ref: Day): string
  {
    match period
    case DayPeriod => "day of " + FormatMDY(ref)
    case WeekPeriod => "week from " + FormatMDY(ref - 6) + " to " + FormatMDY(ref)
  }

  /** Steps 1 and 2 of the route: the baby, the feedings of the period and
      the period label, or the 404 the route raises. A request gets past
      both 404s exactly when the baby is known and has a feeding in the
      window. */
  function Prepare(babies: map<int, Baby>, db: seq<Feeding>, babyId: int, period: Period,
                   referenceDate: Option<Day>, today: Day): (r: Result<(Baby, seq<Feeding>, string), HttpError>)
    ensures babyId !in babies ==> r == Err(HttpError(404, "Baby " + IntToString(babyId) + " not found"))
    ensures var ref := if referenceDate.Some? then referenceDate.value else today;
      r.Ok? <==> babyId in babies && exists k :: 0 <= k < |db| && InWindow(db[k], babyId, PeriodStart(period, ref), ref)
    ensures var ref := if referenceDate.Some? then referenceDate.value else today;
      r.Ok? ==> r.value.0 == babies[babyId] && r.value.2 == PeriodLabel(period, ref)
                && |r.value.1| > 0 && forall k :: 0 <= k < |r.value.1| ==> InWindow(r.value.1[k], babyId, PeriodStart(period, ref), ref)
  {
    if babyId !in babies then Err(HttpError(404, "Baby " + IntToString(babyId) + " not found"))
    else
      var ref := if referenceDate.Some? then referenceDate.value else today;
      var periodLabel := PeriodLabel(period, ref);
      var fs := WindowFeedings(db, babyId, PeriodStart(period, ref), ref);
      assert |fs| == 0 <==> forall k :: 0 <= k < |db| ==> !InWindow(db[k], babyId, PeriodStart(period, ref), ref) by {
        if forall k :: 0 <= k < |db| ==> !InWindow(db[k], babyId, PeriodStart(period, ref), ref) {
          NoneInWindow(db, babyId, PeriodStart(period, ref), ref);
        }
      }
      if |fs| == 0 then Err(HttpError(404, "No feedings recorded for the " + periodLabel))
      else Ok((babies[babyId], fs, periodLabel))
  }

  /** analyze_baby_feedings, with an analyzer that returns the pair the
      route unpacks. */
  function AnalyzeBabyFeedings(babies: map<int, Baby>, db: seq<Feeding>, babyId: int, period: Period,
                               referenceDate: Option<Day>, today: Day, analyze: Analyzer)
    : (r: Result<AnalysisResponse, HttpError>)
    ensures babyId !in babies ==> r == Err(HttpError(404, "Baby " + IntToString(babyId) + " not found"))
    ensures r.Ok? ==> babyId in babies && r.value.babyId == babyId && r.value.babyName == babies[babyId].name
                      && r.value.period == period
  {
    match Prepare(babies, db, babyId, period, referenceDate, today)
    case Err(e) => Err(e)
    case Ok((baby, fs, periodLabel)) =>
      var (text, sources) := analyze(baby, fs, periodLabel);
      Ok(AnalysisResponse(babyId, baby.name, period, periodLabel, text, sources))
  }

  /** The reference date defaults to today. */
  lemma ReferenceDefaultsToToday(babies: map<int, Baby>, db: seq<Feeding>, babyId: int, period: Period,
                                 today: Day, analyze: Analyzer)
    ensures AnalyzeBabyFeedings(babies, db, babyId, period, None, today, analyze)
         == AnalyzeBabyFeedings(babies, db, babyId, period, Some(today), today, analyze)
  {
  }

  /** A known baby without feedings in the period gets a 404 naming the
      period, and the analyzer is never consulted. */
  lemma EmptyPeriodIsNotFound(babies: map<int, Baby>, db: seq<Feeding>, babyId: int, period: Period,
                              referenceDate: Option<Day>, today: Day, a1: Analyzer, a2: Analyzer)
    requires babyId in babies
    requires var ref := if referenceDate.Some? then referenceDate.value else today;
      forall k :: 0 <= k < |db| ==> !InWindow(db[k], babyId, PeriodStart(period, ref), ref)
    ensures var ref := if referenceDate.Some? then referenceDate.value else today;
      AnalyzeBabyFeedings(babies, db, babyId, period, referenceDate, today, a1)
        == Err(HttpError(404, "No feedings recorded for the " + PeriodLabel(period, ref)))
    ensures AnalyzeBabyFeedings(babies, db, babyId, period, referenceDate, today, a1)
         == AnalyzeBabyFeedings(babies, db, babyId, period, referenceDate, today, a2)
  {
    var ref := if referenceDate.Some? then referenceDate.value else today;
    var fs := WindowFeedings(db, babyId, PeriodStart(period, ref), ref);
    if |fs| > 0 {
      assert fs[0] in multiset(fs);
      NoneInWindow(db, babyId, PeriodStart(period, ref), ref);
    }
  }

  /** A known baby with a feeding in the period gets past both 404s: with
      the analyzer the route expects, the request is answered. */
  lemma KnownBabyWithFeedingAnswers(babies: map<int, Baby>, db: seq<Feeding>, babyId: int, period: Period,
                                    referenceDate: Option<Day>, today: Day, analyze: Analyzer, k: nat)
    requires babyId in babies
    requires var ref := if referenceDate.Some? then referenceDate.value else today;
      k < |db| && InWindow(db[k], babyId, PeriodStart(period, ref), ref)
    ensures AnalyzeBabyFeedings(babies, db, babyId, period, referenceDate, today, analyze).Ok?
  {
    var ref := if referenceDate.Some? then referenceDate.value else today;
    assert InWindow(db[k], babyId, PeriodStart(period, ref), ref);
  }

  lemma {:induction false} NoneInWindow(db: seq<Feeding>, babyId: int, start: Day, end: Day)
    requires forall k :: 0 <= k < |db| ==> !InWindow(db[k], babyId, start, end)
    ensures Count(db, f => InWindow(f, babyId, start, end)) == 0
  {
    if |db| > 0 {
      NoneInWindow(db[1..], babyId, start, end);
    }
  }

  /** A successful analysis answers with what the analyzer produced for the
      baby's feedings of the period, sources one for one. */
  lemma ResponseEchoesAnalyzer(babies: map<int, Baby>, db: seq<Feeding>, babyId: int, period: Period,
                               referenceDate: Option<Day>, today: Day, analyze: Analyzer)
    requires AnalyzeBabyFeedings(babies, db, babyId, period, referenceDate, today, analyze).Ok?
    ensures var ref := if referenceDate.Some? then referenceDate.value else today;
      var fs := WindowFeedings(db, babyId, PeriodStart(period, ref), ref);
      var r := AnalyzeBabyFeedings(babies, db, babyId, period, referenceDate, today, analyze).value;
      && |fs| > 0
      && r.periodLabel == PeriodLabel(period, ref)
      && r.analysis == analyze(babies[babyId], fs, r.periodLabel).0
      && |r.sources| == |analyze(babies[babyId], fs, r.periodLabel).1|
      && forall k :: 0 <= k < |r.sources| ==> r.sources[k] == analyze(babies[babyId], fs, r.periodLabel).1[k]
  {
  }

  /** Every feeding the day analysis sees is also seen by the week analysis
      ending on the same day. */
  lemma DayWithinWeek(db: seq<Feeding>, babyId: int, ref: Day, f: Feeding)
    requires f in WindowFeedings(db, babyId, PeriodStart(DayPeriod, ref), ref)
    ensures f in WindowFeedings(db, babyId, PeriodStart(WeekPeriod, ref), ref)
  {
    var day := WindowFeedings(db, babyId, ref, ref);
    var k :| 0 <= k < |day| && day[k] == f;
    assert InWindow(f, babyId, ref, ref);
    assert f in multiset(day);
    assert f in multiset(Filter(db, g => InWindow(g, babyId, ref, ref)));
    var j :| 0 <= j < |db| && db[j] == f;
  }

  // ---------------------------------------------------------------------------
  // The route as written, against analyzer.py's analyze_feedings
  // ---------------------------------------------------------------------------

  /** `analysis_text, sources = <result>` and `[SourceReference(**s) for s in
      sources]` applied to the string analyze_feedings returns: unpacking a
      string into two names needs exactly two characters, and the second
      one, a one-character string, is not a mapping, so `**s` raises. Either
      way the exception escapes the route as a 500. */
  function UnpackAsWritten(text: string): Result<(string, seq<SourceRef>), HttpError>
  {
    if |text| != 2 then Err(HttpError(500, "Internal Server Error"))   // ValueError while unpacking
    else Err(HttpError(500, "Internal Server Error"))                  // TypeError: argument after ** must be a mapping
  }

  /** The route as written, with the analyzer returning the analysis text. */
  function AnalyzeBabyFeedingsAsWritten(babies: map<int, Baby>, db: seq<Feeding>, babyId: int, period: Period,
                                        referenceDate: Option<Day>, today: Day,
                                        analyzeText: (Baby, seq<Feeding>, string) -> string)
    : Result<AnalysisResponse, HttpError>
  {
    match Prepare(babies, db, babyId, period, referenceDate, today)
    case Err(e) => Err(e)
    case Ok((baby, fs, periodLabel)) =>
      match UnpackAsWritten(analyzeText(baby, fs, periodLabel))
      case Err(e) => Err(e)
      case Ok((text, sources)) => Ok(AnalysisResponse(babyId, baby.name, period, periodLabel, text, sources))
  }

  /** As written, no request ever gets an analysis: whenever the baby and its
      feedings are found, the route fails with a 500, whatever the analysis
      text. */
  lemma AsWrittenNeverAnswers(babies: map<int, Baby>, db: seq<Feeding>, babyId: int, period: Period,
                              referenceDate: Option<Day>, today: Day,
                              analyzeText: (Baby, seq<Feeding>, string) -> string)
    requires Prepare(babies, db, babyId, period, referenceDate, today).Ok?
    ensures AnalyzeBabyFeedingsAsWritten(babies, db, babyId, period, referenceDate, today, analyzeText)
         == Err(HttpError(500, "Internal Server Error"))
  {
  }

  /** With the pair the route expects, the same request succeeds and returns
      the analysis text. */
  lemma PairedAnalyzerAnswers(babies: map<int, Baby>, db: seq<Feeding>, babyId: int, period: Period,
                              referenceDate: Option<Day>, today: Day, analyze: Analyzer)
    requires Prepare(babies, db, babyId, period, referenceDate, today).Ok?
    ensures var r := AnalyzeBabyFeedings(babies, db, babyId, period, referenceDate, today, analyze);
      var (baby, fs, periodLabel) := Prepare(babies, db, babyId, period, referenceDate, today).value;
      r.Ok? && r.value.analysis == analyze(baby, fs, periodLabel).0
  {
  }
}
