/** scripts/import_romane_csv.py: turning the form export into feedings and
    diaper changes. The timestamp parser (strptime with "%d/%m/%Y %H:%M:%S")
    is a parameter; minute counts and volumes are read as int(float(x)) on
    decimal text. */
module RomaneImport {
  import opened Wrappers
  import opened Text
  import opened Clock
  import opened Sorting
  import opened Care
  import opened CsvImport

  /** The parser of the timestamp column: None where strptime raises. */
  type TimeParser = string -> Option<Timestamp>

  const MinutesAgoColumn := "Il y a X minutes"

  /** 2026-02-21, the day whose first rows belong to the day before. */
  const DuplicatedDay: Day := 20505

  lemma DuplicatedDayIsFeb21()
    ensures CivilFromDays(DuplicatedDay) == (2026, 2, 21)
  {
    assert 739973 / 146097 == 5;
    assert 9488 / 1460 == 6;
    assert 9488 / 36524 == 0;
    assert 9488 / 146096 == 0;
    assert 9482 / 365 == 25;
    assert 25 / 4 == 6;
    assert 25 / 100 == 0;
    assert 1787 / 153 == 11;
    assert 1685 / 5 == 337;
  }

  datatype DiaperEntry = DiaperEntry(changedAt: Timestamp, hasPee: bool, hasPoop: bool)

  /** What one row contributes. */
  datatype RowOut = RowOut(feeding: Option<ImportFeeding>, diaper: Option<DiaperEntry>)

  /** The row has a non-empty timestamp the parser accepts. */
  predicate Dated(row: CsvRow, parse: TimeParser)
  {
    var raw := Field(row, TimestampColumn);
    |raw| > 0 && parse(raw).Some?
  }

  /** The row's time: shifted back one day when the raw text was not seen
      before and falls on 2026-02-21, then moved back by the minutes the
      row gives, when they can be read. */
  function AdjustedTime(row: CsvRow, parsed: Timestamp, duplicate: bool): (t: Timestamp)
    ensures var shifted := if !duplicate && DayOf(parsed) == DuplicatedDay then parsed - SecondsPerDay else parsed;
      var m := ParseTruncatedDecimal(Field(row, MinutesAgoColumn));
      t == (if m.Some? then shifted - 60 * m.value else shifted)
  {
    var t := if !duplicate && DayOf(parsed) == DuplicatedDay then parsed - SecondsPerDay else parsed;
    var minutesRaw := Field(row, MinutesAgoColumn);
    if |minutesRaw| > 0 then
      match ParseTruncatedDecimal(minutesRaw)
      case Some(minutes) => t - 60 * minutes
      case None => t
    else t
  }

  /** The volume of the row, when it reads as a positive number. */
  function Volume(row: CsvRow): Option<int>
  {
    var mlRaw := Field(row, MlColumn);
    if |mlRaw| > 0 then
      match ParseTruncatedDecimal(mlRaw)
      case Some(q) => if q > 0 then Some(q) else None
      case None => None
    else None
  }

  /** One pass of the loop body: what the row contributes, and the raw
      timestamps seen afterwards. */
  function ParseRow(row: CsvRow, seen: set<string>, parse: TimeParser): (r: (RowOut, set<string>))
    ensures r.0.feeding.Some? ==> ValidEntry(r.0.feeding.value)
    ensures r.0.diaper.Some? ==> r.0.diaper.value.hasPee || r.0.diaper.value.hasPoop
  {
    var raw := Field(row, TimestampColumn);
    if |raw| == 0 then (RowOut(None, None), seen)
    else match parse(raw)
      case None => (RowOut(None, None), seen)
      case Some(parsed) =>
        var t := AdjustedTime(row, parsed, raw in seen);
        (RowOut(FeedingAt(row, t), DiaperAt(row, t)), seen + {raw})
  }

  /** The feeding of a row at its adjusted time t, when its volume reads. */
  function FeedingAt(row: CsvRow, t: Timestamp): Option<ImportFeeding>
  {
    match Volume(row)
    case Some(q) => Some(ImportFeeding(t, q, Bottle, None))
    case None => None
  }

  /** The diaper change of a row at its adjusted time t, when Urines or
      Selles is "Oui". */
  function DiaperAt(row: CsvRow, t: Timestamp): Option<DiaperEntry>
  {
    var pee := Field(row, UrinesColumn) == Yes;
    var poop := Field(row, SellesColumn) == Yes;
    if pee || poop then Some(DiaperEntry(t, pee, poop)) else None
  }

  /** A bottle feeding of a positive volume, without notes. */
  predicate ValidEntry(f: ImportFeeding)
  {
    f.quantityMl > 0 && f.feedingType == Bottle && f.notes.None?
  }

  function AsSeq<T>(o: Option<T>): (s: seq<T>)
    ensures |s| <= 1
  {
    if o.Some? then [o.value] else []
  }

  /** parse_csv: the feedings and the diaper changes in row order, and the
      raw timestamps seen. */
  function Parse(rows: seq<CsvRow>, parse: TimeParser): (r: (seq<ImportFeeding>, seq<DiaperEntry>, set<string>))
    ensures |r.0| <= |rows| && |r.1| <= |rows|
    ensures forall k :: 0 <= k < |r.0| ==> ValidEntry(r.0[k])
    ensures forall k :: 0 <= k < |r.1| ==> r.1[k].hasPee || r.1[k].hasPoop
  {
    if |rows| == 0 then ([], [], {})
    else
      var prev := Parse(rows[..|rows| - 1], parse);
      var step := ParseRow(rows[|rows| - 1], prev.2, parse);
      var feedings := prev.0 + AsSeq(step.0.feeding);
      var diapers := prev.1 + AsSeq(step.0.diaper);
      AppendKeeps(prev.0, step.0.feeding, ValidEntry);
      AppendKeeps(prev.1, step.0.diaper, IsChange);
      (feedings, diapers, step.1)
  }

  predicate IsChange(d: DiaperEntry)
  {
    d.hasPee || d.hasPoop
  }

  /** Appending an optional item that satisfies p keeps p on every item. */
  lemma AppendKeeps<T>(prev: seq<T>, o: Option<T>, p: T -> bool)
    requires forall k :: 0 <= k < |prev| ==> p(prev[k])
    requires o.Some? ==> p(o.value)
    ensures forall k :: 0 <= k < |prev + AsSeq(o)| ==> p((prev + AsSeq(o))[k])
  {
    var r := prev + AsSeq(o);
    forall k | 0 <= k < |r| ensures p(r[k]) {
      if k >= |prev| {
        assert r[k] == o.value;
      }
    }
  }

  /** The loop of parse_csv. */
  method ParseCsv(rows: seq<CsvRow>, parse: TimeParser) returns (feedings: seq<ImportFeeding>, diapers: seq<DiaperEntry>)
    ensures feedings == Parse(rows, parse).0 && diapers == Parse(rows, parse).1
  {
    feedings, diapers := [], [];
    var seen: set<string> := {};
    var i := 0;
    while i < |rows|
      invariant 0 <= i <= |rows|
      invariant feedings == Parse(rows[..i], parse).0
      invariant diapers == Parse(rows[..i], parse).1
      invariant seen == Parse(rows[..i], parse).2
    {
      feedings, diapers, seen := ParseNext(rows, i, parse, feedings, diapers, seen);
      i := i + 1;
    }
    assert rows[..i] == rows;
  }

  /** One turn of the loop: what the first i + 1 rows give. */
  method ParseNext(rows: seq<CsvRow>, i: nat, parse: TimeParser,
                   feedings: seq<ImportFeeding>, diapers: seq<DiaperEntry>, seen: set<string>)
    returns (feedings': seq<ImportFeeding>, diapers': seq<DiaperEntry>, seen': set<string>)
    requires i < |rows|
    requires feedings == Parse(rows[..i], parse).0
    requires diapers == Parse(rows[..i], parse).1
    requires seen == Parse(rows[..i], parse).2
    ensures feedings' == Parse(rows[..i + 1], parse).0
    ensures diapers' == Parse(rows[..i + 1], parse).1
    ensures seen' == Parse(rows[..i + 1], parse).2
  {
    ParseSnoc(rows, i, parse);
    ghost var step := ParseRow(rows[i], seen, parse);
    var feeding, diaper;
    feeding, diaper, seen' := ReadRow(rows[i], seen, parse);
    assert feeding == step.0.feeding && diaper == step.0.diaper && seen' == step.1;
    feedings', diapers' := feedings, diapers;
    if feeding.Some? {
      feedings' := feedings' + [feeding.value];
    }
    if diaper.Some? {
      diapers' := diapers' + [diaper.value];
    }
    assert feedings' == feedings + AsSeq(step.0.feeding);
    assert diapers' == diapers + AsSeq(step.0.diaper);
  }

  lemma ParseSnoc(rows: seq<CsvRow>, i: nat, parse: TimeParser)
    requires i < |rows|
    ensures var prev := Parse(rows[..i], parse);
      var step := ParseRow(rows[i], prev.2, parse);
      Parse(rows[..i + 1], parse) == (prev.0 + AsSeq(step.0.feeding), prev.1 + AsSeq(step.0.diaper), step.1)
  {
    assert rows[..i + 1][..i] == rows[..i];
  }

  /** The body of the loop for one row. */
  method ReadRow(row: CsvRow, seen: set<string>, parse: TimeParser)
    returns (feeding: Option<ImportFeeding>, diaper: Option<DiaperEntry>, seen': set<string>)
    ensures (RowOut(feeding, diaper), seen') == ParseRow(row, seen, parse)
  {
    feeding, diaper, seen' := None, None, seen;
    var raw := Field(row, TimestampColumn);
    if |raw| == 0 {
      return;
    }
    var parsed := parse(raw);
    if parsed.None? {
      return;
    }
    var duplicate := raw in seen;
    seen' := seen + {raw};
    var t := AdjustTime(row, parsed.value, duplicate);
    feeding := ReadFeeding(row, t);
    diaper := ReadDiaper(row, t);
  }

  /** The duplicate shift and the minutes-ago offset. */
  method AdjustTime(row: CsvRow, parsed: Timestamp, duplicate: bool) returns (t: Timestamp)
    ensures t == AdjustedTime(row, parsed, duplicate)
  {
    t := parsed;
    if !duplicate && DayOf(t) == DuplicatedDay {
      t := t - SecondsPerDay;
    }
    var minutesRaw := Field(row, MinutesAgoColumn);
    if |minutesRaw| > 0 {
      var minutes := ParseTruncatedDecimal(minutesRaw);
      if minutes.Some? {
        t := t - 60 * minutes.value;
      }
    }
  }

  /** The "Parse feeding" step. */
  method ReadFeeding(row: CsvRow, t: Timestamp) returns (feeding: Option<ImportFeeding>)
    ensures feeding == FeedingAt(row, t)
  {
    feeding := None;
    var mlRaw := Field(row, MlColumn);
    if |mlRaw| > 0 {
      var q := ParseTruncatedDecimal(mlRaw);
      if q.Some? && q.value > 0 {
        feeding := Some(ImportFeeding(t, q.value, Bottle, None));
      }
    }
  }

  /** The "Parse diaper" step. */
  method ReadDiaper(row: CsvRow, t: Timestamp) returns (diaper: Option<DiaperEntry>)
    ensures diaper == DiaperAt(row, t)
  {
    diaper := None;
    var pee := Field(row, UrinesColumn) == Yes;
    var poop := Field(row, SellesColumn) == Yes;
    if pee || poop {
      diaper := Some(DiaperEntry(t, pee, poop));
    }
  }

  // ---------------------------------------------------------------------------
  // Row rules
  // ---------------------------------------------------------------------------

  /** A row without a usable timestamp contributes nothing and is not
      remembered. */
  lemma UndatedRowIsSkipped(row: CsvRow, seen: set<string>, parse: TimeParser)
    requires !Dated(row, parse)
    ensures ParseRow(row, seen, parse) == (RowOut(None, None), seen)
  {
  }

  /** A dated row gives a feeding exactly when its volume reads as a
      positive number, a bottle feeding of that volume; it gives a diaper
      change exactly when Urines or Selles is "Oui", with those two flags;
      both carry the same adjusted time. */
  lemma DatedRowRules(row: CsvRow, seen: set<string>, parse: TimeParser)
    requires Dated(row, parse)
    ensures var raw := Field(row, TimestampColumn);
      var (out, seen') := ParseRow(row, seen, parse);
      var t := AdjustedTime(row, parse(raw).value, raw in seen);
      && seen' == seen + {raw}
      && (out.feeding.Some? <==> Volume(row).Some?)
      && (out.feeding.Some? ==> out.feeding.value == ImportFeeding(t, Volume(row).value, Bottle, None))
      && (out.diaper.Some? <==> Field(row, UrinesColumn) == Yes || Field(row, SellesColumn) == Yes)
      && (out.diaper.Some? ==> out.diaper.value.changedAt == t
                               && out.diaper.value.hasPee == (Field(row, UrinesColumn) == Yes)
                               && out.diaper.value.hasPoop == (Field(row, SellesColumn) == Yes))
  {
  }

  /** The volume is read as int(float(x)) and must be positive. */
  lemma VolumeRule(row: CsvRow)
    ensures Volume(row).Some? <==>
      var q := ParseTruncatedDecimal(Field(row, MlColumn)); q.Some? && q.value > 0
    ensures Volume(row).Some? ==> Volume(row).value == ParseTruncatedDecimal(Field(row, MlColumn)).value
  {
  }

  function RawTimestamp(row: CsvRow): string
  {
    Field(row, TimestampColumn)
  }

  function DatedBy(parse: TimeParser): CsvRow -> bool
  {
    (row: CsvRow) => Dated(row, parse)
  }

  /** The raw timestamps seen after some rows are those of the dated rows
      among them. */
  lemma {:induction false} SeenAreDatedRaws(rows: seq<CsvRow>, parse: TimeParser)
    ensures Parse(rows, parse).2 == KeysOf(rows, RawTimestamp, DatedBy(parse))
  {
    if |rows| > 0 {
      SeenAreDatedRaws(rows[..|rows| - 1], parse);
    }
  }

  /** Row i counts as a duplicate, and so is never shifted back a day,
      exactly when a dated row before it has the same raw timestamp: only
      the first of identical timestamps can move (DatedRowRules and
      AdjustedTime give the shift itself). */
  lemma DuplicateIffSeenBefore(rows: seq<CsvRow>, i: nat, parse: TimeParser)
    requires i < |rows|
    ensures var raw := RawTimestamp(rows[i]);
      (raw in Parse(rows[..i], parse).2 <==>
         exists k :: 0 <= k < i && Dated(rows[k], parse) && RawTimestamp(rows[k]) == raw)
  {
    var raw := RawTimestamp(rows[i]);
    SeenAreDatedRaws(rows[..i], parse);
    KeysOfPrefix(rows, i, RawTimestamp, DatedBy(parse), raw);
  }

  /** main after the baby is created: parse the export, post the feedings,
      then the diaper changes, counting successes and errors of each. */
  method ImportAll(rows: seq<CsvRow>, parse: TimeParser,
                   postFeeding: ImportFeeding -> int, postDiaper: DiaperEntry -> int)
    returns (feedingsOk: nat, feedingErrors: nat, diapersOk: nat, diaperErrors: nat)
    ensures var (feedings, diapers, _) := Parse(rows, parse);
      && feedingsOk == Count(feedings, AcceptedBy(postFeeding))
      && feedingsOk + feedingErrors == |feedings| <= |rows|
      && diapersOk == Count(diapers, AcceptedBy(postDiaper))
      && diapersOk + diaperErrors == |diapers| <= |rows|
  {
    var feedings, diapers := ParseCsv(rows, parse);
    feedingsOk, feedingErrors := PostAll(feedings, postFeeding);
    diapersOk, diaperErrors := PostAll(diapers, postDiaper);
  }
}
