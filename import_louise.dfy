/** scripts/import_louise_csv.py: the bottle feedings of the form export,
    with notes built from the diaper columns, posted unless a feeding at the
    same second already exists. The timestamp parser (strptime) is a
    parameter; volumes are read with int(). */
module LouiseImport {
  import opened Wrappers
  import opened Text
  import opened Clock
  import opened Sorting
  import opened Care
  import opened CsvImport

  type TimeParser = string -> Option<Timestamp>

  const UrinesYes := "urines: yes"
  const StoolsYes := "stools: yes"
  const StoolsNo := "stools: no"

  /** notes_parts. */
  function NoteParts(urines: string, selles: string): seq<string>
  {
    (if urines == Yes then [UrinesYes] else [])
    + (if selles == Yes then [StoolsYes] else if selles == No then [StoolsNo] else [])
  }

  /** The parts joined with ", ", or None without parts. */
  function Notes(urines: string, selles: string): Option<string>
  {
    var parts := NoteParts(urines, selles);
    if |parts| == 0 then None else Some(Join(parts, ", "))
  }

  /** The six notes a row can carry. */
  lemma NotesTable(urines: string, selles: string)
    ensures var pee := urines == Yes;
      var stools := if selles == Yes then Some(true) else if selles == No then Some(false) else None;
      Notes(urines, selles) == (
        if !pee && stools.None? then None
        else if !pee then Some(if stools.value then StoolsYes else StoolsNo)
        else if stools.None? then Some(UrinesYes)
        else Some(UrinesYes + ", " + (if stools.value then StoolsYes else StoolsNo)))
  {
  }

  /** "urines: yes" is noted exactly when Urines is "Oui". */
  lemma UrinesNotedIff(urines: string, selles: string)
    ensures (Notes(urines, selles).Some? && Contains(Notes(urines, selles).value, UrinesYes)) <==> urines == Yes
  {
    var parts := NoteParts(urines, selles);
    if urines == Yes {
      JoinContainsParts(parts, ", ", 0);
      var i :| OccursAt(Join(parts, ", "), parts[0], i);
      ContainsIff(Join(parts, ", "), UrinesYes);
    } else if Notes(urines, selles).Some? {
      assert |parts| == 1;
      assert Join(parts, ", ") == parts[0];
      AbsentCharBlocksOccurrence(parts[0], UrinesYes, 0, 'u');
    }
  }

  /** One pass of the loop body: the feeding of the row, if it is kept. */
  function ParseRow(row: CsvRow, parse: TimeParser): (e: Option<ImportFeeding>)
    ensures e.Some? ==> e.value.quantityMl > 0 && e.value.feedingType == Bottle
  {
    var raw := Field(row, TimestampColumn);
    var mlRaw := Field(row, MlColumn);
    if |raw| == 0 || |mlRaw| == 0 then None
    else
      var fedAt := parse(raw);
      var q := ParseInt(mlRaw);
      if fedAt.None? || q.None? || q.value <= 0 then None
      else Some(ImportFeeding(fedAt.value, q.value, Bottle, Notes(Field(row, UrinesColumn), Field(row, SellesColumn))))
  }

  /** A row is kept exactly when both its timestamp and its volume read and
      the volume is positive; it becomes a bottle feeding of that volume at
      that time, with the notes of its diaper columns. */
  lemma RowRules(row: CsvRow, parse: TimeParser)
    ensures var raw := Field(row, TimestampColumn);
      var q := ParseInt(Field(row, MlColumn));
      var e := ParseRow(row, parse);
      && (e.Some? <==> |raw| > 0 && parse(raw).Some? && q.Some? && q.value > 0)
      && (e.Some? ==> e.value == ImportFeeding(parse(raw).value, q.value, Bottle,
                                               Notes(Field(row, UrinesColumn), Field(row, SellesColumn))))
  {
  }

  /** parse_csv: the kept rows' feedings, in row order. */
  function ParseAll(rows: seq<CsvRow>, parse: TimeParser): (entries: seq<ImportFeeding>)
    ensures |entries| <= |rows|
    ensures forall k :: 0 <= k < |entries| ==> BottleEntry(entries[k])
  {
    if |rows| == 0 then []
    else Kept(ParseAll(rows[..|rows| - 1], parse), ParseRow(rows[|rows| - 1], parse))
  }

  /** A bottle feeding of positive volume. */
  predicate BottleEntry(e: ImportFeeding)
  {
    e.quantityMl > 0 && e.feedingType == Bottle
  }

  /** The entries so far, with the row's feeding appended when it is kept. */
  function Kept(prev: seq<ImportFeeding>, e: Option<ImportFeeding>): (entries: seq<ImportFeeding>)
    requires forall k :: 0 <= k < |prev| ==> BottleEntry(prev[k])
    requires e.Some? ==> BottleEntry(e.value)
    ensures |entries| <= |prev| + 1
    ensures forall k :: 0 <= k < |entries| ==> BottleEntry(entries[k])
  {
    if e.Some? then prev + [e.value] else prev
  }

  /** The loop of parse_csv. */
  method ParseCsv(rows: seq<CsvRow>, parse: TimeParser) returns (entries: seq<ImportFeeding>)
    ensures entries == ParseAll(rows, parse)
  {
    entries := [];
    var i := 0;
    while i < |rows|
      invariant 0 <= i <= |rows|
      invariant entries == ParseAll(rows[..i], parse)
    {
      entries := ParseNext(rows, i, parse, entries);
      i := i + 1;
    }
    assert rows[..i] == rows;
  }

  /** One turn of the loop: the entries of the first i + 1 rows. */
  method ParseNext(rows: seq<CsvRow>, i: nat, parse: TimeParser, entries: seq<ImportFeeding>)
    returns (next: seq<ImportFeeding>)
    requires i < |rows| && entries == ParseAll(rows[..i], parse)
    ensures next == ParseAll(rows[..i + 1], parse)
  {
    ParseAllSnoc(rows, parse, i);
    var e := ReadRow(rows[i], parse);
    next := if e.Some? then entries + [e.value] else entries;
  }

  lemma ParseAllSnoc(rows: seq<CsvRow>, parse: TimeParser, i: nat)
    requires i < |rows|
    ensures var e := ParseRow(rows[i], parse);
      ParseAll(rows[..i + 1], parse) == ParseAll(rows[..i], parse) + (if e.Some? then [e.value] else [])
  {
    assert rows[..i + 1][..i] == rows[..i];
  }

  /** The body of the loop for one row. */
  method ReadRow(row: CsvRow, parse: TimeParser) returns (entry: Option<ImportFeeding>)
    ensures entry == ParseRow(row, parse)
  {
    entry := None;
    var raw := Field(row, TimestampColumn);
    var mlRaw := Field(row, MlColumn);
    if |raw| == 0 || |mlRaw| == 0 {
      return;
    }
    var fedAt := parse(raw);
    var q := ParseInt(mlRaw);
    if fedAt.None? || q.None? {
      return;
    }
    if q.value <= 0 {
      return;
    }
    var notes := BuildNotes(Field(row, UrinesColumn), Field(row, SellesColumn));
    entry := Some(ImportFeeding(fedAt.value, q.value, Bottle, notes));
  }

  /** The notes_parts appends and the join. */
  method BuildNotes(urines: string, selles: string) returns (notes: Option<string>)
    ensures notes == Notes(urines, selles)
  {
    var parts: seq<string> := [];
    if urines == Yes {
      parts := parts + [UrinesYes];
    }
    if selles == Yes {
      parts := parts + [StoolsYes];
    } else if selles == No {
      parts := parts + [StoolsNo];
    }
    assert parts == NoteParts(urines, selles);
    notes := if |parts| > 0 then Some(Join(parts, ", ")) else None;
  }

  // ---------------------------------------------------------------------------
  // main
  // ---------------------------------------------------------------------------

  /** next(b for b in babies if b["name"].lower() == "louise"). */
  function FindLouise(babies: seq<Baby>): (found: Option<Baby>)
    ensures found.Some? ==> found.value in babies && Lower(found.value.name) == "louise"
    ensures found.None? ==> forall k :: 0 <= k < |babies| ==> Lower(babies[k].name) != "louise"
    ensures found.Some? ==> exists k :: 0 <= k < |babies| && babies[k] == found.value
                                     && forall j :: 0 <= j < k ==> Lower(babies[j].name) != "louise"
  {
    if |babies| == 0 then None
    else if Lower(babies[0].name) == "louise" then Some(babies[0])
    else
      var rest := FindLouise(babies[1..]);
      if rest.Some? then
        var k :| 0 <= k < |babies| - 1 && babies[1..][k] == rest.value
                 && forall j :: 0 <= j < k ==> Lower(babies[1..][j].name) != "louise";
        assert babies[k + 1] == rest.value;
        assert forall j :: 0 <= j < k + 1 ==> Lower(babies[j].name) != "louise" by {
          forall j | 0 <= j < k + 1 ensures Lower(babies[j].name) != "louise" {
            if j > 0 { assert babies[j] == babies[1..][j - 1]; }
          }
        }
        rest
      else rest
  }

  /** {f["fed_at"][:19] for f in existing}: the times, to the second, of the
      baby's feedings. */
  function ExistingTimes(existing: seq<Feeding>): (times: set<Timestamp>)
    ensures forall k :: 0 <= k < |existing| ==> existing[k].fedAt in times
    ensures forall t :: t in times ==> exists k :: 0 <= k < |existing| && existing[k].fedAt == t
  {
    set f | f in existing :: f.fedAt
  }

  function IsKnown(times: set<Timestamp>): ImportFeeding -> bool
  {
    (e: ImportFeeding) => e.fedAt in times
  }

  function IsNewAndAccepted(times: set<Timestamp>, post: ImportFeeding -> int): ImportFeeding -> bool
  {
    (e: ImportFeeding) => e.fedAt !in times && Accepted(post(e))
  }

  /** The import loop of main: entries at a known time are skipped; the
      others are posted and counted as imported only on 200 or 201. The
      known times are those read before the loop, so two rows of the
      export at the same second are both posted. */
  method ImportEntries(entries: seq<ImportFeeding>, times: set<Timestamp>, post: ImportFeeding -> int)
    returns (imported: nat, skipped: nat)
    ensures skipped == Count(entries, IsKnown(times))
    ensures imported == Count(entries, IsNewAndAccepted(times, post))
    ensures imported + skipped <= |entries|
  {
    imported, skipped := 0, 0;
    var i := 0;
    while i < |entries|
      invariant 0 <= i <= |entries|
      invariant skipped == Count(entries[..i], IsKnown(times))
      invariant imported == Count(entries[..i], IsNewAndAccepted(times, post))
    {
      assert entries[..i + 1] == entries[..i] + [entries[i]];
      CountAppend(entries[..i], [entries[i]], IsKnown(times));
      CountAppend(entries[..i], [entries[i]], IsNewAndAccepted(times, post));
      if entries[i].fedAt in times {
        skipped := skipped + 1;
      } else {
        var status := post(entries[i]);
        if status == 200 || status == 201 {
          imported := imported + 1;
        }
      }
      i := i + 1;
    }
    assert entries[..i] == entries;
    CountDisjoint(entries, IsKnown(times), IsNewAndAccepted(times, post));
  }

  /** Nothing already recorded is posted again, and with no feeding on
      record nothing is skipped. */
  lemma SkipsExactlyKnownTimes(entries: seq<ImportFeeding>, existing: seq<Feeding>)
    ensures Count(entries, IsKnown(ExistingTimes(existing))) == 0
        <==> forall k, j :: 0 <= k < |entries| && 0 <= j < |existing| ==> entries[k].fedAt != existing[j].fedAt
  {
    var times := ExistingTimes(existing);
    CountZeroIff(entries, IsKnown(times));
  }
}
