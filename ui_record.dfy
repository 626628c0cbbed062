/** ui/views/record.py: the unified table of feedings and weights, newest
    first, its type filter, and the row the delete form targets. */
module Record {
  import opened Wrappers
  import opened Text
  import opened Clock
  import opened Sorting
  import opened Care

  /** `_kind`: which endpoint owns the record behind a row. */
  datatype Kind = FeedingKind | WeightKind

  /** One table row: the shown columns, then the hidden sort key, kind and
      record id. */
  datatype Row = Row(rowType: string, date: string, value: string, notes: string,
                     sortKey: Timestamp, kind: Kind, id: int)

  const BottleType := "🍼 Bottle"
  const BreastType := "🤱 Breast"
  const WeightType := "⚖️ Weight"
  const AllFilter := "All"

  /** `f.get("notes") or ""`. */
  function NotesText(notes: Option<string>): (text: string)
    ensures notes.None? ==> text == ""
    ensures notes.Some? ==> text == notes.value
  {
    match notes
    case None => ""
    case Some(n) => n
  }

  /** The label of a feeding type: "🍼 Bottle" when the type is "bottle". */
  function RowTypeLabel(t: FeedingType): (shown: string)
    ensures shown == BottleType <==> t == Bottle
    ensures shown == BreastType <==> t == Breastfeeding
  {
    assert BottleType[0] != BreastType[0];
    if TypeName(t) == "bottle" then BottleType else BreastType
  }

  /** The row of a feeding: its type label, its volume in ml, and the
      feeding it deletes. */
  function FeedingRow(f: Feeding): (r: Row)
    ensures r.rowType == BottleType <==> f.feedingType == Bottle
    ensures r.rowType == BreastType <==> f.feedingType == Breastfeeding
    ensures r.kind == FeedingKind && r.id == f.id && r.sortKey == f.fedAt
    ensures |r.value| >= 3 && ParseInt(r.value[..|r.value| - 3]) == Some(f.quantityMl)
  {
    NumberThenUnit(f.quantityMl, " ml");
    Row(RowTypeLabel(f.feedingType), FormatYMDHM(f.fedAt), IntToString(f.quantityMl) + " ml", NotesText(f.notes),
        f.fedAt, FeedingKind, f.id)
  }

  /** The row of a weight: the weight label, the grams, and the weight it
      deletes. */
  function WeightRow(w: Weight): (r: Row)
    ensures r.rowType == WeightType && r.kind == WeightKind && r.id == w.id && r.sortKey == w.measuredAt
    ensures |r.value| >= 2 && ParseInt(r.value[..|r.value| - 2]) == Some(w.weightG)
  {
    NumberThenUnit(w.weightG, " g");
    Row(WeightType, FormatYMDHM(w.measuredAt), IntToString(w.weightG) + " g", NotesText(w.notes),
        w.measuredAt, WeightKind, w.id)
  }

  function FeedingRows(fs: seq<Feeding>): (rows: seq<Row>)
    ensures |rows| == |fs|
  {
    MapSeq(fs, FeedingRow)
  }

  function WeightRows(ws: seq<Weight>): (rows: seq<Row>)
    ensures |rows| == |ws|
  {
    MapSeq(ws, WeightRow)
  }

  /** The rows in the order the two loops append them. */
  function UnsortedRows(fs: seq<Feeding>, ws: seq<Weight>): seq<Row>
  {
    FeedingRows(fs) + WeightRows(ws)
  }

  function SortKey(r: Row): int { r.sortKey }

  /** The two append loops, then rows.sort(key=_sort, reverse=True). */
  method BuildRows(fs: seq<Feeding>, ws: seq<Weight>) returns (rows: seq<Row>)
    ensures rows == SortDesc(UnsortedRows(fs, ws), SortKey)
    ensures SortedDesc(rows, SortKey)
    ensures multiset(rows) == multiset(UnsortedRows(fs, ws))
  {
    var feedingRows := AppendFeedingRows(fs);
    rows := AppendWeightRows(feedingRows, ws);
    rows := SortDesc(rows, SortKey);
  }

  /** The loop over the feedings. */
  method AppendFeedingRows(fs: seq<Feeding>) returns (rows: seq<Row>)
    ensures rows == FeedingRows(fs)
  {
    rows := [];
    var i := 0;
    while i < |fs|
      invariant 0 <= i <= |fs|
      invariant rows == FeedingRows(fs[..i])
    {
      FeedingRowsSnoc(fs, i);
      rows := rows + [FeedingRow(fs[i])];
      i := i + 1;
    }
    assert fs[..i] == fs;
  }

  /** The loop over the weights, appending after the rows already built. */
  method AppendWeightRows(prefix: seq<Row>, ws: seq<Weight>) returns (rows: seq<Row>)
    ensures rows == prefix + WeightRows(ws)
  {
    rows := prefix;
    var j := 0;
    while j < |ws|
      invariant 0 <= j <= |ws|
      invariant rows == prefix + WeightRows(ws[..j])
    {
      AppendWeightStep(prefix, ws, j, rows);
      rows := rows + [WeightRow(ws[j])];
      j := j + 1;
    }
    assert ws[..j] == ws;
  }

  lemma FeedingRowsSnoc(fs: seq<Feeding>, i: nat)
    requires i < |fs|
    ensures FeedingRows(fs[..i + 1]) == FeedingRows(fs[..i]) + [FeedingRow(fs[i])]
  {
    MapSeqSnoc(fs, FeedingRow, i);
  }

  lemma AppendWeightStep(prefix: seq<Row>, ws: seq<Weight>, j: nat, rows: seq<Row>)
    requires j < |ws| && rows == prefix + WeightRows(ws[..j])
    ensures rows + [WeightRow(ws[j])] == prefix + WeightRows(ws[..j + 1])
  {
    WeightRowsSnoc(ws, j);
    SnocAssoc(prefix, WeightRows(ws[..j]), WeightRow(ws[j]));
  }

  lemma SnocAssoc<T>(a: seq<T>, b: seq<T>, x: T)
    ensures (a + b) + [x] == a + (b + [x])
  {
  }

  lemma WeightRowsSnoc(ws: seq<Weight>, j: nat)
    requires j < |ws|
    ensures WeightRows(ws[..j + 1]) == WeightRows(ws[..j]) + [WeightRow(ws[j])]
  {
    MapSeqSnoc(ws, WeightRow, j);
  }

  predicate IsFeedingRow(r: Row) { r.kind == FeedingKind }
  predicate IsWeightRow(r: Row) { r.kind == WeightKind }

  lemma FeedingRowsCount(fs: seq<Feeding>)
    ensures Count(FeedingRows(fs), IsFeedingRow) == |fs|
    ensures Count(FeedingRows(fs), IsWeightRow) == 0
  {
    var rows := FeedingRows(fs);
    assert forall k :: 0 <= k < |rows| ==> rows[k] == FeedingRow(fs[k]);
    CountAll(rows, IsFeedingRow);
    CountZeroIff(rows, IsWeightRow);
  }

  lemma WeightRowsCount(ws: seq<Weight>)
    ensures Count(WeightRows(ws), IsWeightRow) == |ws|
    ensures Count(WeightRows(ws), IsFeedingRow) == 0
  {
    var rows := WeightRows(ws);
    assert forall k :: 0 <= k < |rows| ==> rows[k] == WeightRow(ws[k]);
    CountAll(rows, IsWeightRow);
    CountZeroIff(rows, IsFeedingRow);
  }

  /** The table has exactly one row per feeding and one per weight. */
  lemma OneRowPerRecord(fs: seq<Feeding>, ws: seq<Weight>)
    ensures var rows := SortDesc(UnsortedRows(fs, ws), SortKey);
      && |rows| == |fs| + |ws|
      && Count(rows, IsFeedingRow) == |fs|
      && Count(rows, IsWeightRow) == |ws|
  {
    var unsorted := UnsortedRows(fs, ws);
    FeedingRowsCount(fs);
    WeightRowsCount(ws);
    CountAppend(FeedingRows(fs), WeightRows(ws), IsFeedingRow);
    CountAppend(FeedingRows(fs), WeightRows(ws), IsWeightRow);
    CountPermutation(SortDesc(unsorted, SortKey), unsorted, IsFeedingRow);
    CountPermutation(SortDesc(unsorted, SortKey), unsorted, IsWeightRow);
  }

  // ---------------------------------------------------------------------------
  // Filter
  // ---------------------------------------------------------------------------

  function HasType(t: string): Row -> bool
  {
    (r: Row) => r.rowType == t
  }

  /** "All" leaves the rows as they are; another choice keeps the rows of
      that type, in order. */
  function ApplyFilter(rows: seq<Row>, selected: string): (shown: seq<Row>)
    ensures selected == AllFilter ==> shown == rows
    ensures forall k :: 0 <= k < |shown| ==> shown[k] in rows
    ensures selected != AllFilter ==>
      && |shown| == Count(rows, HasType(selected))
      && (forall k :: 0 <= k < |shown| ==> shown[k].rowType == selected)
      && (forall k :: 0 <= k < |rows| && rows[k].rowType == selected ==> rows[k] in shown)
    ensures SortedDesc(rows, SortKey) ==> SortedDesc(shown, SortKey)
  {
    if selected == AllFilter then rows
    else
      CountIsFilterLength(rows, HasType(selected));
      assert SortedDesc(rows, SortKey) ==> SortedDesc(Filter(rows, HasType(selected)), SortKey) by {
        if SortedDesc(rows, SortKey) {
          FilterSortedDesc(rows, HasType(selected), SortKey);
        }
      }
      Filter(rows, HasType(selected))
  }

  /** Every row carries one of the three type labels, so the three type
      filters split the table between them. */
  lemma {:induction false} TypeFiltersPartition(fs: seq<Feeding>, ws: seq<Weight>, rows: seq<Row>)
    requires multiset(rows) == multiset(UnsortedRows(fs, ws))
    ensures |ApplyFilter(rows, BottleType)| + |ApplyFilter(rows, BreastType)| + |ApplyFilter(rows, WeightType)|
         == |fs| + |ws|
  {
    RowTypesAreLabels(fs, ws, rows);
    ThreeWaySplit(rows);
    assert |rows| == |multiset(rows)| == |multiset(UnsortedRows(fs, ws))|;
  }

  predicate IsLabelled(r: Row)
  {
    r.rowType == BottleType || r.rowType == BreastType || r.rowType == WeightType
  }

  lemma RowTypesAreLabels(fs: seq<Feeding>, ws: seq<Weight>, rows: seq<Row>)
    requires multiset(rows) == multiset(UnsortedRows(fs, ws))
    ensures forall k :: 0 <= k < |rows| ==> IsLabelled(rows[k])
  {
    var unsorted := UnsortedRows(fs, ws);
    forall k | 0 <= k < |rows| ensures IsLabelled(rows[k]) {
      assert rows[k] in multiset(rows);
      assert rows[k] in unsorted;
      var i :| 0 <= i < |unsorted| && unsorted[i] == rows[k];
      UnsortedRowLabelled(fs, ws, i);
    }
  }

  lemma UnsortedRowLabelled(fs: seq<Feeding>, ws: seq<Weight>, i: nat)
    requires i < |fs| + |ws|
    ensures IsLabelled(UnsortedRows(fs, ws)[i])
  {
    if i < |fs| {
      assert UnsortedRows(fs, ws)[i] == FeedingRows(fs)[i] == FeedingRow(fs[i]);
    } else {
      assert UnsortedRows(fs, ws)[i] == WeightRows(ws)[i - |fs|] == WeightRow(ws[i - |fs|]);
    }
  }

  lemma {:induction false} ThreeWaySplit(rows: seq<Row>)
    requires forall k :: 0 <= k < |rows| ==> IsLabelled(rows[k])
    ensures Count(rows, HasType(BottleType)) + Count(rows, HasType(BreastType)) + Count(rows, HasType(WeightType))
         == |rows|
  {
    if |rows| > 0 {
      ThreeWaySplit(rows[1..]);
    }
  }

  /** The "{n} records" caption; without any row the page stops before the
      filter and shows neither caption nor table. */
  function RecordsCaption(rows: seq<Row>, selected: string): (caption: Option<string>)
    ensures caption.None? <==> |rows| == 0
    ensures caption.Some? ==> caption.value == IntToString(|ApplyFilter(rows, selected)|) + " records"
  {
    if |rows| == 0 then None else Some(IntToString(|ApplyFilter(rows, selected)|) + " records")
  }

  // ---------------------------------------------------------------------------
  // Delete
  // ---------------------------------------------------------------------------

  /** The request the delete button sends. */
  datatype DeleteCall = DeleteFeeding(feedingId: int) | DeleteWeight(weightId: int)

  /** rows[del_idx - 1], with the 1-based row number the form allows. */
  function DeleteTarget(rows: seq<Row>, idx: int): (call: DeleteCall)
    requires 1 <= idx <= |rows|
    ensures call.DeleteFeeding? <==> rows[idx - 1].kind == FeedingKind
    ensures call.DeleteFeeding? ==> call.feedingId == rows[idx - 1].id
    ensures call.DeleteWeight? ==> call.weightId == rows[idx - 1].id
  {
    var target := rows[idx - 1];
    if target.kind == FeedingKind then DeleteFeeding(target.id) else DeleteWeight(target.id)
  }

  /** Whatever the filter, the row number chosen deletes a record that the
      table was built from, through the endpoint of its own kind. */
  lemma DeleteHitsItsRecord(fs: seq<Feeding>, ws: seq<Weight>, selected: string, idx: int)
    requires 1 <= idx <= |ApplyFilter(SortDesc(UnsortedRows(fs, ws), SortKey), selected)|
    ensures match DeleteTarget(ApplyFilter(SortDesc(UnsortedRows(fs, ws), SortKey), selected), idx)
      case DeleteFeeding(id) => exists k :: 0 <= k < |fs| && fs[k].id == id
      case DeleteWeight(id) => exists k :: 0 <= k < |ws| && ws[k].id == id
  {
    var unsorted := UnsortedRows(fs, ws);
    var sorted := SortDesc(unsorted, SortKey);
    var shown := ApplyFilter(sorted, selected);
    var r := shown[idx - 1];
    assert r in sorted;
    assert r in multiset(sorted);
    RowOrigin(fs, ws, r);
  }

  /** A row of the table comes from a feeding or a weight of its kind. */
  lemma RowOrigin(fs: seq<Feeding>, ws: seq<Weight>, r: Row)
    requires r in multiset(UnsortedRows(fs, ws))
    ensures r.kind == FeedingKind ==> exists k :: 0 <= k < |fs| && fs[k].id == r.id
    ensures r.kind == WeightKind ==> exists k :: 0 <= k < |ws| && ws[k].id == r.id
  {
    var unsorted := UnsortedRows(fs, ws);
    assert r in unsorted;
    var i :| 0 <= i < |unsorted| && unsorted[i] == r;
    if i < |fs| {
      FeedingRowAt(fs, ws, i);
    } else {
      WeightRowAt(fs, ws, i - |fs|);
    }
  }

  lemma FeedingRowAt(fs: seq<Feeding>, ws: seq<Weight>, i: nat)
    requires i < |fs|
    ensures UnsortedRows(fs, ws)[i].kind == FeedingKind && UnsortedRows(fs, ws)[i].id == fs[i].id
  {
    assert UnsortedRows(fs, ws)[i] == FeedingRows(fs)[i] == FeedingRow(fs[i]);
  }

  lemma WeightRowAt(fs: seq<Feeding>, ws: seq<Weight>, j: nat)
    requires j < |ws|
    ensures UnsortedRows(fs, ws)[|fs| + j].kind == WeightKind && UnsortedRows(fs, ws)[|fs| + j].id == ws[j].id
  {
    assert UnsortedRows(fs, ws)[|fs| + j] == WeightRows(ws)[j] == WeightRow(ws[j]);
  }
}
