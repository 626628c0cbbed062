/** What the two CSV import scripts share: a csv.DictReader row, the
    stripped field lookup, the feeding they post, and the loop that posts
    entries and counts the accepted ones. */
module CsvImport {
  import opened Wrappers
  import opened Text
  import opened Clock
  import opened Sorting
  import opened Care

  /** A csv.DictReader row: column name to cell text. */
  type CsvRow = map<string, string>

  const TimestampColumn := "Horodateur"
  const MlColumn := "Repas (ml)"
  const UrinesColumn := "Urines"
  const SellesColumn := "Selles"
  const Yes := "Oui"
  const No := "Non"

  /** row.get(column, "").strip(). */
  function Field(row: CsvRow, column: string): (cell: string)
    ensures column !in row ==> cell == ""
    ensures |cell| > 0 ==> !IsSpace(cell[0]) && !IsSpace(cell[|cell| - 1])
  {
    Strip(if column in row then row[column] else "")
  }

  /** The feeding payload a script posts, without the baby id. */
  datatype ImportFeeding = ImportFeeding(fedAt: Timestamp, quantityMl: int, feedingType: FeedingType,
                                         notes: Option<string>)

  /** A response status the scripts count as a success. */
  predicate Accepted(status: int)
  {
    status == 200 || status == 201
  }

  function AcceptedBy<T>(post: T -> int): T -> bool
  {
    (e: T) => Accepted(post(e))
  }

  /** Posts each entry in turn (post gives the response status) and counts
      the successes and the failures. */
  method PostAll<T>(entries: seq<T>, post: T -> int) returns (ok: nat, failed: nat)
    ensures ok == Count(entries, AcceptedBy(post))
    ensures ok + failed == |entries|
  {
    ok, failed := 0, 0;
    var i := 0;
    while i < |entries|
      invariant 0 <= i <= |entries|
      invariant ok == Count(entries[..i], AcceptedBy(post))
      invariant ok + failed == i
    {
      assert entries[..i + 1] == entries[..i] + [entries[i]];
      CountAppend(entries[..i], [entries[i]], AcceptedBy(post));
      if post(entries[i]) == 200 || post(entries[i]) == 201 {
        ok := ok + 1;
      } else {
        failed := failed + 1;
      }
      i := i + 1;
    }
    assert entries[..i] == entries;
  }

  /** The keys of the kept items: the set a loop builds with
      seen.add(key(x)) for every x it keeps. */
  function KeysOf<T>(xs: seq<T>, key: T -> string, keep: T -> bool): set<string>
  {
    if |xs| == 0 then {}
    else
      var last := xs[|xs| - 1];
      KeysOf(xs[..|xs| - 1], key, keep) + (if keep(last) then {key(last)} else {})
  }

  /** A key is in the set exactly when some kept item has it. */
  lemma {:induction false} KeysOfMembers<T>(xs: seq<T>, key: T -> string, keep: T -> bool, x: string)
    ensures x in KeysOf(xs, key, keep) <==> exists k :: 0 <= k < |xs| && keep(xs[k]) && key(xs[k]) == x
  {
    if |xs| > 0 {
      var p := xs[..|xs| - 1];
      KeysOfMembers(p, key, keep, x);
      assert forall k :: 0 <= k < |p| ==> p[k] == xs[k];
      if x in KeysOf(xs, key, keep) && x !in KeysOf(p, key, keep) {
        assert keep(xs[|xs| - 1]) && key(xs[|xs| - 1]) == x;
      }
    }
  }

  /** The same, for the items before position i. */
  lemma KeysOfPrefix<T>(xs: seq<T>, i: nat, key: T -> string, keep: T -> bool, x: string)
    requires i <= |xs|
    ensures x in KeysOf(xs[..i], key, keep) <==> exists k :: 0 <= k < i && keep(xs[k]) && key(xs[k]) == x
  {
    var p := xs[..i];
    KeysOfMembers(p, key, keep, x);
    assert forall k :: 0 <= k < i ==> p[k] == xs[k];
  }
}
