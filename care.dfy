/** The care events and the baby profile as the API returns them
    (app/models/feeding.py, baby.py, weight.py, diaper.py), with the field
    constraints their validators enforce stated as predicates. */
module Care {
  import opened Wrappers
  import opened Clock
  import opened Sorting

  /** The closed set Literal["bottle", "breastfeeding"]. */
  datatype FeedingType = Bottle | Breastfeeding

  /** The wire name of a feeding type. */
  function TypeName(t: FeedingType): string
  {
    match t
    case Bottle => "bottle"
    case Breastfeeding => "breastfeeding"
  }

  datatype Feeding = Feeding(
    id: int,
    babyId: int,
    fedAt: Timestamp,
    quantityMl: int,
    feedingType: FeedingType,
    notes: Option<string>)

  /** quantity_ml > 0 and notes of at most 500 characters. */
  predicate ValidFeeding(f: Feeding)
  {
    f.quantityMl > 0 && (f.notes.Some? ==> |f.notes.value| <= 500)
  }

  datatype Weight = Weight(id: int, babyId: int, measuredAt: Timestamp, weightG: int, notes: Option<string>)

  datatype Diaper = Diaper(id: int, babyId: int, changedAt: Timestamp, hasPee: bool, hasPoop: bool, notes: Option<string>)

  datatype Baby = Baby(id: int, name: string, birthDate: Day, birthWeightGrams: int, createdAt: Timestamp)

  /** The sort key of a feeding. */
  function FedAt(f: Feeding): int { f.fedAt }

  /** sum(f.quantity_ml for f in fs). */
  function TotalMl(fs: seq<Feeding>): int
  {
    if |fs| == 0 then 0 else fs[0].quantityMl + TotalMl(fs[1..])
  }

  lemma {:induction false} TotalMlAppend(fs: seq<Feeding>, gs: seq<Feeding>)
    ensures TotalMl(fs + gs) == TotalMl(fs) + TotalMl(gs)
  {
    if |fs| > 0 {
      assert (fs + gs)[1..] == fs[1..] + gs;
      TotalMlAppend(fs[1..], gs);
    } else {
      assert fs + gs == gs;
    }
  }

  lemma TotalMlInsert(x: Feeding, fs: seq<Feeding>)
    requires SortedAsc(fs, FedAt)
    ensures TotalMl(InsertAsc(x, fs, FedAt)) == x.quantityMl + TotalMl(fs)
  {
    if |fs| > 0 && FedAt(x) > FedAt(fs[0]) {
      TotalMlInsert(x, fs[1..]);
    }
  }

  /** The total volume does not depend on the order of the feedings. */
  lemma {:induction false} TotalMlOfSorted(fs: seq<Feeding>)
    ensures TotalMl(SortAsc(fs, FedAt)) == TotalMl(fs)
  {
    if |fs| > 0 {
      TotalMlOfSorted(fs[1..]);
      TotalMlInsert(fs[0], SortAsc(fs[1..], FedAt));
    }
  }

  /** The total of valid feedings is positive exactly when there is one. */
  lemma {:induction false} TotalMlPositive(fs: seq<Feeding>)
    requires forall k :: 0 <= k < |fs| ==> ValidFeeding(fs[k])
    ensures TotalMl(fs) >= |fs|
  {
    if |fs| > 0 { TotalMlPositive(fs[1..]); }
  }
}
