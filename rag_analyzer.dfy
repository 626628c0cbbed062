/** app/rag/analyzer.py: the feeding summary, the retrieval query, the prompt
    sent to the language model, and the analysis pipeline that ties them
    together.

    The language model is a parameter (`complete`: prompt to answer); the
    current date is a parameter (`today`). */
module Analyzer {
  import opened Wrappers
  import opened Text
  import opened Clock
  import opened Sorting
  import opened Care
  import opened Indexer
  import opened Retriever

  // ---------------------------------------------------------------------------
  // _summarize_feedings
  // ---------------------------------------------------------------------------

  /** The summary of an empty period. */
  const NoFeedingsSummary: string := "Aucun biberon enregistré sur cette période."

  /** What separates a detail line from its note. */
  const NoteMarker: string := " — note : "

  /** {f.feeding_type for f in feedings}. */
  function FeedingTypes(fs: seq<Feeding>): (types: set<FeedingType>)
    ensures forall k :: 0 <= k < |fs| ==> fs[k].feedingType in types
  {
    set k | 0 <= k < |fs| :: fs[k].feedingType
  }

  /** The label of a non-empty set of feeding types. Since a feeding type is
      one of two values, the ", ".join fallback of the lookup is never used. */
  function TypeLabel(types: set<FeedingType>): string
    requires types != {}
  {
    if types == {Bottle} then "biberon uniquement"
    else if types == {Breastfeeding} then "allaitement uniquement"
    else "mixte (biberon + allaitement)"
  }

  /** Whether a feeding has a note to show: `if f.notes` is false for None
      and for the empty string. */
  predicate HasNote(f: Feeding)
  {
    f.notes.Some? && |f.notes.value| > 0
  }

  /** One line of the chronological detail. */
  function DetailLine(f: Feeding): string
  {
    DetailHead(f) + (if HasNote(f) then NoteMarker + f.notes.value else "")
  }

  function DetailLines(fs: seq<Feeding>): (r: seq<string>)
    ensures |r| == |fs|
  {
    seq(|fs|, k requires 0 <= k < |fs| => DetailLine(fs[k]))
  }

  /** The figures the summary reports, in order: number of feedings, total
      volume, feeding type label. */
  function SummaryFields(fs: seq<Feeding>): seq<string>
    requires |fs| > 0
  {
    [IntToString(|fs|), IntToString(TotalMl(fs)), TypeLabel(FeedingTypes(fs))]
  }

  /** _summarize_feedings. */
  function Summarize(fs: seq<Feeding>): string
  {
    if |fs| == 0 then NoFeedingsSummary
    else
      Interleave(["Nombre de prises : ", "\nVolume total : ", " ml\nType d'alimentation : ", "\nDétail chronologique :\n"],
                 SummaryFields(fs))
      + Join(DetailLines(SortAsc(fs, FedAt)), "\n")
  }

  /** The label names the mix of feeding types: bottle only, breastfeeding
      only, or both. */
  lemma TypeLabelMeaning(fs: seq<Feeding>)
    requires |fs| > 0
    ensures FeedingTypes(fs) != {}
    ensures TypeLabel(FeedingTypes(fs)) == "biberon uniquement"
        <==> forall k :: 0 <= k < |fs| ==> fs[k].feedingType == Bottle
    ensures TypeLabel(FeedingTypes(fs)) == "allaitement uniquement"
        <==> forall k :: 0 <= k < |fs| ==> fs[k].feedingType == Breastfeeding
    ensures TypeLabel(FeedingTypes(fs)) == "mixte (biberon + allaitement)"
        <==> ((exists k :: 0 <= k < |fs| && fs[k].feedingType == Bottle)
              && (exists k :: 0 <= k < |fs| && fs[k].feedingType == Breastfeeding))
  {
    var types := FeedingTypes(fs);
    assert fs[0].feedingType in types;
    if forall k :: 0 <= k < |fs| ==> fs[k].feedingType == Bottle {
      assert types == {Bottle};
    } else if forall k :: 0 <= k < |fs| ==> fs[k].feedingType == Breastfeeding {
      assert types == {Breastfeeding};
    } else {
      var b :| 0 <= b < |fs| && fs[b].feedingType != Bottle;
      var m :| 0 <= m < |fs| && fs[m].feedingType != Breastfeeding;
      assert Bottle in types && Breastfeeding in types;
      assert types == {Bottle, Breastfeeding};
    }
  }

  /** The placeholder summary is given exactly for an empty period. */
  lemma SummaryEmptyIff(fs: seq<Feeding>)
    ensures Summarize(fs) == NoFeedingsSummary <==> |fs| == 0
  {
    if |fs| > 0 {
      assert Summarize(fs)[0] == 'N';
      assert NoFeedingsSummary[0] == 'A';
    }
  }

  /** The summary reports the count, the total volume and the type label in
      that order, then one line per feeding in chronological order. */
  lemma SummaryReports(fs: seq<Feeding>)
    requires |fs| > 0
    ensures InOrder(Summarize(fs), SummaryFields(fs))
    ensures InOrder(Summarize(fs), DetailLines(SortAsc(fs, FedAt)))
    ensures SortedAsc(SortAsc(fs, FedAt), FedAt) && multiset(SortAsc(fs, FedAt)) == multiset(fs)
  {
    var gaps := ["Nombre de prises : ", "\nVolume total : ", " ml\nType d'alimentation : ", "\nDétail chronologique :\n"];
    var head := Interleave(gaps, SummaryFields(fs));
    var detail := Join(DetailLines(SortAsc(fs, FedAt)), "\n");
    InterleaveInOrder(gaps, SummaryFields(fs));
    InOrderAppend(head, detail, SummaryFields(fs));
    JoinInOrder(DetailLines(SortAsc(fs, FedAt)), "\n");
    InOrderPrepend(head, detail, DetailLines(SortAsc(fs, FedAt)));
  }

  /** When no two feedings share a time, the summary does not depend on the
      order the feedings were given in. */
  lemma SummaryIgnoresInputOrder(fs: seq<Feeding>, gs: seq<Feeding>)
    requires multiset(fs) == multiset(gs)
    requires KeyInjective(multiset(fs), FedAt)
    ensures Summarize(fs) == Summarize(gs)
  {
    assert |fs| == |multiset(fs)| == |gs|;
    if |fs| > 0 {
      SortAscIgnoresInputOrder(fs, gs, FedAt);
      TotalMlOfSorted(fs);
      TotalMlOfSorted(gs);
      SameTypes(fs, gs);
    }
  }

  lemma SameTypes(fs: seq<Feeding>, gs: seq<Feeding>)
    requires multiset(fs) == multiset(gs)
    ensures FeedingTypes(fs) == FeedingTypes(gs)
  {
    forall t | t in FeedingTypes(fs) ensures t in FeedingTypes(gs) {
      var k :| 0 <= k < |fs| && fs[k].feedingType == t;
      assert fs[k] in multiset(gs);
      var j :| 0 <= j < |gs| && gs[j] == fs[k];
    }
    forall t | t in FeedingTypes(gs) ensures t in FeedingTypes(fs) {
      var k :| 0 <= k < |gs| && gs[k].feedingType == t;
      assert gs[k] in multiset(fs);
      var j :| 0 <= j < |fs| && fs[j] == gs[k];
    }
  }

  /** A detail line shows the note marker exactly when the feeding has a
      non-empty note. */
  lemma NoteShownIff(f: Feeding)
    ensures Contains(DetailLine(f), NoteMarker) <==> HasNote(f)
  {
    if HasNote(f) {
      NoteMarkerShown(f);
    } else {
      NoteMarkerHidden(f);
    }
  }

  /** The part of a detail line before its note. */
  function DetailHead(f: Feeding): string
  {
    "- " + FormatHM(f.fedAt) + " : " + IntToString(f.quantityMl) + " ml (" + TypeName(f.feedingType) + ")"
  }

  lemma NoteMarkerShown(f: Feeding)
    requires HasNote(f)
    ensures Contains(DetailLine(f), NoteMarker)
  {
    var line := DetailLine(f);
    var head := DetailHead(f);
    assert line == head + NoteMarker + f.notes.value;
    assert line[|head|..|head| + |NoteMarker|] == NoteMarker;
    assert OccursAt(line, NoteMarker, |head|);
    ContainsIff(line, NoteMarker);
  }

  lemma NoteMarkerHidden(f: Feeding)
    requires !HasNote(f)
    ensures !Contains(DetailLine(f), NoteMarker)
  {
    var c := NoteMarker[1];
    assert c == '—';
    var secs := f.fedAt % SecondsPerDay;
    Pad2Avoids(secs / 3600, c);
    Pad2Avoids(secs % 3600 / 60, c);
    AvoidsConcat(Pad2(secs / 3600), ":", c);
    AvoidsConcat(Pad2(secs / 3600) + ":", Pad2(secs % 3600 / 60), c);
    var hm := FormatHM(f.fedAt);
    IntToStringAvoids(f.quantityMl, c);
    AvoidsConcat("- ", hm, c);
    AvoidsConcat("- " + hm, " : ", c);
    AvoidsConcat("- " + hm + " : ", IntToString(f.quantityMl), c);
    AvoidsConcat("- " + hm + " : " + IntToString(f.quantityMl), " ml (", c);
    AvoidsConcat("- " + hm + " : " + IntToString(f.quantityMl) + " ml (", TypeName(f.feedingType), c);
    AvoidsConcat("- " + hm + " : " + IntToString(f.quantityMl) + " ml (" + TypeName(f.feedingType), ")", c);
    assert DetailLine(f) == DetailHead(f);
    AbsentCharBlocksOccurrence(DetailLine(f), NoteMarker, 1, c);
  }

  // ---------------------------------------------------------------------------
  // _build_prompt
  // ---------------------------------------------------------------------------

  /** The age shown in the prompt: days under two weeks, whole weeks under
      eight weeks, whole months (of 30 days) beyond. */
  function AgeString(ageDays: int): string
  {
    if ageDays < 14 then IntToString(ageDays) + " jours"
    else if ageDays / 7 < 8 then IntToString(ageDays / 7) + " semaines"
    else IntToString(ageDays / 30) + " mois"
  }

  /** The unit switches at 14 and 56 days, so the prompt shows 2 to 7 weeks
      and at least one month, and the number before the unit reads back as
      the age in days, weeks or months. */
  lemma AgeStringRanges(ageDays: int)
    ensures ageDays < 14 ==> AgeString(ageDays) == IntToString(ageDays) + " jours"
    ensures 14 <= ageDays < 56 ==> 2 <= ageDays / 7 <= 7 && AgeString(ageDays) == IntToString(ageDays / 7) + " semaines"
    ensures 56 <= ageDays ==> 1 <= ageDays / 30 && AgeString(ageDays) == IntToString(ageDays / 30) + " mois"
    ensures ageDays < 14 ==> ParseInt(AgeString(ageDays)[..|AgeString(ageDays)| - 6]) == Some(ageDays)
    ensures 14 <= ageDays < 56 ==> ParseInt(AgeString(ageDays)[..|AgeString(ageDays)| - 9]) == Some(ageDays / 7)
    ensures 56 <= ageDays ==> ParseInt(AgeString(ageDays)[..|AgeString(ageDays)| - 5]) == Some(ageDays / 30)
  {
    var n := if ageDays < 14 then ageDays else if ageDays < 56 then ageDays / 7 else ageDays / 30;
    var unit := if ageDays < 14 then " jours" else if ageDays < 56 then " semaines" else " mois";
    assert AgeString(ageDays) == IntToString(n) + unit;
    assert (IntToString(n) + unit)[..|IntToString(n) + unit| - |unit|] == IntToString(n);
    IntToStringRoundTrip(n);
  }

  /** The section headings the model is asked to answer with. */
  const Sections: seq<string> := ["### ✅ Points positifs", "### ⚠️ Points d'attention", "### 💡 Recommandations", "### 📊 Synthèse"]

  /** What the prompt shows, in order: the retrieved context, the baby's
      name, age and birth weight, the period label, the feeding summary,
      then the four requested sections. */
  function PromptFields(baby: Baby, today: Day, fs: seq<Feeding>, periodLabel: string, ragContext: string): seq<string>
  {
    [ragContext, baby.name, AgeString(today - baby.birthDate), IntToString(baby.birthWeightGrams),
     periodLabel, Summarize(fs)] + Sections
  }

  /** The number of pieces of fixed text around the prompt's ten fields. */
  const PromptGapCount := 11

  /** The i-th piece of fixed text. */
  function PromptGap(i: nat): string
    requires i < PromptGapCount
  {
    if i == 0 then "Tu es un assistant pédiatrique expert en nutrition nourrisson.\nAnalyse les données d'alimentation du bébé et fournis des recommandations bienveillantes, précises et actionnables.\nAppuie-toi sur le contexte médical OMS/SFP fourni ci-dessous.\n\n## Contexte médical de référence (OMS / SFP)\n"
    else if i == 1 then "\n\n## Profil du bébé\n- Nom : "
    else if i == 2 then "\n- Âge : "
    else if i == 3 then "\n- Poids de naissance : "
    else if i == 4 then " g\n\n## Données d'alimentation — "
    else if i == 5 then "\n"
    else if i == 6 then "\n\n## Analyse demandée\nRéponds en français, de façon structurée, avec les sections suivantes :\n\n"
    else if i == 7 then "\nCite ce qui est bien (volumes, fréquence, régularité).\n\n"
    else if i == 8 then "\nSignale les écarts par rapport aux recommandations OMS/SFP pour cet âge (volumes trop faibles/élevés, intervalles trop longs/courts, etc.).\n\n"
    else if i == 9 then "\nDonne 2–3 actions concrètes et adaptées à l'âge du bébé.\n\n"
    else "\nUne phrase de synthèse sur l'alimentation de la période analysée.\n\nSois rassurant si les données sont normales. Recommande de consulter un pédiatre uniquement si une anomalie significative est détectée.\n"
  }

  /** The fixed text around the prompt's fields, in order. */
  function PromptGaps(): seq<string>
  {
    seq(PromptGapCount, i requires 0 <= i < PromptGapCount => PromptGap(i))
  }

  /** _build_prompt. */
  function BuildPrompt(baby: Baby, today: Day, fs: seq<Feeding>, periodLabel: string, ragContext: string): string
  {
    Interleave(PromptGaps(), PromptFields(baby, today, fs, periodLabel, ragContext))
  }

  /** The prompt shows its fields in order. */
  lemma PromptInOrder(baby: Baby, today: Day, fs: seq<Feeding>, periodLabel: string, ragContext: string)
    ensures InOrder(BuildPrompt(baby, today, fs, periodLabel, ragContext), PromptFields(baby, today, fs, periodLabel, ragContext))
  {
    InterleaveInOrder(PromptGaps(), PromptFields(baby, today, fs, periodLabel, ragContext));
  }

  // ---------------------------------------------------------------------------
  // analyze_feedings
  // ---------------------------------------------------------------------------

  /** The default period label. */
  const DefaultPeriodLabel: string := "la période"

  /** The number of passages retrieved for an analysis. */
  const AnalysisTopK: nat := 4

  /** The context used when retrieval raised. */
  const RagFallback: string := "Contexte médical non disponible " + "(index absent ou erreur)."

  /** The feeding mode the query asks about. */
  function QueryMode(types: set<FeedingType>): string
  {
    if Bottle in types then "biberon lait artificiel" else "allaitement maternel"
  }

  /** The retrieval query: the age in whole months and the feeding mode. */
  function BuildQuery(ageDays: int, types: set<FeedingType>): string
  {
    "recommandations volume biberon fréquence alimentation nourrisson " + IntToString(ageDays / 30) + " mois "
    + QueryMode(types)
  }

  /** The query asks about formula exactly when some feeding was a bottle,
      and about breastfeeding otherwise. */
  lemma QueryModeIff(ageDays: int, fs: seq<Feeding>)
    ensures EndsWith(BuildQuery(ageDays, FeedingTypes(fs)), "biberon lait artificiel")
        <==> exists k :: 0 <= k < |fs| && fs[k].feedingType == Bottle
    ensures EndsWith(BuildQuery(ageDays, FeedingTypes(fs)), "allaitement maternel")
        <==> forall k :: 0 <= k < |fs| ==> fs[k].feedingType != Bottle
  {
    var types := FeedingTypes(fs);
    var q := BuildQuery(ageDays, types);
    var head := "recommandations volume biberon fréquence alimentation nourrisson " + IntToString(ageDays / 30) + " mois ";
    assert q == head + QueryMode(types);
    if Bottle in types {
      var k :| 0 <= k < |fs| && fs[k].feedingType == Bottle;
      assert q[|q| - 20] == 'e';
      assert "allaitement maternel"[0] == 'a';
    } else {
      assert q[|q| - 23] == 'i';
      assert "biberon lait artificiel"[0] == 'b';
    }
  }

  /** The index directory a retrieval falls back on: the one given, else the
      default. A supplied index takes precedence over both. */
  function RetrievalDir(indexDir: Option<Path>): Path
  {
    if indexDir.Some? then indexDir.value else IndexDir
  }

  /** The retrieval query of an analysis. */
  function AnalysisQuery(baby: Baby, fs: seq<Feeding>, today: Day): string
  {
    BuildQuery(today - baby.birthDate, FeedingTypes(fs))
  }

  /** The context put in the prompt: the formatted passages, or the fallback
      when retrieval raised. */
  function RagContext(retrieved: Result<seq<Passage>, IndexError>): string
  {
    match retrieved
    case Ok(nodes) => ContextText(nodes)
    case Err(_) => RagFallback
  }

  /** The prompt analyze_feedings sends, given what retrieval gave. */
  function AnalysisPrompt(baby: Baby, today: Day, fs: seq<Feeding>, periodLabel: string,
                          retrieved: Result<seq<Passage>, IndexError>): string
  {
    BuildPrompt(baby, today, fs, periodLabel, RagContext(retrieved))
  }

  /** Steps 1 and 2 of analyze_feedings: retrieval, with any failure
      turned into the fallback notice. */
  method RetrieveRagContext(store: IndexStore, query: string, index: Option<Index>, indexDir: Option<Path>, rank: Ranker)
    returns (ragContext: string)
    modifies store`dirs, store`docstores, store`embedModelLoads
    ensures ragContext == RagContext(RetrieveResult(old(store.docstores), store.files, index, RetrievalDir(indexDir),
                                                    query, AnalysisTopK, rank))
    ensures store.docstores == StoresAfterRetrieve(old(store.docstores), store.files, index, RetrievalDir(indexDir))
    ensures index.Some? ==> store.dirs == old(store.dirs) && store.embedModelLoads == old(store.embedModelLoads)
    ensures index.None? ==> store.embedModelLoads == old(store.embedModelLoads) + 1
    ensures index.None? && RetrievalDir(indexDir) in old(store.docstores) ==> store.dirs == old(store.dirs)
    ensures index.None? && RetrievalDir(indexDir) !in old(store.docstores) ==> store.dirs == old(store.dirs) + {RetrievalDir(indexDir)}
  {
    var nodes := RetrieveContext(store, query, AnalysisTopK, index, RetrievalDir(indexDir), rank);
    if nodes.Ok? {
      ragContext := FormatContext(nodes.value);
    } else {
      ragContext := RagFallback;
    }
  }

  /** analyze_feedings: retrieves guideline passages for the baby's age and
      feeding mode (falling back to a fixed notice when retrieval fails),
      builds the prompt and returns the model's answer. */
  method AnalyzeFeedings(store: IndexStore, baby: Baby, fs: seq<Feeding>, periodLabel: string,
                         index: Option<Index>, indexDir: Option<Path>, today: Day,
                         rank: Ranker, complete: string -> string)
    returns (analysis: string)
    modifies store`dirs, store`docstores, store`embedModelLoads
    ensures analysis == complete(AnalysisPrompt(baby, today, fs, periodLabel,
                                                RetrieveResult(old(store.docstores), store.files, index, RetrievalDir(indexDir),
                                                               AnalysisQuery(baby, fs, today), AnalysisTopK, rank)))
    ensures store.docstores == StoresAfterRetrieve(old(store.docstores), store.files, index, RetrievalDir(indexDir))
    ensures index.Some? ==> store.dirs == old(store.dirs) && store.embedModelLoads == old(store.embedModelLoads)
    ensures index.None? ==> store.embedModelLoads == old(store.embedModelLoads) + 1
    ensures index.None? && RetrievalDir(indexDir) in old(store.docstores) ==> store.dirs == old(store.dirs)
    ensures index.None? && RetrievalDir(indexDir) !in old(store.docstores) ==> store.dirs == old(store.dirs) + {RetrievalDir(indexDir)}
  {
    var query := BuildQuery(today - baby.birthDate, FeedingTypes(fs));
    assert query == AnalysisQuery(baby, fs, today);
    ghost var retrieved := RetrieveResult(store.docstores, store.files, index, RetrievalDir(indexDir),
                                          query, AnalysisTopK, rank);
    var ragContext := RetrieveRagContext(store, query, index, indexDir, rank);
    assert ragContext == RagContext(retrieved);
    var prompt := BuildPrompt(baby, today, fs, periodLabel, ragContext);
    assert prompt == AnalysisPrompt(baby, today, fs, periodLabel, retrieved);
    analysis := complete(prompt);
  }

  /** The prompt carries the fallback notice exactly when retrieval failed. */
  lemma RagFallbackIff(retrieved: Result<seq<Passage>, IndexError>)
    ensures RagContext(retrieved) == RagFallback <==> retrieved.Err?
  {
    if retrieved.Ok? {
      var nodes := retrieved.value;
      var text := ContextText(nodes);
      assert RagFallback[0] == 'C';
      if |nodes| == 0 {
        assert text[0] == 'A';
      } else {
        JoinStartsWithFirst(Blocks(nodes), "\n\n");
        assert text[0] == Blocks(nodes)[0][0] == '-';
      }
    }
  }

  /** Every passage the retrieval returned is named, by its source, in the
      prompt. */
  lemma PromptNamesRetrievedSources(baby: Baby, today: Day, fs: seq<Feeding>, periodLabel: string,
                                    retrieved: Result<seq<Passage>, IndexError>, k: nat)
    requires retrieved.Ok? && k < |retrieved.value|
    ensures Contains(AnalysisPrompt(baby, today, fs, periodLabel, retrieved), SourceLabel(retrieved.value[k]))
  {
    ContextNamesEverySource(retrieved.value, k);
    PromptShowsContext(baby, today, fs, periodLabel, ContextText(retrieved.value), SourceLabel(retrieved.value[k]));
  }

  /** Whatever the context contains, the prompt contains. */
  lemma PromptShowsContext(baby: Baby, today: Day, fs: seq<Feeding>, periodLabel: string, ctx: string, t: string)
    requires Contains(ctx, t)
    ensures Contains(BuildPrompt(baby, today, fs, periodLabel, ctx), t)
  {
    var prompt := BuildPrompt(baby, today, fs, periodLabel, ctx);
    PromptInOrder(baby, today, fs, periodLabel, ctx);
    InOrderOccurs(prompt, PromptFields(baby, today, fs, periodLabel, ctx), 0);
    var i :| OccursAt(prompt, ctx, i);
    ContainsIff(ctx, t);
    var j :| OccursAt(ctx, t, j);
    OccursTrans(prompt, ctx, t, i, j);
    ContainsIff(prompt, t);
  }
}
