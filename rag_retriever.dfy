/** app/rag/retriever.py: semantic search over the guideline index and the
    layout of the retrieved passages as a context block for the model.

    The similarity search itself is a parameter: a ranking of an index's
    passages for a query, best first, which may fail. */
module Retriever {
  import opened Wrappers
  import opened Text
  import opened Indexer

  /** DEFAULT_TOP_K. */
  const DefaultTopK: nat := 4

  /** A retrieved passage: its text, the `file_name` of its metadata when
      present, and its similarity score in thousandths, rounded the way
      "%.3f" rounds, when the search gave one. */
  datatype Passage = Passage(text: string, fileName: Option<string>, score: Option<int>)

  /** The similarity search of the vector library: the passages of an index
      ranked for a query, best first. */
  type Ranker = (Index, string) -> Result<seq<Passage>, IndexError>

  // ---------------------------------------------------------------------------
  // retrieve_context
  // ---------------------------------------------------------------------------

  /** The index a retrieval searches: the one supplied, else the persisted
      one, else a fresh build from the default documents directory (the
      build may fail, as build_index raises). */
  function ResolveIndex(stores: map<Path, Index>, files: seq<FileEntry>, index: Option<Index>, indexDir: Path)
    : Result<Index, IndexError>
  {
    if index.Some? then Ok(index.value)
    else if indexDir in stores then Ok(stores[indexDir])
    else BuildResult(stores, files, DocsDir, indexDir, false)
  }

  /** The persisted docstores after a retrieval: only the fallback build
      writes anything. */
  function StoresAfterRetrieve(stores: map<Path, Index>, files: seq<FileEntry>, index: Option<Index>, indexDir: Path)
    : map<Path, Index>
  {
    if index.Some? || indexDir in stores then stores
    else StoresAfterBuild(stores, files, DocsDir, indexDir, false)
  }

  /** What retrieve_context returns or raises: at most topK passages, the
      best-ranked ones, in ranking order. */
  function RetrieveResult(stores: map<Path, Index>, files: seq<FileEntry>, index: Option<Index>, indexDir: Path,
                          query: string, topK: nat, rank: Ranker): (r: Result<seq<Passage>, IndexError>)
    ensures r.Ok? ==> |r.value| <= topK
    ensures r.Ok? ==> exists idx :: ResolveIndex(stores, files, index, indexDir) == Ok(idx)
                                 && rank(idx, query).Ok? && |r.value| <= |rank(idx, query).value|
                                 && r.value == rank(idx, query).value[..|r.value|]
  {
    match ResolveIndex(stores, files, index, indexDir)
    case Err(e) => Err(e)
    case Ok(idx) =>
      match rank(idx, query)
      case Err(e) => Err(e)
      case Ok(ranked) => Ok(Take(ranked, topK))
  }

  /** retrieve_context: searches the supplied index; without one, loads the
      persisted index and builds one only when loading finds none. */
  method RetrieveContext(store: IndexStore, query: string, topK: nat, index: Option<Index>, indexDir: Path, rank: Ranker)
    returns (r: Result<seq<Passage>, IndexError>)
    modifies store`dirs, store`docstores, store`embedModelLoads
    ensures r == RetrieveResult(old(store.docstores), store.files, index, indexDir, query, topK, rank)
    ensures store.docstores == StoresAfterRetrieve(old(store.docstores), store.files, index, indexDir)
    ensures index.Some? ==> store.dirs == old(store.dirs) && store.embedModelLoads == old(store.embedModelLoads)
    ensures index.None? ==> store.embedModelLoads == old(store.embedModelLoads) + 1
    ensures index.None? && indexDir in old(store.docstores) ==> store.dirs == old(store.dirs)
    ensures index.None? && indexDir !in old(store.docstores) ==> store.dirs == old(store.dirs) + {indexDir}
  {
    var idx: Index;
    if index.Some? {
      idx := index.value;
    } else {
      var loaded := store.LoadIndex(indexDir);
      if loaded.Ok? {
        idx := loaded.value;
      } else {
        var built := store.BuildIndex(DocsDir, indexDir, false);
        if built.Err? {
          return Err(built.error);
        }
        idx := built.value;
      }
    }
    var ranked := rank(idx, query);
    if ranked.Err? {
      return Err(ranked.error);
    }
    r := Ok(Take(ranked.value, topK));
  }

  /** A supplied index makes the retrieval independent of what is on disk. */
  lemma SuppliedIndexIgnoresDisk(s1: map<Path, Index>, f1: seq<FileEntry>, d1: Path,
                                 s2: map<Path, Index>, f2: seq<FileEntry>, d2: Path,
                                 idx: Index, query: string, topK: nat, rank: Ranker)
    ensures RetrieveResult(s1, f1, Some(idx), d1, query, topK, rank) == RetrieveResult(s2, f2, Some(idx), d2, query, topK, rank)
    ensures StoresAfterRetrieve(s1, f1, Some(idx), d1) == s1
  {
  }

  /** Once a retrieval has found or built its index, the next one without a
      supplied index searches the same index and writes nothing. */
  lemma RetrievalIsStable(stores: map<Path, Index>, files: seq<FileEntry>, indexDir: Path)
    requires ResolveIndex(stores, files, None, indexDir).Ok?
    ensures var after := StoresAfterRetrieve(stores, files, None, indexDir);
      && indexDir in after
      && ResolveIndex(after, files, None, indexDir) == ResolveIndex(stores, files, None, indexDir)
      && StoresAfterRetrieve(after, files, None, indexDir) == after
  {
  }

  // ---------------------------------------------------------------------------
  // format_context
  // ---------------------------------------------------------------------------

  /** The text returned when nothing was retrieved. */
  const NoContext: string := "Aucun contexte médical disponible."

  /** metadata.get("file_name", "source inconnue"). */
  function SourceLabel(p: Passage): string
  {
    match p.fileName
    case Some(name) => name
    case None => "source inconnue"
  }

  /** Three digits with leading zeros: the decimals of "%.3f". */
  function Pad3(n: nat): (s: string)
    requires n < 1000
    ensures |s| == 3 && AllDigits(s)
    ensures DigitsValue(s) == n
  {
    var s := [DigitChar(n / 100), DigitChar(n / 10 % 10), DigitChar(n % 10)];
    assert DigitsValue(s[..1]) == n / 100 by {
      assert s[..1][..0] == [];
    }
    assert s[..2][..1] == s[..1];
    assert DigitsValue(s[..2]) == n / 10 by {
      assert DigitsValue(s[..2]) == DigitsValue(s[..1]) * 10 + n / 10 % 10;
    }
    assert DigitsValue(s) == DigitsValue(s[..2]) * 10 + n % 10 by {
      assert s[..|s| - 1] == s[..2];
    }
    s
  }

  /** f"{score:.3f}" for a score in thousandths, or "N/A". */
  function ScoreText(p: Passage): string
  {
    match p.score
    case None => "N/A"
    case Some(s) =>
      var a := if s < 0 then -s else s;
      (if s < 0 then "-" else "") + IntToString(a / 1000) + "." + Pad3(a % 1000)
  }

  /** What a block shows, in order: its number, its source, its score and
      the passage text without surrounding whitespace. */
  function BlockFields(i: int, p: Passage): seq<string>
  {
    [IntToString(i), SourceLabel(p), ScoreText(p), Strip(p.text)]
  }

  /** The block of the i-th passage (numbered from 1). */
  function Block(i: int, p: Passage): (r: string)
    ensures StartsWith(r, "--- Extrait ")
    ensures InOrder(r, BlockFields(i, p))
  {
    var gaps := ["--- Extrait ", " (source: ", ", score: ", ") ---\n", ""];
    InterleaveInOrder(gaps, BlockFields(i, p));
    Interleave(gaps, BlockFields(i, p))
  }

  /** The blocks of the passages, numbered from 1 in retrieval order. */
  function Blocks(nodes: seq<Passage>): (r: seq<string>)
    ensures |r| == |nodes|
  {
    seq(|nodes|, k requires 0 <= k < |nodes| => Block(k + 1, nodes[k]))
  }

  /** The score text reads back as the score: "N/A" without a score;
      otherwise a minus sign exactly for a negative score, the whole part,
      a point and three decimals, which together give the score in
      thousandths. */
  lemma ScoreTextReadsBack(p: Passage)
    ensures p.score.None? ==> ScoreText(p) == "N/A"
    ensures p.score.Some? ==> var t := ScoreText(p);
      && |t| >= 5 && t[|t| - 4] == '.'
      && (t[0] == '-' <==> p.score.value < 0)
      && var whole := if t[0] == '-' then t[1..|t| - 4] else t[..|t| - 4];
         ParseNat(whole).Some? && ParseNat(t[|t| - 3..]).Some?
         && Signed(t[0], ParseNat(whole).value * 1000 + ParseNat(t[|t| - 3..]).value) == p.score.value
  {
    if p.score.Some? {
      var s := p.score.value;
      var a := if s < 0 then -s else s;
      var sign := if s < 0 then "-" else "";
      var w := Digits(a / 1000);
      var d := Pad3(a % 1000);
      var t := sign + w + "." + d;
      assert IntToString(a / 1000) == w;
      assert ScoreText(p) == t;
      assert t[|t| - 4] == '.';
      assert t[|t| - 3..] == d;
      if s < 0 {
        assert t[1..|t| - 4] == w;
      } else {
        assert t[..|t| - 4] == w;
        assert t[0] == w[0] && IsDigit(w[0]);
      }
      DigitsValueOfDigits(a / 1000);
    }
  }

  /** What format_context returns. */
  function ContextText(nodes: seq<Passage>): string
  {
    if |nodes| == 0 then NoContext else Join(Blocks(nodes), "\n\n")
  }

  /** format_context: builds one block per passage, then joins them. */
  method FormatContext(nodes: seq<Passage>) returns (text: string)
    ensures text == ContextText(nodes)
  {
    if |nodes| == 0 {
      return NoContext;
    }
    var parts: seq<string> := [];
    var i := 0;
    while i < |nodes|
      invariant 0 <= i <= |nodes|
      invariant parts == Blocks(nodes[..i])
    {
      BlocksSnoc(nodes, i);
      parts := parts + [Block(i + 1, nodes[i])];
      i := i + 1;
    }
    assert nodes[..i] == nodes;
    text := Join(parts, "\n\n");
  }

  lemma BlocksSnoc(nodes: seq<Passage>, i: nat)
    requires i < |nodes|
    ensures Blocks(nodes[..i + 1]) == Blocks(nodes[..i]) + [Block(i + 1, nodes[i])]
  {
    var a := Blocks(nodes[..i + 1]);
    var b := Blocks(nodes[..i]) + [Block(i + 1, nodes[i])];
    forall k | 0 <= k < |a| ensures a[k] == b[k] {
      assert nodes[..i + 1][k] == nodes[k];
      if k < i {
        assert nodes[..i][k] == nodes[k];
      }
    }
  }

  /** The placeholder is returned exactly when nothing was retrieved: a
      block never reads like it. */
  lemma ContextEmptyIff(nodes: seq<Passage>)
    ensures ContextText(nodes) == NoContext <==> |nodes| == 0
  {
    if |nodes| > 0 {
      var blocks := Blocks(nodes);
      JoinStartsWithFirst(blocks, "\n\n");
      assert ContextText(nodes)[0] == blocks[0][0] == '-';
      assert NoContext[0] == 'A';
    }
  }

  /** The blocks appear in retrieval order, each numbered by its rank and
      showing its source, its score and its text. */
  lemma ContextShowsBlocksInOrder(nodes: seq<Passage>)
    requires |nodes| > 0
    ensures InOrder(ContextText(nodes), Blocks(nodes))
    ensures forall k :: 0 <= k < |nodes| ==> InOrder(Blocks(nodes)[k], BlockFields(k + 1, nodes[k]))
  {
    JoinInOrder(Blocks(nodes), "\n\n");
  }

  /** The context names the source of every retrieved passage. */
  lemma ContextNamesEverySource(nodes: seq<Passage>, k: nat)
    requires k < |nodes|
    ensures Contains(ContextText(nodes), SourceLabel(nodes[k]))
  {
    var text := ContextText(nodes);
    var block := Blocks(nodes)[k];
    JoinContainsParts(Blocks(nodes), "\n\n", k);
    var i :| OccursAt(text, block, i);
    InOrderOccurs(block, BlockFields(k + 1, nodes[k]), 1);
    var j :| OccursAt(block, SourceLabel(nodes[k]), j);
    OccursTrans(text, block, SourceLabel(nodes[k]), i, j);
    ContainsIff(text, SourceLabel(nodes[k]));
  }
}
