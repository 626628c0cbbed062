/** app/rag/indexer.py: building the vector index of the medical guideline
    documents, persisting it, and loading it back.

    The disk is an IndexStore object: the directories that exist, the index
    directories that hold a persisted docstore.json (with the index persisted
    there), the guideline files, and how many times the embedding model has
    been loaded. Chunking, embedding and persistence are the vector library's
    business: an Index here is the list of documents it was built from. */
module Indexer {
  import opened Wrappers
  import opened Text
  import opened Sorting

  /** A file system path as its list of components. */
  type Path = seq<string>

  datatype FileEntry = FileEntry(path: Path, content: string)

  /** One document as the directory reader returns it; its metadata
      `file_name` is the file's own name. */
  datatype Document = Document(fileName: string, text: string)

  datatype Index = Index(documents: seq<Document>)

  /** Why an index could not be had or searched. IndexNotFound and
      NoDocuments are the two FileNotFoundError raises; SearchFailed stands
      for any other exception of the vector library. */
  datatype IndexError = IndexNotFound(indexDir: Path) | NoDocuments(docsDir: Path) | SearchFailed(reason: string)

  /** DOCS_DIR and INDEX_DIR with their defaults. */
  const DocsDir: Path := ["data", "docs"]
  const IndexDir: Path := ["data", "index"]

  /** The extensions passed as required_exts. */
  const SupportedExtensions: seq<string> := [".md", ".pdf", ".txt"]

  /** The last component of a path. */
  function FileName(p: Path): string
  {
    if |p| == 0 then "" else p[|p| - 1]
  }

  /** A file name whose suffix is one of the required extensions. */
  predicate HasSupportedExtension(name: string)
  {
    exists k :: 0 <= k < |SupportedExtensions|
      && |name| > |SupportedExtensions[k]| && EndsWith(name, SupportedExtensions[k])
  }

  /** Whether a file lies somewhere below dir, at any depth (recursive=True). */
  predicate Below(f: FileEntry, dir: Path)
  {
    |dir| < |f.path| && f.path[..|dir|] == dir
  }

  predicate Ingestible(f: FileEntry, dir: Path)
  {
    Below(f, dir) && HasSupportedExtension(FileName(f.path))
  }

  /** SimpleDirectoryReader(input_dir=dir, required_exts=[...], recursive=True)
      .load_data(): one document per supported file below dir, in file order. */
  function Documents(files: seq<FileEntry>, dir: Path): (docs: seq<Document>)
    ensures |docs| == Count(files, f => Ingestible(f, dir))
    ensures forall k :: 0 <= k < |docs| ==> HasSupportedExtension(docs[k].fileName)
  {
    if |files| == 0 then []
    else if Ingestible(files[0], dir) then
      [Document(FileName(files[0].path), files[0].content)] + Documents(files[1..], dir)
    else
      Documents(files[1..], dir)
  }

  /** What load_index returns or raises, given the persisted docstores. */
  function LoadResult(stores: map<Path, Index>, indexDir: Path): Result<Index, IndexError>
  {
    if indexDir in stores then Ok(stores[indexDir]) else Err(IndexNotFound(indexDir))
  }

  /** Whether build_index reuses the persisted index instead of reading documents. */
  predicate UsesCache(stores: map<Path, Index>, indexDir: Path, forceRebuild: bool)
  {
    !forceRebuild && indexDir in stores
  }

  /** What build_index returns or raises. */
  function BuildResult(stores: map<Path, Index>, files: seq<FileEntry>, docsDir: Path, indexDir: Path, forceRebuild: bool)
    : Result<Index, IndexError>
  {
    if UsesCache(stores, indexDir, forceRebuild) then Ok(stores[indexDir])
    else
      var docs := Documents(files, docsDir);
      if |docs| == 0 then Err(NoDocuments(docsDir)) else Ok(Index(docs))
  }

  /** The docstores after build_index: a fresh build is persisted in indexDir,
      a cache hit or a failure persists nothing. */
  function StoresAfterBuild(stores: map<Path, Index>, files: seq<FileEntry>, docsDir: Path, indexDir: Path, forceRebuild: bool)
    : map<Path, Index>
  {
    var r := BuildResult(stores, files, docsDir, indexDir, forceRebuild);
    if r.Ok? && !UsesCache(stores, indexDir, forceRebuild) then stores[indexDir := r.value] else stores
  }

  class IndexStore {
    /** Directories that exist. */
    var dirs: set<Path>
    /** Index directories that hold a docstore.json, with the index persisted there. */
    var docstores: map<Path, Index>
    /** The files on disk. */
    const files: seq<FileEntry>
    /** How many times the embedding model has been loaded. */
    var embedModelLoads: nat

    constructor (files: seq<FileEntry>, dirs: set<Path>, docstores: map<Path, Index>)
      ensures this.files == files && this.dirs == dirs && this.docstores == docstores
      ensures embedModelLoads == 0
    {
      this.files := files;
      this.dirs := dirs;
      this.docstores := docstores;
      embedModelLoads := 0;
    }

    /** load_index: fails before loading the embedding model when no
        docstore.json exists; otherwise loads the model and the index. */
    method LoadIndex(indexDir: Path) returns (r: Result<Index, IndexError>)
      modifies this`embedModelLoads
      ensures r == LoadResult(docstores, indexDir)
      ensures r.Err? <==> indexDir !in docstores
      ensures embedModelLoads == old(embedModelLoads) + (if r.Ok? then 1 else 0)
    {
      if indexDir !in docstores {
        return Err(IndexNotFound(indexDir));
      }
      embedModelLoads := embedModelLoads + 1;
      r := Ok(docstores[indexDir]);
    }

    /** build_index: loads the embedding model, makes sure indexDir exists,
        then either reuses the persisted index or reads the documents,
        builds a new index and persists it. */
    method BuildIndex(docsDir: Path, indexDir: Path, forceRebuild: bool) returns (r: Result<Index, IndexError>)
      modifies this`dirs, this`docstores, this`embedModelLoads
      ensures r == BuildResult(old(docstores), files, docsDir, indexDir, forceRebuild)
      ensures docstores == StoresAfterBuild(old(docstores), files, docsDir, indexDir, forceRebuild)
      ensures dirs == old(dirs) + {indexDir}
      ensures embedModelLoads == old(embedModelLoads) + 1
    {
      embedModelLoads := embedModelLoads + 1;
      dirs := dirs + {indexDir};
      if !forceRebuild && indexDir in docstores {
        return Ok(docstores[indexDir]);
      }
      var documents := Documents(files, docsDir);
      if |documents| == 0 {
        return Err(NoDocuments(docsDir));
      }
      var index := Index(documents);
      docstores := docstores[indexDir := index];
      r := Ok(index);
    }
  }

  // ---------------------------------------------------------------------------
  // Properties of building and loading
  // ---------------------------------------------------------------------------

  /** After a successful build, loading from the same directory succeeds and
      gives the index just built. */
  lemma BuildThenLoad(stores: map<Path, Index>, files: seq<FileEntry>, docsDir: Path, indexDir: Path, force: bool)
    requires BuildResult(stores, files, docsDir, indexDir, force).Ok?
    ensures LoadResult(StoresAfterBuild(stores, files, docsDir, indexDir, force), indexDir)
         == BuildResult(stores, files, docsDir, indexDir, force)
  {
  }

  /** A second build without force reuses what the first one persisted: same
      index, same persisted state. */
  lemma BuildIsIdempotent(stores: map<Path, Index>, files: seq<FileEntry>, docsDir: Path, indexDir: Path, force: bool)
    requires BuildResult(stores, files, docsDir, indexDir, force).Ok?
    ensures var after := StoresAfterBuild(stores, files, docsDir, indexDir, force);
      && UsesCache(after, indexDir, false)
      && BuildResult(after, files, docsDir, indexDir, false) == BuildResult(stores, files, docsDir, indexDir, force)
      && StoresAfterBuild(after, files, docsDir, indexDir, false) == after
  {
  }

  /** A forced rebuild reads the documents whatever is persisted. */
  lemma ForceRebuildIgnoresCache(s1: map<Path, Index>, s2: map<Path, Index>, files: seq<FileEntry>, docsDir: Path, indexDir: Path)
    ensures !UsesCache(s1, indexDir, true)
    ensures BuildResult(s1, files, docsDir, indexDir, true) == BuildResult(s2, files, docsDir, indexDir, true)
  {
  }

  /** Without ingestible documents a build that does not hit the cache fails
      and persists nothing. */
  lemma NoDocumentsPersistsNothing(stores: map<Path, Index>, files: seq<FileEntry>, docsDir: Path, indexDir: Path, force: bool)
    requires !UsesCache(stores, indexDir, force)
    requires forall k :: 0 <= k < |files| ==> !Ingestible(files[k], docsDir)
    ensures BuildResult(stores, files, docsDir, indexDir, force) == Err(NoDocuments(docsDir))
    ensures StoresAfterBuild(stores, files, docsDir, indexDir, force) == stores
  {
    NoneIngestible(files, docsDir);
  }

  lemma {:induction false} NoneIngestible(files: seq<FileEntry>, dir: Path)
    requires forall k :: 0 <= k < |files| ==> !Ingestible(files[k], dir)
    ensures Documents(files, dir) == []
  {
    if |files| > 0 {
      NoneIngestible(files[1..], dir);
    }
  }

  /** Every ingestible file below the documents directory becomes a document
      of a fresh build, whatever its depth. */
  lemma {:induction false} IngestibleFileIsRead(files: seq<FileEntry>, dir: Path, k: nat)
    requires k < |files| && Ingestible(files[k], dir)
    ensures Document(FileName(files[k].path), files[k].content) in Documents(files, dir)
  {
    if k > 0 {
      IngestibleFileIsRead(files[1..], dir, k - 1);
    }
  }
}
