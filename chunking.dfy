/**
  The entry points of `ContextChunker` in `src/context/chunking.py`: path
  classification and the dispatch of a file to one of the three chunkers
  (fixed-width windows, symbol-aware stitching for Python, marker-based pieces
  for other code).

  The Python parser and the declaration regular expression are not modelled:
  `Chunk` receives the parse result as a `PyParse` value and the declaration
  test as a predicate.
*/
module Chunking {
  import opened PyText
  import opened ChunkPieces
  import opened ChunkWindows
  import opened ChunkSymbols
  import opened ChunkMarkers

  // ---------------------------------------------------------------------------
  // Path classification

  const DocExtensions: set<string> := {".md", ".rst", ".txt"}
  const CodeExtensions: set<string> := {
    ".py", ".js", ".ts", ".tsx", ".jsx", ".mjs", ".c", ".cc", ".cpp", ".h", ".hpp", ".go",
    ".java", ".rb", ".rs", ".php", ".swift", ".kt", ".scala", ".cs", ".sql", ".yaml", ".yml",
    ".json", ".toml", ".ini", ".cfg"
  }
  const PreferredDirectories: seq<string> := ["docs/", "doc/", "documentation/", "src/", "lib/", "app/", "config/"]

  /** The text after the last `/` of `p` (all of `p` when there is none). */
  function LastSegment(p: string): (seg: string)
    ensures |seg| <= |p| && seg == p[|p| - |seg|..]
    ensures forall k | 0 <= k < |seg| :: seg[k] != '/'
  {
    if p == [] || p[|p| - 1] == '/' then []
    else LastSegment(p[..|p| - 1]) + [p[|p| - 1]]
  }

  /**
    `Path(p).name`: the last component after splitting at `/`, skipping empty
    components (repeated or trailing slashes) and `.` components.
  */
  function FinalComponent(p: string): (name: string)
    ensures forall k | 0 <= k < |name| :: name[k] != '/'
    ensures forall k | 0 <= k < |name| :: name[k] in p
    decreases |p|
  {
    if p == [] then []
    else
      var seg := LastSegment(p);
      if seg == [] || seg == "." then FinalComponent(p[..|p| - 1]) else seg
  }

  /** Index of the last `c` in `s`, or -1 (`str.rfind`). */
  function RFind(s: string, c: char): (i: int)
    ensures -1 <= i < |s|
    ensures 0 <= i ==> s[i] == c
    ensures forall k | i < k < |s| :: s[k] != c
  {
    if s == [] then -1
    else if s[|s| - 1] == c then |s| - 1
    else RFind(s[..|s| - 1], c)
  }

  /**
    `Path(p).suffix`: from the last dot of the final component, provided that dot
    is neither the component's first character (`.bashrc` has no suffix) nor its last.
  */
  function Suffix(p: string): (ext: string)
    ensures ext == [] || (|ext| >= 2 && ext[0] == '.')
    ensures forall k | 1 <= k < |ext| :: ext[k] != '.' && ext[k] != '/'
  {
    var name := FinalComponent(p);
    var i := RFind(name, '.');
    if 0 < i < |name| - 1 then name[i..] else []
  }

  /** `Path(path).suffix.lower()`. */
  function Extension(path: string): string {
    Lower(Suffix(path))
  }

  predicate IsReadmeName(path: string) {
    StartsWith(Upper(path), "README")
  }

  predicate IsReadmeOrContributing(path: string) {
    IsReadmeName(path) || Contains(Upper(path), "CONTRIBUTING")
  }

  predicate UnderPreferredDirectory(path: string) {
    exists d | d in PreferredDirectories :: StartsWith(path, d)
  }

  /** `ContextChunker.is_interesting_path`. */
  predicate IsInterestingPath(path: string) {
    IsReadmeOrContributing(path)
    || UnderPreferredDirectory(path)
    || Extension(path) in DocExtensions
    || Extension(path) in CodeExtensions
  }

  /** `ContextChunker.is_document_path`: every document path is an interesting one. */
  function IsDocumentPath(path: string): (b: bool)
    ensures b ==> IsInterestingPath(path)
    ensures b <==> IsReadmeOrContributing(path) || Extension(path) in DocExtensions
  {
    if IsReadmeOrContributing(path) then true else Extension(path) in DocExtensions
  }

  /** `ContextChunker.is_code_path`: every code path is an interesting one. */
  function IsCodePath(path: string): (b: bool)
    ensures b ==> IsInterestingPath(path)
    ensures b ==> Extension(path) !in DocExtensions
  {
    ExtensionsDisjoint(Extension(path));
    Extension(path) in CodeExtensions
  }

  /** No extension is both a document and a code extension. */
  lemma ExtensionsDisjoint(ext: string)
    ensures !(ext in DocExtensions && ext in CodeExtensions)
  {
    if ext in DocExtensions {
      assert ext == ".md" || ext == ".rst" || ext == ".txt";
    }
  }

  // ---------------------------------------------------------------------------
  // Dispatch

  datatype Strategy = FixedWindows | SymbolAware | MarkerBased

  /** The strategy `ContextChunker.chunk` picks for a path. */
  function StrategyFor(path: string): (s: Strategy)
    ensures !IsCodePath(path) ==> s == FixedWindows
    ensures IsReadmeName(path) ==> s == FixedWindows
    ensures IsCodePath(path) && !IsReadmeName(path) ==>
              s == (if Extension(path) == ".py" then SymbolAware else MarkerBased)
  {
    var ext := Extension(path);
    if ext in DocExtensions || IsReadmeName(path) then FixedWindows
    else if ext == ".py" then SymbolAware
    else if ext in CodeExtensions then MarkerBased
    else FixedWindows
  }

  /** What `ContextChunker.chunk` returns, with the parser and marker test as inputs. */
  function ChunkSpec(path: string, text: string, maxChars: int, overlap: int,
                     tree: PyParse, isMarker: string -> bool): seq<ChunkPiece>
  {
    match StrategyFor(path)
    case FixedWindows => DocumentPieces(text, maxChars, overlap)
    case SymbolAware => SymbolPieces(text, tree)
    case MarkerBased => MarkerPieces(text, isMarker)
  }

  /** `ContextChunker.chunk`: never returns an empty list, whatever the input. */
  method Chunk(path: string, text: string, maxChars: int, overlap: int,
               tree: PyParse, isMarker: string -> bool) returns (pieces: seq<ChunkPiece>)
    ensures pieces == ChunkSpec(path, text, maxChars, overlap, tree, isMarker)
    ensures |pieces| >= 1
  {
    var ext := Extension(path);
    if ext in DocExtensions || IsReadmeName(path) {
      pieces := ChunkDocument(text, maxChars, overlap);
    } else if ext == ".py" {
      pieces := ChunkPythonAst(text, tree);
    } else if ext in CodeExtensions {
      pieces := ChunkGenericCode(text, isMarker);
    } else {
      pieces := ChunkDocument(text, maxChars, overlap);
    }
  }
}
