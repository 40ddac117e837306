// The backend's knowledge-file registry (`KnowledgeFileHandler`): the items
// found by scanning the knowledge directory, the built-in fallback items,
// saving a new file under a name not yet taken, search by name, and reading
// and rewriting files. Both backends share this class; one of them loads the
// fallback items when the directory is missing, the other leaves the
// registry empty (`withFallback`).
//
// The file system is a map from paths relative to the backend directory to
// nodes; the directory listing the scan walks is given as a tree of entries.
module KnowledgeFiles {
  import opened Wrappers
  import opened Strings
  import opened Lists
  import opened MemoryTypes

  /** Where the registry keeps its files, relative to the backend directory. */
  const DataDir := "data/memory/knowledge_files"
  const ScanDepth := 2
  const SearchLimit := 10
  const ReadLimit := 10000
  const TruncationNote := "\n[... content truncated ...]"
  const ImageSuffixes := {".png", ".jpg", ".jpeg", ".gif", ".bmp", ".svg"}
  const TextSuffixes := {".txt", ".md", ".py", ".js", ".ts", ".json", ".yaml", ".yml", ".xml", ".html",
    ".css", ".sql", ".sh", ".bat", ".cfg", ".ini", ".log", ".csv", ".tsv", ".rst", ".tex"}

  datatype Node = FileNode(text: string) | DirNode

  /**
   * One entry of a directory listing: a file with its size, or a directory
   * with its own listing (`None` when listing it is refused).
   */
  datatype Entry = FileEntry(name: string, size: nat) | DirEntry(name: string, listing: Option<seq<Entry>>)

  // ---------------------------------------------------------------------
  // Path helpers (`pathlib` on plain strings)

  /** `Path.name`: the last component. */
  function PathName(p: string): (r: string)
    ensures '/' !in r
  {
    AfterLast(p, '/')
  }

  /** `Path.suffix` of a name: from its last '.', unless that dot starts or ends the name. */
  function Suffix(name: string): (r: string)
    ensures r == "" || (r[0] == '.' && |r| >= 2 && |r| < |name| && r == name[|name| - |r|..])
  {
    match LastIndexOfChar(name, '.')
    case None => ""
    case Some(i) => if 0 < i < |name| - 1 then name[i..] else ""
  }

  /** A name "<stem>.<ext>" with a dot-free extension has the suffix ".<ext>". */
  lemma SuffixOfDottedName(stem: string, ext: string)
    requires |stem| > 0 && |ext| > 0 && '.' !in ext
    ensures Suffix(stem + "." + ext) == "." + ext
  {
    var s := stem + "." + ext;
    var k := LastIndexOfChar(s, '.').value;
    assert s[|stem|] == '.';
    assert s[|stem|..] == "." + ext;
  }

  /** A name whose only dot is its first character has no suffix. */
  lemma HiddenNameHasNoSuffix(ext: string)
    requires '.' !in ext
    ensures Suffix("." + ext) == ""
  {
    var s := "." + ext;
    var k := LastIndexOfChar(s, '.').value;
  }

  /** A leading "./" is dropped before a path is used. */
  function Normalise(p: string): (r: string)
    ensures StartsWith(p, "./") ==> p == "./" + r
    ensures !StartsWith(p, "./") ==> r == p
  {
    if StartsWith(p, "./") then p[2..] else p
  }

  function InData(filename: string): string {
    DataDir + "/" + filename
  }

  // ---------------------------------------------------------------------
  // Scanning

  predicate IsHiddenName(name: string) {
    StartsWith(name, ".")
  }

  function FileKindOf(name: string): (k: MemoryKind)
    ensures k == ImageItem <==> Lower(Suffix(name)) in ImageSuffixes
    ensures k != ImageItem ==> k == FileItem
  {
    if Lower(Suffix(name)) in ImageSuffixes then ImageItem else FileItem
  }

  function ScannedFile(dir: string, name: string, size: nat): Memory {
    NewMemory(FileKindOf(name), name, dir + "/" + name, "", Some(size), Some(Suffix(name)), IsHiddenName(name))
  }

  function ScannedFolder(dir: string, name: string): Memory {
    NewMemory(FolderItem, name, "", dir + "/" + name, None, None, IsHiddenName(name))
  }

  /** `_scan_directory` on one directory's listing: nothing from depth 2 on, and nothing for a refused listing. */
  function ScanListing(listing: Option<seq<Entry>>, dir: string, depth: nat): (r: seq<Memory>)
    decreases ScanDepth - depth, 2
  {
    if depth >= ScanDepth || listing.None? then []
    else ScanEntries(listing.value, dir, depth)
  }

  /** The items for the entries of one listing, in listing order. */
  function ScanEntries(entries: seq<Entry>, dir: string, depth: nat): (r: seq<Memory>)
    requires depth < ScanDepth
    decreases ScanDepth - depth, 1, |entries|
  {
    if |entries| == 0 then []
    else ScanEntries(entries[..|entries| - 1], dir, depth) + ScanEntry(entries[|entries| - 1], dir, depth)
  }

  /** One entry: skipped when hidden; a file item; or a folder item followed by its own scan one level down. */
  function ScanEntry(e: Entry, dir: string, depth: nat): (r: seq<Memory>)
    requires depth < ScanDepth
    decreases ScanDepth - depth, 0, 0
  {
    if IsHiddenName(e.name) then []
    else match e
      case FileEntry(name, size) => [ScannedFile(dir, name, size)]
      case DirEntry(name, listing) => [ScannedFolder(dir, name)] + ScanListing(listing, dir + "/" + name, depth + 1)
  }

  lemma ScanEntriesStep(entries: seq<Entry>, i: nat, dir: string, depth: nat)
    requires depth < ScanDepth && i < |entries|
    ensures ScanEntries(entries[..i + 1], dir, depth) == ScanEntries(entries[..i], dir, depth) + ScanEntry(entries[i], dir, depth)
  {
    assert entries[..i + 1][..i] == entries[..i];
  }

  /** What the scan promises of every item it lists. */
  predicate WellScanned(items: seq<Memory>) {
    forall i :: 0 <= i < |items| ==> ScanRule(items[i])
  }

  /** Visible, and a file is classed as image or file by its suffix, whose text it records. */
  predicate ScanRule(m: Memory) {
    !IsHiddenName(m.name) && !m.isHidden
    && (m.kind == FolderItem || (m.kind == FileKindOf(m.name) && m.extension == Some(Suffix(m.name))))
  }

  /** Every scanned item is visible, and every file is classified by its suffix. */
  lemma {:induction false} ScanRules(listing: Option<seq<Entry>>, dir: string, depth: nat)
    ensures WellScanned(ScanListing(listing, dir, depth))
    decreases ScanDepth - depth, 2
  {
    if depth < ScanDepth && listing.Some? {
      ScanEntriesRules(listing.value, dir, depth);
    }
  }

  lemma {:induction false} ScanEntriesRules(entries: seq<Entry>, dir: string, depth: nat)
    requires depth < ScanDepth
    ensures WellScanned(ScanEntries(entries, dir, depth))
    decreases ScanDepth - depth, 1, |entries|
  {
    if |entries| > 0 {
      var e := entries[|entries| - 1];
      ScanEntriesRules(entries[..|entries| - 1], dir, depth);
      ScanEntryRules(e, dir, depth);
      WellScannedConcat(ScanEntries(entries[..|entries| - 1], dir, depth), ScanEntry(e, dir, depth));
    }
  }

  lemma {:induction false} ScanEntryRules(e: Entry, dir: string, depth: nat)
    requires depth < ScanDepth
    ensures WellScanned(ScanEntry(e, dir, depth))
    decreases ScanDepth - depth, 0, 0
  {
    if !IsHiddenName(e.name) {
      match e
      case FileEntry(name, size) =>
        assert ScanRule(ScannedFile(dir, name, size));
      case DirEntry(name, listing) =>
        ScanRules(listing, dir + "/" + name, depth + 1);
        assert ScanRule(ScannedFolder(dir, name));
        WellScannedConcat([ScannedFolder(dir, name)], ScanListing(listing, dir + "/" + name, depth + 1));
    }
  }

  lemma WellScannedConcat(a: seq<Memory>, b: seq<Memory>)
    requires WellScanned(a) && WellScanned(b)
    ensures WellScanned(a + b)
  {
    assert forall i :: 0 <= i < |a + b| ==> (a + b)[i] == if i < |a| then a[i] else b[i - |a|];
  }

  /** A directory two levels down is listed as a folder, but its own entries are not. */
  lemma DepthLimit(dir: string, inner: seq<Entry>)
    ensures ScanListing(Some([DirEntry("sub", Some([DirEntry("deep", Some(inner))]))]), dir, 0)
      == [ScannedFolder(dir, "sub"), ScannedFolder(dir + "/sub", "deep")]
  {
    var deep := [DirEntry("deep", Some(inner))];
    assert "deep"[0] != '.' && "sub"[0] != '.';
    assert dir + "/" + "sub" == dir + "/sub";
    assert !IsHiddenName("deep") && !IsHiddenName("sub");
    assert deep[..0] == [];
    assert ScanEntries(deep, dir + "/sub", 1) == [ScannedFolder(dir + "/sub", "deep")];
    var top := [DirEntry("sub", Some(deep))];
    assert top[..0] == [];
    assert ScanEntry(top[0], dir, 0) == [ScannedFolder(dir, "sub")] + ScanListing(Some(deep), dir + "/sub", 1);
    assert ScanEntries(top, dir, 0) == ScanEntries([], dir, 0) + ScanEntry(top[0], dir, 0);
  }

  // ---------------------------------------------------------------------
  // Fallback items

  const Fallback := [
    NewMemory(FileItem, "README.md", "./README.md", "", Some(2048), Some(".md"), false),
    NewMemory(FileItem, "config.json", "./config.json", "", Some(1024), Some(".json"), false),
    NewMemory(FolderItem, "docs", "", "./docs", None, None, false)]

  /**
   * `_load_from_directory`: `root` is the data directory's listing, `None`
   * when the directory does not exist.
   */
  function LoadSpec(withFallback: bool, root: Option<Option<seq<Entry>>>): (r: seq<Memory>)
    ensures root.None? ==> r == (if withFallback then Fallback else [])
    ensures root.Some? ==> r == ScanListing(root.value, DataDir, 0)
  {
    match root
    case None => if withFallback then Fallback else []
    case Some(listing) => ScanListing(listing, DataDir, 0)
  }

  // ---------------------------------------------------------------------
  // Saving under a free name

  /** The name one round of the duplicate loop gives: "<stem>_<k>.<ext>", with "txt" when there is no dot. */
  function Renamed(filename: string, k: nat): (r: string)
    ensures |r| > |filename|
  {
    match LastIndexOfChar(filename, '.')
    case Some(i) => filename[..i] + "_" + NatToString(k) + "." + filename[i + 1..]
    case None => filename + "_" + NatToString(k) + ".txt"
  }

  predicate Taken(disk: map<string, Node>, filename: string) {
    InData(filename) in disk
  }

  /** A bound on the length of every path on disk. */
  ghost function MaxPathLength(paths: set<string>): (n: nat)
    ensures forall p :: p in paths ==> |p| <= n
    decreases paths
  {
    if paths == {} then 0
    else
      var p :| p in paths;
      var m := MaxPathLength(paths - {p});
      if |p| > m then |p| else m
  }

  /** The names the duplicate loop tries, from counter `k` on, until one is free. */
  function FreeName(disk: map<string, Node>, filename: string, k: nat): (r: string)
    ensures !Taken(disk, r)
    ensures !Taken(disk, filename) ==> r == filename
    decreases MaxPathLength(disk.Keys) + 1 - |InData(filename)|
  {
    if Taken(disk, filename) then FreeName(disk, Renamed(filename, k), k + 1) else filename
  }

  /** One round on a name with a dot-free extension puts the counter before that extension. */
  lemma RenamedDotted(stem: string, ext: string, k: nat)
    requires '.' !in ext
    ensures Renamed(stem + "." + ext, k) == stem + "_" + NatToString(k) + "." + ext
  {
    var s := stem + "." + ext;
    var i := LastIndexOfChar(s, '.').value;
    assert s[|stem|] == '.';
    assert i == |stem|;
    assert s[..i] == stem && s[i + 1..] == ext;
  }

  /**
   * The counters accumulate: each round renames the current name, not the
   * original, so "a.txt" with "a_2.txt" also taken becomes "a_2_3.txt".
   */
  lemma SuffixesAccumulate(disk: map<string, Node>, stem: string, ext: string)
    requires '.' !in ext
    requires Taken(disk, stem + "." + ext)
    requires Taken(disk, stem + "_" + NatToString(2) + "." + ext)
    requires !Taken(disk, stem + "_" + NatToString(2) + "_" + NatToString(3) + "." + ext)
    ensures FreeName(disk, stem + "." + ext, 2) == stem + "_" + NatToString(2) + "_" + NatToString(3) + "." + ext
  {
    RenamedDotted(stem, ext, 2);
    RenamedDotted(stem + "_" + NatToString(2), ext, 3);
  }

  /** A taken name without a dot gets the extension "txt" on its first rename. */
  lemma UndottedGetsTxt(disk: map<string, Node>, name: string)
    requires '.' !in name && Taken(disk, name) && !Taken(disk, name + "_" + NatToString(2) + ".txt")
    ensures FreeName(disk, name, 2) == name + "_" + NatToString(2) + ".txt"
  {
  }

  /** The item `add_knowledge_file` records for a saved file. */
  function SavedItem(filename: string, content: string): (m: Memory)
    ensures m.kind == FileItem && m.name == filename && m.filePath == InData(filename)
    ensures m.size == Some(Utf8Length(content))
  {
    NewMemory(FileItem, filename, InData(filename), "", Some(Utf8Length(content)), Some(Suffix(filename)), IsHiddenName(filename))
  }

  // ---------------------------------------------------------------------
  // Search

  predicate NameMatches(m: Memory, loweredQuery: string) {
    Contains(Lower(m.name), loweredQuery)
  }

  function NameStage(loweredQuery: string): Memory -> bool {
    (m: Memory) => NameMatches(m, loweredQuery)
  }

  /** `item.file_path or item.folder_path`. */
  function ItemPath(m: Memory): string {
    if m.filePath != "" then m.filePath else m.folderPath
  }

  function SuggestionId(position: nat): string {
    "file_" + NatToString(position)
  }

  function ToSuggestion(m: Memory, position: nat): Suggestion {
    Suggestion(SuggestionId(position), m.name, Some(PyTitle(KindName(m.kind)) + ": " + ItemPath(m)),
      FileSuggestion, FileMeta(m.kind, ItemPath(m), m.size))
  }

  /** The suggestions for the matching items, numbered by their position among the matches. */
  function Numbered(items: seq<Memory>): (r: seq<Suggestion>)
    ensures |r| == |items|
    ensures forall i :: 0 <= i < |items| ==> r[i] == ToSuggestion(items[i], i)
  {
    seq(|items|, i requires 0 <= i < |items| => ToSuggestion(items[i], i))
  }

  /** One more item scanned by the search loop: its suggestion is appended when it matches. */
  lemma SearchStep(memory: seq<Memory>, i: nat, q: string)
    requires i < |memory|
    ensures var before := Filter(memory[..i], NameStage(q));
      Numbered(Filter(memory[..i + 1], NameStage(q)))
        == Numbered(before) + if NameStage(q)(memory[i]) then [ToSuggestion(memory[i], |before|)] else []
  {
    var before := Filter(memory[..i], NameStage(q));
    assert memory[..i + 1] == memory[..i] + [memory[i]];
    FilterAppend(memory[..i], memory[i], NameStage(q));
    if NameStage(q)(memory[i]) {
      NumberedAppend(before, memory[i]);
    }
  }

  lemma NumberedAppend(items: seq<Memory>, m: Memory)
    ensures Numbered(items + [m]) == Numbered(items) + [ToSuggestion(m, |items|)]
  {
  }

  function SearchSpec(memory: seq<Memory>, query: string): (r: seq<Suggestion>)
    ensures |r| <= SearchLimit
    ensures |r| <= |memory|
  {
    Take(Numbered(Filter(memory, NameStage(Lower(query)))), SearchLimit)
  }

  /** `s` is the suggestion, at position `i`, of a matching item of `memory`. */
  predicate FromMatch(memory: seq<Memory>, loweredQuery: string, s: Suggestion, i: nat) {
    exists m :: m in memory && NameMatches(m, loweredQuery) && s == ToSuggestion(m, i)
  }

  /** The results are the numbered first ten matches, which keep their memory order. */
  lemma SearchChosen(memory: seq<Memory>, query: string)
    ensures var chosen := Take(Filter(memory, NameStage(Lower(query))), SearchLimit);
      SearchSpec(memory, query) == Numbered(chosen) && IsSubsequence(chosen, memory)
  {
    var matches := Filter(memory, NameStage(Lower(query)));
    var chosen := Take(matches, SearchLimit);
    TakeFilterIsSubsequence(memory, NameStage(Lower(query)), SearchLimit);
    assert Numbered(matches)[..|chosen|] == Numbered(chosen);
  }

  /** With no more than ten matches, every matching item is listed under its match position. */
  lemma SearchListsAll(memory: seq<Memory>, query: string, m: Memory)
    requires Count(memory, NameStage(Lower(query))) <= SearchLimit
    requires m in memory && NameMatches(m, Lower(query))
    ensures exists i :: 0 <= i < |SearchSpec(memory, query)| && SearchSpec(memory, query)[i] == ToSuggestion(m, i)
  {
    var matches := Filter(memory, NameStage(Lower(query)));
    assert NameStage(Lower(query))(m);
    var k :| 0 <= k < |matches| && matches[k] == m;
    assert SearchSpec(memory, query) == Numbered(matches);
    assert SearchSpec(memory, query)[k] == ToSuggestion(m, k);
  }

  /**
   * At most ten results; each is a matching item's suggestion; the ids are
   * "file_0", "file_1", ... by result position; the results are the first
   * ten matches in memory order; and all matches are listed when there are
   * no more than ten.
   */
  lemma SearchMeaning(memory: seq<Memory>, query: string)
    ensures var chosen := Take(Filter(memory, NameStage(Lower(query))), SearchLimit);
      SearchSpec(memory, query) == Numbered(chosen) && IsSubsequence(chosen, memory)
    ensures Count(memory, NameStage(Lower(query))) <= SearchLimit ==>
      forall m :: m in memory && NameMatches(m, Lower(query)) ==>
        exists i :: 0 <= i < |SearchSpec(memory, query)| && SearchSpec(memory, query)[i] == ToSuggestion(m, i)
    ensures |SearchSpec(memory, query)| <= SearchLimit
    ensures forall i :: 0 <= i < |SearchSpec(memory, query)| ==>
      SearchSpec(memory, query)[i].id == SuggestionId(i) && SearchSpec(memory, query)[i].kind == FileSuggestion
    ensures forall i: nat :: i < |SearchSpec(memory, query)| ==> FromMatch(memory, Lower(query), SearchSpec(memory, query)[i], i)
    ensures Count(memory, NameStage(Lower(query))) <= SearchLimit ==>
      |SearchSpec(memory, query)| == Count(memory, NameStage(Lower(query)))
  {
    SearchChosen(memory, query);
    if Count(memory, NameStage(Lower(query))) <= SearchLimit {
      forall m | m in memory && NameMatches(m, Lower(query))
        ensures exists i :: 0 <= i < |SearchSpec(memory, query)| && SearchSpec(memory, query)[i] == ToSuggestion(m, i)
      {
        SearchListsAll(memory, query, m);
      }
    }
    var matches := Filter(memory, NameStage(Lower(query)));
    var r := SearchSpec(memory, query);
    assert Count(memory, NameStage(Lower(query))) == |matches| == |Numbered(matches)|;
    assert r == Take(Numbered(matches), SearchLimit);
    assert |matches| <= SearchLimit ==> |r| == |matches|;
    forall i: nat | i < |r| ensures FromMatch(memory, Lower(query), r[i], i) {
      assert NameStage(Lower(query))(matches[i]);
      assert matches[i] in memory && NameMatches(matches[i], Lower(query)) && r[i] == ToSuggestion(matches[i], i);
    }
  }

  /** Distinct result positions have distinct ids. */
  lemma SearchIdsDistinct(memory: seq<Memory>, query: string, i: nat, j: nat)
    requires i < j < |SearchSpec(memory, query)|
    ensures SearchSpec(memory, query)[i].id != SearchSpec(memory, query)[j].id
  {
    var r := SearchSpec(memory, query);
    assert r[i].id == "file_" + NatToString(i) && r[j].id == "file_" + NatToString(j);
    if r[i].id == r[j].id {
      assert NatToString(i) == r[i].id[5..] == r[j].id[5..] == NatToString(j);
      NatToStringInjective(i, j);
    }
  }

  /** Letter case plays no part in the search. */
  lemma SearchCaseInsensitive(memory: seq<Memory>, query: string)
    ensures SearchSpec(memory, query) == SearchSpec(memory, Lower(query))
  {
    LowerIdempotent(query);
  }

  // ---------------------------------------------------------------------
  // Reading

  function Truncated(text: string): (r: string)
    ensures |text| <= ReadLimit ==> r == text
    ensures |text| > ReadLimit ==> r == text[..ReadLimit] + TruncationNote && |r| == ReadLimit + |TruncationNote|
  {
    if |text| > ReadLimit then text[..ReadLimit] + TruncationNote else text
  }

  /**
   * Python's universal-newline reading: a file opened in text mode without
   * a `newline` argument reads "\r\n" and a lone "\r" as "\n".
   */
  function ReadNewlines(s: string): (r: string)
    ensures |r| <= |s|
    ensures forall i :: 0 <= i < |r| ==> r[i] != '\r'
  {
    if |s| == 0 then ""
    else if s[0] == '\r' then "\n" + ReadNewlines(if |s| > 1 && s[1] == '\n' then s[2..] else s[1..])
    else [s[0]] + ReadNewlines(s[1..])
  }

  /** Text without a carriage return reads back as written. */
  lemma {:induction false} ReadNewlinesIdentity(s: string)
    requires forall i :: 0 <= i < |s| ==> s[i] != '\r'
    ensures ReadNewlines(s) == s
  {
    if |s| > 0 {
      ReadNewlinesIdentity(s[1..]);
    }
  }

  /** Reading a file twice translates nothing further. */
  lemma ReadNewlinesIdempotent(s: string)
    ensures ReadNewlines(ReadNewlines(s)) == ReadNewlines(s)
  {
    ReadNewlinesIdentity(ReadNewlines(s));
  }

  /** "\r\n" and a lone "\r" both read as one "\n". */
  lemma {:induction false} CarriageReturnsRead(a: string, b: string)
    requires forall i :: 0 <= i < |a| ==> a[i] != '\r'
    ensures ReadNewlines(a + "\r\n" + b) == a + "\n" + ReadNewlines(b)
    ensures |b| == 0 || b[0] != '\n' ==> ReadNewlines(a + "\r" + b) == a + "\n" + ReadNewlines(b)
  {
    if |a| == 0 {
      assert a + "\r\n" + b == "\r\n" + b;
      assert ("\r\n" + b)[2..] == b;
      assert a + "\r" + b == "\r" + b;
      assert ("\r" + b)[1..] == b;
    } else {
      CarriageReturnsRead(a[1..], b);
      assert (a + "\r\n" + b)[1..] == a[1..] + "\r\n" + b;
      assert (a + "\r" + b)[1..] == a[1..] + "\r" + b;
      assert a == [a[0]] + a[1..];
    }
  }

  function BinaryMarker(p: string): string {
    "[Binary file: " + PathName(p) + "]"
  }

  /**
   * `read_file_content`: `None` for a missing path and for a directory with
   * a text suffix (opening it fails), the marker for a non-text suffix, and
   * the text with its line endings read as "\n", cut at ten thousand
   * characters, otherwise.
   */
  function ReadSpec(disk: map<string, Node>, path: string): (r: Option<string>)
    ensures Normalise(path) !in disk ==> r.None?
    ensures Normalise(path) in disk && Lower(Suffix(PathName(Normalise(path)))) !in TextSuffixes ==> r == Some(BinaryMarker(Normalise(path)))
    ensures Normalise(path) in disk && Lower(Suffix(PathName(Normalise(path)))) in TextSuffixes && disk[Normalise(path)].FileNode? ==>
      r == Some(Truncated(ReadNewlines(disk[Normalise(path)].text)))
    ensures Normalise(path) in disk && Lower(Suffix(PathName(Normalise(path)))) in TextSuffixes && disk[Normalise(path)].DirNode? ==>
      r.None?
    ensures r.Some? && !StartsWith(r.value, "[Binary file: ") ==> |r.value| <= ReadLimit + |TruncationNote|
  {
    var p := Normalise(path);
    if p !in disk then None
    else if Lower(Suffix(PathName(p))) !in TextSuffixes then Some(BinaryMarker(p))
    else match disk[p]
      case DirNode => None
      case FileNode(text) => Some(Truncated(ReadNewlines(text)))
  }

  /**
   * What a write leaves is what the next read returns, with the line endings
   * translated: a file written as "x\r\ny" reads back as "x\ny".
   */
  lemma ReadAfterWrite(disk: map<string, Node>, path: string, content: string)
    requires Lower(Suffix(PathName(Normalise(path)))) in TextSuffixes
    ensures ReadSpec(disk[Normalise(path) := FileNode(content)], path) == Some(Truncated(ReadNewlines(content)))
  {
    var p := Normalise(path);
    var written := disk[p := FileNode(content)];
    assert p in written && written[p] == FileNode(content);
  }

  /** Short text without a carriage return reads back exactly as written. */
  lemma ReadAfterWritePlain(disk: map<string, Node>, path: string, content: string)
    requires Lower(Suffix(PathName(Normalise(path)))) in TextSuffixes
    requires |content| <= ReadLimit
    requires forall i :: 0 <= i < |content| ==> content[i] != '\r'
    ensures ReadSpec(disk[Normalise(path) := FileNode(content)], path) == Some(content)
  {
    ReadAfterWrite(disk, path, content);
    ReadNewlinesIdentity(content);
  }

  // ---------------------------------------------------------------------
  // Rewriting

  /** The memory after a write to `p`: the first item whose file path is `p` gets the new size. */
  function SizeUpdated(memory: seq<Memory>, p: string, size: nat): (r: seq<Memory>)
    ensures |r| == |memory|
    ensures forall i :: 0 <= i < |memory| && memory[i].filePath != p ==> r[i] == memory[i]
    ensures forall i :: 0 <= i < |memory| ==> r[i] == memory[i] || r[i] == memory[i].(size := Some(size))
    ensures match FirstIndex(memory, HasPath(p))
      case None => r == memory
      case Some(k) => r == memory[k := memory[k].(size := Some(size))]
  {
    match FirstIndex(memory, HasPath(p))
    case None => memory
    case Some(k) => memory[k := memory[k].(size := Some(size))]
  }

  function HasPath(p: string): Memory -> bool {
    (m: Memory) => m.filePath == p
  }

  /** Only the first item with that file path is touched, even when several share it. */
  lemma OnlyFirstSizeUpdated(memory: seq<Memory>, p: string, size: nat, i: nat, j: nat)
    requires i < j < |memory| && memory[i].filePath == p && memory[j].filePath == p
    ensures SizeUpdated(memory, p, size)[j] == memory[j]
  {
    match FirstIndex(memory, HasPath(p))
    case None =>
    case Some(k) => assert HasPath(p)(memory[i]);
  }

  /**
   * Writing to the path an item was recorded under, when that path starts
   * with "./" (as the fallback items' do), never updates that item: the
   * path is compared after the "./" is dropped.
   */
  lemma DotSlashItemsKeepSize(memory: seq<Memory>, size: nat, i: nat)
    requires i < |memory| && StartsWith(memory[i].filePath, "./")
    ensures SizeUpdated(memory, Normalise(memory[i].filePath), size)[i] == memory[i]
  {
    assert |Normalise(memory[i].filePath)| < |memory[i].filePath|;
  }

  // ---------------------------------------------------------------------
  // The registry

  class KnowledgeFileHandler {
    /** Whether a missing data directory loads the three fallback items. */
    const withFallback: bool
    var memory: seq<Memory>
    /** The files and directories under the backend directory. */
    var disk: map<string, Node>

    /** `__init__`: the data directory's listing (`None` when it does not exist) is loaded. */
    constructor(withFallback: bool, disk: map<string, Node>, root: Option<Option<seq<Entry>>>)
      ensures this.withFallback == withFallback && this.disk == disk
      ensures memory == LoadSpec(withFallback, root)
    {
      this.withFallback := withFallback;
      this.disk := disk;
      memory := [];
      new;
      LoadFromDirectory(root);
    }

    method LoadFromDirectory(root: Option<Option<seq<Entry>>>)
      modifies this`memory
      ensures memory == old(memory) + LoadSpec(withFallback, root)
    {
      match root
      case None =>
        if withFallback {
          memory := memory + Fallback;
        }
      case Some(listing) =>
        ScanDirectory(listing, DataDir, 0);
    }

    /** `_scan_directory`: appends the items of one listing, descending into each visible directory. */
    method ScanDirectory(listing: Option<seq<Entry>>, dir: string, depth: nat)
      modifies this`memory
      ensures memory == old(memory) + ScanListing(listing, dir, depth)
      decreases ScanDepth - depth
    {
      if depth >= ScanDepth || listing.None? {
        return;
      }
      var entries := listing.value;
      ghost var start := memory;
      for i := 0 to |entries|
        invariant memory == start + ScanEntries(entries[..i], dir, depth)
      {
        var e := entries[i];
        ScanEntriesStep(entries, i, dir, depth);
        if !IsHiddenName(e.name) {
          match e
          case FileEntry(name, size) =>
            memory := memory + [ScannedFile(dir, name, size)];
          case DirEntry(name, sub) =>
            memory := memory + [ScannedFolder(dir, name)];
            ScanDirectory(sub, dir + "/" + name, depth + 1);
        }
      }
      assert entries[..|entries|] == entries;
    }

    /**
     * `add_knowledge_file`: the first free name from the duplicate loop; when
     * the write succeeds (`writeOk`) the file is created and one item recorded.
     * The answer is the name used, or "" when the write fails.
     */
    method AddKnowledgeFile(filename: string, content: string, writeOk: bool) returns (saved: string)
      modifies this`memory, this`disk
      ensures writeOk ==> saved == FreeName(old(disk), filename, 2)
      ensures writeOk ==> disk == old(disk)[InData(saved) := FileNode(content)]
      ensures writeOk ==> memory == old(memory) + [SavedItem(saved, content)]
      ensures !writeOk ==> saved == "" && disk == old(disk) && memory == old(memory)
    {
      var name := filename;
      var counter := 2;
      while InData(name) in disk
        invariant FreeName(disk, name, counter) == FreeName(disk, filename, 2)
        decreases MaxPathLength(disk.Keys) + 1 - |InData(name)|
      {
        name := Renamed(name, counter);
        counter := counter + 1;
      }
      if !writeOk {
        return "";
      }
      disk := disk[InData(name) := FileNode(content)];
      memory := memory + [SavedItem(name, content)];
      saved := name;
    }

    method Search(query: string) returns (suggestions: seq<Suggestion>)
      ensures suggestions == SearchSpec(memory, query)
    {
      var q := Lower(query);
      var found: seq<Suggestion> := [];
      for i := 0 to |memory|
        invariant found == Numbered(Filter(memory[..i], NameStage(q)))
      {
        var m := memory[i];
        SearchStep(memory, i, q);
        if NameStage(q)(m) {
          found := found + [ToSuggestion(m, |found|)];
        }
      }
      assert memory[..|memory|] == memory;
      suggestions := found[..if |found| <= SearchLimit then |found| else SearchLimit];
    }

    method Add(item: Memory)
      modifies this`memory
      ensures memory == old(memory) + [item]
    {
      memory := memory + [item];
    }

    method FindByName(name: string) returns (r: Option<Memory>)
      ensures r.Some? ==> r.value.name == name && r.value in memory
      ensures r.Some? ==> exists i :: 0 <= i < |memory| && memory[i] == r.value && forall j :: 0 <= j < i ==> memory[j].name != name
      ensures r.None? ==> forall i :: 0 <= i < |memory| ==> memory[i].name != name
    {
      for i := 0 to |memory|
        invariant forall j :: 0 <= j < i ==> memory[j].name != name
      {
        if memory[i].name == name {
          return Some(memory[i]);
        }
      }
      return None;
    }

    function ReadFileContent(path: string): (r: Option<string>)
      reads this
      ensures r == ReadSpec(disk, path)
    {
      ReadSpec(disk, path)
    }

    /**
     * `write_file_content`: `false` for a missing path or a failed write;
     * otherwise the file is rewritten and the first item with that path gets
     * the new size.
     */
    method WriteFileContent(path: string, content: string, writeOk: bool) returns (ok: bool)
      modifies this`memory, this`disk
      ensures ok <==> Normalise(path) in old(disk) && writeOk && old(disk)[Normalise(path)].FileNode?
      ensures ok ==> disk == old(disk)[Normalise(path) := FileNode(content)]
      ensures ok ==> memory == SizeUpdated(old(memory), Normalise(path), Utf8Length(content))
      ensures !ok ==> disk == old(disk) && memory == old(memory)
    {
      var p := Normalise(path);
      if p !in disk || !writeOk || disk[p].DirNode? {
        return false;
      }
      disk := disk[p := FileNode(content)];
      var size := Utf8Length(content);
      for i := 0 to |memory|
        invariant memory == old(memory)
        invariant forall j :: 0 <= j < i ==> memory[j].filePath != p
      {
        if memory[i].filePath == p {
          memory := memory[i := memory[i].(size := Some(size))];
          return true;
        }
      }
      return true;
    }

    method Clear()
      modifies this`memory
      ensures memory == []
    {
      memory := [];
    }

    /** `refresh`: the registry is emptied and the directory loaded again. */
    method Refresh(root: Option<Option<seq<Entry>>>)
      modifies this`memory
      ensures memory == LoadSpec(withFallback, root)
    {
      Clear();
      LoadFromDirectory(root);
    }
  }
}
