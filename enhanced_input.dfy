// The chat composer of `EnhancedInput`: trigger-driven suggestions, file
// mentions and actions, uploads screened against an allowlist and size
// caps, and the send / knowledge-filename flow. The component's state is a
// `Composer` value; each handler is a function from the old state to the
// new one, and `ComposerBox` holds the state in fields the handlers update.
module EnhancedInput {
  import opened Wrappers
  import opened Strings
  import opened InputTriggers

  datatype AttachmentKind = FileKind | ImageKind

  datatype AttachmentItem = AttachmentItem(kind: AttachmentKind, name: string, url: Option<string>)

  /** A file picked in the browser; `objectUrl` is what `URL.createObjectURL` gives for it. */
  datatype UploadFile = UploadFile(name: string, size: nat, objectUrl: string)

  /** The component's props that the handlers read. */
  datatype Props = Props(isLoading: bool, hasOnStop: bool, isActionActive: bool)

  /** The arguments of one `onSend` call. */
  datatype Outgoing = Outgoing(
    message: string,
    attachments: Option<seq<AttachmentItem>>,
    action: Option<string>,
    knowledgeFilename: Option<string>)

  datatype SendResult = Stopped | DialogOpened | Sent(out: Outgoing) | NothingSent

  datatype Composer = Composer(
    input: string,
    showSuggestions: bool,
    suggestions: seq<Suggestion>,
    selectedIndex: nat,
    triggerType: Option<Trigger>,
    triggerPosition: nat,
    selectedFiles: seq<Suggestion>,
    attachments: seq<AttachmentItem>,
    selectedAction: Option<string>,
    filenameDialogOpen: bool,
    knowledgeFilename: string)

  const Initial := Composer("", false, [], 0, None, 0, [], [], None, false, "")

  /** An open suggestion list always has a selected entry; a file is mentioned at most once. */
  predicate Valid(c: Composer) {
    (c.showSuggestions ==> c.selectedIndex < |c.suggestions|) && UniqueIds(c.selectedFiles)
  }

  predicate HasId(files: seq<Suggestion>, id: string) {
    exists i :: 0 <= i < |files| && files[i].id == id
  }

  predicate UniqueIds(files: seq<Suggestion>) {
    forall i, j :: 0 <= i < j < |files| ==> files[i].id != files[j].id
  }

  // ---------------------------------------------------------------------
  // Typing and suggestions

  /** `handleInputChange`: store the text, then either ask for suggestions or close the list. */
  function InputChange(c: Composer, value: string, cursor: nat): (r: (Composer, Option<SuggestionRequest>))
    requires cursor <= |value|
    ensures Valid(c) ==> Valid(r.0)
  {
    var c1 := c.(input := value);
    match DetectTrigger(value, cursor)
    case Some(d) => (c1, Some(SuggestionRequest(d.trigger, Query(value, cursor, d), d.pos)))
    case None => (c1.(showSuggestions := false, triggerType := None), None)
  }

  /** A request goes out exactly for a trigger the reference rule accepts; otherwise the list closes. */
  lemma InputChangeRequests(c: Composer, value: string, cursor: nat, t: Trigger, p: nat)
    requires cursor <= |value|
    ensures var (c1, req) := InputChange(c, value, cursor);
      c1.input == value &&
      (req.Some? && req.value.trigger == t && req.value.pos == p <==> OpensTrigger(value, cursor, p, t)) &&
      (req.None? ==> !c1.showSuggestions && c1.triggerType.None?)
  {
    DetectTriggerIff(value, cursor, t, p);
  }

  /** The `.then` of the fetch in `handleInputChange`. */
  function ReceiveSuggestions(c: Composer, req: SuggestionRequest, items: seq<Suggestion>): (r: Composer)
    ensures Valid(c) ==> Valid(r)
    ensures r.showSuggestions <==> |items| > 0
    ensures r.triggerType == Some(req.trigger) && r.triggerPosition == req.pos
  {
    c.(suggestions := items, showSuggestions := |items| > 0, triggerType := Some(req.trigger),
       triggerPosition := req.pos, selectedIndex := 0)
  }

  /** `openAtMenu`: the '@' button lists all files; the trigger position is left as it was. */
  function OpenAtMenu(c: Composer, items: seq<Suggestion>): (r: Composer)
    ensures Valid(c) ==> Valid(r)
    ensures r.showSuggestions <==> |items| > 0
    ensures r.triggerType == Some(At) && r.triggerPosition == c.triggerPosition
  {
    c.(suggestions := items, showSuggestions := |items| > 0, triggerType := Some(At), selectedIndex := 0)
  }

  // ---------------------------------------------------------------------
  // Selecting a suggestion

  /** Mentioning a file adds it unless a file with the same id is already mentioned. */
  function AddFile(files: seq<Suggestion>, s: Suggestion): (r: seq<Suggestion>)
    ensures files <= r && |r| <= |files| + 1
    ensures forall id :: HasId(r, id) <==> HasId(files, id) || id == s.id
    ensures UniqueIds(files) ==> UniqueIds(r)
  {
    if HasId(files, s.id) then files
    else
      var r := files + [s];
      assert r[|files|].id == s.id;
      assert forall i :: 0 <= i < |files| ==> r[i] == files[i];
      r
  }

  /**
   * `input.substring(0, triggerPosition) + input.substring(selectionStart || input.length)`:
   * `substring` clamps, and a cursor at 0 counts as the end of the input.
   */
  function RemoveTriggerText(input: string, triggerPosition: nat, cursor: nat): string {
    input[..Clamp(triggerPosition, |input|)] + input[RestStart(input, cursor)..]
  }

  /** Right after a detection the splice cuts out exactly the trigger and its query. */
  lemma RemoveDetectedTrigger(value: string, cursor: nat)
    requires cursor <= |value| && DetectTrigger(value, cursor).Some?
    ensures var p := DetectTrigger(value, cursor).value.pos;
      var r := RemoveTriggerText(value, p, cursor);
      r == value[..p] + value[cursor..] &&
      |r| == |value| - (cursor - p) &&
      r[..p] + value[p..cursor] + r[p..] == value
  {
    var p := DetectTrigger(value, cursor).value.pos;
    var r := RemoveTriggerText(value, p, cursor);
    assert r[..p] == value[..p];
    assert r[p..] == value[cursor..];
    assert value[..p] + value[p..cursor] + value[cursor..] == value;
  }

  /** A cursor reported as 0 drops everything from the trigger on. */
  lemma RemoveAtCursorZero(input: string, triggerPosition: nat)
    requires triggerPosition <= |input|
    ensures RemoveTriggerText(input, triggerPosition, 0) == input[..triggerPosition]
  {
  }

  /** `selectSuggestion`: '@' mentions the file, '/' picks the action, and the trigger text goes. */
  function SelectSuggestion(c: Composer, s: Suggestion, cursor: nat): (r: Composer)
    ensures Valid(c) ==> Valid(r)
    ensures c.triggerType.None? ==> r == c
    ensures c.triggerType == Some(At) ==> r.selectedFiles == AddFile(c.selectedFiles, s) && r.selectedAction == c.selectedAction
    ensures c.triggerType == Some(Slash) ==> r.selectedAction == Some(s.title) && r.selectedFiles == c.selectedFiles
    ensures c.triggerType.Some? ==>
      r.input == RemoveTriggerText(c.input, c.triggerPosition, cursor) && !r.showSuggestions && r.triggerType.None?
    ensures r.attachments == c.attachments && r.suggestions == c.suggestions
  {
    if c.triggerType.None? then c
    else
      var c1 := if c.triggerType == Some(At) then c.(selectedFiles := AddFile(c.selectedFiles, s))
                else c.(selectedAction := Some(s.title));
      c1.(input := RemoveTriggerText(c.input, c.triggerPosition, cursor), showSuggestions := false, triggerType := None)
  }

  /** `removeSelectedFile`: drop every mention with that id. */
  function RemoveSelectedFile(files: seq<Suggestion>, id: string): (r: seq<Suggestion>)
    ensures |r| <= |files|
    decreases |files|
  {
    if |files| == 0 then []
    else if files[0].id == id then RemoveSelectedFile(files[1..], id)
    else [files[0]] + RemoveSelectedFile(files[1..], id)
  }

  lemma HasIdCons(x: Suggestion, rest: seq<Suggestion>, k: string)
    ensures HasId([x] + rest, k) <==> x.id == k || HasId(rest, k)
  {
    var s := [x] + rest;
    assert s[0] == x;
    if HasId(s, k) && x.id != k {
      var i :| 0 <= i < |s| && s[i].id == k;
      assert rest[i - 1] == s[i];
    }
    if HasId(rest, k) {
      var i :| 0 <= i < |rest| && rest[i].id == k;
      assert s[i + 1] == rest[i];
    }
  }

  lemma UniqueCons(x: Suggestion, rest: seq<Suggestion>)
    ensures UniqueIds([x] + rest) <==> !HasId(rest, x.id) && UniqueIds(rest)
  {
    var s := [x] + rest;
    assert s[0] == x;
    if UniqueIds(s) {
      forall i | 0 <= i < |rest| ensures rest[i].id != x.id {
        assert s[i + 1] == rest[i];
      }
      forall i, j | 0 <= i < j < |rest| ensures rest[i].id != rest[j].id {
        assert rest[i] == s[i + 1] && rest[j] == s[j + 1];
      }
    }
    if !HasId(rest, x.id) && UniqueIds(rest) {
      forall i, j | 0 <= i < j < |s| ensures s[i].id != s[j].id {
        if i == 0 {
          assert s[j] == rest[j - 1];
          assert rest[j - 1].id != x.id;
        } else {
          assert s[i] == rest[i - 1] && s[j] == rest[j - 1];
        }
      }
    }
  }

  /** After removal exactly the other ids are left. */
  lemma {:induction false} RemovedIds(files: seq<Suggestion>, id: string, k: string)
    ensures HasId(RemoveSelectedFile(files, id), k) <==> HasId(files, k) && k != id
    decreases |files|
  {
    if |files| > 0 {
      assert files == [files[0]] + files[1..];
      HasIdCons(files[0], files[1..], k);
      RemovedIds(files[1..], id, k);
      if files[0].id != id {
        HasIdCons(files[0], RemoveSelectedFile(files[1..], id), k);
      }
    }
  }

  /** Removal keeps the mentions free of duplicates. */
  lemma {:induction false} RemovalKeepsUnique(files: seq<Suggestion>, id: string)
    requires UniqueIds(files)
    ensures UniqueIds(RemoveSelectedFile(files, id))
    decreases |files|
  {
    if |files| > 0 {
      assert files == [files[0]] + files[1..];
      UniqueCons(files[0], files[1..]);
      RemovalKeepsUnique(files[1..], id);
      if files[0].id != id {
        RemovedIds(files[1..], id, files[0].id);
        UniqueCons(files[0], RemoveSelectedFile(files[1..], id));
      }
    }
  }

  /** `removeAttachment`: keep every attachment except the one at `index`. */
  function RemoveAttachment(atts: seq<AttachmentItem>, index: nat): (r: seq<AttachmentItem>)
    ensures index < |atts| ==> |r| == |atts| - 1 && r == atts[..index] + atts[index + 1..]
    ensures index >= |atts| ==> r == atts
  {
    if index < |atts| then atts[..index] + atts[index + 1..] else atts
  }

  // ---------------------------------------------------------------------
  // Keys and sending

  /** The attachments sent along: mentioned files by label, then the uploads. */
  function AllAttachments(c: Composer): (r: seq<AttachmentItem>)
    ensures |r| == |c.selectedFiles| + |c.attachments|
    ensures forall i :: 0 <= i < |c.selectedFiles| ==> r[i] == AttachmentItem(FileKind, c.selectedFiles[i].title, None)
    ensures r[|c.selectedFiles|..] == c.attachments
  {
    seq(|c.selectedFiles|, i requires 0 <= i < |c.selectedFiles| => AttachmentItem(FileKind, c.selectedFiles[i].title, None))
      + c.attachments
  }

  /** `selectedAction || undefined`: an empty label is no action. */
  function ActionParam(a: Option<string>): (r: Option<string>)
    ensures r.Some? <==> a.Some? && a.value != ""
    ensures r.Some? ==> r == a
  {
    if a.Some? && a.value != "" then a else None
  }

  /** After a send the composer is empty again. */
  function Cleared(c: Composer): Composer {
    c.(input := "", selectedFiles := [], attachments := [], selectedAction := None, showSuggestions := false)
  }

  function HasAttachments(c: Composer): bool {
    |c.selectedFiles| > 0 || |c.attachments| > 0
  }

  /** `handleSend`. */
  function Send(c: Composer, props: Props): (r: (Composer, SendResult))
    ensures Valid(c) ==> Valid(r.0)
  {
    if props.isLoading && props.hasOnStop then (c, Stopped)
    else if c.selectedAction == Some("add_knowledge") && HasAttachments(c) then
      (c.(filenameDialogOpen := true), DialogOpened)
    else if JsTrim(c.input) != "" || HasAttachments(c) || props.isActionActive then
      var all := AllAttachments(c);
      (Cleared(c), Sent(Outgoing(JsTrim(c.input), if |all| > 0 then Some(all) else None, ActionParam(c.selectedAction), None)))
    else (c, NothingSent)
  }

  /** The four outcomes of a send, in the order the handler tries them. */
  lemma SendOutcomes(c: Composer, props: Props)
    ensures var (c1, r) := Send(c, props);
      (r == Stopped <==> props.isLoading && props.hasOnStop) &&
      (r == DialogOpened <==>
        !(props.isLoading && props.hasOnStop) && c.selectedAction == Some("add_knowledge") && HasAttachments(c)) &&
      (r.Sent? <==>
        !(props.isLoading && props.hasOnStop) && !(c.selectedAction == Some("add_knowledge") && HasAttachments(c)) &&
        (JsTrim(c.input) != "" || HasAttachments(c) || props.isActionActive)) &&
      (!r.Sent? ==> c1.input == c.input && c1.selectedFiles == c.selectedFiles && c1.attachments == c.attachments) &&
      (c1.filenameDialogOpen <==> c.filenameDialogOpen || r == DialogOpened)
  {
  }

  /** A sent message carries the trimmed text, every attachment and the action, and the composer empties. */
  lemma SentMessage(c: Composer, props: Props)
    requires Send(c, props).1.Sent?
    ensures var (c1, r) := Send(c, props);
      r.out.message == JsTrim(c.input) &&
      (r.out.attachments.Some? <==> HasAttachments(c)) &&
      (r.out.attachments.Some? ==> r.out.attachments.value == AllAttachments(c)) &&
      r.out.action == ActionParam(c.selectedAction) && r.out.knowledgeFilename.None? &&
      c1.input == "" && c1.selectedFiles == [] && c1.attachments == [] && c1.selectedAction.None?
  {
  }

  /** `handleKeyDown`: with the list open the arrows move, Enter selects and Escape closes; a plain Enter otherwise sends. */
  function KeyDown(c: Composer, key: Key, shift: bool, cursor: nat, props: Props): (r: (Composer, SendResult))
    requires Valid(c)
    ensures Valid(r.0)
  {
    if c.showSuggestions then
      match key
      case ArrowDown => (c.(selectedIndex := NextIndex(c.selectedIndex, |c.suggestions|)), NothingSent)
      case ArrowUp => (c.(selectedIndex := PrevIndex(c.selectedIndex, |c.suggestions|)), NothingSent)
      case Enter => if shift then (c, NothingSent) else (SelectSuggestion(c, c.suggestions[c.selectedIndex], cursor), NothingSent)
      case Escape => (c.(showSuggestions := false), NothingSent)
      case OtherKey => (c, NothingSent)
    else if key == Enter && !shift then Send(c, props)
    else (c, NothingSent)
  }

  /** Only a plain Enter with the list closed reaches `handleSend`; every other key leaves the text alone unless it picks a suggestion. */
  lemma KeyDownRouting(c: Composer, key: Key, shift: bool, cursor: nat, props: Props)
    requires Valid(c)
    ensures var (c1, r) := KeyDown(c, key, shift, cursor, props);
      (r != NothingSent ==> key == Enter && !shift && !c.showSuggestions) &&
      (key == Enter && !shift && !c.showSuggestions ==> (c1, r) == Send(c, props)) &&
      (key != Enter ==> c1.input == c.input && c1.selectedFiles == c.selectedFiles && c1.selectedAction == c.selectedAction) &&
      (c.showSuggestions && key == Enter && !shift ==>
        c1 == SelectSuggestion(c, c.suggestions[c.selectedIndex], cursor))
  {
  }

  // ---------------------------------------------------------------------
  // The knowledge-filename dialog

  /** `/\.[^/.]+$/`: a dot followed, up to the end, by one or more characters that are neither '/' nor '.'. */
  predicate HasExtension(s: string) {
    exists k :: 0 <= k && k + 1 < |s| && s[k] == '.' && forall j :: k < j < |s| ==> s[j] != '.' && s[j] != '/'
  }

  /** The regular-expression test, decided from the last dot. */
  function EndsWithExtension(s: string): bool {
    match LastIndexOfChar(s, '.')
    case None => false
    case Some(k) => k + 1 < |s| && '/' !in s[k + 1..]
  }

  lemma NotInTail(s: string, k: nat, c: char)
    requires k < |s|
    ensures c !in s[k + 1..] <==> forall j :: k < j < |s| ==> s[j] != c
  {
    if c !in s[k + 1..] {
      forall j | k < j < |s| ensures s[j] != c {
        assert s[j] == s[k + 1..][j - k - 1];
      }
    }
  }

  lemma EndsWithExtensionIff(s: string)
    ensures EndsWithExtension(s) <==> HasExtension(s)
  {
    match LastIndexOfChar(s, '.')
    case None =>
    case Some(k) =>
      NotInTail(s, k, '.');
      NotInTail(s, k, '/');
      if HasExtension(s) {
        var k' :| 0 <= k' && k' + 1 < |s| && s[k'] == '.' && forall j :: k' < j < |s| ==> s[j] != '.' && s[j] != '/';
        NotInTail(s, k', '.');
        LastIndexUnique(s, '.', k');
      }
  }

  lemma AppendedTxtHasExtension(f: string)
    ensures HasExtension(f + ".txt")
  {
    var s := f + ".txt";
    assert s[|f|] == '.';
    assert forall j :: |f| < j < |s| ==> s[j] == ".txt"[j - |f|];
  }

  /** The confirmed name: the trimmed input, with ".txt" added when it has no extension; `None` when blank. */
  function FinalFilename(name: string): (r: Option<string>)
    ensures r.None? <==> JsTrim(name) == ""
    ensures r.Some? ==> HasExtension(r.value) && StartsWith(r.value, JsTrim(name))
    ensures r.Some? ==> (r.value == JsTrim(name) <==> HasExtension(JsTrim(name)))
  {
    var f := JsTrim(name);
    EndsWithExtensionIff(f);
    AppendedTxtHasExtension(f);
    if f == "" then None
    else if EndsWithExtension(f) then Some(f)
    else Some(f + ".txt")
  }

  /** `handleConfirmFilename`: a blank name changes nothing; otherwise send with the name and reset. */
  function ConfirmFilename(c: Composer): (r: (Composer, Option<Outgoing>))
    ensures Valid(c) ==> Valid(r.0)
    ensures r.1.None? <==> JsTrim(c.knowledgeFilename) == ""
    ensures r.1.None? ==> r.0 == c
    ensures r.1.Some? ==>
      r.1.value == Outgoing(JsTrim(c.input), Some(AllAttachments(c)), ActionParam(c.selectedAction), FinalFilename(c.knowledgeFilename)) &&
      r.0 == Cleared(c).(filenameDialogOpen := false, knowledgeFilename := "")
  {
    match FinalFilename(c.knowledgeFilename)
    case None => (c, None)
    case Some(name) =>
      (Cleared(c).(filenameDialogOpen := false, knowledgeFilename := ""),
       Some(Outgoing(JsTrim(c.input), Some(AllAttachments(c)), ActionParam(c.selectedAction), Some(name))))
  }

  // ---------------------------------------------------------------------
  // Upload screening

  const AllowedExtensions: seq<string> := [
    ".txt", ".md", ".py", ".js", ".ts", ".tsx", ".jsx",
    ".json", ".xml", ".yaml", ".yml", ".toml", ".ini", ".cfg",
    ".sql", ".sh", ".bat", ".ps1", ".php", ".rb", ".go",
    ".rs", ".c", ".cpp", ".h", ".hpp", ".java", ".kt",
    ".swift", ".dart", ".lua", ".pl", ".r", ".m", ".scss",
    ".css", ".html", ".htm", ".vue", ".svelte", ".astro",
    ".log", ".csv", ".tsv", ".gitignore", ".env", ".dockerfile",
    ".makefile", ".cmake", ".gradle", ".properties"]

  const MaxFileSize: nat := 5 * 1024 * 1024
  const MaxTotalSize: nat := 20 * 1024 * 1024

  /** Size assumed for each earlier attachment that has a url. */
  const AttachmentEstimate: nat := 1024

  /** `'.' + name.split('.').pop().toLowerCase()`. */
  function FileExtension(name: string): (r: string)
    ensures r == "." + Lower(AfterLast(name, '.'))
  {
    var pieces := Split(name, '.');
    SplitLastPiece(name, '.');
    "." + Lower(pieces[|pieces| - 1])
  }

  datatype UploadError =
    | TypeNotAllowed(name: string, extension: string)
    | FileTooLarge(name: string, size: nat)
    | TotalTooLarge(name: string)

  /** The three checks on one file, given the running total so far and the allowlist (the handler passes `AllowedExtensions`). */
  function CheckFile(f: UploadFile, total: nat, allowed: seq<string>): (r: Option<UploadError>)
    ensures r.None? <==>
      FileExtension(f.name) in allowed && f.size <= MaxFileSize && total + f.size <= MaxTotalSize
  {
    var ext := FileExtension(f.name);
    if ext !in allowed then Some(TypeNotAllowed(f.name, ext))
    else if f.size > MaxFileSize then Some(FileTooLarge(f.name, f.size))
    else if total + f.size > MaxTotalSize then Some(TotalTooLarge(f.name))
    else None
  }

  datatype Screening = Screening(valid: seq<UploadFile>, errors: seq<UploadError>, total: nat)

  /** The validation pass over the picked files, from a starting total. */
  function Screen(files: seq<UploadFile>, start: nat, allowed: seq<string>): Screening
    decreases |files|
  {
    if |files| == 0 then Screening([], [], start)
    else
      var prev := Screen(files[..|files| - 1], start, allowed);
      var f := files[|files| - 1];
      match CheckFile(f, prev.total, allowed)
      case Some(e) => Screening(prev.valid, prev.errors + [e], prev.total)
      case None => Screening(prev.valid + [f], prev.errors, prev.total + f.size)
  }

  function SumSizes(files: seq<UploadFile>): nat {
    if |files| == 0 then 0 else SumSizes(files[..|files| - 1]) + files[|files| - 1].size
  }

  /** Every picked file is either accepted or reported, and the total grows by exactly the accepted sizes. */
  lemma {:induction false} ScreenAccounts(files: seq<UploadFile>, start: nat, allowed: seq<string>)
    ensures var r := Screen(files, start, allowed);
      |r.valid| + |r.errors| == |files| && r.total == start + SumSizes(r.valid)
  {
    if |files| > 0 {
      var prev := Screen(files[..|files| - 1], start, allowed);
      ScreenLast(files, start, allowed);
      ScreenAccounts(files[..|files| - 1], start, allowed);
      var f := files[|files| - 1];
      if CheckFile(f, prev.total, allowed).None? {
        assert (prev.valid + [f])[..|prev.valid|] == prev.valid;
      }
    }
  }

  /** One step of the pass: the last file is either appended to the accepted ones or reported. */
  lemma ScreenLast(files: seq<UploadFile>, start: nat, allowed: seq<string>)
    requires |files| > 0
    ensures var prev := Screen(files[..|files| - 1], start, allowed);
      var f := files[|files| - 1];
      var r := Screen(files, start, allowed);
      (CheckFile(f, prev.total, allowed).None? ==> r == Screening(prev.valid + [f], prev.errors, prev.total + f.size)) &&
      (CheckFile(f, prev.total, allowed).Some? ==> r == Screening(prev.valid, prev.errors + [CheckFile(f, prev.total, allowed).value], prev.total))
  {
  }

  predicate Acceptable(f: UploadFile, allowed: seq<string>) {
    FileExtension(f.name) in allowed && f.size <= MaxFileSize
  }

  /** Accepted files are picked files on the allowlist and within the per-file cap. */
  lemma {:induction false} ScreenAccepted(files: seq<UploadFile>, start: nat, allowed: seq<string>)
    ensures var r := Screen(files, start, allowed);
      forall i :: 0 <= i < |r.valid| ==> Acceptable(r.valid[i], allowed) && r.valid[i] in files
  {
    if |files| > 0 {
      var init := files[..|files| - 1];
      var prev := Screen(init, start, allowed);
      var f := files[|files| - 1];
      ScreenLast(files, start, allowed);
      ScreenAccepted(init, start, allowed);
      assert forall x :: x in init ==> x in files;
      if CheckFile(f, prev.total, allowed).None? {
        var v := prev.valid + [f];
        assert forall i :: 0 <= i < |prev.valid| ==> v[i] == prev.valid[i];
      }
    }
  }

  /** The running total never passes the cap it started under. */
  lemma {:induction false} ScreenWithinCap(files: seq<UploadFile>, start: nat, allowed: seq<string>)
    ensures var r := Screen(files, start, allowed);
      start <= r.total && (start <= MaxTotalSize ==> r.total <= MaxTotalSize)
  {
    if |files| > 0 {
      ScreenLast(files, start, allowed);
      ScreenWithinCap(files[..|files| - 1], start, allowed);
    }
  }

  /** No error means every picked file was accepted, in order. */
  lemma {:induction false} ScreenWithoutErrors(files: seq<UploadFile>, start: nat, allowed: seq<string>)
    requires Screen(files, start, allowed).errors == []
    ensures Screen(files, start, allowed).valid == files
  {
    if |files| > 0 {
      var init := files[..|files| - 1];
      var prev := Screen(init, start, allowed);
      var f := files[|files| - 1];
      ScreenLast(files, start, allowed);
      assert CheckFile(f, prev.total, allowed).None?;
      ScreenWithoutErrors(init, start, allowed);
      assert init + [f] == files;
    }
  }

  /** A file over the per-file cap is always reported. */
  lemma {:induction false} OversizedFileRejected(files: seq<UploadFile>, start: nat, allowed: seq<string>, i: nat)
    requires i < |files| && files[i].size > MaxFileSize
    ensures Screen(files, start, allowed).errors != []
    decreases |files|
  {
    var init := files[..|files| - 1];
    if i < |files| - 1 {
      assert init[i] == files[i];
      OversizedFileRejected(init, start, allowed, i);
    }
  }

  /** The validation `forEach`: the three checks in order, growing the total by each accepted size. */
  method ScreenFiles(files: seq<UploadFile>, start: nat, allowed: seq<string>) returns (validFiles: seq<UploadFile>, errors: seq<UploadError>, total: nat)
    ensures Screening(validFiles, errors, total) == Screen(files, start, allowed)
  {
    validFiles, errors, total := [], [], start;
    for i := 0 to |files|
      invariant Screen(files[..i], start, allowed) == Screening(validFiles, errors, total)
    {
      assert files[..i + 1][..i] == files[..i];
      var f := files[i];
      var ext := FileExtension(f.name);
      if ext !in allowed {
        errors := errors + [TypeNotAllowed(f.name, ext)];
      } else if f.size > MaxFileSize {
        errors := errors + [FileTooLarge(f.name, f.size)];
      } else if total + f.size > MaxTotalSize {
        errors := errors + [TotalTooLarge(f.name)];
      } else {
        validFiles := validFiles + [f];
        total := total + f.size;
      }
    }
    assert files[..|files|] == files;
  }

  /** The starting total: 1024 for each attachment that has a url. */
  function StartTotal(atts: seq<AttachmentItem>): nat {
    if |atts| == 0 then 0
    else StartTotal(atts[..|atts| - 1]) + (if atts[|atts| - 1].url.Some? then AttachmentEstimate else 0)
  }

  function AttachmentOf(f: UploadFile): AttachmentItem {
    AttachmentItem(FileKind, f.name, Some(f.objectUrl))
  }

  function AsAttachments(files: seq<UploadFile>): (r: seq<AttachmentItem>)
    ensures |r| == |files|
  {
    if |files| == 0 then [] else AsAttachments(files[..|files| - 1]) + [AttachmentOf(files[|files| - 1])]
  }

  /** `handleFileUpload`: all files or none. */
  function Upload(c: Composer, files: seq<UploadFile>): (r: (Composer, seq<UploadError>))
    ensures Valid(c) ==> Valid(r.0)
    ensures r.1 == Screen(files, StartTotal(c.attachments), AllowedExtensions).errors
    ensures r.1 != [] ==> r.0 == c
    ensures r.1 == [] ==> r.0 == c.(attachments := c.attachments + AsAttachments(files))
  {
    var s := Screen(files, StartTotal(c.attachments), AllowedExtensions);
    if |s.errors| > 0 then (c, s.errors)
    else
      ScreenWithoutErrors(files, StartTotal(c.attachments), AllowedExtensions);
      (c.(attachments := c.attachments + AsAttachments(s.valid)), [])
  }

  // ---------------------------------------------------------------------
  // The component

  class ComposerBox {
    var input: string
    var showSuggestions: bool
    var suggestions: seq<Suggestion>
    var selectedIndex: nat
    var triggerType: Option<Trigger>
    var triggerPosition: nat
    var selectedFiles: seq<Suggestion>
    var attachments: seq<AttachmentItem>
    var selectedAction: Option<string>
    var filenameDialogOpen: bool
    var knowledgeFilename: string

    function State(): Composer
      reads this
    {
      Composer(input, showSuggestions, suggestions, selectedIndex, triggerType, triggerPosition,
               selectedFiles, attachments, selectedAction, filenameDialogOpen, knowledgeFilename)
    }

    constructor()
      ensures State() == Initial && Valid(State())
    {
      input, showSuggestions, suggestions, selectedIndex := "", false, [], 0;
      triggerType, triggerPosition, selectedFiles, attachments := None, 0, [], [];
      selectedAction, filenameDialogOpen, knowledgeFilename := None, false, "";
    }

    /** Store a whole new state, as React does after the handler's setters run. */
    method Commit(c: Composer)
      modifies this
      ensures State() == c
    {
      input, showSuggestions, suggestions, selectedIndex := c.input, c.showSuggestions, c.suggestions, c.selectedIndex;
      triggerType, triggerPosition, selectedFiles := c.triggerType, c.triggerPosition, c.selectedFiles;
      attachments, selectedAction, filenameDialogOpen := c.attachments, c.selectedAction, c.filenameDialogOpen;
      knowledgeFilename := c.knowledgeFilename;
    }

    method HandleInputChange(value: string, cursor: nat) returns (request: Option<SuggestionRequest>)
      requires cursor <= |value|
      modifies this
      ensures (State(), request) == InputChange(old(State()), value, cursor)
    {
      var r := InputChange(State(), value, cursor);
      Commit(r.0);
      request := r.1;
    }

    method SuggestionsArrived(req: SuggestionRequest, items: seq<Suggestion>)
      modifies this
      ensures State() == ReceiveSuggestions(old(State()), req, items)
    {
      Commit(ReceiveSuggestions(State(), req, items));
    }

    method HandleKeyDown(key: Key, shift: bool, cursor: nat, props: Props) returns (result: SendResult)
      requires Valid(State())
      modifies this
      ensures Valid(State())
      ensures (State(), result) == KeyDown(old(State()), key, shift, cursor, props)
    {
      var r := KeyDown(State(), key, shift, cursor, props);
      Commit(r.0);
      result := r.1;
    }

    method HandleSend(props: Props) returns (result: SendResult)
      modifies this
      ensures (State(), result) == Send(old(State()), props)
    {
      var r := Send(State(), props);
      Commit(r.0);
      result := r.1;
    }

    /** A click on a suggestion; a plain Enter reaches the same handler through `HandleKeyDown`. */
    method HandleSelectSuggestion(s: Suggestion, cursor: nat)
      modifies this
      ensures State() == SelectSuggestion(old(State()), s, cursor)
    {
      Commit(SelectSuggestion(State(), s, cursor));
    }

    method HandleOpenAtMenu(items: seq<Suggestion>)
      modifies this
      ensures State() == OpenAtMenu(old(State()), items)
    {
      Commit(OpenAtMenu(State(), items));
    }

    method HandleRemoveSelectedFile(id: string)
      modifies this`selectedFiles
      ensures selectedFiles == RemoveSelectedFile(old(selectedFiles), id)
    {
      selectedFiles := RemoveSelectedFile(selectedFiles, id);
    }

    method HandleRemoveAttachment(index: nat)
      modifies this`attachments
      ensures attachments == RemoveAttachment(old(attachments), index)
    {
      attachments := RemoveAttachment(attachments, index);
    }

    /** The dialog's text field. */
    method TypeKnowledgeFilename(name: string)
      modifies this`knowledgeFilename
      ensures knowledgeFilename == name
    {
      knowledgeFilename := name;
    }

    method HandleConfirmFilename() returns (sent: Option<Outgoing>)
      modifies this
      ensures (State(), sent) == ConfirmFilename(old(State()))
    {
      var r := ConfirmFilename(State());
      Commit(r.0);
      sent := r.1;
    }

    /** The estimate loop over the existing attachments. */
    method EstimateTotal() returns (total: nat)
      ensures total == StartTotal(attachments)
    {
      total := 0;
      for i := 0 to |attachments|
        invariant total == StartTotal(attachments[..i])
      {
        assert attachments[..i + 1][..i] == attachments[..i];
        if attachments[i].url.Some? {
          total := total + AttachmentEstimate;
        }
      }
      assert attachments[..|attachments|] == attachments;
    }

    /** Append one attachment per accepted file, as the `forEach` over the valid files does. */
    method AppendUploads(validFiles: seq<UploadFile>)
      modifies this`attachments
      ensures attachments == old(attachments) + AsAttachments(validFiles)
    {
      for i := 0 to |validFiles|
        invariant attachments == old(attachments) + AsAttachments(validFiles[..i])
      {
        assert validFiles[..i + 1][..i] == validFiles[..i];
        attachments := attachments + [AttachmentOf(validFiles[i])];
      }
      assert validFiles[..|validFiles|] == validFiles;
    }

    /** `handleFileUpload`: estimate, screen, and append only when nothing was rejected. */
    method HandleFileUpload(files: seq<UploadFile>) returns (errors: seq<UploadError>)
      modifies this`attachments
      ensures (State(), errors) == Upload(old(State()), files)
    {
      var start := EstimateTotal();
      var validFiles, total;
      validFiles, errors, total := ScreenFiles(files, start, AllowedExtensions);
      if |errors| > 0 {
        return;
      }
      ScreenWithoutErrors(files, start, AllowedExtensions);
      AppendUploads(validFiles);
    }
  }
}
