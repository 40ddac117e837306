// The REST routes of the backend that do more than pass a call through:
// the file-name sanitiser of /generate-filename, the attachment formatting
// of /actions/execute (shared with the streaming endpoint), the counts of
// /stats, and the error answers of /files/content and /actions/execute.
module Routes {
  import opened Wrappers
  import opened Strings
  import opened Lists
  import opened MemoryTypes
  import Actions
  import KnowledgeFiles
  import Llm

  // ---------------------------------------------------------------------
  // /generate-filename

  /** One chunk of the model's stream: its `type` and `content` keys. */
  datatype StreamPiece = StreamPiece(kind: Option<string>, content: Option<string>)

  predicate IsContentPiece(p: StreamPiece) {
    p.kind == Some("content")
  }

  /** The text of the content chunks, in order; other chunks add nothing. */
  function CollectedContent(pieces: seq<StreamPiece>): (r: string)
    ensures (forall i :: 0 <= i < |pieces| ==> !IsContentPiece(pieces[i])) ==> r == ""
    decreases |pieces|
  {
    if |pieces| == 0 then ""
    else
      var last := pieces[|pieces| - 1];
      CollectedContent(pieces[..|pieces| - 1]) + if IsContentPiece(last) then last.content.GetOr("") else ""
  }

  predicate IsFilenameChar(c: char) {
    'a' <= c <= 'z' || '0' <= c <= '9' || c == '_'
  }

  predicate IsUnderscore(c: char) {
    c == '_'
  }

  /** No two underscores stand side by side: the text holds no "__". */
  predicate NoDoubleUnderscore(s: string) {
    Separated(s, IsUnderscore)
  }

  function SpacesToUnderscores(s: string): (r: string)
    ensures |r| == |s|
    ensures forall i :: 0 <= i < |s| ==> r[i] == (if s[i] == ' ' then '_' else s[i])
  {
    seq(|s|, i requires 0 <= i < |s| => if s[i] == ' ' then '_' else s[i])
  }

  const DefaultFilename := "knowledge_file"

  /** The sanitising steps before the empty check. */
  function CleanFilename(text: string): (r: string)
    ensures forall i :: 0 <= i < |r| ==> IsFilenameChar(r[i])
    ensures NoDoubleUnderscore(r)
  {
    var kept := Filter(SpacesToUnderscores(Lower(PyStrip(text))), IsFilenameChar);
    ReplaceRunsSeparated(kept, IsUnderscore, '_');
    ReplaceRuns(kept, IsUnderscore, '_')
  }

  /**
   * The name /generate-filename answers with: the model's text stripped,
   * lower-cased, spaces made underscores, everything but [a-z0-9_] dropped
   * and runs of underscores collapsed; "knowledge_file" when nothing is left.
   */
  function GeneratedFilename(text: string): (r: string)
    ensures |r| > 0
    ensures forall i :: 0 <= i < |r| ==> IsFilenameChar(r[i])
    ensures NoDoubleUnderscore(r)
    ensures CleanFilename(text) == "" ==> r == DefaultFilename
  {
    var clean := CleanFilename(text);
    if clean == "" then DefaultFilename else clean
  }

  /** A non-empty name of [a-z0-9_] without "__" comes through the sanitiser unchanged. */
  lemma CleanNameFixed(name: string)
    requires |name| > 0
    requires forall i :: 0 <= i < |name| ==> IsFilenameChar(name[i])
    requires NoDoubleUnderscore(name)
    ensures GeneratedFilename(name) == name
  {
    FilenameCharsPlain(name);
    TrimNothing(name, IsPySpace);
    FilterAll(name, IsFilenameChar);
    ReplaceRunsIdentity(name, IsUnderscore, '_');
  }

  /** [a-z0-9_] holds no whitespace, no capital and no space. */
  lemma FilenameCharsPlain(name: string)
    requires forall i :: 0 <= i < |name| ==> IsFilenameChar(name[i])
    ensures forall i :: 0 <= i < |name| ==> !IsPySpace(name[i])
    ensures Lower(name) == name
    ensures SpacesToUnderscores(name) == name
  {
  }

  /** Sanitising a sanitised name changes nothing. */
  lemma GeneratedFilenameIdempotent(text: string)
    ensures GeneratedFilename(GeneratedFilename(text)) == GeneratedFilename(text)
  {
    CleanNameFixed(GeneratedFilename(text));
  }

  // ---------------------------------------------------------------------
  // Formatting attachments into the action's input

  /** `c * n`. */
  function Rule(c: char, n: nat): (r: string)
    ensures |r| == n && forall i :: 0 <= i < n ==> r[i] == c
  {
    seq(n, i => c)
  }

  /** `if att_content:`: the content is present and not empty. */
  predicate HasContent(a: Actions.Attachment) {
    a.content.Some? && a.content.value != ""
  }

  /** `f" ({att_size} bytes)" if att_size else ""`. */
  function SizeInfo(a: Actions.Attachment): (r: string)
    ensures r == "" <==> a.size.None? || a.size.value == 0
    ensures a.size.Some? && a.size.value != 0 ==> r == " (" + NatToString(a.size.value) + " bytes)"
  {
    if a.size.Some? && a.size.value != 0 then " (" + NatToString(a.size.value) + " bytes)" else ""
  }

  /** The block of one attachment with content: a header line, then the content between two dashed rules. */
  function FileBlock(a: Actions.Attachment): (r: string)
    ensures StartsWith(r, "File: " + Actions.AttachmentName(a) + SizeInfo(a) + "\n")
  {
    var header := "File: " + Actions.AttachmentName(a) + SizeInfo(a) + "\n";
    var r := header + Rule('-', 40) + "\n" + a.content.GetOr("") + "\n" + Rule('-', 40);
    assert r[..|header|] == header;
    r
  }

  function Blocks(atts: seq<Actions.Attachment>): (r: seq<string>)
    ensures |r| == |atts|
    ensures forall i :: 0 <= i < |atts| ==> r[i] == FileBlock(atts[i])
  {
    seq(|atts|, i requires 0 <= i < |atts| => FileBlock(atts[i]))
  }

  /** One block per attachment with content, in the attachments' order. */
  function ContentBlocks(atts: seq<Actions.Attachment>): (r: seq<string>)
    ensures |r| == Count(atts, HasContent)
  {
    Blocks(Filter(atts, HasContent))
  }

  const Equals50 := Rule('=', 50)

  /**
   * The user's text, followed, when at least one attachment has content,
   * by the "Attached Files" block holding those attachments' blocks.
   */
  function FullInputSpec(userInput: string, atts: seq<Actions.Attachment>): (r: string)
    ensures Count(atts, HasContent) == 0 ==> r == userInput
    ensures Count(atts, HasContent) > 0 ==> StartsWith(r, userInput + Actions.AttachedMarker)
  {
    var blocks := ContentBlocks(atts);
    if |blocks| == 0 then userInput
    else
      var r := userInput + Actions.AttachedMarker + Equals50 + "\n" + Join(blocks, "\n\n") + "\n" + Equals50;
      assert r[..|userInput + Actions.AttachedMarker|] == userInput + Actions.AttachedMarker;
      r
  }

  /** One more attachment scanned: its block is appended exactly when it has content. */
  lemma ContentBlocksStep(atts: seq<Actions.Attachment>, i: nat)
    requires i < |atts|
    ensures ContentBlocks(atts[..i + 1]) == ContentBlocks(atts[..i]) + if HasContent(atts[i]) then [FileBlock(atts[i])] else []
  {
    assert atts[..i + 1] == atts[..i] + [atts[i]];
    FilterAppend(atts[..i], atts[i], HasContent);
  }

  /** The formatting loop of /actions/execute and of the streaming endpoint's action path. */
  method FormatFullInput(userInput: string, atts: seq<Actions.Attachment>) returns (full: string)
    ensures full == FullInputSpec(userInput, atts)
  {
    full := userInput;
    if |atts| > 0 {
      var blocks: seq<string> := [];
      for i := 0 to |atts|
        invariant blocks == ContentBlocks(atts[..i])
      {
        ContentBlocksStep(atts, i);
        var a := atts[i];
        if a.content.Some? && a.content.value != "" {
          blocks := blocks + [FileBlock(a)];
        }
      }
      assert atts[..|atts|] == atts;
      if |blocks| > 0 {
        full := full + Actions.AttachedMarker + Equals50 + "\n" + Join(blocks, "\n\n") + "\n" + Equals50;
      }
    } else {
      assert Filter(atts, HasContent) == [];
    }
  }

  /** The blocks are those of the attachments with content, and only those. */
  lemma ContentBlocksMeaning(atts: seq<Actions.Attachment>, a: Actions.Attachment)
    ensures a in atts && HasContent(a) ==> FileBlock(a) in ContentBlocks(atts)
    ensures forall b :: b in ContentBlocks(atts) ==> exists c :: c in atts && HasContent(c) && b == FileBlock(c)
  {
    var kept := Filter(atts, HasContent);
    if a in atts && HasContent(a) {
      var k :| 0 <= k < |kept| && kept[k] == a;
      assert ContentBlocks(atts)[k] == FileBlock(a);
    }
    forall b | b in ContentBlocks(atts) ensures exists c :: c in atts && HasContent(c) && b == FileBlock(c) {
      var k :| 0 <= k < |kept| && ContentBlocks(atts)[k] == b;
      assert kept[k] in atts && HasContent(kept[k]);
    }
  }

  /**
   * /actions/execute hands the formatted input to the action without the
   * attachments, and the action keeps only the text before the
   * "Attached Files" marker: when the user's own text does not run into the
   * marker, the note saved is the user's text alone, whatever was attached.
   */
  lemma AttachmentsDroppedByRoute(userInput: string, atts: seq<Actions.Attachment>)
    requires forall j: nat :: j < |userInput| ==> !OccursAt(userInput + Actions.AttachedMarker, Actions.AttachedMarker, j)
    ensures Actions.OriginalText(FullInputSpec(userInput, atts)) == PyStrip(userInput)
  {
    var m := Actions.AttachedMarker;
    var full := FullInputSpec(userInput, atts);
    if Count(atts, HasContent) == 0 {
      var um := userInput + m;
      assert um[..|userInput|] == userInput;
      forall j: nat | j <= |userInput| ensures !OccursAt(userInput, m, j) {
        if j + |m| <= |userInput| {
          OccursInPrefix(um, |userInput|, m, j);
        }
      }
      assert !Contains(userInput, m);
    } else {
      var um := userInput + m;
      assert full[..|um|] == um;
      assert OccursAt(full, m, |userInput|) by {
        assert full[|userInput|..|userInput| + |m|] == um[|userInput|..];
      }
      forall j: nat | j < |userInput| ensures !OccursAt(full, m, j) {
        OccursInPrefix(full, |um|, m, j);
      }
      BeforeFirstAt(full, m, |userInput|);
      assert full[..|userInput|] == userInput;
    }
  }

  // ---------------------------------------------------------------------
  // Error answers

  /** A route's answer: a body, or an HTTP error with its status and detail. */
  datatype HttpResult<T> = Ok(body: T) | HttpError(status: nat, detail: string)

  /** `str(HTTPException(status, detail))`, the text Starlette gives such an exception. */
  function ExceptionText(status: nat, detail: string): string {
    NatToString(status) + ": " + detail
  }

  const FileNotFound := "File not found"
  const ActionIdRequired := "action_id is required"

  /**
   * /files/content as written: the 404 for a missing file is raised inside
   * the `try` and caught by its `except Exception`, which answers 500.
   */
  function FileContentAsWritten(content: Option<string>): (r: HttpResult<string>)
    ensures content.Some? ==> r == Ok(content.value)
    ensures content.None? ==> r == HttpError(500, "Error reading file: " + ExceptionText(404, FileNotFound))
  {
    match content
    case Some(c) => Ok(c)
    case None => HttpError(500, "Error reading file: " + ExceptionText(404, FileNotFound))
  }

  /** A missing file is answered with 500, not with the 404 the route raises. */
  lemma MissingFileIsServerError()
    ensures FileContentAsWritten(None).status == 500
    ensures FileContentAsWritten(None) != HttpError(404, FileNotFound)
  {
  }

  /** /files/content as intended: the content, or 404 "File not found". */
  function FileContentAnswer(content: Option<string>): (r: HttpResult<string>)
    ensures r.Ok? <==> content.Some?
    ensures r.Ok? ==> r.body == content.value
    ensures r.HttpError? ==> r.status == 404 && r.detail == FileNotFound
  {
    match content
    case Some(c) => Ok(c)
    case None => HttpError(404, FileNotFound)
  }

  /** `if not action_id`: the key is missing, null or empty. */
  predicate MissingActionId(actionId: Option<string>) {
    actionId.None? || actionId.value == ""
  }

  /**
   * The guard of /actions/execute as written: its 400 is raised inside the
   * `try` and caught by the `except Exception`, which answers 500.
   */
  function ActionIdGuardAsWritten(actionId: Option<string>): (r: Option<HttpResult<Actions.Reply>>)
    ensures r.Some? <==> MissingActionId(actionId)
    ensures r.Some? ==> r.value == HttpError(500, "Error executing action: " + ExceptionText(400, ActionIdRequired))
  {
    if MissingActionId(actionId) then Some(HttpError(500, "Error executing action: " + ExceptionText(400, ActionIdRequired)))
    else None
  }

  /** A request without an action id is answered with 500, not 400. */
  lemma MissingActionIdIsServerError()
    ensures ActionIdGuardAsWritten(None).Some? && ActionIdGuardAsWritten(None).value.status == 500
    ensures ActionIdGuardAsWritten(Some("")).Some? && ActionIdGuardAsWritten(Some("")).value.status != 400
  {
  }

  /** The guard as intended: a missing, null or empty action id is a 400. */
  function ActionIdGuard(actionId: Option<string>): (r: Option<HttpResult<Actions.Reply>>)
    ensures r.Some? <==> MissingActionId(actionId)
    ensures r.Some? ==> r.value == HttpError(400, ActionIdRequired)
  {
    if MissingActionId(actionId) then Some(HttpError(400, ActionIdRequired)) else None
  }

  /** /files/content, with the intended 404. */
  method GetFileContent(files: KnowledgeFiles.KnowledgeFileHandler, path: string) returns (r: HttpResult<string>)
    ensures r.Ok? <==> KnowledgeFiles.ReadSpec(files.disk, path).Some?
    ensures r.Ok? ==> r.body == KnowledgeFiles.ReadSpec(files.disk, path).value
    ensures r.HttpError? ==> r == HttpError(404, FileNotFound)
  {
    var content := files.ReadFileContent(path);
    r := FileContentAnswer(content);
  }

  /**
   * /actions/execute, with the intended 400: the attachments are formatted
   * into the input, and the action is run without them. `generated` and
   * `summary` are the model's answers the action asks for.
   */
  method ExecuteActionRoute(handler: Actions.ActionHandler, files: KnowledgeFiles.KnowledgeFileHandler,
                            actionId: Option<string>, userInput: string, atts: seq<Actions.Attachment>,
                            generated: Option<string>, summary: Option<string>, writeOk: bool)
    returns (r: HttpResult<Actions.Reply>)
    modifies files`memory, files`disk
    ensures MissingActionId(actionId) ==> (r == HttpError(400, ActionIdRequired)
      && files.memory == old(files.memory) && files.disk == old(files.disk))
    ensures !MissingActionId(actionId) ==> r.Ok?
    ensures !MissingActionId(actionId) ==>
      var s := Actions.Plan(handler.actions, actionId.value, FullInputSpec(userInput, atts), [], None, generated, summary, "");
      (s.Answer? ==> r.body == s.reply && files.memory == old(files.memory) && files.disk == old(files.disk))
      && (s.Save? ==> (!s.withFiles && s.content == Actions.TextToSave(FullInputSpec(userInput, atts), summary)
        && (writeOk ==>
          var saved := KnowledgeFiles.FreeName(old(files.disk), s.filename, 2);
          r.body == Actions.SavedReply(false, saved)
          && files.disk == old(files.disk)[KnowledgeFiles.InData(saved) := KnowledgeFiles.FileNode(s.content)]
          && files.memory == old(files.memory) + [KnowledgeFiles.SavedItem(saved, s.content)])
        && (!writeOk ==> (r.body == Actions.SavedReply(false, "")
          && files.memory == old(files.memory) && files.disk == old(files.disk)))))
  {
    var guard := ActionIdGuard(actionId);
    if guard.Some? {
      return guard.value;
    }
    var full := FormatFullInput(userInput, atts);
    assert Actions.FileAttachments([]) == [];
    var reply := handler.ExecuteAction(actionId.value, full, [], None, generated, summary, "", files, writeOk);
    r := Ok(reply);
  }

  // ---------------------------------------------------------------------
  // /stats

  function OfKind(k: MemoryKind): Memory -> bool {
    (m: Memory) => m.kind == k
  }

  datatype MemoryStats = MemoryStats(totalItems: nat, files: nat, folders: nat, images: nat)

  /** Counts of the short-term memory by item type. */
  function MemoryStatsOf(memory: seq<Memory>): (r: MemoryStats)
    ensures r.totalItems == |memory|
    ensures r.files == Count(memory, OfKind(FileItem))
    ensures r.folders == Count(memory, OfKind(FolderItem))
    ensures r.images == Count(memory, OfKind(ImageItem))
  {
    MemoryStats(|memory|, Count(memory, OfKind(FileItem)), Count(memory, OfKind(FolderItem)), Count(memory, OfKind(ImageItem)))
  }

  /** Every item has one type, so the three counts never exceed the total. */
  lemma {:induction false} KindCountsBounded(memory: seq<Memory>)
    ensures var r := MemoryStatsOf(memory); r.files + r.folders + r.images <= r.totalItems
    decreases |memory|
  {
    if |memory| > 0 {
      KindCountsBounded(memory[1..]);
    }
  }

  datatype ServiceStat = ServiceStat(id: string, available: bool, status: string, models: seq<string>)

  /** A configured service is available when it has a client and that client answers (`up`). */
  function ServiceStatOf(s: Llm.Service, clients: map<string, Llm.Client>, up: string -> bool): (r: ServiceStat)
    ensures r.id == s.id && r.models == s.entry.settings.models
    ensures r.available <==> s.id in clients && up(s.id)
    ensures r.status == (if r.available then "Available" else "Offline")
  {
    var available := s.id in clients && up(s.id);
    ServiceStat(s.id, available, if available then "Available" else "Offline", s.entry.settings.models)
  }

  datatype LlmStats = LlmStats(defaultModel: string, allModels: seq<Llm.ModelEntry>, services: seq<ServiceStat>)

  datatype Stats = Stats(shortTerm: MemoryStats, totalActions: nat, llm: LlmStats)

  /** /stats: memory counts, the number of actions, and the model and service summary. */
  function StatsOf(memory: seq<Memory>, actions: seq<Action>, config: Llm.StoredConfig,
                   clients: map<string, Llm.Client>, probe: string -> Llm.Probe, up: string -> bool): (r: Stats)
    ensures r.shortTerm == MemoryStatsOf(memory) && r.totalActions == |actions|
    ensures r.llm.defaultModel == config.defaultModel.GetOr("")
    ensures r.llm.allModels == Llm.ModelsInfoOf(config.services, clients, probe, config.defaultModel).allModels
    ensures |r.llm.services| == |config.services|
    ensures forall i :: 0 <= i < |config.services| ==> r.llm.services[i] == ServiceStatOf(config.services[i], clients, up)
  {
    var services := seq(|config.services|, i requires 0 <= i < |config.services| => ServiceStatOf(config.services[i], clients, up));
    Stats(MemoryStatsOf(memory), |actions|,
          LlmStats(config.defaultModel.GetOr(""), Llm.ModelsInfoOf(config.services, clients, probe, config.defaultModel).allModels, services))
  }
}
