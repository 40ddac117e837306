// The streaming chat endpoint of the backend (both backends carry the same
// module): the registry of active streams that a stop request flags, the
// loop that forwards the model's chunks until the stream is flagged, and the
// generator that runs a selected action first or adds the attachments to
// the chat message.
//
// Requests are served one after another here; a stop request arriving while
// a stream is forwarded is placed between two chunks by `stopBefore`.
module Sse {
  import opened Wrappers
  import opened Strings
  import opened Lists
  import opened MemoryTypes
  import Actions
  import KnowledgeFiles
  import Llm
  import Routes

  const StoppedMessage := "Generation stopped by user."
  const StopDone := "Stream stopped successfully"
  const StopMissing := "Stream not found or already stopped"

  /** The events the generator yields, in the order it yields them. */
  datatype Event =
    | ActionStart(action: string)
    | ActionComplete(action: string, result: Actions.Reply)
    | Cancelled(message: string)
    | Forwarded(chunk: Llm.ChatChunk<string>)
    | Complete
    | ErrorEvent(message: string)

  // ---------------------------------------------------------------------
  // The registry

  /** `active_streams`: a stream id is true while it may go on, false once stopped. */
  class StreamRegistry {
    var active: map<string, bool>

    constructor()
      ensures active == map[]
    {
      active := map[];
    }

    /** The check before each chunk: an unregistered id counts as still running. */
    function IsCancelled(id: string): (b: bool)
      reads this
      ensures b <==> id != "" && id in active && !active[id]
      ensures id !in active ==> !b
    {
      var running := if id in active then active[id] else true;
      id != "" && !running
    }

    /** The chat endpoint registers its stream as running. */
    method Start(id: string)
      modifies this
      ensures active == old(active)[id := true]
      ensures !IsCancelled(id)
    {
      active := active[id := true];
    }

    /** The stop endpoint: only a registered id is flagged; the registry is otherwise unchanged. */
    method Stop(id: Option<string>) returns (message: string, found: bool)
      modifies this
      ensures found <==> id.Some? && id.value != "" && id.value in old(active)
      ensures found ==> active == old(active)[id.value := false] && message == StopDone && IsCancelled(id.value)
      ensures !found ==> active == old(active) && message == StopMissing
    {
      if id.Some? && id.value != "" && id.value in active {
        active := active[id.value := false];
        return StopDone, true;
      }
      return StopMissing, false;
    }

    /** The generator's `finally`: its id is removed. */
    method Finish(id: string)
      modifies this
      ensures id != "" ==> active == old(active) - {id}
      ensures id == "" ==> active == old(active)
      ensures id != "" ==> id !in active
    {
      if id != "" && id in active {
        active := map k | k in active && k != id :: active[k];
      }
    }
  }

  /** A registered stream that is stopped and then started anew runs again. */
  lemma StopThenStart(active: map<string, bool>, id: string)
    requires id != "" && id in active
    ensures active[id := false][id := true] == active[id := true]
  {
  }

  // ---------------------------------------------------------------------
  // Forwarding the model's chunks

  function Forwards(chunks: seq<Llm.ChatChunk<string>>): (r: seq<Event>)
    ensures |r| == |chunks| && forall i :: 0 <= i < |r| ==> r[i] == Forwarded(chunks[i])
  {
    seq(|chunks|, i requires 0 <= i < |chunks| => Forwarded(chunks[i]))
  }

  /**
   * Before which chunk the check first finds the stream flagged: the first
   * one when it was flagged already, the one a stop request arrives before
   * when it is registered and running, never when it is not registered.
   */
  function CancelPoint(active: map<string, bool>, id: string, stopBefore: Option<nat>): (r: Option<nat>)
    ensures id == "" || id !in active ==> r.None?
  {
    if id == "" || id !in active then None
    else if !active[id] then Some(0)
    else stopBefore
  }

  /** The chunks up to the cancel point, then one 'cancelled' event; all of them when it is not reached. */
  function ForwardSpec(chunks: seq<Llm.ChatChunk<string>>, cancelAt: Option<nat>): (r: seq<Event>)
  {
    if cancelAt.Some? && cancelAt.value < |chunks| then Forwards(chunks[..cancelAt.value]) + [Cancelled(StoppedMessage)]
    else Forwards(chunks)
  }

  /**
   * At most one 'cancelled' event is yielded, it is the last, and every
   * event before it forwards the next chunk in order.
   */
  lemma ForwardShape(chunks: seq<Llm.ChatChunk<string>>, cancelAt: Option<nat>)
    ensures var r := ForwardSpec(chunks, cancelAt);
      |r| <= |chunks| + 1
      && (forall i :: 0 <= i < |r| - 1 ==> r[i] == Forwarded(chunks[i]))
      && (forall i :: 0 <= i < |r| && r[i].Cancelled? ==> i == |r| - 1)
      && (cancelAt.Some? && cancelAt.value < |chunks| <==> |r| > 0 && r[|r| - 1] == Cancelled(StoppedMessage))
  {
  }

  /** An unregistered stream is never cancelled: every chunk is forwarded. */
  lemma UnregisteredForwardsAll(active: map<string, bool>, id: string, stopBefore: Option<nat>, chunks: seq<Llm.ChatChunk<string>>)
    requires id !in active
    ensures ForwardSpec(chunks, CancelPoint(active, id, stopBefore)) == Forwards(chunks)
  {
  }

  /** The state of the registry after a stop request at `stopBefore` has or has not arrived. */
  function AfterStop(active: map<string, bool>, id: string, stopBefore: Option<nat>, n: nat): map<string, bool> {
    if id != "" && id in active && stopBefore.Some? && stopBefore.value < n then active[id := false] else active
  }

  /** The forwarding loop: each chunk is forwarded unless the stream is found flagged first. */
  method Forward(registry: StreamRegistry, id: string, chunks: seq<Llm.ChatChunk<string>>, stopBefore: Option<nat>)
    returns (events: seq<Event>, cancelled: bool)
    modifies registry
    ensures var cp := CancelPoint(old(registry.active), id, stopBefore);
      events == ForwardSpec(chunks, cp) && (cancelled <==> cp.Some? && cp.value < |chunks|)
    ensures registry.active == AfterStop(old(registry.active), id, stopBefore, |chunks|)
  {
    ghost var start := registry.active;
    ghost var cp := CancelPoint(start, id, stopBefore);
    events := [];
    var i := 0;
    while i < |chunks|
      invariant 0 <= i <= |chunks|
      invariant events == Forwards(chunks[..i])
      invariant registry.active == AfterStop(start, id, stopBefore, i)
      invariant cp.None? || cp.value >= i
    {
      if stopBefore == Some(i) {
        var _, _ := registry.Stop(Some(id));
      }
      if registry.IsCancelled(id) {
        assert cp == Some(i);
        events := events + [Cancelled(StoppedMessage)];
        assert registry.active == AfterStop(start, id, stopBefore, |chunks|);
        return events, true;
      }
      assert chunks[..i + 1] == chunks[..i] + [chunks[i]];
      events := events + [Forwarded(chunks[i])];
      i := i + 1;
    }
    assert chunks[..i] == chunks;
    return events, false;
  }

  function FailureText(message: string): string {
    "LLM service error: " + message
  }

  /**
   * What the generator yields from the model's stream: the forwarded chunks,
   * and, when the stream raised (`failure`) before being cancelled, one
   * error event.
   */
  function ReplySpec(active: map<string, bool>, id: string, chunks: seq<Llm.ChatChunk<string>>,
                     failure: Option<string>, stopBefore: Option<nat>): (r: seq<Event>)
  {
    var cp := CancelPoint(active, id, stopBefore);
    var cancelled := cp.Some? && cp.value < |chunks|;
    ForwardSpec(chunks, cp) + if !cancelled && failure.Some? then [ErrorEvent(FailureText(failure.value))] else []
  }

  /** The model's stream yields no action events. */
  lemma ReplyHasNoActionEvents(active: map<string, bool>, id: string, chunks: seq<Llm.ChatChunk<string>>,
                               failure: Option<string>, stopBefore: Option<nat>)
    ensures var r := ReplySpec(active, id, chunks, failure, stopBefore);
      forall i :: 0 <= i < |r| ==> !r[i].ActionStart? && !r[i].ActionComplete?
  {
  }

  /** Whatever a stop request did to the stream's flag, removing the stream forgets it. */
  lemma AfterStopRemoved(active: map<string, bool>, id: string, stopBefore: Option<nat>, n: nat)
    ensures id != "" ==> AfterStop(active, id, stopBefore, n) - {id} == active - {id}
    ensures id == "" ==> AfterStop(active, id, stopBefore, n) == active
  {
  }

  method StreamReply(registry: StreamRegistry, id: string, chunks: seq<Llm.ChatChunk<string>>,
                     failure: Option<string>, stopBefore: Option<nat>) returns (events: seq<Event>)
    modifies registry
    ensures events == ReplySpec(old(registry.active), id, chunks, failure, stopBefore)
    ensures registry.active == AfterStop(old(registry.active), id, stopBefore, |chunks|)
  {
    var cancelled;
    events, cancelled := Forward(registry, id, chunks, stopBefore);
    if !cancelled && failure.Some? {
      events := events + [ErrorEvent(FailureText(failure.value))];
    }
  }

  // ---------------------------------------------------------------------
  // What the chat message gets from its attachments

  function Named(name: string): Memory -> bool {
    (m: Memory) => m.name == name
  }

  /** `find_by_name`: the first item with that name. */
  function FoundByName(memory: seq<Memory>, name: string): (r: Option<Memory>)
    ensures r.Some? ==> r.value in memory && r.value.name == name
    ensures r.None? ==> forall i :: 0 <= i < |memory| ==> memory[i].name != name
  {
    match FirstIndex(memory, Named(name))
    case Some(i) => Some(memory[i])
    case None => None
  }

  /** The remembered text of a file: its item has a path, and reading it gives a non-empty text. */
  function MemoryText(memory: seq<Memory>, disk: map<string, KnowledgeFiles.Node>, name: string): (r: Option<string>)
    ensures r.Some? ==> r.value != "" && FoundByName(memory, name).Some?
  {
    match FoundByName(memory, name)
    case None => None
    case Some(item) =>
      if item.filePath == "" then None
      else
        match KnowledgeFiles.ReadSpec(disk, item.filePath)
        case Some(text) => if text != "" then Some(text) else None
        case None => None
  }

  function FromMemoryBlock(name: string, text: string): string {
    "File: " + name + " (from memory)\n" + Routes.Rule('-', 40) + "\n" + text + "\n" + Routes.Rule('-', 40)
  }

  function NotAvailableLine(name: string): string {
    "File: " + name + " (content not available)"
  }

  function OtherAttachmentLine(name: string, kind: string): string {
    "Attachment: " + name + " (" + kind + ")"
  }

  /**
   * One line or block per attachment: a file with content gets its content
   * block; a file without one gets its remembered text, or a note that the
   * content is not available; anything else is named with its type.
   */
  function ContextPiece(a: Actions.Attachment, memory: seq<Memory>, disk: map<string, KnowledgeFiles.Node>): (r: string)
    ensures a.kind.GetOr("file") == "file" && Routes.HasContent(a) ==> r == Routes.FileBlock(a)
    ensures a.kind.GetOr("file") == "file" && !Routes.HasContent(a) && MemoryText(memory, disk, Actions.AttachmentName(a)).None? ==>
      r == NotAvailableLine(Actions.AttachmentName(a))
    ensures a.kind.GetOr("file") == "file" && !Routes.HasContent(a) && MemoryText(memory, disk, Actions.AttachmentName(a)).Some? ==>
      r == FromMemoryBlock(Actions.AttachmentName(a), MemoryText(memory, disk, Actions.AttachmentName(a)).value)
    ensures a.kind.GetOr("file") != "file" ==> r == OtherAttachmentLine(Actions.AttachmentName(a), a.kind.value)
  {
    var kind := a.kind.GetOr("file");
    var name := Actions.AttachmentName(a);
    if kind == "file" then
      if Routes.HasContent(a) then Routes.FileBlock(a)
      else
        match MemoryText(memory, disk, name)
        case Some(text) => FromMemoryBlock(name, text)
        case None => NotAvailableLine(name)
    else OtherAttachmentLine(name, kind)
  }

  function ContextPieces(atts: seq<Actions.Attachment>, memory: seq<Memory>, disk: map<string, KnowledgeFiles.Node>): (r: seq<string>)
    ensures |r| == |atts| && forall i :: 0 <= i < |atts| ==> r[i] == ContextPiece(atts[i], memory, disk)
  {
    seq(|atts|, i requires 0 <= i < |atts| => ContextPiece(atts[i], memory, disk))
  }

  const UploadedHeader := "\n\nUploaded Files:\n"

  /** The "Uploaded Files" block appended to the message; none without attachments. */
  function UploadedBlock(pieces: seq<string>): (r: string)
    ensures |pieces| == 0 ==> r == ""
    ensures |pieces| > 0 ==> StartsWith(r, UploadedHeader)
  {
    if |pieces| == 0 then ""
    else
      var r := UploadedHeader + Routes.Equals50 + "\n" + Join(pieces, "\n\n") + "\n" + Routes.Equals50;
      assert r[..|UploadedHeader|] == UploadedHeader;
      r
  }

  /** The chat message the model gets in a normal chat. */
  function ChatMessage(message: string, atts: seq<Actions.Attachment>, memory: seq<Memory>, disk: map<string, KnowledgeFiles.Node>): (r: string)
    ensures |atts| == 0 ==> r == message
    ensures |atts| > 0 ==> StartsWith(r, message + UploadedHeader)
  {
    var b := UploadedBlock(ContextPieces(atts, memory, disk));
    var r := message + b;
    assert |atts| > 0 ==> r[..|message| + |UploadedHeader|] == message + b[..|UploadedHeader|];
    r
  }

  method ContextPieceFor(files: KnowledgeFiles.KnowledgeFileHandler, a: Actions.Attachment) returns (piece: string)
    ensures piece == ContextPiece(a, files.memory, files.disk)
  {
    var kind := a.kind.GetOr("file");
    var name := Actions.AttachmentName(a);
    if kind != "file" {
      return OtherAttachmentLine(name, kind);
    }
    if a.content.Some? && a.content.value != "" {
      return Routes.FileBlock(a);
    }
    var item := files.FindByName(name);
    assert item == FoundByName(files.memory, name) by {
      var k := FirstIndex(files.memory, Named(name));
      if item.Some? {
        var i :| 0 <= i < |files.memory| && files.memory[i] == item.value
          && forall j :: 0 <= j < i ==> files.memory[j].name != name;
        assert Named(name)(files.memory[i]);
      }
    }
    if item.Some? && item.value.filePath != "" {
      var text := files.ReadFileContent(item.value.filePath);
      if text.Some? && text.value != "" {
        return FromMemoryBlock(name, text.value);
      }
    }
    return NotAvailableLine(name);
  }

  /** The first `i` pieces of the loop below, one per attachment. */
  predicate PiecesUpTo(pieces: seq<string>, atts: seq<Actions.Attachment>, i: nat,
                       memory: seq<Memory>, disk: map<string, KnowledgeFiles.Node>)
    requires i <= |atts|
  {
    |pieces| == i && forall j :: 0 <= j < i ==> pieces[j] == ContextPiece(atts[j], memory, disk)
  }

  lemma PieceAppended(pieces: seq<string>, atts: seq<Actions.Attachment>, i: nat, piece: string,
                      memory: seq<Memory>, disk: map<string, KnowledgeFiles.Node>)
    requires i < |atts| && PiecesUpTo(pieces, atts, i, memory, disk)
    requires piece == ContextPiece(atts[i], memory, disk)
    ensures PiecesUpTo(pieces + [piece], atts, i + 1, memory, disk)
  {
    var grown := pieces + [piece];
    forall j | 0 <= j < i + 1 ensures grown[j] == ContextPiece(atts[j], memory, disk) {
      if j < i {
        assert grown[j] == pieces[j];
      }
    }
  }

  lemma PiecesComplete(pieces: seq<string>, atts: seq<Actions.Attachment>,
                       memory: seq<Memory>, disk: map<string, KnowledgeFiles.Node>)
    requires PiecesUpTo(pieces, atts, |atts|, memory, disk)
    ensures pieces == ContextPieces(atts, memory, disk)
  {
  }

  /** The loop over the attachments of a normal chat. */
  method ChatContext(files: KnowledgeFiles.KnowledgeFileHandler, atts: seq<Actions.Attachment>) returns (info: string)
    ensures info == UploadedBlock(ContextPieces(atts, files.memory, files.disk))
  {
    var pieces: seq<string> := [];
    for i := 0 to |atts|
      invariant PiecesUpTo(pieces, atts, i, files.memory, files.disk)
    {
      var piece := ContextPieceFor(files, atts[i]);
      PieceAppended(pieces, atts, i, piece, files.memory, files.disk);
      pieces := pieces + [piece];
    }
    PiecesComplete(pieces, atts, files.memory, files.disk);
    if |pieces| > 0 {
      info := UploadedHeader + Routes.Equals50 + "\n" + Join(pieces, "\n\n") + "\n" + Routes.Equals50;
    } else {
      info := "";
    }
  }

  // ---------------------------------------------------------------------
  // The generator

  /** `action_result.get("status") == "success"`. */
  predicate Succeeded(r: Actions.Reply) {
    r.ActionReply? && r.success
  }

  predicate IsFileTyped(a: Actions.Attachment) {
    a.kind == Some("file")
  }

  /** The prompt asking the model to confirm a saved note or saved files. */
  function ConfirmPrompt(filename: string, atts: seq<Actions.Attachment>): string {
    if |atts| > 0 then
      "The user just uploaded " + NatToString(Count(atts, IsFileTyped)) + " file(s) and saved them as '" + filename
      + "'. Briefly confirm that the files have been saved and analyzed. Mention they can be referenced with @"
      + filename + ". Keep the response to 1-2 sentences."
    else
      "The user just saved a text note as '" + filename
      + "'. Briefly confirm that the note has been saved and analyzed. Mention it can be referenced with @"
      + filename + ". Keep the response to 1-2 sentences."
  }

  /** The prompt after any other action: its message, or "Done" when it has none. */
  function SummaryPrompt(action: string, r: Actions.Reply): string {
    var message := if r.ActionReply? then r.message else "Done";
    "Action \"" + action + "\" completed. Result: " + message + ". Be brief."
  }

  /** What the model and the disk answer while the action runs. */
  datatype ActionAnswers = ActionAnswers(generated: Option<string>, summary: Option<string>, collection: string, writeOk: bool)

  /** The action path up to the model's stream: start, run, complete, and the prompt (`None`: stop here). */
  method RunSelectedAction(handler: Actions.ActionHandler, files: KnowledgeFiles.KnowledgeFileHandler,
                           action: string, message: string, atts: seq<Actions.Attachment>,
                           knowledgeFilename: Option<string>, answers: ActionAnswers)
    returns (events: seq<Event>, prompt: Option<string>)
    modifies files`memory, files`disk
    ensures |events| == 2 && events[0] == ActionStart(action) && events[1].ActionComplete? && events[1].action == action
    ensures var s := Actions.Plan(handler.actions, action, Routes.FullInputSpec(message, atts), atts, knowledgeFilename,
                                  answers.generated, answers.summary, answers.collection);
      s.Answer? ==> events[1].result == s.reply && files.memory == old(files.memory) && files.disk == old(files.disk)
    ensures var s := Actions.Plan(handler.actions, action, Routes.FullInputSpec(message, atts), atts, knowledgeFilename,
                                  answers.generated, answers.summary, answers.collection);
      s.Save? ==>
        (answers.writeOk ==>
          var saved := KnowledgeFiles.FreeName(old(files.disk), s.filename, 2);
          events[1].result == Actions.SavedReply(s.withFiles, saved)
          && files.disk == old(files.disk)[KnowledgeFiles.InData(saved) := KnowledgeFiles.FileNode(s.content)]
          && files.memory == old(files.memory) + [KnowledgeFiles.SavedItem(saved, s.content)])
        && (!answers.writeOk ==> (events[1].result == Actions.SavedReply(s.withFiles, "")
          && files.memory == old(files.memory) && files.disk == old(files.disk)))
    ensures action == Actions.AddKnowledgeId && !Succeeded(events[1].result) ==> prompt.None?
    ensures action == Actions.AddKnowledgeId && Succeeded(events[1].result) ==>
      prompt == Some(ConfirmPrompt(events[1].result.filename.GetOr("unknown"), atts))
    ensures action != Actions.AddKnowledgeId ==> prompt == Some(SummaryPrompt(action, events[1].result))
  {
    var full := Routes.FormatFullInput(message, atts);
    ghost var plan := Actions.Plan(handler.actions, action, full, atts, knowledgeFilename,
                                   answers.generated, answers.summary, answers.collection);
    var result := handler.ExecuteAction(action, full, atts, knowledgeFilename, answers.generated, answers.summary,
                                        answers.collection, files, answers.writeOk);
    assert plan.Answer? ==> result == plan.reply && files.memory == old(files.memory) && files.disk == old(files.disk);
    events := [ActionStart(action), ActionComplete(action, result)];
    if action == Actions.AddKnowledgeId {
      if Succeeded(result) {
        prompt := Some(ConfirmPrompt(result.filename.GetOr("unknown"), atts));
      } else {
        prompt := None;
      }
    } else {
      prompt := Some(SummaryPrompt(action, result));
    }
  }

  /** `if selected_action:`. */
  predicate HasAction(selected: Option<string>) {
    selected.Some? && selected.value != ""
  }

  /** The action path: the action's two events, then 'complete' or the model's confirmation or summary. */
  method ActionStream(registry: StreamRegistry, handler: Actions.ActionHandler, files: KnowledgeFiles.KnowledgeFileHandler,
                      action: string, message: string, atts: seq<Actions.Attachment>, streamId: string,
                      knowledgeFilename: Option<string>, answers: ActionAnswers,
                      chunks: seq<Llm.ChatChunk<string>>, failure: Option<string>, stopBefore: Option<nat>)
    returns (events: seq<Event>, prompt: Option<string>)
    modifies registry, files`memory, files`disk
    ensures |events| >= 2 && events[0] == ActionStart(action) && events[1].ActionComplete? && events[1].action == action
    ensures forall i :: 2 <= i < |events| ==> !events[i].ActionStart? && !events[i].ActionComplete?
    ensures action == Actions.AddKnowledgeId && !Succeeded(events[1].result) ==>
      events == events[..2] + [Complete] && prompt.None? && registry.active == old(registry.active)
    ensures !(action == Actions.AddKnowledgeId && !Succeeded(events[1].result)) ==>
      prompt.Some? && events[2..] == ReplySpec(old(registry.active), streamId, chunks, failure, stopBefore)
      && registry.active == AfterStop(old(registry.active), streamId, stopBefore, |chunks|)
  {
    ReplyHasNoActionEvents(registry.active, streamId, chunks, failure, stopBefore);
    var prefix;
    prefix, prompt := RunSelectedAction(handler, files, action, message, atts, knowledgeFilename, answers);
    if prompt.None? {
      events := prefix + [Complete];
      assert events[..2] == prefix;
      return;
    }
    var reply := StreamReply(registry, streamId, chunks, failure, stopBefore);
    events := prefix + reply;
    assert events[2..] == reply;
  }

  /** The normal chat: the message with its attachments goes to the model, whose stream is forwarded. */
  method PlainStream(registry: StreamRegistry, files: KnowledgeFiles.KnowledgeFileHandler,
                     message: string, atts: seq<Actions.Attachment>, streamId: string,
                     chunks: seq<Llm.ChatChunk<string>>, failure: Option<string>, stopBefore: Option<nat>)
    returns (events: seq<Event>, prompt: Option<string>)
    modifies registry
    ensures prompt == Some(ChatMessage(message, atts, files.memory, files.disk))
    ensures events == ReplySpec(old(registry.active), streamId, chunks, failure, stopBefore)
    ensures registry.active == AfterStop(old(registry.active), streamId, stopBefore, |chunks|)
  {
    var info := ChatContext(files, atts);
    prompt := Some(message + info);
    events := StreamReply(registry, streamId, chunks, failure, stopBefore);
  }

  /**
   * `generate_chat_stream`. `chunks` is what the model streams for the prompt
   * (`prompt` is `None` when the model is not asked), `failure` an exception
   * it raises after them.
   */
  method GenerateChatStream(registry: StreamRegistry, handler: Actions.ActionHandler, files: KnowledgeFiles.KnowledgeFileHandler,
                            message: string, atts: seq<Actions.Attachment>, streamId: string,
                            selected: Option<string>, knowledgeFilename: Option<string>, answers: ActionAnswers,
                            chunks: seq<Llm.ChatChunk<string>>, failure: Option<string>, stopBefore: Option<nat>)
    returns (events: seq<Event>, prompt: Option<string>)
    modifies registry, files`memory, files`disk
    ensures streamId != "" ==> registry.active == old(registry.active) - {streamId}
    ensures streamId == "" ==> registry.active == old(registry.active)
    ensures HasAction(selected) ==> (|events| >= 2 && events[0] == ActionStart(selected.value)
      && events[1].ActionComplete? && events[1].action == selected.value
      && forall i :: 2 <= i < |events| ==> !events[i].ActionStart? && !events[i].ActionComplete?)
    ensures HasAction(selected) && selected.value == Actions.AddKnowledgeId && !Succeeded(events[1].result) ==>
      events == events[..2] + [Complete] && prompt.None?
    ensures HasAction(selected) && !(selected.value == Actions.AddKnowledgeId && !Succeeded(events[1].result)) ==>
      prompt.Some? && events[2..] == ReplySpec(old(registry.active), streamId, chunks, failure, stopBefore)
    ensures !HasAction(selected) ==>
      prompt == Some(ChatMessage(message, atts, old(files.memory), old(files.disk)))
      && events == ReplySpec(old(registry.active), streamId, chunks, failure, stopBefore)
      && files.memory == old(files.memory) && files.disk == old(files.disk)
  {
    AfterStopRemoved(registry.active, streamId, stopBefore, |chunks|);
    if HasAction(selected) {
      events, prompt := ActionStream(registry, handler, files, selected.value, message, atts, streamId,
                                     knowledgeFilename, answers, chunks, failure, stopBefore);
    } else {
      events, prompt := PlainStream(registry, files, message, atts, streamId, chunks, failure, stopBefore);
    }
    registry.Finish(streamId);
  }
}
