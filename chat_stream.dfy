// The chat client's streaming loop: `handleSendMessage` and
// `handleStopGeneration` of the chat interface component.
module ChatStream {
  import opened Wrappers
  import opened Strings
  import TextUtils

  datatype Role = User | Assistant | System

  datatype Attachment = Attachment(kind: string, name: string, url: Option<string>)

  /** A chat message; the timestamp is not modelled. */
  datatype Message = Message(
    id: string,
    content: string,
    role: Role,
    attachments: Option<seq<Attachment>>,
    thinkingProcess: Option<string>)

  /**
   * A decoded `data: ` payload. A field that the payload lacks (or that is
   * not a string) is `None`; `Unknown` is an object whose `type` matches no
   * case of the switch.
   */
  datatype Event =
    | Start
    | ActionStart(action: Option<string>)
    | ActionComplete
    | Content(content: Option<string>)
    | Complete
    | Cancelled(message: Option<string>)
    | StreamError(message: Option<string>)
    | Unknown

  /** What the read loop can observe and change. */
  datatype Stream = Stream(
    messages: seq<Message>,
    isLoading: bool,
    isActionActive: bool,
    streamId: Option<string>,
    assistantContent: string,
    inThinkingBlock: bool,
    thinking: string,
    assistantId: string)

  const ThinkOpen := "<think>"
  const ThinkClose := "</think>"
  const ActionMark := "🔄"
  const StoppedText := "Generation stopped by user."

  /** Template-literal rendering of a possibly missing field. */
  function Interpolate(v: Option<string>): string {
    if v.Some? then v.value else "undefined"
  }

  /** `data.message || default`: missing and empty both fall back. */
  function OrDefault(v: Option<string>, default: string): (r: string)
    ensures v.Some? && v.value != "" ==> r == v.value
    ensures v.None? || v.value == "" ==> r == default
  {
    if v.Some? && v.value != "" then v.value else default
  }

  function ActionBanner(action: Option<string>): string {
    ActionMark + " Executing action: " + Interpolate(action) + "..."
  }

  /**
   * The messages with the assistant message (every message with that id)
   * given new content, and a new thinking process when one is given.
   */
  function SetAssistant(ms: seq<Message>, id: string, content: string, thinking: Option<string>): (r: seq<Message>)
    ensures |r| == |ms|
    ensures forall i :: 0 <= i < |ms| && ms[i].id != id ==> r[i] == ms[i]
    ensures forall i :: 0 <= i < |ms| && ms[i].id == id ==>
      r[i] == ms[i].(content := content,
                     thinkingProcess := if thinking.Some? then thinking else ms[i].thinkingProcess)
  {
    if |ms| == 0 then []
    else
      var m := ms[0];
      var m' := if m.id == id then
                  m.(content := content,
                     thinkingProcess := if thinking.Some? then thinking else m.thinkingProcess)
                else m;
      [m'] + SetAssistant(ms[1..], id, content, thinking)
  }

  /**
   * The marker rule for one content fragment: a fragment holding "<think>"
   * raises the flag and loses its first "<think>"; then a fragment holding
   * "</think>" lowers the flag and loses its first "</think>".
   */
  function RouteFragment(inThinking: bool, fragment: string): (bool, string)
  {
    var afterOpen := if Contains(fragment, ThinkOpen) then ReplaceFirst(fragment, ThinkOpen, "") else fragment;
    var flag := Contains(fragment, ThinkOpen) || inThinking;
    if Contains(afterOpen, ThinkClose) then (false, ReplaceFirst(afterOpen, ThinkClose, ""))
    else (flag, afterOpen)
  }

  /** An opening marker with no closing one after it enters the block; a fragment without markers keeps the state. */
  lemma RouteFragmentMarkers(inThinking: bool, fragment: string)
    ensures var r := RouteFragment(inThinking, fragment);
      Contains(fragment, ThinkOpen) && !Contains(ReplaceFirst(fragment, ThinkOpen, ""), ThinkClose) ==> r.0
    ensures !Contains(fragment, ThinkOpen) && !Contains(fragment, ThinkClose)
      ==> RouteFragment(inThinking, fragment) == (inThinking, fragment)
  {
  }

  function MessageOf(id: nat, content: string, role: Role): Message {
    Message(NatToString(id), content, role, None, None)
  }

  /** The `content` case of the switch. */
  function OnContent(st: Stream, fragment: string): (r: Stream)
  {
    var routed := RouteFragment(st.inThinkingBlock, fragment);
    ShowRouted(st, routed.0, routed.1)
  }

  lemma RoutedContent(st: Stream, fragment: string, flag: bool, text: string)
    requires (flag, text) == RouteFragment(st.inThinkingBlock, fragment)
    ensures OnContent(st, fragment) == ShowRouted(st, flag, text)
  {
  }

  /** The routed fragment joins the thinking text or the visible text; the assistant message shows both. */
  function ShowRouted(st: Stream, flag: bool, text: string): Stream
  {
    var thinking := ThinkingAfter(flag, st.thinking, text);
    var visible := VisibleAfter(flag, st.assistantContent, text);
    st.(inThinkingBlock := flag, thinking := thinking, assistantContent := visible,
        isLoading := LoadingAfter(flag, st.assistantContent, st.isLoading),
        messages := SetAssistant(st.messages, st.assistantId, visible, Some(thinking)))
  }

  /** Inside a think block the fragment joins the thinking text. */
  function ThinkingAfter(flag: bool, thinking: string, text: string): string {
    if flag then thinking + text else thinking
  }

  /** Outside a think block the fragment is accumulated into the visible text. */
  function VisibleAfter(flag: bool, visible: string, text: string): string {
    if flag then visible else TextUtils.Accumulate(visible, text)
  }

  /** The first visible text, or the first after an action banner, ends the loading state. */
  function LoadingAfter(flag: bool, visible: string, loading: bool): bool {
    if !flag && (visible == "" || StartsWith(visible, ActionMark)) then false else loading
  }

  /** The three clears of `complete`, `cancelled`, `error` and a failed connection. */
  function Settle(st: Stream): (r: Stream)
  {
    st.(isLoading := false, isActionActive := false, streamId := None)
  }

  /** One decoded event, `now` being the clock reading used for new message ids. */
  function HandleEvent(st: Stream, ev: Event, now: nat): (r: Stream)
    ensures r.assistantId == st.assistantId
    ensures |r.messages| == |st.messages| + (if ev.Cancelled? || ev.StreamError? then 1 else 0)
    ensures ev.Complete? || ev.Cancelled? || ev.StreamError? ==> !r.isLoading && !r.isActionActive && r.streamId.None?
    ensures !(ev.Complete? || ev.Cancelled? || ev.StreamError?) ==> r.streamId == st.streamId
    ensures ev.Start? || ev.Unknown? || ev == Content(None) ==> r == st
  {
    match ev
    case Start => st
    case ActionStart(action) =>
      var c := ActionBanner(action);
      st.(assistantContent := c, messages := SetAssistant(st.messages, st.assistantId, c, None))
    case ActionComplete =>
      st.(isActionActive := false, assistantContent := "",
          messages := SetAssistant(st.messages, st.assistantId, "", None))
    case Content(content) =>
      // `includes` on a non-string throws; the catch skips the line
      if content.None? then st else OnContent(st, content.value)
    case Complete => Settle(st)
    case Cancelled(message) =>
      var s := Settle(st);
      s.(messages := s.messages + [MessageOf(now, OrDefault(message, StoppedText), System)])
    case StreamError(message) =>
      var s := Settle(st);
      s.(messages := s.messages + [MessageOf(now, "Error: " + Interpolate(message), System)])
    case Unknown => st
  }

  /** One complete line: only `data: ` lines are decoded, from their seventh character on. */
  function HandleLine(st: Stream, line: string, now: nat, parse: string -> Option<Event>): (r: Stream)
    ensures !StartsWith(line, "data: ") ==> r == st
    ensures r.assistantId == st.assistantId && |st.messages| <= |r.messages|
    ensures r.streamId == st.streamId || r.streamId.None?
  {
    if StartsWith(line, "data: ") then
      match parse(line[6..])
      case None => st
      case Some(ev) => HandleEvent(st, ev, now)
    else st
  }

  /** The complete lines of one chunk, in order. */
  function HandleLines(st: Stream, lines: seq<string>, now: nat, parse: string -> Option<Event>): (r: Stream)
    ensures r.assistantId == st.assistantId && |st.messages| <= |r.messages|
    ensures r.streamId == st.streamId || r.streamId.None?
    decreases |lines|
  {
    if |lines| == 0 then st
    else HandleLine(HandleLines(st, lines[..|lines| - 1], now, parse), lines[|lines| - 1], now, parse)
  }

  /** The complete lines of `text` (all but the last piece) and the partial rest. */
  function CompleteLines(text: string): seq<string> {
    var pieces := Split(text, '\n');
    pieces[..|pieces| - 1]
  }

  function PartialLine(text: string): (r: string)
    ensures '\n' !in r
  {
    var pieces := Split(text, '\n');
    pieces[|pieces| - 1]
  }

  /**
   * The chunk bookkeeping: the complete lines joined by '\n' and followed by
   * the partial rest give back the text.
   */
  lemma LinesAndRest(text: string)
    ensures |CompleteLines(text)| == 0 ==> PartialLine(text) == text
    ensures |CompleteLines(text)| > 0 ==> Join(CompleteLines(text), "\n") + "\n" + PartialLine(text) == text
  {
    var pieces := Split(text, '\n');
    SplitJoin(text, '\n');
    assert pieces == CompleteLines(text) + [PartialLine(text)];
    JoinAppend(CompleteLines(text), PartialLine(text), "\n");
  }

  /**
   * The chat component's state together with the locals of the running
   * `handleSendMessage` (buffer, visible text, thinking flag and text, the
   * assistant message id). `received` and `linesSeen` record, for the
   * proof only, the decoded text so far and the complete lines handled.
   */
  class ChatSession {
    const parse: string -> Option<Event>
    var messages: seq<Message>
    var isLoading: bool
    var isActionActive: bool
    var streamId: Option<string>
    var buffer: string
    var assistantContent: string
    var inThinkingBlock: bool
    var thinkingProcessContent: string
    var assistantMessageId: string
    ghost var received: string
    ghost var linesSeen: seq<string>

    /** The buffer holds no newline, and lines seen plus the buffer re-form the received text. */
    ghost predicate Valid()
      reads this
    {
      '\n' !in buffer && Join(linesSeen + [buffer], "\n") == received
    }

    function State(): Stream
      reads this
    {
      Stream(messages, isLoading, isActionActive, streamId, assistantContent,
             inThinkingBlock, thinkingProcessContent, assistantMessageId)
    }

    constructor(parse: string -> Option<Event>)
      ensures Valid() && this.parse == parse
      ensures messages == [] && !isLoading && !isActionActive && streamId.None?
      ensures buffer == "" && received == "" && linesSeen == []
    {
      this.parse := parse;
      messages := [];
      isLoading := false;
      isActionActive := false;
      streamId := None;
      buffer := "";
      assistantContent := "";
      inThinkingBlock := false;
      thinkingProcessContent := "";
      assistantMessageId := "";
      received := "";
      linesSeen := [];
    }

    /**
     * The start of `handleSendMessage`: the action flag follows the
     * selected action; an empty request does nothing more; otherwise the
     * user message and an empty assistant message are appended and the
     * loading flag is raised. The two ids come from two clock readings:
     * `now` for the user message and `later` for the assistant message,
     * whose id is `later + 1`.
     */
    method BeginSend(content: string, attachments: Option<seq<Attachment>>, selectedAction: Option<string>, now: nat, later: nat)
      returns (started: bool)
      modifies this`isActionActive, this`messages, this`isLoading, this`assistantMessageId
      ensures isActionActive == (selectedAction.Some? && selectedAction.value != "")
      ensures started <==> (JsTrim(content) != "" || (attachments.Some? && |attachments.value| > 0)
                            || (selectedAction.Some? && selectedAction.value != ""))
      ensures !started ==> messages == old(messages) && isLoading == old(isLoading)
                           && assistantMessageId == old(assistantMessageId)
      ensures started ==> assistantMessageId == NatToString(later + 1) && isLoading
      ensures started ==> (messages == old(messages)
        + [Message(NatToString(now), content, User, attachments, None),
           Message(NatToString(later + 1), "", Assistant, None, Some(""))])
    {
      var hasAction := selectedAction.Some? && selectedAction.value != "";
      isActionActive := hasAction;
      if JsTrim(content) == "" && (attachments.None? || |attachments.value| == 0) && !hasAction {
        return false;
      }
      messages := messages + [Message(NatToString(now), content, User, attachments, None)];
      isLoading := true;
      assistantMessageId := NatToString(later + 1);
      messages := messages + [Message(assistantMessageId, "", Assistant, None, Some(""))];
      started := true;
    }

    /** The response arrived with a body: remember the stream and reset the loop's locals. */
    method OpenStream(id: string)
      modifies this
      ensures Valid()
      ensures streamId == Some(id) && buffer == "" && assistantContent == ""
      ensures !inThinkingBlock && thinkingProcessContent == ""
      ensures received == "" && linesSeen == []
      ensures messages == old(messages) && isLoading == old(isLoading)
      ensures isActionActive == old(isActionActive) && assistantMessageId == old(assistantMessageId)
    {
      streamId := Some(id);
      buffer := "";
      assistantContent := "";
      inThinkingBlock := false;
      thinkingProcessContent := "";
      received := "";
      linesSeen := [];
    }

    /** One complete line, handled in place as the body of the inner `for` does. */
    method DispatchLine(line: string, now: nat)
      modifies this`messages, this`isLoading, this`isActionActive, this`streamId,
               this`assistantContent, this`inThinkingBlock, this`thinkingProcessContent
      ensures State() == HandleLine(old(State()), line, now, parse)
    {
      if !StartsWith(line, "data: ") {
        return;
      }
      var decoded := parse(line[6..]);
      if decoded.None? {
        return;
      }
      match decoded.value
      case Start =>
      case ActionStart(action) =>
        assistantContent := ActionBanner(action);
        messages := SetAssistant(messages, assistantMessageId, assistantContent, None);
      case ActionComplete =>
        isActionActive := false;
        assistantContent := "";
        messages := SetAssistant(messages, assistantMessageId, assistantContent, None);
      case Content(content) =>
        if content.None? {
          return;
        }
        ContentFragment(content.value);
      case Complete =>
        isLoading := false;
        isActionActive := false;
        streamId := None;
      case Cancelled(message) =>
        isLoading := false;
        isActionActive := false;
        streamId := None;
        messages := messages + [MessageOf(now, OrDefault(message, StoppedText), System)];
      case StreamError(message) =>
        isLoading := false;
        isActionActive := false;
        streamId := None;
        messages := messages + [MessageOf(now, "Error: " + Interpolate(message), System)];
      case Unknown =>
    }

    /** The two marker tests at the head of the `content` case. */
    method RouteMarkers(fragment: string) returns (newContent: string)
      modifies this`inThinkingBlock
      ensures (inThinkingBlock, newContent) == RouteFragment(old(inThinkingBlock), fragment)
    {
      newContent := fragment;
      if Contains(newContent, ThinkOpen) {
        inThinkingBlock := true;
        newContent := ReplaceFirst(newContent, ThinkOpen, "");
      }
      if Contains(newContent, ThinkClose) {
        inThinkingBlock := false;
        newContent := ReplaceFirst(newContent, ThinkClose, "");
      }
    }

    /** The fragment goes to the thinking text inside a think block, to the visible text outside it. */
    method ShowFragment(newContent: string)
      modifies this`thinkingProcessContent, this`isLoading, this`assistantContent
      ensures thinkingProcessContent == ThinkingAfter(inThinkingBlock, old(thinkingProcessContent), newContent)
      ensures assistantContent == VisibleAfter(inThinkingBlock, old(assistantContent), newContent)
      ensures isLoading == LoadingAfter(inThinkingBlock, old(assistantContent), old(isLoading))
    {
      if inThinkingBlock {
        thinkingProcessContent := thinkingProcessContent + newContent;
      } else {
        if assistantContent == "" || StartsWith(assistantContent, ActionMark) {
          isLoading := false;
        }
        assistantContent := TextUtils.Accumulate(assistantContent, newContent);
      }
    }

    /** The `content` case: marker routing, then the thinking or the visible text grows. */
    method ContentFragment(fragment: string)
      modifies this`inThinkingBlock, this`thinkingProcessContent, this`isLoading, this`assistantContent, this`messages
      ensures State() == OnContent(old(State()), fragment)
    {
      ghost var st := State();
      var newContent := RouteMarkers(fragment);
      ghost var flag := inThinkingBlock;
      RoutedContent(st, fragment, flag, newContent);
      ShowFragment(newContent);
      messages := SetAssistant(messages, assistantMessageId, assistantContent, Some(thinkingProcessContent));
    }

    /**
     * One decoded chunk of the response body: it is appended to the
     * buffer, every complete line is handled in order, and the partial last
     * line stays in the buffer.
     */
    method ProcessChunk(chunk: string, now: nat)
      requires Valid()
      modifies this
      ensures Valid()
      ensures received == old(received) + chunk
      ensures buffer == PartialLine(old(buffer) + chunk)
      ensures linesSeen == old(linesSeen) + CompleteLines(old(buffer) + chunk)
      ensures State() == HandleLines(old(State()), CompleteLines(old(buffer) + chunk), now, parse)
    {
      var text := buffer + chunk;
      var lines := CompleteLines(text);
      ghost var start := State();
      ghost var seen0 := linesSeen;
      LinesAndRest(text);
      buffer := PartialLine(text);
      received := received + chunk;
      var i := 0;
      while i < |lines|
        invariant 0 <= i <= |lines|
        invariant buffer == PartialLine(text) && received == old(received) + chunk && linesSeen == seen0
        invariant State() == HandleLines(start, lines[..i], now, parse)
      {
        assert lines[..i + 1][..i] == lines[..i];
        DispatchLine(lines[i], now);
        i := i + 1;
      }
      assert lines[..|lines|] == lines;
      linesSeen := linesSeen + lines;
      BookkeepingStep(seen0, old(buffer), chunk, lines, buffer);
    }

    /**
     * The catch of `handleSendMessage`: the three clears and one system
     * notice; the assistant message and its partial content stay.
     */
    method ConnectionFailed(reason: Option<string>, now: nat)
      modifies this
      ensures isLoading == false && isActionActive == false && streamId.None?
      ensures messages == old(messages) + [MessageOf(now, ConnectionNotice(reason), System)]
      ensures buffer == old(buffer) && assistantContent == old(assistantContent)
      ensures inThinkingBlock == old(inThinkingBlock) && thinkingProcessContent == old(thinkingProcessContent)
      ensures assistantMessageId == old(assistantMessageId)
      ensures received == old(received) && linesSeen == old(linesSeen)
    {
      isLoading := false;
      isActionActive := false;
      streamId := None;
      messages := messages + [MessageOf(now, ConnectionNotice(reason), System)];
    }

    /** The delayed mock reply appended after a failed connection. */
    method FallbackArrives(model: string, content: string, attachments: Option<seq<Attachment>>, now: nat)
      modifies this
      ensures messages == old(messages) + [MessageOf(now + 2, FallbackText(model, content, attachments), Assistant)]
      ensures isLoading == old(isLoading) && isActionActive == old(isActionActive) && streamId == old(streamId)
      ensures buffer == old(buffer) && assistantContent == old(assistantContent)
      ensures inThinkingBlock == old(inThinkingBlock) && thinkingProcessContent == old(thinkingProcessContent)
      ensures assistantMessageId == old(assistantMessageId)
      ensures received == old(received) && linesSeen == old(linesSeen)
    {
      messages := messages + [MessageOf(now + 2, FallbackText(model, content, attachments), Assistant)];
    }

    /**
     * `handleStopGeneration`: a stop request is posted only while a stream
     * id is held; whether or not that request fails, loading ends and the
     * id is dropped. The read loop and its buffer are not touched.
     */
    method StopGeneration() returns (stopRequested: Option<string>)
      modifies this
      ensures stopRequested == (if old(streamId).Some? && old(streamId).value != "" then old(streamId) else None)
      ensures isLoading == false && streamId.None?
      ensures messages == old(messages) && isActionActive == old(isActionActive)
      ensures buffer == old(buffer) && assistantContent == old(assistantContent)
      ensures inThinkingBlock == old(inThinkingBlock) && thinkingProcessContent == old(thinkingProcessContent)
      ensures assistantMessageId == old(assistantMessageId)
      ensures received == old(received) && linesSeen == old(linesSeen)
    {
      stopRequested := None;
      if streamId.Some? && streamId.value != "" {
        stopRequested := streamId;
      }
      isLoading := false;
      streamId := None;
    }
  }

  function ConnectionNotice(reason: Option<string>): string {
    "Connection error: " + (if reason.Some? then reason.value else "Unknown error")
      + ". Falling back to mock response."
  }

  function FallbackText(model: string, content: string, attachments: Option<seq<Attachment>>): string {
    "This is a fallback mock response using " + model + ". You sent: \"" + content + "\""
      + (if attachments.Some? then " with " + NatToString(|attachments.value|) + " attachment(s)" else "")
      + ". The backend connection failed, but this shows the UI still works."
  }

  /** The buffer invariant survives a chunk. */
  lemma BookkeepingStep(seen: seq<string>, buffer: string, chunk: string, lines: seq<string>, rest: string)
    requires lines == CompleteLines(buffer + chunk) && rest == PartialLine(buffer + chunk)
    ensures Join(seen + lines + [rest], "\n") == Join(seen + [buffer], "\n") + chunk
  {
    var tail := lines + [rest];
    assert Join(tail, "\n") == buffer + chunk by {
      LinesAndRest(buffer + chunk);
      JoinAppend(lines, rest, "\n");
    }
    assert seen + lines + [rest] == seen + tail;
    JoinAfterPrefix(seen, tail, buffer, chunk);
  }

  /** Replacing the last piece `buffer` by pieces that join to `buffer + chunk`. */
  lemma JoinAfterPrefix(seen: seq<string>, tail: seq<string>, buffer: string, chunk: string)
    requires |tail| > 0 && Join(tail, "\n") == buffer + chunk
    ensures Join(seen + tail, "\n") == Join(seen + [buffer], "\n") + chunk
  {
    if |seen| == 0 {
      assert seen + tail == tail;
      assert seen + [buffer] == [buffer];
    } else {
      JoinConcat(seen, tail, "\n");
      JoinConcat(seen, [buffer], "\n");
    }
  }

  lemma RemoveLeadingMarker(rest: string)
    ensures Contains(ThinkOpen + rest, ThinkOpen)
    ensures ReplaceFirst(ThinkOpen + rest, ThinkOpen, "") == rest
  {
    var f := ThinkOpen + rest;
    assert OccursAt(f, ThinkOpen, 0);
    assert f[..0] + "" + f[7..] == rest;
    ReplaceFirstAt(f, ThinkOpen, "", 0);
  }

  lemma RemoveClosingMarker(a: string, b: string)
    requires '<' !in a
    ensures Contains(a + ThinkClose + b, ThinkClose)
    ensures ReplaceFirst(a + ThinkClose + b, ThinkClose, "") == a + b
  {
    var t := ThinkClose + b;
    var g := a + t;
    assert g == a + ThinkClose + b;
    NoOccurrenceIn(a, t, ThinkClose);
    assert g[|a|..|a| + 8] == ThinkClose;
    ReplaceFirstAt(g, ThinkClose, "", |a|);
    assert g[..|a|] + "" + g[|a| + 8..] == a + b;
  }

  /** A fragment that opens and closes a think block ends outside it, all its text visible. */
  lemma BothMarkersInOneFragment(inThinking: bool, a: string, b: string)
    requires '<' !in a
    ensures RouteFragment(inThinking, ThinkOpen + a + ThinkClose + b) == (false, a + b)
  {
    var g := a + ThinkClose + b;
    var f := ThinkOpen + a + ThinkClose + b;
    assert Contains(f, ThinkOpen) && ReplaceFirst(f, ThinkOpen, "") == g by {
      assert f == ThinkOpen + g;
      RemoveLeadingMarker(g);
    }
    assert Contains(g, ThinkClose) && ReplaceFirst(g, ThinkClose, "") == a + b by {
      RemoveClosingMarker(a, b);
    }
  }

  /** While inside a think block the fragment goes to the thinking text only. */
  lemma ThinkingFragmentIsHidden(st: Stream, fragment: string)
    requires RouteFragment(st.inThinkingBlock, fragment).0
    ensures OnContent(st, fragment).assistantContent == st.assistantContent
    ensures OnContent(st, fragment).thinking == st.thinking + RouteFragment(st.inThinkingBlock, fragment).1
    ensures OnContent(st, fragment).isLoading == st.isLoading
    ensures OnContent(st, fragment).inThinkingBlock
  {
  }

  /**
   * Outside a think block the fragment is accumulated into the visible
   * text, and the first fragment after nothing or after an action banner
   * ends the loading state.
   */
  lemma VisibleFragment(st: Stream, fragment: string)
    requires !RouteFragment(st.inThinkingBlock, fragment).0
    ensures OnContent(st, fragment).assistantContent
            == TextUtils.Accumulate(st.assistantContent, RouteFragment(st.inThinkingBlock, fragment).1)
    ensures OnContent(st, fragment).thinking == st.thinking
    ensures (st.assistantContent == "" || StartsWith(st.assistantContent, ActionMark))
            ==> !OnContent(st, fragment).isLoading
    ensures !(st.assistantContent == "" || StartsWith(st.assistantContent, ActionMark))
            ==> OnContent(st, fragment).isLoading == st.isLoading
    ensures !Contains(OnContent(st, fragment).assistantContent, "\n\n\n")
            || RouteFragment(st.inThinkingBlock, fragment).1 == ""
  {
  }

  /** `action_start` replaces the visible text with its banner; `action_complete` empties it. */
  lemma ActionEventsOverwrite(st: Stream, action: Option<string>, now: nat)
    ensures HandleEvent(st, ActionStart(action), now).assistantContent == ActionBanner(action)
    ensures HandleEvent(HandleEvent(st, ActionStart(action), now), ActionComplete, now).assistantContent == ""
    ensures !HandleEvent(st, ActionComplete, now).isActionActive
    ensures HandleEvent(st, ActionStart(action), now).isActionActive == st.isActionActive
  {
  }

  /**
   * `cancelled` and `error` clear the three flags and append exactly one
   * system message, keeping every earlier message.
   */
  lemma TerminalEventsAppendNotice(st: Stream, message: Option<string>, now: nat)
    ensures var r := HandleEvent(st, Cancelled(message), now);
      !r.isLoading && !r.isActionActive && r.streamId.None?
      && r.messages == st.messages + [Message(NatToString(now), OrDefault(message, StoppedText), System, None, None)]
    ensures var r := HandleEvent(st, StreamError(message), now);
      !r.isLoading && !r.isActionActive && r.streamId.None?
      && r.messages == st.messages + [Message(NatToString(now), "Error: " + Interpolate(message), System, None, None)]
    ensures HandleEvent(st, Cancelled(Some("")), now).messages[|st.messages|].content == StoppedText
  {
  }

  /** The lines of a chunk may be handled in two halves. */
  lemma {:induction false} HandleLinesAppend(st: Stream, xs: seq<string>, ys: seq<string>, now: nat,
                                             parse: string -> Option<Event>)
    ensures HandleLines(st, xs + ys, now, parse) == HandleLines(HandleLines(st, xs, now, parse), ys, now, parse)
    decreases |ys|
  {
    if |ys| == 0 {
      assert xs + ys == xs;
    } else {
      var ys' := ys[..|ys| - 1];
      assert (xs + ys)[..|xs + ys| - 1] == xs + ys';
      assert (xs + ys)[|xs + ys| - 1] == ys[|ys| - 1];
      HandleLinesAppend(st, xs, ys', now, parse);
    }
  }

  /**
   * `complete` does not end the read loop: after it, the following lines are
   * still handled, from the settled state.
   */
  lemma CompleteDoesNotStop(st: Stream, line: string, later: seq<string>, now: nat,
                            parse: string -> Option<Event>)
    requires StartsWith(line, "data: ") && parse(line[6..]) == Some(Complete)
    ensures HandleLines(st, [line] + later, now, parse) == HandleLines(Settle(st), later, now, parse)
  {
    HandleLinesAppend(st, [line], later, now, parse);
    assert [line][..0] == [];
  }

  /** Lines that are not `data: ` lines, or whose payload does not decode, change nothing. */
  lemma {:induction false} IgnoredLinesChangeNothing(st: Stream, lines: seq<string>, now: nat,
                                                     parse: string -> Option<Event>)
    requires forall i :: 0 <= i < |lines| ==> !StartsWith(lines[i], "data: ") || parse(lines[i][6..]).None?
    ensures HandleLines(st, lines, now, parse) == st
    decreases |lines|
  {
    if |lines| > 0 {
      IgnoredLinesChangeNothing(st, lines[..|lines| - 1], now, parse);
    }
  }

  /** Messages are only ever appended or updated in place: ids and roles of earlier ones stay. */
  predicate KeepsMessages(before: seq<Message>, after: seq<Message>) {
    |before| <= |after| && forall i :: 0 <= i < |before| ==> after[i].id == before[i].id && after[i].role == before[i].role
  }

  lemma HandleEventKeepsMessages(st: Stream, ev: Event, now: nat)
    ensures KeepsMessages(st.messages, HandleEvent(st, ev, now).messages)
  {
    match ev
    case Start =>
    case ActionStart(action) =>
      SetAssistantKeeps(st.messages, st.assistantId, ActionBanner(action), None);
    case ActionComplete =>
      SetAssistantKeeps(st.messages, st.assistantId, "", None);
    case Content(c) =>
      if c.Some? {
        var r := OnContent(st, c.value);
        assert r.messages == SetAssistant(st.messages, st.assistantId, r.assistantContent, Some(r.thinking));
        SetAssistantKeeps(st.messages, st.assistantId, r.assistantContent, Some(r.thinking));
      }
    case Complete =>
    case Cancelled(message) =>
      AppendKeeps(st.messages, MessageOf(now, OrDefault(message, StoppedText), System));
    case StreamError(message) =>
      AppendKeeps(st.messages, MessageOf(now, "Error: " + Interpolate(message), System));
    case Unknown =>
  }

  lemma SetAssistantKeeps(ms: seq<Message>, id: string, content: string, thinking: Option<string>)
    ensures KeepsMessages(ms, SetAssistant(ms, id, content, thinking))
  {
  }

  lemma AppendKeeps(ms: seq<Message>, m: Message)
    ensures KeepsMessages(ms, ms + [m])
  {
  }

  /**
   * Nothing the stream sends removes a message, so the assistant message and
   * whatever partial text it holds survive a later transport failure.
   */
  lemma {:induction false} HandleLinesKeepsMessages(st: Stream, lines: seq<string>, now: nat,
                                                    parse: string -> Option<Event>)
    ensures KeepsMessages(st.messages, HandleLines(st, lines, now, parse).messages)
    decreases |lines|
  {
    if |lines| > 0 {
      var mid := HandleLines(st, lines[..|lines| - 1], now, parse);
      HandleLinesKeepsMessages(st, lines[..|lines| - 1], now, parse);
      var line := lines[|lines| - 1];
      if StartsWith(line, "data: ") && parse(line[6..]).Some? {
        HandleEventKeepsMessages(mid, parse(line[6..]).value, now);
      }
    }
  }
}
