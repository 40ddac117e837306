// The plain chat input `AutocompleteInput`: the same trigger rule as the
// composer, but choosing a suggestion writes it into the text (trigger
// character, label and a space) and moves the cursor after it; sending
// needs non-blank text.
module AutocompleteInput {
  import opened Wrappers
  import opened Strings
  import opened InputTriggers

  datatype Box = Box(
    input: string,
    showSuggestions: bool,
    suggestions: seq<Suggestion>,
    selectedIndex: nat,
    triggerType: Option<Trigger>,
    triggerPosition: nat)

  const Initial := Box("", false, [], 0, None, 0)

  /** An open suggestion list always has a selected entry. */
  predicate Valid(b: Box) {
    b.showSuggestions ==> b.selectedIndex < |b.suggestions|
  }

  /** `handleInputChange`. */
  function InputChange(b: Box, value: string, cursor: nat): (r: (Box, Option<SuggestionRequest>))
    requires cursor <= |value|
    ensures Valid(b) ==> Valid(r.0)
    ensures r.0.input == value
    ensures r.1.None? <==> DetectTrigger(value, cursor).None?
    ensures r.1.None? ==> !r.0.showSuggestions && r.0.triggerType.None?
    ensures r.1.Some? ==> var d := DetectTrigger(value, cursor).value;
      r.1.value == SuggestionRequest(d.trigger, Query(value, cursor, d), d.pos) &&
      OpensTrigger(value, cursor, d.pos, d.trigger)
  {
    var b1 := b.(input := value);
    match DetectTrigger(value, cursor)
    case Some(d) =>
      DetectTriggerSound(value, cursor);
      (b1, Some(SuggestionRequest(d.trigger, Query(value, cursor, d), d.pos)))
    case None => (b1.(showSuggestions := false, triggerType := None), None)
  }

  /** The `.then` of the fetch. */
  function ReceiveSuggestions(b: Box, req: SuggestionRequest, items: seq<Suggestion>): (r: Box)
    ensures Valid(r)
    ensures r.showSuggestions <==> |items| > 0
    ensures r.triggerType == Some(req.trigger) && r.triggerPosition == req.pos && r.input == b.input
  {
    b.(suggestions := items, showSuggestions := |items| > 0, triggerType := Some(req.trigger),
       triggerPosition := req.pos, selectedIndex := 0)
  }

  /** `beforeTrigger + triggerType + label + " " + afterTrigger`, with the same clamped cuts as the composer. */
  function InsertSuggestion(input: string, triggerPosition: nat, t: Trigger, title: string, cursor: nat): string {
    input[..Clamp(triggerPosition, |input|)] + [Symbol(t)] + title + " " + input[RestStart(input, cursor)..]
  }

  /** `beforeTrigger.length + triggerType.length + label.length + 1`. */
  function NewCursor(input: string, triggerPosition: nat, title: string): nat {
    Clamp(triggerPosition, |input|) + 1 + |title| + 1
  }

  /** The cursor lands right after the inserted space: the completed word before it, the old tail after it. */
  lemma CursorAfterInsertion(input: string, triggerPosition: nat, t: Trigger, title: string, cursor: nat)
    ensures var v := InsertSuggestion(input, triggerPosition, t, title, cursor);
      var k := NewCursor(input, triggerPosition, title);
      k <= |v| &&
      v[..k] == input[..Clamp(triggerPosition, |input|)] + [Symbol(t)] + title + " " &&
      v[k..] == input[RestStart(input, cursor)..] &&
      v[k - 1] == ' '
  {
    var head := input[..Clamp(triggerPosition, |input|)] + [Symbol(t)] + title + " ";
    var v := InsertSuggestion(input, triggerPosition, t, title, cursor);
    assert v == head + input[RestStart(input, cursor)..];
    assert |head| == NewCursor(input, triggerPosition, title);
  }

  /** Right after a detection, selecting replaces the typed word after the trigger with the label and a space. */
  lemma InsertionReplacesQuery(value: string, cursor: nat, title: string)
    requires cursor <= |value| && DetectTrigger(value, cursor).Some?
    ensures var d := DetectTrigger(value, cursor).value;
      InsertSuggestion(value, d.pos, d.trigger, title, cursor) ==
        value[..d.pos] + [Symbol(d.trigger)] + title + " " + value[cursor..]
  {
  }

  /** `selectSuggestion`; the second component is the cursor position set afterwards. */
  function SelectSuggestion(b: Box, s: Suggestion, cursor: nat): (r: (Box, Option<nat>))
    ensures Valid(b) ==> Valid(r.0)
    ensures r.1.None? <==> b.triggerType.None?
    ensures r.1.None? ==> r.0 == b
    ensures r.1.Some? ==>
      r.0.input == InsertSuggestion(b.input, b.triggerPosition, b.triggerType.value, s.title, cursor) &&
      r.1.value == NewCursor(b.input, b.triggerPosition, s.title) &&
      !r.0.showSuggestions && r.0.triggerType.None? && r.0.suggestions == b.suggestions
  {
    match b.triggerType
    case None => (b, None)
    case Some(t) =>
      (b.(input := InsertSuggestion(b.input, b.triggerPosition, t, s.title, cursor), showSuggestions := false, triggerType := None),
       Some(NewCursor(b.input, b.triggerPosition, s.title)))
  }

  /** `handleSend`: only non-blank text goes out, trimmed, and the box empties. */
  function Send(b: Box): (r: (Box, Option<string>))
    ensures Valid(b) ==> Valid(r.0)
    ensures r.1.Some? <==> JsTrim(b.input) != ""
    ensures r.1.Some? ==> r.1.value == JsTrim(b.input) && r.0 == b.(input := "", showSuggestions := false)
    ensures r.1.None? ==> r.0 == b
  {
    if JsTrim(b.input) != "" then (b.(input := "", showSuggestions := false), Some(JsTrim(b.input)))
    else (b, None)
  }

  /** `handleKeyDown`: the second component is the text sent, if any. */
  function KeyDown(b: Box, key: Key, shift: bool, cursor: nat): (r: (Box, Option<string>))
    requires Valid(b)
    ensures Valid(r.0)
  {
    if b.showSuggestions then
      match key
      case ArrowDown => (b.(selectedIndex := NextIndex(b.selectedIndex, |b.suggestions|)), None)
      case ArrowUp => (b.(selectedIndex := PrevIndex(b.selectedIndex, |b.suggestions|)), None)
      case Enter => if shift then (b, None) else (SelectSuggestion(b, b.suggestions[b.selectedIndex], cursor).0, None)
      case Escape => (b.(showSuggestions := false), None)
      case OtherKey => (b, None)
    else if key == Enter && !shift then Send(b)
    else (b, None)
  }

  /** Text is sent only by a plain Enter with the list closed; the arrows keep the index on the list. */
  lemma KeyDownRouting(b: Box, key: Key, shift: bool, cursor: nat)
    requires Valid(b)
    ensures var (b1, sent) := KeyDown(b, key, shift, cursor);
      (sent.Some? ==> key == Enter && !shift && !b.showSuggestions && sent.value == JsTrim(b.input)) &&
      (b.showSuggestions && (key == ArrowDown || key == ArrowUp) ==>
        b1.selectedIndex < |b.suggestions| && b1.input == b.input) &&
      (b.showSuggestions && key == Enter && !shift ==>
        b1 == SelectSuggestion(b, b.suggestions[b.selectedIndex], cursor).0)
  {
  }

  class AutocompleteBox {
    var input: string
    var showSuggestions: bool
    var suggestions: seq<Suggestion>
    var selectedIndex: nat
    var triggerType: Option<Trigger>
    var triggerPosition: nat

    function State(): Box
      reads this
    {
      Box(input, showSuggestions, suggestions, selectedIndex, triggerType, triggerPosition)
    }

    constructor()
      ensures State() == Initial && Valid(State())
    {
      input, showSuggestions, suggestions := "", false, [];
      selectedIndex, triggerType, triggerPosition := 0, None, 0;
    }

    method Commit(b: Box)
      modifies this
      ensures State() == b
    {
      input, showSuggestions, suggestions := b.input, b.showSuggestions, b.suggestions;
      selectedIndex, triggerType, triggerPosition := b.selectedIndex, b.triggerType, b.triggerPosition;
    }

    method HandleInputChange(value: string, cursor: nat) returns (request: Option<SuggestionRequest>)
      requires cursor <= |value|
      modifies this
      ensures (State(), request) == InputChange(old(State()), value, cursor)
    {
      var r := InputChange(State(), value, cursor);
      Commit(r.0);
      request := r.1;
    }

    method SuggestionsArrived(req: SuggestionRequest, items: seq<Suggestion>)
      modifies this
      ensures State() == ReceiveSuggestions(old(State()), req, items)
    {
      Commit(ReceiveSuggestions(State(), req, items));
    }

    method HandleKeyDown(key: Key, shift: bool, cursor: nat) returns (sent: Option<string>)
      requires Valid(State())
      modifies this
      ensures Valid(State())
      ensures (State(), sent) == KeyDown(old(State()), key, shift, cursor)
    {
      var r := KeyDown(State(), key, shift, cursor);
      Commit(r.0);
      sent := r.1;
    }

    /** A click on a suggestion. */
    method HandleSelectSuggestion(s: Suggestion, cursor: nat) returns (newCursor: Option<nat>)
      modifies this
      ensures (State(), newCursor) == SelectSuggestion(old(State()), s, cursor)
    {
      var r := SelectSuggestion(State(), s, cursor);
      Commit(r.0);
      newCursor := r.1;
    }

    method HandleSend() returns (sent: Option<string>)
      modifies this
      ensures (State(), sent) == Send(old(State()))
    {
      var r := Send(State());
      Commit(r.0);
      sent := r.1;
    }
  }
}
