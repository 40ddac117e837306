// The backend's action registry (`ActionHandler`): the built-in
// `add_knowledge` action, search over label, description and tags, lookup by
// id and by category, and the deterministic part of running `add_knowledge`:
// choosing the file name, screening the attached files' sizes, choosing the
// text to save, and the reply. Both backends carry the same class.
//
// What the language model writes (a file name, a summary, the analysis of
// attached files) enters as parameters; so does whether writing the file
// succeeds.
module Actions {
  import opened Wrappers
  import opened Strings
  import opened Lists
  import opened MemoryTypes
  import KnowledgeFiles

  const AddKnowledgeId := "add_knowledge"

  const AddKnowledge := Action(AddKnowledgeId, "add_knowledge", Some("Save user input as knowledge to short-term memory"),
    "/add_knowledge", "memory", ["save", "store", "remember", "knowledge"])

  const ActionSearchLimit := 10

  // ---------------------------------------------------------------------
  // Search

  /**
   * The lowered query occurs in the lowered label, in the description when
   * there is a non-empty one, or in one of the tags.
   */
  predicate ActionMatches(a: Action, loweredQuery: string) {
    Contains(Lower(a.caption), loweredQuery)
    || (a.description.Some? && a.description.value != "" && Contains(Lower(a.description.value), loweredQuery))
    || exists t :: 0 <= t < |a.tags| && Contains(Lower(a.tags[t]), loweredQuery)
  }

  function MatchStage(loweredQuery: string): Action -> bool {
    (a: Action) => ActionMatches(a, loweredQuery)
  }

  function ActionSuggestionOf(a: Action): Suggestion {
    Suggestion(a.id, a.caption, a.description, ActionSuggestion, ActionMeta(a.command, a.category, a.tags))
  }

  function Suggestions(actions: seq<Action>): (r: seq<Suggestion>)
    ensures |r| == |actions|
    ensures forall i :: 0 <= i < |actions| ==> r[i] == ActionSuggestionOf(actions[i])
  {
    seq(|actions|, i requires 0 <= i < |actions| => ActionSuggestionOf(actions[i]))
  }

  /** `search`: the matching actions' suggestions, in list order, cut at ten. */
  function ActionSearchSpec(actions: seq<Action>, query: string): seq<Suggestion> {
    Take(Suggestions(Filter(actions, MatchStage(Lower(query)))), ActionSearchLimit)
  }

  /**
   * The results are the suggestions of the first ten matching actions, which
   * keep their order in the registry; all matches are listed when there are
   * no more than ten.
   */
  lemma ActionSearchMeaning(actions: seq<Action>, query: string)
    ensures var chosen := Take(Filter(actions, MatchStage(Lower(query))), ActionSearchLimit);
      ActionSearchSpec(actions, query) == Suggestions(chosen)
      && IsSubsequence(chosen, actions)
      && (forall i :: 0 <= i < |chosen| ==> ActionMatches(chosen[i], Lower(query)))
    ensures |ActionSearchSpec(actions, query)| <= ActionSearchLimit
    ensures Count(actions, MatchStage(Lower(query))) <= ActionSearchLimit ==>
      forall a :: a in actions && ActionMatches(a, Lower(query)) ==> ActionSuggestionOf(a) in ActionSearchSpec(actions, query)
  {
    var matches := Filter(actions, MatchStage(Lower(query)));
    var chosen := Take(matches, ActionSearchLimit);
    TakeFilterIsSubsequence(actions, MatchStage(Lower(query)), ActionSearchLimit);
    assert Suggestions(matches)[..|chosen|] == Suggestions(chosen);
    forall i | 0 <= i < |chosen| ensures ActionMatches(chosen[i], Lower(query)) {
      assert MatchStage(Lower(query))(matches[i]);
    }
    if Count(actions, MatchStage(Lower(query))) <= ActionSearchLimit {
      forall a | a in actions && ActionMatches(a, Lower(query)) ensures ActionSuggestionOf(a) in ActionSearchSpec(actions, query) {
        assert MatchStage(Lower(query))(a);
        var k :| 0 <= k < |matches| && matches[k] == a;
        assert Suggestions(chosen)[k] == ActionSuggestionOf(a);
      }
    }
  }

  /** Letter case plays no part in the search. */
  lemma ActionSearchCaseInsensitive(actions: seq<Action>, query: string)
    ensures ActionSearchSpec(actions, query) == ActionSearchSpec(actions, Lower(query))
  {
    LowerIdempotent(query);
  }

  /** An action without tags and without a description matches on its label alone. */
  lemma LabelOnlyMatch(a: Action, query: string)
    requires a.tags == [] && (a.description.None? || a.description == Some(""))
    ensures ActionMatches(a, Lower(query)) <==> Contains(Lower(a.caption), Lower(query))
  {
  }

  // ---------------------------------------------------------------------
  // Lookup

  function HasId(id: string): Action -> bool {
    (a: Action) => a.id == id
  }

  /** `get_action`: the first action with that id. */
  function FindAction(actions: seq<Action>, id: string): (r: Option<Action>)
    ensures r.Some? ==> r.value.id == id && r.value in actions
    ensures r.None? <==> forall i :: 0 <= i < |actions| ==> actions[i].id != id
    ensures r.Some? ==> exists k :: 0 <= k < |actions| && actions[k] == r.value && forall j :: 0 <= j < k ==> actions[j].id != id
  {
    match FirstIndex(actions, HasId(id))
    case None => None
    case Some(k) =>
      assert HasId(id)(actions[k]);
      Some(actions[k])
  }

  /** `get_actions_by_category`: the actions of that category, in registry order. */
  function ByCategory(actions: seq<Action>, category: string): (r: seq<Action>)
    ensures IsSubsequence(r, actions)
    ensures forall a :: a in r <==> a in actions && a.category == category
  {
    FilterIsSubsequence(actions, InCategory(category));
    Filter(actions, InCategory(category))
  }

  function InCategory(category: string): Action -> bool {
    (a: Action) => a.category == category
  }

  /** Python's index rule for `list[index]`: a negative index counts from the end. */
  function PyIndex(length: nat, index: int): (r: Option<nat>)
    ensures r.Some? <==> -(length as int) <= index < length
    ensures r.Some? ==> r.value < length && r.value as int == (if index < 0 then length + index else index)
  {
    if 0 <= index < length then Some(index)
    else if -(length as int) <= index < 0 then Some(length + index)
    else None
  }

  // ---------------------------------------------------------------------
  // The file name for add_knowledge

  predicate KeptInUserName(c: char) {
    IsWordChar(c) || IsPySpace(c) || c == '.' || c == '-'
  }

  /** A character a sanitised name may hold: a word character, '.' or '-'. */
  predicate SafeNameChar(c: char) {
    IsWordChar(c) || c == '.' || c == '-'
  }

  /**
   * The cleaned part of a name the user gave: characters other than word
   * characters, whitespace, '.' and '-' are removed, the ends are stripped,
   * and each run of whitespace becomes '_'.
   */
  function UserNameBody(name: string): (r: string)
    ensures forall i :: 0 <= i < |r| ==> SafeNameChar(r[i])
  {
    var kept := Filter(name, KeptInUserName);
    var stripped := PyStrip(kept);
    var joined := ReplaceRuns(stripped, IsPySpace, '_');
    forall i | 0 <= i < |joined| ensures SafeNameChar(joined[i]) {
      if joined[i] != '_' {
        var j :| 0 <= j < |stripped| && stripped[j] == joined[i];
        assert stripped[j] == kept[LeadCount(kept, IsPySpace) + j];
      }
    }
    joined
  }

  /** ".txt" appended to a name of safe characters. */
  function WithTxt(body: string): (r: string)
    requires forall i :: 0 <= i < |body| ==> SafeNameChar(body[i])
    ensures '.' in r && EndsWith(r, ".txt")
    ensures forall i :: 0 <= i < |r| ==> SafeNameChar(r[i])
  {
    var r := body + ".txt";
    assert r[|body|] == '.';
    assert r[|r| - 4..] == ".txt";
    forall i | |body| <= i < |r| ensures SafeNameChar(r[i]) {
      assert r[i] == ".txt"[i - |body|];
    }
    r
  }

  /** ... with ".txt" added when no '.' is left. */
  function SanitizeUserFilename(name: string): (r: string)
    ensures '.' in r
    ensures forall i :: 0 <= i < |r| ==> SafeNameChar(r[i])
  {
    var body := UserNameBody(name);
    if '.' in body then body else WithTxt(body)
  }

  /** A name of safe characters only, without a run of whitespace, is its own body. */
  lemma SafeNameIsBody(r: string)
    requires forall i :: 0 <= i < |r| ==> SafeNameChar(r[i])
    ensures UserNameBody(r) == r
  {
    SafeCharsKept(r);
    FilterAll(r, KeptInUserName);
    assert Filter(r, KeptInUserName) == r;
    TrimNothing(r, IsPySpace);
    assert PyStrip(r) == r;
    ReplaceRunsIdentity(r, IsPySpace, '_');
    assert ReplaceRuns(r, IsPySpace, '_') == r;
  }

  lemma SafeCharsKept(r: string)
    requires forall i :: 0 <= i < |r| ==> SafeNameChar(r[i])
    ensures forall i :: 0 <= i < |r| ==> KeptInUserName(r[i])
    ensures forall i :: 0 <= i < |r| ==> !IsPySpace(r[i])
  {
  }

  /** Sanitising a sanitised name changes nothing. */
  lemma SanitizeIdempotent(name: string)
    ensures SanitizeUserFilename(SanitizeUserFilename(name)) == SanitizeUserFilename(name)
  {
    SafeNameIsBody(SanitizeUserFilename(name));
  }

  /** A name made of word characters only gets ".txt" added and nothing else. */
  lemma PlainNameGetsTxt(name: string)
    requires forall i :: 0 <= i < |name| ==> IsWordChar(name[i])
    ensures SanitizeUserFilename(name) == name + ".txt"
  {
    WordNameIsSafe(name);
    SafeNameIsBody(name);
    BodyWithoutDotGetsTxt(name);
  }

  lemma WordNameIsSafe(name: string)
    requires forall i :: 0 <= i < |name| ==> IsWordChar(name[i])
    ensures forall i :: 0 <= i < |name| ==> SafeNameChar(name[i])
    ensures '.' !in name
  {
  }

  lemma BodyWithoutDotGetsTxt(name: string)
    requires '.' !in UserNameBody(name)
    ensures SanitizeUserFilename(name) == UserNameBody(name) + ".txt"
  {
  }

  /** A character the generated base name may hold (`[a-z0-9_]`). */
  predicate IsNameChar(c: char) {
    'a' <= c <= 'z' || IsDigit(c) || c == '_'
  }

  /** The language model's answer, stripped and lowered, with every other character removed. */
  function CleanGenerated(text: string): (r: string)
    ensures forall i :: 0 <= i < |r| ==> IsNameChar(r[i])
  {
    Filter(Lower(PyStrip(text)), IsNameChar)
  }

  predicate IsLetterWord(w: string) {
    |w| >= 3 && forall i :: 0 <= i < |w| ==> IsAsciiLetter(w[i])
  }

  /**
   * `re.findall(r"\b[a-zA-Z]{3,}\b", s)`: a match is a whole run of word
   * characters that holds letters only and has at least three of them.
   */
  function LetterWords(s: string): (r: seq<string>)
    ensures forall i :: 0 <= i < |r| ==> IsLetterWord(r[i])
    ensures forall i, k :: 0 <= i < |r| && 0 <= k < |r[i]| ==> r[i][k] in s
  {
    Filter(WordRuns(s), IsLetterWord)
  }

  /**
   * The base name when the model gives none: the first two letter words of
   * the lowered input joined by '_', the only one, or "note"; for an empty
   * input, "knowledge_file".
   */
  function FallbackBase(userInput: string): (r: string)
    ensures |r| >= 3
    ensures forall i :: 0 <= i < |r| ==> IsNameChar(r[i])
    ensures userInput == "" ==> r == "knowledge_file"
    ensures userInput != "" && LetterWords(Lower(userInput)) == [] ==> r == "note"
    ensures var words := LetterWords(Lower(userInput));
      userInput != "" && |words| >= 2 ==> r == words[0] + "_" + words[1]
    ensures var words := LetterWords(Lower(userInput));
      userInput != "" && |words| == 1 ==> r == words[0]
  {
    if userInput == "" then "knowledge_file"
    else
      var words := LetterWords(Lower(userInput));
      LowerWordsAreLower(words, userInput);
      if |words| >= 2 then words[0] + "_" + words[1]
      else if |words| == 1 then words[0]
      else "note"
  }

  lemma LowerWordsAreLower(words: seq<string>, userInput: string)
    requires words == LetterWords(Lower(userInput))
    ensures forall i, k :: 0 <= i < |words| && 0 <= k < |words[i]| ==> 'a' <= words[i][k] <= 'z'
  {
    forall i, k | 0 <= i < |words| && 0 <= k < |words[i]| ensures 'a' <= words[i][k] <= 'z' {
      assert IsLetterWord(words[i]);
      var c := words[i][k];
      assert c in Lower(userInput);
      var j :| 0 <= j < |Lower(userInput)| && Lower(userInput)[j] == c;
    }
  }

  /** A lower-case letter word, as `re.findall` returns it from lowered text. */
  predicate IsLowerWord(w: string) {
    |w| >= 3 && forall i :: 0 <= i < |w| ==> 'a' <= w[i] <= 'z'
  }

  /**
   * Input that opens with two words, a space between them, gets those two
   * words joined by '_' as its fallback base, whatever follows a break.
   */
  lemma FallbackOfTwoWords(a: string, b: string, rest: string)
    requires IsLowerWord(a) && IsLowerWord(b)
    requires rest == [] || !IsWordChar(rest[0])
    ensures FallbackBase(a + " " + b + rest) == a + "_" + b
  {
    var s := a + " " + b + rest;
    var t := Lower(rest);
    LowerOfTwoWords(a, b, rest);
    RunsOfTwoWords(a, b, t);
    FilterOfTwoWords(a, b, WordRuns(t));
    assert LetterWords(Lower(s)) == [a, b] + LetterWords(t);
  }

  lemma LowerOfTwoWords(a: string, b: string, rest: string)
    requires IsLowerWord(a) && IsLowerWord(b)
    requires rest == [] || !IsWordChar(rest[0])
    ensures Lower(a + " " + b + rest) == a + ([' '] + (b + Lower(rest)))
    ensures Lower(rest) == [] || !IsWordChar(Lower(rest)[0])
  {
    LowerConcat(a + " " + b, rest);
    assert Lower(a + " " + b) == a + " " + b;
  }

  lemma RunsOfTwoWords(a: string, b: string, t: string)
    requires IsLowerWord(a) && IsLowerWord(b)
    requires t == [] || !IsWordChar(t[0])
    ensures WordRuns(a + ([' '] + (b + t))) == [a] + ([b] + WordRuns(t))
  {
    RunThenRest(b, t);
    SkipBreak(' ', b + t);
    RunThenRest(a, [' '] + (b + t));
  }

  lemma FilterOfTwoWords(a: string, b: string, runs: seq<string>)
    requires IsLowerWord(a) && IsLowerWord(b)
    ensures Filter([a] + ([b] + runs), IsLetterWord) == [a, b] + Filter(runs, IsLetterWord)
  {
    assert IsLetterWord(a) && IsLetterWord(b);
    assert ([a] + ([b] + runs))[1..] == [b] + runs;
    assert ([b] + runs)[1..] == runs;
  }

  /**
   * The base name from the model's answer (`None` when asking it failed):
   * the cleaned answer when it has two characters or more, the fallback
   * otherwise.
   */
  function GeneratedBase(generated: Option<string>, userInput: string): (r: string)
    ensures |r| >= 2
    ensures forall i :: 0 <= i < |r| ==> IsNameChar(r[i])
    ensures generated.Some? && |CleanGenerated(generated.value)| >= 2 ==> r == CleanGenerated(generated.value)
    ensures (generated.None? || |CleanGenerated(generated.value)| < 2) ==> r == FallbackBase(userInput)
  {
    match generated
    case None => FallbackBase(userInput)
    case Some(text) =>
      var c := CleanGenerated(text);
      if |c| < 2 then FallbackBase(userInput) else c
  }

  /** The user's name when there is a non-empty one, else the generated base with ".txt". */
  function ChosenFilename(knowledgeFilename: Option<string>, userInput: string, generated: Option<string>): (r: string)
    ensures '.' in r
    ensures forall i :: 0 <= i < |r| ==> SafeNameChar(r[i])
    ensures knowledgeFilename.Some? && knowledgeFilename.value != "" ==> r == SanitizeUserFilename(knowledgeFilename.value)
    ensures !(knowledgeFilename.Some? && knowledgeFilename.value != "") ==>
      r == GeneratedBase(generated, userInput) + ".txt" && EndsWith(r, ".txt")
  {
    if knowledgeFilename.Some? && knowledgeFilename.value != "" then SanitizeUserFilename(knowledgeFilename.value)
    else
      var base := GeneratedBase(generated, userInput);
      assert forall i :: 0 <= i < |base| ==> SafeNameChar(base[i]);
      WithTxt(base)
  }

  /**
   * The model's answer as `execute_action` receives it as written: the
   * `asyncio.run(...)` is called while the server's event loop is running,
   * so it raises before the coroutine runs, and the `except` takes the
   * fallback. No answer ever arrives.
   */
  function ModelAnswerAsWritten(answer: Option<string>): (r: Option<string>)
    ensures r.None?
  {
    None
  }

  /** As written, a usable model answer is lost: the fallback name is saved instead of the answer's. */
  lemma AnswerLostAsWritten(userInput: string, text: string)
    requires |CleanGenerated(text)| >= 2 && CleanGenerated(text) != FallbackBase(userInput)
    ensures ChosenFilename(None, userInput, ModelAnswerAsWritten(Some(text))) == FallbackBase(userInput) + ".txt"
    ensures ChosenFilename(None, userInput, Some(text)) == CleanGenerated(text) + ".txt"
    ensures ChosenFilename(None, userInput, ModelAnswerAsWritten(Some(text))) != ChosenFilename(None, userInput, Some(text))
  {
  }

  // ---------------------------------------------------------------------
  // Attached files and their sizes

  const MaxFileSize := 5 * 1024 * 1024
  const MaxTotalSize := 20 * 1024 * 1024
  const MiB := 1024 * 1024

  /** One attachment as the request gives it; absent keys are `None`. */
  datatype Attachment = Attachment(kind: Option<string>, name: Option<string>, content: Option<string>, size: Option<nat>)

  /** A file attachment with non-empty content. */
  predicate IsFileAttachment(a: Attachment) {
    a.kind == Some("file") && a.content.Some? && a.content.value != ""
  }

  function FileAttachments(attachments: seq<Attachment>): (r: seq<Attachment>)
    ensures forall i :: 0 <= i < |r| ==> IsFileAttachment(r[i]) && r[i] in attachments
    ensures forall a :: a in attachments && IsFileAttachment(a) ==> a in r
  {
    Filter(attachments, IsFileAttachment)
  }

  function AttachmentName(a: Attachment): string {
    a.name.GetOr("unknown")
  }

  /** The size given with the attachment, or else the UTF-8 length of its content. */
  function AttachmentSize(a: Attachment): nat {
    match a.size
    case Some(n) => n
    case None => Utf8Length(a.content.GetOr(""))
  }

  predicate Oversized(a: Attachment) {
    AttachmentSize(a) > MaxFileSize
  }

  function TotalSize(atts: seq<Attachment>): nat {
    if |atts| == 0 then 0 else TotalSize(atts[..|atts| - 1]) + AttachmentSize(atts[|atts| - 1])
  }

  datatype SizeVerdict = SizesOk | FileTooLarge(name: string) | TotalTooLarge(total: nat)

  /** The first file over 5 MiB is named; otherwise a total over 20 MiB is refused. */
  function SizeVerdictOf(atts: seq<Attachment>): (v: SizeVerdict)
    ensures v == SizesOk <==> (forall i :: 0 <= i < |atts| ==> AttachmentSize(atts[i]) <= MaxFileSize) && TotalSize(atts) <= MaxTotalSize
    ensures v.FileTooLarge? ==> exists k :: (0 <= k < |atts| && Oversized(atts[k]) && v.name == AttachmentName(atts[k])
      && forall j :: 0 <= j < k ==> !Oversized(atts[j]))
    ensures v.TotalTooLarge? ==> v.total == TotalSize(atts) > MaxTotalSize && forall i :: 0 <= i < |atts| ==> !Oversized(atts[i])
  {
    match FirstIndex(atts, Oversized)
    case Some(k) => FileTooLarge(AttachmentName(atts[k]))
    case None => if TotalSize(atts) > MaxTotalSize then TotalTooLarge(TotalSize(atts)) else SizesOk
  }

  /** The size loop of `execute_action`: sizes are added up, and the first file over the limit ends it. */
  method CheckSizes(atts: seq<Attachment>) returns (v: SizeVerdict)
    ensures v == SizeVerdictOf(atts)
  {
    var total := 0;
    for i := 0 to |atts|
      invariant total == TotalSize(atts[..i])
      invariant forall j :: 0 <= j < i ==> !Oversized(atts[j])
    {
      var size := AttachmentSize(atts[i]);
      assert atts[..i + 1][..i] == atts[..i];
      total := total + size;
      if size > MaxFileSize {
        return FileTooLarge(AttachmentName(atts[i]));
      }
    }
    assert atts[..|atts|] == atts;
    if total > MaxTotalSize {
      return TotalTooLarge(total);
    }
    return SizesOk;
  }

  /**
   * `total / 1024 / 1024` printed with one decimal, in tenths: the division by
   * a power of two is exact, and the rounding goes to the nearest tenth, a
   * tie to the even one.
   */
  function TenthsOfMiB(total: nat): (t: nat)
    ensures t * MiB * 2 <= total * 10 * 2 + MiB && total * 10 * 2 <= t * MiB * 2 + MiB
  {
    var q := total * 10 / MiB;
    var rem := total * 10 % MiB;
    if rem * 2 > MiB || (rem * 2 == MiB && q % 2 == 1) then q + 1 else q
  }

  function MiBText(total: nat): string {
    var t := TenthsOfMiB(total);
    NatToString(t / 10) + "." + [DigitChar(t % 10)]
  }

  // ---------------------------------------------------------------------
  // What is saved

  const AttachedMarker := "\n\nAttached Files:\n"
  const SummaryThreshold := 100
  const SummaryHeader := "# User Input Summary\n\n## Original Text\n"
  const SummarySeparator := "\n\n## AI Summary & Analysis\n"

  /** The user's text before any formatted attachment block, stripped. */
  function OriginalText(userInput: string): (r: string)
    ensures !Contains(userInput, AttachedMarker) ==> r == PyStrip(userInput)
  {
    PyStrip(BeforeFirst(userInput, AttachedMarker))
  }

  /**
   * Without attached files: the original text, under a header and followed
   * by the model's summary when the text is longer than 100 characters and
   * the summary (`None` when asking for it failed) is not blank.
   */
  function TextToSave(userInput: string, summary: Option<string>): (r: string)
    ensures Contains(r, OriginalText(userInput))
    ensures |OriginalText(userInput)| <= SummaryThreshold ==> r == OriginalText(userInput)
    ensures summary.None? || PyStrip(summary.value) == "" ==> r == OriginalText(userInput)
  {
    var original := OriginalText(userInput);
    if |original| > SummaryThreshold && summary.Some? && PyStrip(summary.value) != "" then
      var r := SummaryHeader + original + SummarySeparator + PyStrip(summary.value);
      assert OccursAt(r, original, |SummaryHeader|);
      r
    else
      assert OccursAt(original, original, 0);
      original
  }

  // ---------------------------------------------------------------------
  // Running an action

  /** The dictionary `execute_action` answers with. */
  datatype Reply =
    | ErrorReply(error: string)
    | ActionReply(action: string, message: string, filename: Option<string>, success: bool)

  datatype Step = Answer(reply: Reply) | Save(filename: string, content: string, withFiles: bool)

  function NotFoundText(actionId: string): string {
    "Action '" + actionId + "' not found"
  }

  function NotImplementedText(actionId: string): string {
    "Action '" + actionId + "' execution not implemented"
  }

  function SizeRefusal(v: SizeVerdict): string {
    match v
    case FileTooLarge(name) => "File '" + name + "' exceeds 5MB limit"
    case TotalTooLarge(total) => "Total files size " + MiBText(total) + "MB exceeds 20MB limit"
    case SizesOk => ""
  }

  /**
   * What `execute_action` does before writing: answer at once, or save a
   * content under a file name. `collection` is the text built from the
   * model's analysis of the attached files.
   */
  function Plan(actions: seq<Action>, actionId: string, userInput: string, attachments: seq<Attachment>,
                knowledgeFilename: Option<string>, generated: Option<string>, summary: Option<string>, collection: string): (s: Step)
    ensures FindAction(actions, actionId).None? ==> s == Answer(ErrorReply(NotFoundText(actionId)))
    ensures FindAction(actions, actionId).Some? && actionId != AddKnowledgeId ==> s == Answer(ErrorReply(NotImplementedText(actionId)))
    ensures s.Save? ==> (FindAction(actions, actionId).Some? && actionId == AddKnowledgeId
      && s.filename == ChosenFilename(knowledgeFilename, userInput, generated)
      && s.withFiles == (|FileAttachments(attachments)| > 0))
    ensures s.Save? && s.withFiles ==> SizeVerdictOf(FileAttachments(attachments)) == SizesOk && s.content == collection
    ensures s.Save? && !s.withFiles ==> s.content == TextToSave(userInput, summary)
    ensures (FindAction(actions, actionId).Some? && actionId == AddKnowledgeId && |FileAttachments(attachments)| > 0
      && SizeVerdictOf(FileAttachments(attachments)) != SizesOk) ==>
      s == Answer(ActionReply(AddKnowledgeId, SizeRefusal(SizeVerdictOf(FileAttachments(attachments))), None, false))
    ensures FindAction(actions, actionId).Some? && actionId == AddKnowledgeId && |FileAttachments(attachments)| == 0 ==> s.Save?
  {
    if FindAction(actions, actionId).None? then Answer(ErrorReply(NotFoundText(actionId)))
    else if actionId != AddKnowledgeId then Answer(ErrorReply(NotImplementedText(actionId)))
    else
      var files := FileAttachments(attachments);
      var filename := ChosenFilename(knowledgeFilename, userInput, generated);
      if |files| > 0 then
        var v := SizeVerdictOf(files);
        if v != SizesOk then Answer(ActionReply(AddKnowledgeId, SizeRefusal(v), None, false))
        else Save(filename, collection, true)
      else Save(filename, TextToSave(userInput, summary), false)
  }

  /** The reply once the registry has answered with the saved name ("" for a failure). */
  function SavedReply(withFiles: bool, saved: string): (r: Reply)
    ensures r.ActionReply? && r.action == AddKnowledgeId
    ensures r.success <==> saved != ""
    ensures saved != "" ==> (r.filename == Some(saved)
      && r.message == (if withFiles then "Files saved as " else "Note saved as ") + saved)
    ensures saved == "" ==> r.message == "Failed to save content" && r.filename.None?
  {
    if saved == "" then ActionReply(AddKnowledgeId, "Failed to save content", None, false)
    else ActionReply(AddKnowledgeId, (if withFiles then "Files saved as " else "Note saved as ") + saved, Some(saved), true)
  }

  // ---------------------------------------------------------------------
  // The registry

  class ActionHandler {
    var actions: seq<Action>

    /** A new registry holds the built-in action only. */
    constructor()
      ensures actions == [AddKnowledge]
    {
      actions := [AddKnowledge];
    }

    method Clear()
      modifies this
      ensures actions == [AddKnowledge]
    {
      actions := [AddKnowledge];
    }

    method AddAction(a: Action)
      modifies this
      ensures actions == old(actions) + [a]
    {
      actions := actions + [a];
    }

    method Search(query: string) returns (suggestions: seq<Suggestion>)
      ensures suggestions == ActionSearchSpec(actions, query)
    {
      var q := Lower(query);
      var found: seq<Suggestion> := [];
      for i := 0 to |actions|
        invariant found == Suggestions(Filter(actions[..i], MatchStage(q)))
      {
        var a := actions[i];
        SearchStep(actions, i, q);
        if MatchStage(q)(a) {
          found := found + [ActionSuggestionOf(a)];
        }
      }
      assert actions[..|actions|] == actions;
      suggestions := found[..if |found| <= ActionSearchLimit then |found| else ActionSearchLimit];
      SearchCut(actions, query, found);
    }

    method GetAction(id: string) returns (r: Option<Action>)
      ensures r == FindAction(actions, id)
    {
      for i := 0 to |actions|
        invariant forall j :: 0 <= j < i ==> actions[j].id != id
      {
        if actions[i].id == id {
          return Some(actions[i]);
        }
      }
      return None;
    }

    function ActionsByCategory(category: string): (r: seq<Action>)
      reads this
      ensures r == ByCategory(actions, category)
    {
      ByCategory(actions, category)
    }

    function Length(): (n: nat)
      reads this
      ensures n == |actions|
    {
      |actions|
    }

    /** `__getitem__`: `None` where Python raises `IndexError`. */
    function GetItem(index: int): (r: Option<Action>)
      reads this
      ensures r.Some? <==> PyIndex(|actions|, index).Some?
      ensures r.Some? ==> r.value == actions[PyIndex(|actions|, index).value]
      ensures index < 0 && r.Some? ==> r.value == actions[|actions| + index]
    {
      match PyIndex(|actions|, index)
      case None => None
      case Some(k) => Some(actions[k])
    }

    /** `__setitem__`: `false` where Python raises `IndexError`. */
    method SetItem(index: int, value: Action) returns (ok: bool)
      modifies this
      ensures ok <==> PyIndex(|old(actions)|, index).Some?
      ensures ok ==> actions == old(actions)[PyIndex(|old(actions)|, index).value := value]
      ensures !ok ==> actions == old(actions)
    {
      var k := PyIndex(|actions|, index);
      if k.None? {
        return false;
      }
      actions := actions[k.value := value];
      return true;
    }

    /** `__delitem__`: `false` where Python raises `IndexError`. */
    method DelItem(index: int) returns (ok: bool)
      modifies this
      ensures ok <==> PyIndex(|old(actions)|, index).Some?
      ensures ok ==> var k := PyIndex(|old(actions)|, index).value;
        actions == old(actions)[..k] + old(actions)[k + 1..]
      ensures !ok ==> actions == old(actions)
    {
      var k := PyIndex(|actions|, index);
      if k.None? {
        return false;
      }
      actions := actions[..k.value] + actions[k.value + 1..];
      return true;
    }

    /**
     * `execute_action`: looks the action up, and for add_knowledge plans the
     * save and hands it to the knowledge-file registry.
     */
    method ExecuteAction(actionId: string, userInput: string, attachments: seq<Attachment>,
                         knowledgeFilename: Option<string>, generated: Option<string>, summary: Option<string>,
                         collection: string, files: KnowledgeFiles.KnowledgeFileHandler, writeOk: bool) returns (reply: Reply)
      modifies files`memory, files`disk
      ensures var s := Plan(actions, actionId, userInput, attachments, knowledgeFilename, generated, summary, collection);
        match s
        case Answer(r) => reply == r && files.memory == old(files.memory) && files.disk == old(files.disk)
        case Save(filename, content, withFiles) =>
          (writeOk ==> (reply == SavedReply(withFiles, KnowledgeFiles.FreeName(old(files.disk), filename, 2))
            && files.disk == old(files.disk)[KnowledgeFiles.InData(KnowledgeFiles.FreeName(old(files.disk), filename, 2)) := KnowledgeFiles.FileNode(content)]
            && files.memory == old(files.memory) + [KnowledgeFiles.SavedItem(KnowledgeFiles.FreeName(old(files.disk), filename, 2), content)]))
          && (!writeOk ==> reply == SavedReply(withFiles, "") && files.memory == old(files.memory) && files.disk == old(files.disk))
    {
      ghost var plan := Plan(actions, actionId, userInput, attachments, knowledgeFilename, generated, summary, collection);
      var found := GetAction(actionId);
      if found.None? {
        assert plan == Answer(ErrorReply(NotFoundText(actionId)));
        return ErrorReply(NotFoundText(actionId));
      }
      if actionId != AddKnowledgeId {
        assert plan == Answer(ErrorReply(NotImplementedText(actionId)));
        return ErrorReply(NotImplementedText(actionId));
      }
      var fileAtts := FileAttachments(attachments);
      var filename := ChosenFilename(knowledgeFilename, userInput, generated);
      var content: string;
      if |fileAtts| > 0 {
        var v := CheckSizes(fileAtts);
        if v != SizesOk {
          assert plan == Answer(ActionReply(AddKnowledgeId, SizeRefusal(v), None, false));
          return ActionReply(AddKnowledgeId, SizeRefusal(v), None, false);
        }
        content := collection;
      } else {
        content := TextToSave(userInput, summary);
      }
      assert plan == Save(filename, content, |fileAtts| > 0);
      var saved := files.AddKnowledgeFile(filename, content, writeOk);
      reply := SavedReply(|fileAtts| > 0, saved);
    }
  }

  /** Cutting the full list of matches at ten gives the search results. */
  lemma SearchCut(actions: seq<Action>, query: string, found: seq<Suggestion>)
    requires found == Suggestions(Filter(actions, MatchStage(Lower(query))))
    ensures found[..if |found| <= ActionSearchLimit then |found| else ActionSearchLimit] == ActionSearchSpec(actions, query)
  {
  }

  /** One more action scanned by the search loop: its suggestion is appended when it matches. */
  lemma SearchStep(actions: seq<Action>, i: nat, q: string)
    requires i < |actions|
    ensures Suggestions(Filter(actions[..i + 1], MatchStage(q)))
      == Suggestions(Filter(actions[..i], MatchStage(q))) + if MatchStage(q)(actions[i]) then [ActionSuggestionOf(actions[i])] else []
  {
    assert actions[..i + 1] == actions[..i] + [actions[i]];
    FilterAppend(actions[..i], actions[i], MatchStage(q));
    if MatchStage(q)(actions[i]) {
      SuggestionsAppend(Filter(actions[..i], MatchStage(q)), actions[i]);
    }
  }

  lemma SuggestionsAppend(s: seq<Action>, a: Action)
    ensures Suggestions(s + [a]) == Suggestions(s) + [ActionSuggestionOf(a)]
  {
  }
}
