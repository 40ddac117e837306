// What the two chat input boxes share (EnhancedInput and AutocompleteInput
// run the same code here): the `@` / `/` trigger rule of `handleInputChange`,
// the query taken after the trigger, the cyclic arrow-key navigation and the
// clamped `substring` arithmetic of `selectSuggestion`.
module InputTriggers {
  import opened Wrappers
  import opened Strings

  datatype Trigger = At | Slash

  function Symbol(t: Trigger): char {
    if t == At then '@' else '/'
  }

  /** A suggestion entry; `label` is a reserved word in Dafny, so the shown text is `title` here. */
  datatype Suggestion = Suggestion(id: string, title: string, description: Option<string>)

  datatype Key = ArrowDown | ArrowUp | Enter | Escape | OtherKey

  /** A suggestion fetch: `GET <endpoint>?q=<query>`, remembered with the trigger position. */
  datatype SuggestionRequest = SuggestionRequest(trigger: Trigger, query: string, pos: nat)

  function Endpoint(t: Trigger): string {
    if t == At then "/api/files" else "/api/actions"
  }

  /** A trigger and the index of its character in the input. */
  datatype Detection = Detection(trigger: Trigger, pos: nat)

  /** `lastIndexOf` as JavaScript reports it, -1 standing for "absent". */
  function IndexOrMinusOne(o: Option<nat>): int {
    if o.Some? then o.value else -1
  }

  /**
   * The trigger test: the later of the last '@' and the last '/' before the
   * cursor wins, provided no space follows it up to the cursor.
   */
  function DetectTrigger(value: string, cursor: nat): (r: Option<Detection>)
    requires cursor <= |value|
    ensures r.Some? ==> r.value.pos < cursor && value[r.value.pos] == Symbol(r.value.trigger)
  {
    var before := value[..cursor];
    var at := LastIndexOfChar(before, '@');
    var slash := LastIndexOfChar(before, '/');
    if IndexOrMinusOne(at) > IndexOrMinusOne(slash) && at.Some? then
      if ' ' !in before[at.value + 1..] then Some(Detection(At, at.value)) else None
    else if IndexOrMinusOne(slash) > IndexOrMinusOne(at) && slash.Some? then
      if ' ' !in before[slash.value + 1..] then Some(Detection(Slash, slash.value)) else None
    else None
  }

  /** Reference rule: the trigger character at `p`, and no '@', '/' or ' ' after it before the cursor. */
  predicate OpensTrigger(value: string, cursor: nat, p: nat, t: Trigger)
    requires cursor <= |value|
  {
    p < cursor && value[p] == Symbol(t) &&
    forall j :: p < j < cursor ==> value[j] != '@' && value[j] != '/' && value[j] != ' '
  }

  /** The last occurrence of `c` is the one with no `c` after it. */
  lemma LastIndexUnique(s: string, c: char, p: nat)
    requires p < |s| && s[p] == c && c !in s[p + 1..]
    ensures LastIndexOfChar(s, c) == Some(p)
  {
  }

  /** Characters after `k` in the text before the cursor. */
  lemma AfterIndex(value: string, cursor: nat, k: nat, c: char)
    requires k < cursor <= |value|
    ensures c !in value[..cursor][k + 1..] <==> forall j :: k < j < cursor ==> value[j] != c
  {
    var tail := value[..cursor][k + 1..];
    if c !in tail {
      forall j | k < j < cursor ensures value[j] != c {
        assert value[j] == tail[j - k - 1];
      }
    }
  }

  /** What the test finds satisfies the reference rule. */
  lemma DetectTriggerSound(value: string, cursor: nat)
    requires cursor <= |value| && DetectTrigger(value, cursor).Some?
    ensures var d := DetectTrigger(value, cursor).value; OpensTrigger(value, cursor, d.pos, d.trigger)
  {
    var before := value[..cursor];
    var at := LastIndexOfChar(before, '@');
    var slash := LastIndexOfChar(before, '/');
    var d := DetectTrigger(value, cursor).value;
    AfterIndex(value, cursor, d.pos, '@');
    AfterIndex(value, cursor, d.pos, '/');
    AfterIndex(value, cursor, d.pos, ' ');
    assert before[d.pos] == value[d.pos];
  }

  /** A trigger the reference rule accepts is the one the test finds. */
  lemma DetectTriggerComplete(value: string, cursor: nat, t: Trigger, p: nat)
    requires cursor <= |value| && OpensTrigger(value, cursor, p, t)
    ensures DetectTrigger(value, cursor) == Some(Detection(t, p))
  {
    var before := value[..cursor];
    AfterIndex(value, cursor, p, '@');
    AfterIndex(value, cursor, p, '/');
    AfterIndex(value, cursor, p, ' ');
    assert before[p] == value[p];
    if t == At {
      LastIndexUnique(before, '@', p);
      LastIndexBefore(before, '/', p);
    } else {
      LastIndexUnique(before, '/', p);
      LastIndexBefore(before, '@', p);
    }
  }

  /** A character absent from `p` on occurs last, if at all, before `p`. */
  lemma LastIndexBefore(s: string, c: char, p: nat)
    requires p < |s| && s[p] != c && c !in s[p + 1..]
    ensures LastIndexOfChar(s, c).Some? ==> LastIndexOfChar(s, c).value < p
  {
  }

  /** The detected trigger is exactly the one the reference rule describes. */
  lemma DetectTriggerIff(value: string, cursor: nat, t: Trigger, p: nat)
    requires cursor <= |value|
    ensures DetectTrigger(value, cursor) == Some(Detection(t, p)) <==> OpensTrigger(value, cursor, p, t)
  {
    if DetectTrigger(value, cursor).Some? {
      DetectTriggerSound(value, cursor);
    }
    if OpensTrigger(value, cursor, p, t) {
      DetectTriggerComplete(value, cursor, t, p);
    }
  }

  /** The query sent with the suggestion request: the text after the trigger, lower-cased. */
  function Query(value: string, cursor: nat, d: Detection): (r: string)
    requires d.pos < cursor <= |value|
    ensures |r| == cursor - d.pos - 1
  {
    Lower(value[d.pos + 1..cursor])
  }

  /** A query never holds a trigger character or a space. */
  lemma QueryIsOneWord(value: string, cursor: nat)
    requires cursor <= |value| && DetectTrigger(value, cursor).Some?
    ensures var q := Query(value, cursor, DetectTrigger(value, cursor).value);
      forall i :: 0 <= i < |q| ==> q[i] != '@' && q[i] != '/' && q[i] != ' '
  {
    var d := DetectTrigger(value, cursor).value;
    DetectTriggerIff(value, cursor, d.trigger, d.pos);
    var q := Query(value, cursor, d);
    forall i | 0 <= i < |q| ensures q[i] != '@' && q[i] != '/' && q[i] != ' ' {
      assert value[d.pos + 1..cursor][i] == value[d.pos + 1 + i];
    }
  }

  /** ArrowDown: `(prev + 1) % n`. */
  function NextIndex(i: nat, n: nat): (r: nat)
    requires i < n
    ensures r < n
    ensures r == if i == n - 1 then 0 else i + 1
  {
    (i + 1) % n
  }

  /** ArrowUp: `(prev - 1 + n) % n`; the dividend is never negative, so JavaScript's `%` agrees. */
  function PrevIndex(i: nat, n: nat): (r: nat)
    requires i < n
    ensures r < n
    ensures r == if i == 0 then n - 1 else i - 1
  {
    (i - 1 + n) % n
  }

  /** ArrowUp undoes ArrowDown. */
  lemma PrevUndoesNext(i: nat, n: nat)
    requires i < n
    ensures PrevIndex(NextIndex(i, n), n) == i
  {
  }

  /** ArrowDown undoes ArrowUp. */
  lemma NextUndoesPrev(i: nat, n: nat)
    requires i < n
    ensures NextIndex(PrevIndex(i, n), n) == i
  {
  }

  /**
   * `input.substring(0, triggerPosition) + input.substring(start)` where the
   * start is the cursor, or the end of the input when the cursor is 0 (the
   * `selectionStart || input.length` fallback); `substring` clamps both ends.
   */
  function Clamp(k: nat, n: nat): nat {
    if k < n then k else n
  }

  function RestStart(input: string, cursor: nat): nat {
    if cursor == 0 then |input| else Clamp(cursor, |input|)
  }
}
