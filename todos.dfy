// The to-do list of the Tasks page and the dashboard's TodoCard. Both keep
// the list in component state and write it to local storage on every
// change; each change builds a new list (prepend, map over ids, filter).
// Dates are milliseconds since the epoch, passed in as `now`.
module Todos {
  import opened Wrappers
  import opened Strings
  import opened Lists

  datatype Priority = Low | Medium | High

  datatype TodoItem = TodoItem(
    id: string,
    title: string,
    description: Option<string>,
    completed: bool,
    createdAt: nat,
    updatedAt: nat,
    dueDate: Option<string>,
    priority: Priority,
    category: Option<string>,
    tags: seq<string>)

  /** The add / edit dialog's fields, all text except the priority. */
  datatype Form = Form(
    title: string,
    description: string,
    priority: Priority,
    category: string,
    dueDate: string,
    tags: string)

  const EmptyForm := Form("", "", Medium, "", "", "")

  datatype StatusFilter = All | Active | Completed

  // ---------------------------------------------------------------------
  // Form fields

  /** `text.trim() || undefined`. */
  function OptionalText(s: string): (r: Option<string>)
    ensures r.None? <==> JsTrim(s) == ""
    ensures r.Some? ==> r.value == JsTrim(s)
  {
    if JsTrim(s) == "" then None else Some(JsTrim(s))
  }

  /** `tags.join(', ')`, what the edit dialog shows. */
  function JoinTags(tags: seq<string>): string {
    Join(tags, ", ")
  }

  /** The pieces `split(',')` finds in `join(', ')`: every tag after the first keeps the space. */
  function Spaced(tags: seq<string>): (r: seq<string>)
    requires |tags| > 0
    ensures |r| == |tags| && r[0] == tags[0]
    ensures forall i :: 0 < i < |tags| ==> r[i] == " " + tags[i]
  {
    [tags[0]] + seq(|tags| - 1, i requires 0 <= i < |tags| - 1 => " " + tags[i + 1])
  }

  lemma {:induction false} JoinSpaced(tags: seq<string>)
    requires |tags| > 0
    ensures JoinTags(tags) == Join(Spaced(tags), [','])
    decreases |tags|
  {
    if |tags| > 1 {
      var rest := tags[1..];
      JoinSpaced(rest);
      var sp := Spaced(tags);
      var srest := Spaced(rest);
      // Joining the rest after the space: " " + rest[0] opens the tail.
      assert Join(sp[1..], [',']) == " " + Join(srest, [',']) by {
        JoinShift(tags);
      }
      assert sp[0] == tags[0];
      assert ", " == [','] + " ";
    }
  }

  /** After the first tag, the pieces are the spaced rest with the space moved in front. */
  lemma JoinShift(tags: seq<string>)
    requires |tags| > 1
    ensures Join(Spaced(tags)[1..], [',']) == " " + Join(Spaced(tags[1..]), [','])
  {
    var a := Spaced(tags)[1..];
    var b := Spaced(tags[1..]);
    assert a[0] == " " + b[0];
    if |tags| > 2 {
      assert a[1..] == b[1..];
      assert Join(a, [',']) == " " + b[0] + [','] + Join(b[1..], [',']);
    } else {
      assert a == [" " + b[0]];
    }
  }

  lemma TrimSpaced(t: string)
    requires t != "" && JsTrim(t) == t
    ensures JsTrim(" " + t) == t
  {
    var s := " " + t;
    assert !IsJsSpace(t[0]) && !IsJsSpace(t[|t| - 1]);
    assert s[1..] == t;
    assert LeadCount(s[1..], IsJsSpace) == 0;
    assert LeadCount(s, IsJsSpace) == 1;
    assert TrailCount(s[1..], IsJsSpace) == 0;
  }

  lemma SpacedKeepsOut(tags: seq<string>)
    requires |tags| > 0 && CleanItems(tags)
    ensures forall i :: 0 <= i < |Spaced(tags)| ==> ',' !in Spaced(tags)[i]
  {
    var sp := Spaced(tags);
    forall i | 0 < i < |sp| ensures ',' !in sp[i] {
      assert sp[i] == " " + tags[i];
    }
  }

  lemma TrimAllSpaced(tags: seq<string>)
    requires |tags| > 0 && CleanItems(tags)
    ensures TrimAll(Spaced(tags)) == tags
  {
    var trimmed := TrimAll(Spaced(tags));
    forall i | 0 < i < |tags| ensures trimmed[i] == tags[i] {
      TrimSpaced(tags[i]);
    }
  }

  /** Tags that are trimmed, non-empty and comma-free survive a trip through the edit dialog. */
  lemma TagsRoundTrip(tags: seq<string>)
    requires CleanItems(tags)
    ensures ParseList(JoinTags(tags)) == tags
  {
    if |tags| == 0 {
      assert Split("", ',') == [""];
      assert TrimAll([""]) == [""];
    } else {
      JoinSpaced(tags);
      SpacedKeepsOut(tags);
      JoinSplit(Spaced(tags), ',');
      TrimAllSpaced(tags);
      NonEmptyKeepsAll(tags);
    }
  }

  // ---------------------------------------------------------------------
  // Tasks page list operations

  function NewTodo(form: Form, now: nat): TodoItem {
    TodoItem(NatToString(now), JsTrim(form.title), OptionalText(form.description), false, now, now,
             if form.dueDate != "" then Some(form.dueDate) else None,
             form.priority, OptionalText(form.category), ParseList(form.tags))
  }

  /** `addTodo`: a blank title adds nothing; otherwise one new, open item goes in front. */
  function AddTodo(todos: seq<TodoItem>, form: Form, now: nat): (r: seq<TodoItem>)
    ensures JsTrim(form.title) == "" ==> r == todos
    ensures JsTrim(form.title) != "" ==>
      |r| == |todos| + 1 && r[1..] == todos &&
      r[0].title == JsTrim(form.title) && !r[0].completed && r[0].id == NatToString(now) &&
      r[0].tags == ParseList(form.tags) && r[0].priority == form.priority
  {
    if JsTrim(form.title) == "" then todos else [NewTodo(form, now)] + todos
  }

  /** The fields `updateTodo` rewrites from the form; id, completion and creation time stay. */
  function Edited(t: TodoItem, form: Form, now: nat): (r: TodoItem)
    ensures r.id == t.id && r.completed == t.completed && r.createdAt == t.createdAt
  {
    t.(title := JsTrim(form.title), description := OptionalText(form.description), priority := form.priority,
       category := OptionalText(form.category), dueDate := if form.dueDate != "" then Some(form.dueDate) else None,
       tags := ParseList(form.tags), updatedAt := now)
  }

  /** `updateTodo`: needs an item being edited and a non-blank title; only items with its id change. */
  function UpdateTodo(todos: seq<TodoItem>, editing: Option<TodoItem>, form: Form, now: nat): (r: seq<TodoItem>)
    ensures editing.None? || JsTrim(form.title) == "" ==> r == todos
    ensures |r| == |todos|
    ensures editing.Some? && JsTrim(form.title) != "" ==>
      forall i :: 0 <= i < |todos| ==>
        r[i] == if todos[i].id == editing.value.id then Edited(todos[i], form, now) else todos[i]
  {
    if editing.None? || JsTrim(form.title) == "" then todos
    else seq(|todos|, i requires 0 <= i < |todos| =>
           if todos[i].id == editing.value.id then Edited(todos[i], form, now) else todos[i])
  }

  /** `toggleTodo`: flip `completed` (and stamp `updatedAt`) on the items with that id. */
  function ToggleTodo(todos: seq<TodoItem>, id: string, now: nat): (r: seq<TodoItem>)
    ensures |r| == |todos|
    ensures forall i :: 0 <= i < |todos| ==>
      r[i] == if todos[i].id == id then todos[i].(completed := !todos[i].completed, updatedAt := now) else todos[i]
  {
    seq(|todos|, i requires 0 <= i < |todos| =>
      if todos[i].id == id then todos[i].(completed := !todos[i].completed, updatedAt := now) else todos[i])
  }

  /** Toggling twice restores every item but the time stamp. */
  lemma ToggleTwice(todos: seq<TodoItem>, id: string, now: nat, later: nat)
    ensures var r := ToggleTodo(ToggleTodo(todos, id, now), id, later);
      |r| == |todos| &&
      forall i :: 0 <= i < |todos| ==>
        r[i] == if todos[i].id == id then todos[i].(updatedAt := later) else todos[i]
  {
  }

  predicate IsDone(t: TodoItem) { t.completed }

  predicate IsOpen(t: TodoItem) { !t.completed }

  /** `deleteTodo`: keep the items with other ids, in order. */
  function DeleteTodo(todos: seq<TodoItem>, id: string): (r: seq<TodoItem>)
    ensures forall i :: 0 <= i < |r| ==> r[i].id != id && r[i] in todos
    ensures forall t :: t in todos && t.id != id ==> t in r
    ensures IsSubsequence(r, todos)
  {
    FilterIsSubsequence(todos, (t: TodoItem) => t.id != id);
    Filter(todos, (t: TodoItem) => t.id != id)
  }

  /** `editTodo`: the form the edit dialog opens with. */
  function EditForm(t: TodoItem): Form {
    Form(t.title, t.description.GetOr(""), t.priority, t.category.GetOr(""), t.dueDate.GetOr(""), JoinTags(t.tags))
  }

  /** An item whose text fields are already normalised comes back unchanged from an edit saved as is. */
  lemma EditSaveRoundTrip(t: TodoItem, now: nat)
    requires t.title != "" && JsTrim(t.title) == t.title
    requires t.description.Some? ==> t.description.value != "" && JsTrim(t.description.value) == t.description.value
    requires t.category.Some? ==> t.category.value != "" && JsTrim(t.category.value) == t.category.value
    requires t.dueDate.Some? ==> t.dueDate.value != ""
    requires CleanItems(t.tags)
    ensures Edited(t, EditForm(t), now) == t.(updatedAt := now)
  {
    TagsRoundTrip(t.tags);
    assert JsTrim("") == "";
  }

  /** Whether an item passes the status and priority filters (`None` is "all"). */
  predicate Shown(t: TodoItem, filter: StatusFilter, priority: Option<Priority>) {
    !(filter == Active && t.completed) && !(filter == Completed && !t.completed) &&
    !(priority.Some? && t.priority != priority.value)
  }

  /** `filteredTodos`. */
  function FilteredTodos(todos: seq<TodoItem>, filter: StatusFilter, priority: Option<Priority>): (r: seq<TodoItem>)
    ensures IsSubsequence(r, todos)
    ensures forall i :: 0 <= i < |r| ==>
      (filter == Active ==> !r[i].completed) && (filter == Completed ==> r[i].completed) &&
      (priority.Some? ==> r[i].priority == priority.value)
    ensures forall t :: t in todos && Shown(t, filter, priority) ==> t in r
    ensures filter == All && priority.None? ==> r == todos
  {
    FilterIsSubsequence(todos, (t: TodoItem) => Shown(t, filter, priority));
    var r := Filter(todos, (t: TodoItem) => Shown(t, filter, priority));
    assert filter == All && priority.None? ==> r == todos by {
      if filter == All && priority.None? {
        FilterAll(todos, (t: TodoItem) => Shown(t, filter, priority));
      }
    }
    r
  }

  function CompletedCount(todos: seq<TodoItem>): nat {
    Count(todos, IsDone)
  }

  /** `todos.length - completedCount` is the number of open items. */
  function ActiveCount(todos: seq<TodoItem>): (n: nat)
    ensures n == Count(todos, IsOpen)
    ensures n + CompletedCount(todos) == |todos|
  {
    FilterComplement(todos, IsDone, IsOpen);
    |todos| - CompletedCount(todos)
  }

  /** Adding an item adds one open item and no completed one. */
  lemma AddCountsOpen(todos: seq<TodoItem>, form: Form, now: nat)
    requires JsTrim(form.title) != ""
    ensures ActiveCount(AddTodo(todos, form, now)) == ActiveCount(todos) + 1
    ensures CompletedCount(AddTodo(todos, form, now)) == CompletedCount(todos)
  {
    var r := AddTodo(todos, form, now);
    assert r == [r[0]] + todos;
    assert Filter(r, IsDone) == Filter(todos, IsDone);
  }

  // ---------------------------------------------------------------------
  // The page

  class TasksPage {
    var todos: seq<TodoItem>
    /** What local storage holds under "sgope-todos" (the JSON text is not modelled). */
    var stored: Option<seq<TodoItem>>
    var form: Form
    var editing: Option<TodoItem>
    var addDialogOpen: bool
    var editDialogOpen: bool
    var filter: StatusFilter
    var priorityFilter: Option<Priority>

    /** The mount effect, with the stored list already decoded (or absent). */
    constructor(storedTodos: Option<seq<TodoItem>>)
      ensures todos == storedTodos.GetOr([]) && stored == storedTodos
      ensures form == EmptyForm && editing.None? && !addDialogOpen && !editDialogOpen
      ensures filter == All && priorityFilter.None?
    {
      todos := storedTodos.GetOr([]);
      stored := storedTodos;
      form := EmptyForm;
      editing := None;
      addDialogOpen, editDialogOpen := false, false;
      filter, priorityFilter := All, None;
    }

    /** `saveTodos`: storage and state get the same list. */
    method SaveTodos(newTodos: seq<TodoItem>)
      modifies this`todos, this`stored
      ensures todos == newTodos && stored == Some(newTodos)
    {
      stored := Some(newTodos);
      todos := newTodos;
    }

    method HandleAddTodo(now: nat)
      modifies this`todos, this`stored, this`form, this`addDialogOpen
      ensures JsTrim(old(form).title) == "" ==>
        todos == old(todos) && stored == old(stored) && form == old(form) && addDialogOpen == old(addDialogOpen)
      ensures JsTrim(old(form).title) != "" ==>
        todos == AddTodo(old(todos), old(form), now) && stored == Some(todos) && form == EmptyForm && !addDialogOpen
    {
      if JsTrim(form.title) == "" {
        return;
      }
      SaveTodos(AddTodo(todos, form, now));
      form := EmptyForm;
      addDialogOpen := false;
    }

    method HandleUpdateTodo(now: nat)
      modifies this`todos, this`stored, this`form, this`editDialogOpen, this`editing
      ensures old(editing).None? || JsTrim(old(form).title) == "" ==>
        todos == old(todos) && stored == old(stored) && form == old(form) &&
        editDialogOpen == old(editDialogOpen) && editing == old(editing)
      ensures old(editing).Some? && JsTrim(old(form).title) != "" ==>
        todos == UpdateTodo(old(todos), old(editing), old(form), now) && stored == Some(todos) &&
        form == EmptyForm && !editDialogOpen && editing.None?
    {
      if editing.None? || JsTrim(form.title) == "" {
        return;
      }
      SaveTodos(UpdateTodo(todos, editing, form, now));
      form := EmptyForm;
      editDialogOpen := false;
      editing := None;
    }

    method HandleToggleTodo(id: string, now: nat)
      modifies this`todos, this`stored
      ensures todos == ToggleTodo(old(todos), id, now) && stored == Some(todos)
    {
      SaveTodos(ToggleTodo(todos, id, now));
    }

    method HandleDeleteTodo(id: string)
      modifies this`todos, this`stored
      ensures todos == DeleteTodo(old(todos), id) && stored == Some(todos)
    {
      SaveTodos(DeleteTodo(todos, id));
    }

    method HandleEditTodo(t: TodoItem)
      modifies this`editing, this`form, this`editDialogOpen
      ensures editing == Some(t) && form == EditForm(t) && editDialogOpen
    {
      editing := Some(t);
      form := EditForm(t);
      editDialogOpen := true;
    }
  }

  // ---------------------------------------------------------------------
  // The dashboard card

  /** The card's lighter item: no description, dates beyond creation, category or tags. */
  datatype CardTodo = CardTodo(id: string, title: string, completed: bool, createdAt: nat, priority: Priority)

  /** The card's `addTodo`: priority is always medium. */
  function CardAdd(todos: seq<CardTodo>, title: string, now: nat): (r: seq<CardTodo>)
    ensures JsTrim(title) == "" ==> r == todos
    ensures JsTrim(title) != "" ==>
      |r| == |todos| + 1 && r[1..] == todos &&
      r[0] == CardTodo(NatToString(now), JsTrim(title), false, now, Medium)
  {
    if JsTrim(title) == "" then todos else [CardTodo(NatToString(now), JsTrim(title), false, now, Medium)] + todos
  }

  /** The card's `toggleTodo`: flip `completed` on the items with that id, nothing else. */
  function CardToggle(todos: seq<CardTodo>, id: string): (r: seq<CardTodo>)
    ensures |r| == |todos|
    ensures forall i :: 0 <= i < |todos| ==>
      r[i] == if todos[i].id == id then todos[i].(completed := !todos[i].completed) else todos[i]
  {
    seq(|todos|, i requires 0 <= i < |todos| =>
      if todos[i].id == id then todos[i].(completed := !todos[i].completed) else todos[i])
  }

  lemma CardToggleTwice(todos: seq<CardTodo>, id: string)
    ensures CardToggle(CardToggle(todos, id), id) == todos
  {
    var r := CardToggle(CardToggle(todos, id), id);
    assert forall i :: 0 <= i < |todos| ==> r[i] == todos[i];
  }

  predicate CardDone(t: CardTodo) { t.completed }

  predicate CardOpen(t: CardTodo) { !t.completed }

  /** The card's "Pending" and "Completed" figures cover every item once. */
  lemma CardCounts(todos: seq<CardTodo>)
    ensures |Filter(todos, CardOpen)| + |Filter(todos, CardDone)| == |todos|
  {
    FilterComplement(todos, CardOpen, CardDone);
  }

  class TodoCard {
    var todos: seq<CardTodo>
    var stored: Option<seq<CardTodo>>
    var newTodoTitle: string

    constructor(storedTodos: Option<seq<CardTodo>>)
      ensures todos == storedTodos.GetOr([]) && stored == storedTodos && newTodoTitle == ""
    {
      todos := storedTodos.GetOr([]);
      stored := storedTodos;
      newTodoTitle := "";
    }

    method HandleAddTodo(now: nat)
      modifies this
      ensures JsTrim(old(newTodoTitle)) == "" ==>
        todos == old(todos) && stored == old(stored) && newTodoTitle == old(newTodoTitle)
      ensures JsTrim(old(newTodoTitle)) != "" ==>
        todos == CardAdd(old(todos), old(newTodoTitle), now) && stored == Some(todos) && newTodoTitle == ""
    {
      if JsTrim(newTodoTitle) == "" {
        return;
      }
      todos := CardAdd(todos, newTodoTitle, now);
      stored := Some(todos);
      newTodoTitle := "";
    }

    method HandleToggleTodo(id: string)
      modifies this`todos, this`stored
      ensures todos == CardToggle(old(todos), id) && stored == Some(todos)
    {
      todos := CardToggle(todos, id);
      stored := Some(todos);
    }
  }
}
