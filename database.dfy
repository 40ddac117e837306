// The task store's SQL construction: the SELECT that `get_tasks` assembles
// from a filter, the UPDATE that `update_task` assembles from the fields a
// request explicitly set, and the row `create_task` inserts. The model stops
// at the statement text and its parameters; nothing here talks to SQLite.
module Database {
  import opened Wrappers
  import opened Strings

  /** A Python value as it is handed to the SQLite driver. A `datetime` is
    * represented by its ISO-8601 text, and `JsonText(v)` stands for the text
    * `json.dumps(v)` produces. */
  datatype PyValue =
    | PyNone
    | PyBool(b: bool)
    | PyStr(s: string)
    | PyList(items: seq<string>)
    | PyDateTime(iso: string)
    | JsonText(of: PyValue)

  /** Python's truth value of a parameter value. */
  predicate PyTruthy(v: PyValue) {
    match v
    case PyNone => false
    case PyBool(b) => b
    case PyStr(s) => s != ""
    case PyList(items) => items != []
    case PyDateTime(_) => true
    case JsonText(_) => true
  }

  // ---------------------------------------------------------------------
  // Placeholders

  /** Number of `?` placeholders in a statement, counted from position `k`. */
  function MarksFrom(s: string, k: nat): nat
    requires k <= |s|
    decreases |s| - k
  {
    if k == |s| then 0 else (if s[k] == '?' then 1 else 0) + MarksFrom(s, k + 1)
  }

  /** Number of `?` placeholders in a statement. */
  function Marks(s: string): nat {
    MarksFrom(s, 0)
  }

  lemma {:induction false} MarksShift(a: string, b: string, j: nat)
    requires j <= |b|
    ensures MarksFrom(a + b, |a| + j) == MarksFrom(b, j)
    decreases |b| - j
  {
    if j < |b| {
      assert (a + b)[|a| + j] == b[j];
      MarksShift(a, b, j + 1);
    }
  }

  lemma {:induction false} MarksSplit(a: string, b: string, k: nat)
    requires k <= |a|
    ensures MarksFrom(a + b, k) == MarksFrom(a, k) + Marks(b)
    decreases |a| - k
  {
    if k < |a| {
      assert (a + b)[k] == a[k];
      MarksSplit(a, b, k + 1);
    } else {
      MarksShift(a, b, 0);
    }
  }

  lemma MarksConcat(a: string, b: string)
    ensures Marks(a + b) == Marks(a) + Marks(b)
  {
    MarksSplit(a, b, 0);
  }

  lemma {:induction false} NoMarksFrom(s: string, k: nat)
    requires k <= |s| && '?' !in s
    ensures MarksFrom(s, k) == 0
    decreases |s| - k
  {
    if k < |s| {
      assert s[k] in s;
      NoMarksFrom(s, k + 1);
    }
  }

  /** A text without `?` has no placeholder. */
  lemma NoMarks(s: string)
    requires '?' !in s
    ensures Marks(s) == 0
  {
    NoMarksFrom(s, 0);
  }

  /** A `?`-free text followed by one `?` carries exactly one placeholder. */
  lemma MarksPlaceholder(p: string)
    requires '?' !in p
    ensures Marks(p + "?") == 1
  {
    MarksConcat(p, "?");
    NoMarks(p);
    assert MarksFrom("?", 1) == 0;
  }

  /** Placeholders of the parts, counted from the end. */
  function MarksSum(parts: seq<string>): nat {
    if |parts| == 0 then 0 else MarksSum(parts[..|parts| - 1]) + Marks(parts[|parts| - 1])
  }

  /** Joining with a separator that has no placeholder keeps exactly the parts' ones. */
  lemma {:induction false} MarksJoin(parts: seq<string>, sep: string)
    requires '?' !in sep
    ensures Marks(Join(parts, sep)) == MarksSum(parts)
    decreases |parts|
  {
    if |parts| > 0 {
      var init, last := parts[..|parts| - 1], parts[|parts| - 1];
      assert parts == init + [last];
      JoinAppend(init, last, sep);
      if |init| > 0 {
        MarksJoin(init, sep);
        NoMarks(sep);
        MarksConcat(Join(init, sep), sep);
        MarksConcat(Join(init, sep) + sep, last);
      }
    }
  }

  // ---------------------------------------------------------------------
  // get_tasks: the filtered SELECT

  /** `TodoFilter`: every field is optional. */
  datatype TodoFilter = TodoFilter(status: Option<string>, priority: Option<string>,
                                   category: Option<string>, tag: Option<string>)

  /** Python's truth value of an optional string field. */
  predicate Truthy(s: Option<string>) { s.Some? && s.value != "" }

  const SelectTasks := "SELECT * FROM tasks"
  const WhereKeyword := " WHERE "
  const AndKeyword := " AND "
  const NewestFirst := " ORDER BY created_at DESC"
  const ActiveClause := "completed = 0"
  const CompletedClause := "completed = 1"
  const PriorityClause := "priority = ?"
  const CategoryClause := "category = ?"
  const TagClause := "tags LIKE ?"

  /** The LIKE pattern for a tag: the tag in double quotes, as it appears
    * inside the JSON array stored in the `tags` column, with `%` on both sides. */
  function TagPattern(tag: string): string {
    "%\"" + tag + "\"%"
  }

  lemma TagPatternInjective(a: string, b: string)
    requires TagPattern(a) == TagPattern(b)
    ensures a == b
  {
    assert TagPattern(a)[2..|a| + 2] == a;
    assert TagPattern(b)[2..|b| + 2] == b;
  }

  /** The priority filter restricts only when it is non-empty and not "all". */
  predicate PriorityApplies(priority: Option<string>) {
    Truthy(priority) && priority.value != "all"
  }

  function StatusClauses(status: Option<string>): seq<string> {
    if status == Some("active") then [ActiveClause]
    else if status == Some("completed") then [CompletedClause]
    else []
  }

  function PriorityClauses(priority: Option<string>): seq<string> {
    if PriorityApplies(priority) then [PriorityClause] else []
  }

  function PriorityParams(priority: Option<string>): seq<string> {
    if PriorityApplies(priority) then [priority.value] else []
  }

  function CategoryClauses(category: Option<string>): seq<string> {
    if Truthy(category) then [CategoryClause] else []
  }

  function CategoryParams(category: Option<string>): seq<string> {
    if Truthy(category) then [category.value] else []
  }

  function TagClauses(tag: Option<string>): seq<string> {
    if Truthy(tag) then [TagClause] else []
  }

  function TagParams(tag: Option<string>): seq<string> {
    if Truthy(tag) then [TagPattern(tag.value)] else []
  }

  /** The conditions `get_tasks` collects, in the order it appends them. */
  function WhereClauses(filters: Option<TodoFilter>): seq<string> {
    match filters
    case None => []
    case Some(f) =>
      StatusClauses(f.status) + PriorityClauses(f.priority) + CategoryClauses(f.category) + TagClauses(f.tag)
  }

  /** The parameters `get_tasks` collects, in the order it appends them. */
  function QueryParams(filters: Option<TodoFilter>): seq<string> {
    match filters
    case None => []
    case Some(f) => PriorityParams(f.priority) + CategoryParams(f.category) + TagParams(f.tag)
  }

  /** The statement text for a list of conditions. */
  function QueryText(conditions: seq<string>): string {
    SelectTasks + (if |conditions| > 0 then WhereKeyword + Join(conditions, AndKeyword) else "") + NewestFirst
  }

  /** `get_tasks`'s query and parameter construction. */
  method TasksQuery(filters: Option<TodoFilter>) returns (query: string, params: seq<string>)
    ensures query == QueryText(WhereClauses(filters))
    ensures params == QueryParams(filters)
  {
    query := SelectTasks;
    params := [];
    var conditions: seq<string> := [];
    if filters.Some? {
      var f := filters.value;
      if f.status == Some("active") {
        conditions := conditions + [ActiveClause];
      } else if f.status == Some("completed") {
        conditions := conditions + [CompletedClause];
      }
      assert conditions == StatusClauses(f.status);
      ghost var afterStatus := conditions;
      if f.priority.Some? && f.priority.value != "" && f.priority.value != "all" {
        conditions := conditions + [PriorityClause];
        params := params + [f.priority.value];
      } else {
        assert PriorityClauses(f.priority) == [] && PriorityParams(f.priority) == [];
      }
      assert conditions == afterStatus + PriorityClauses(f.priority);
      assert params == PriorityParams(f.priority);
      ghost var afterPriority, paramsAfterPriority := conditions, params;
      if f.category.Some? && f.category.value != "" {
        conditions := conditions + [CategoryClause];
        params := params + [f.category.value];
      } else {
        assert CategoryClauses(f.category) == [] && CategoryParams(f.category) == [];
      }
      assert conditions == afterPriority + CategoryClauses(f.category);
      assert params == paramsAfterPriority + CategoryParams(f.category);
      ghost var afterCategory, paramsAfterCategory := conditions, params;
      if f.tag.Some? && f.tag.value != "" {
        conditions := conditions + [TagClause];
        params := params + [TagPattern(f.tag.value)];
      } else {
        assert TagClauses(f.tag) == [] && TagParams(f.tag) == [];
      }
      assert conditions == afterCategory + TagClauses(f.tag);
      assert params == paramsAfterCategory + TagParams(f.tag);
    }
    assert conditions == WhereClauses(filters) && params == QueryParams(filters);
    if |conditions| > 0 {
      query := query + (WhereKeyword + Join(conditions, AndKeyword));
    }
    query := query + NewestFirst;
  }

  lemma KeywordMarks()
    ensures Marks(SelectTasks) == 0 && Marks(WhereKeyword) == 0 && Marks(NewestFirst) == 0
    ensures '?' !in AndKeyword
  {
    assert '?' !in SelectTasks && '?' !in WhereKeyword && '?' !in NewestFirst;
    NoMarks(SelectTasks);
    NoMarks(WhereKeyword);
    NoMarks(NewestFirst);
  }

  lemma StatusClauseMarks(status: Option<string>)
    ensures MarksSum(StatusClauses(status)) == 0
  {
    assert '?' !in ActiveClause && '?' !in CompletedClause;
    NoMarks(ActiveClause);
    NoMarks(CompletedClause);
    assert [ActiveClause][..0] == [] && [CompletedClause][..0] == [];
  }

  lemma PriorityClauseMarks(priority: Option<string>)
    ensures MarksSum(PriorityClauses(priority)) == |PriorityParams(priority)|
  {
    assert '?' !in "priority = ";
    assert PriorityClause == "priority = " + "?";
    MarksPlaceholder("priority = ");
    assert [PriorityClause][..0] == [];
  }

  lemma CategoryClauseMarks(category: Option<string>)
    ensures MarksSum(CategoryClauses(category)) == |CategoryParams(category)|
  {
    assert '?' !in "category = ";
    assert CategoryClause == "category = " + "?";
    MarksPlaceholder("category = ");
    assert [CategoryClause][..0] == [];
  }

  lemma TagClauseMarks(tag: Option<string>)
    ensures MarksSum(TagClauses(tag)) == |TagParams(tag)|
  {
    assert '?' !in "tags LIKE ";
    assert TagClause == "tags LIKE " + "?";
    MarksPlaceholder("tags LIKE ");
    assert [TagClause][..0] == [];
  }

  lemma {:induction false} MarksSumConcat(a: seq<string>, b: seq<string>)
    ensures MarksSum(a + b) == MarksSum(a) + MarksSum(b)
    decreases |b|
  {
    if |b| > 0 {
      var init := b[..|b| - 1];
      assert (a + b)[..|a + b| - 1] == a + init;
      MarksSumConcat(a, init);
    } else {
      assert a + b == a;
    }
  }

  /** The query has exactly as many `?` placeholders as parameters, so the
    * driver binds every parameter. */
  lemma PlaceholdersMatchParams(filters: Option<TodoFilter>)
    ensures Marks(QueryText(WhereClauses(filters))) == |QueryParams(filters)|
  {
    var cs := WhereClauses(filters);
    KeywordMarks();
    if filters.Some? {
      var f := filters.value;
      StatusClauseMarks(f.status);
      PriorityClauseMarks(f.priority);
      CategoryClauseMarks(f.category);
      TagClauseMarks(f.tag);
      MarksSumConcat(StatusClauses(f.status), PriorityClauses(f.priority));
      MarksSumConcat(StatusClauses(f.status) + PriorityClauses(f.priority), CategoryClauses(f.category));
      MarksSumConcat(StatusClauses(f.status) + PriorityClauses(f.priority) + CategoryClauses(f.category),
                     TagClauses(f.tag));
    }
    MarksJoin(cs, AndKeyword);
    var middle := if |cs| > 0 then WhereKeyword + Join(cs, AndKeyword) else "";
    MarksConcat(WhereKeyword, Join(cs, AndKeyword));
    MarksConcat(SelectTasks, middle);
    MarksConcat(SelectTasks + middle, NewestFirst);
  }

  /** No filter, or a filter that asks for nothing (all fields None, empty, or
    * "all" where that means no restriction), gives the plain query and no
    * parameters. */
  lemma UnfilteredQuery(filters: Option<TodoFilter>)
    requires filters.Some? ==>
      (var f := filters.value;
       f.status != Some("active") && f.status != Some("completed")
       && (!Truthy(f.priority) || f.priority == Some("all"))
       && !Truthy(f.category) && !Truthy(f.tag))
    ensures QueryText(WhereClauses(filters)) == SelectTasks + NewestFirst
    ensures QueryParams(filters) == []
  {
  }

  /** The WHERE part is there exactly when some condition was collected, and
    * the ordering clause always ends the query. */
  lemma QueryShape(cs: seq<string>)
    ensures StartsWith(QueryText(cs), SelectTasks) && EndsWith(QueryText(cs), NewestFirst)
    ensures |cs| == 0 <==> QueryText(cs) == SelectTasks + NewestFirst
    ensures |cs| > 0 ==>
      QueryText(cs)[|SelectTasks|..|QueryText(cs)| - |NewestFirst|] == WhereKeyword + Join(cs, AndKeyword)
  {
    var q := QueryText(cs);
    var middle := if |cs| > 0 then WhereKeyword + Join(cs, AndKeyword) else "";
    assert q == SelectTasks + middle + NewestFirst;
    assert q[..|SelectTasks|] == SelectTasks;
    assert q[|q| - |NewestFirst|..] == NewestFirst;
    assert q[|SelectTasks|..|q| - |NewestFirst|] == middle;
  }

  /** The status filter adds `completed = 0` for "active", `completed = 1` for
    * "completed", and neither for any other value. */
  lemma StatusRule(f: TodoFilter)
    ensures ActiveClause in WhereClauses(Some(f)) <==> f.status == Some("active")
    ensures CompletedClause in WhereClauses(Some(f)) <==> f.status == Some("completed")
  {
    assert ActiveClause[11] != PriorityClause[11] && ActiveClause[11] != CategoryClause[11];
    assert CompletedClause[11] != PriorityClause[11] && CompletedClause[11] != CategoryClause[11];
    assert |ActiveClause| != |TagClause| && ActiveClause[12] != CompletedClause[12];
  }

  /** A priority condition is added exactly when the priority is non-empty and
    * not "all", and then the priority is the first parameter. */
  lemma PriorityRule(f: TodoFilter)
    ensures PriorityClause in WhereClauses(Some(f)) <==> PriorityApplies(f.priority)
    ensures PriorityApplies(f.priority) ==> QueryParams(Some(f))[0] == f.priority.value
  {
    assert PriorityClause[0] != CategoryClause[0] && PriorityClause[0] != TagClause[0];
    assert PriorityClause[11] != ActiveClause[11] && PriorityClause[11] != CompletedClause[11];
  }

  /** A category condition is added exactly when the category is non-empty,
    * and its value follows the priority parameter, if any. */
  lemma CategoryRule(f: TodoFilter)
    ensures CategoryClause in WhereClauses(Some(f)) <==> Truthy(f.category)
    ensures Truthy(f.category) ==> QueryParams(Some(f))[|PriorityParams(f.priority)|] == f.category.value
  {
    assert CategoryClause[0] != PriorityClause[0] && CategoryClause[0] != TagClause[0];
    assert CategoryClause[11] != ActiveClause[11] && CategoryClause[11] != CompletedClause[11];
  }

  /** A tag condition is added exactly when the tag is non-empty, and then the
    * last parameter is the quoted `%"tag"%` pattern. */
  lemma TagRule(f: TodoFilter)
    ensures TagClause in WhereClauses(Some(f)) <==> Truthy(f.tag)
    ensures Truthy(f.tag) ==>
      var ps := QueryParams(Some(f)); ps[|ps| - 1] == TagPattern(f.tag.value)
  {
    assert TagClause[0] != PriorityClause[0] && TagClause[0] != CategoryClause[0];
    assert |TagClause| != |ActiveClause| && |TagClause| != |CompletedClause|;
  }

  // ---------------------------------------------------------------------
  // update_task: the SET clauses of an UPDATE

  /** A field of a partial update: left out of the request, or set (possibly
    * to None, which clears the column). */
  datatype Field<T> = Unset | SetTo(value: T)

  /** `TodoUpdate` with `exclude_unset` semantics: only set fields are written. */
  datatype TodoUpdate = TodoUpdate(
    title: Field<Option<string>>,
    description: Field<Option<string>>,
    completed: Field<Option<bool>>,
    dueDate: Field<Option<string>>,
    priority: Field<Option<string>>,
    category: Field<Option<string>>,
    tags: Field<Option<seq<string>>>)

  function OfText(v: Option<string>): PyValue {
    if v.Some? then PyStr(v.value) else PyNone
  }

  function OfBool(v: Option<bool>): PyValue {
    if v.Some? then PyBool(v.value) else PyNone
  }

  function OfDate(v: Option<string>): PyValue {
    if v.Some? then PyDateTime(v.value) else PyNone
  }

  function OfTags(v: Option<seq<string>>): PyValue {
    if v.Some? then PyList(v.value) else PyNone
  }

  function Entry<T>(name: string, f: Field<T>, conv: T -> PyValue): (r: seq<(string, PyValue)>)
    ensures |r| == if f.SetTo? then 1 else 0
  {
    if f.SetTo? then [(name, conv(f.value))] else []
  }

  /** `updates.dict(exclude_unset=True)`: the set fields in declaration order. */
  function UpdateData(u: TodoUpdate): seq<(string, PyValue)> {
    Entry("title", u.title, OfText)
    + Entry("description", u.description, OfText)
    + Entry("completed", u.completed, OfBool)
    + Entry("due_date", u.dueDate, OfDate)
    + Entry("priority", u.priority, OfText)
    + Entry("category", u.category, OfText)
    + Entry("tags", u.tags, OfTags)
  }

  /** The values the loop converts with `isoformat()` are datetimes. */
  predicate Convertible(field: string, value: PyValue) {
    (field == "updated_at" ==> value.PyDateTime?) && (field == "due_date" && PyTruthy(value) ==> value.PyDateTime?)
  }

  predicate AllConvertible(data: seq<(string, PyValue)>) {
    forall i :: 0 <= i < |data| ==> Convertible(data[i].0, data[i].1)
  }

  /** The parameter bound for one field: tags are JSON text, datetimes their
    * ISO text, a cleared due date NULL, everything else the value itself. */
  function ParamFor(field: string, value: PyValue): PyValue
    requires Convertible(field, value)
  {
    if field == "tags" then JsonText(value)
    else if field == "due_date" then (if PyTruthy(value) then PyStr(value.iso) else PyNone)
    else if field == "updated_at" then PyStr(value.iso)
    else value
  }

  const ClauseSuffix := " = ?"
  const UpdatePrefix := "UPDATE tasks SET "
  const ClauseSeparator := ", "
  const ById := " WHERE id = ?"

  function SetClauses(data: seq<(string, PyValue)>): (r: seq<string>)
    ensures |r| == |data|
  {
    if |data| == 0 then [] else SetClauses(data[..|data| - 1]) + [data[|data| - 1].0 + ClauseSuffix]
  }

  function SetParams(data: seq<(string, PyValue)>): (r: seq<PyValue>)
    requires AllConvertible(data)
    ensures |r| == |data|
  {
    if |data| == 0 then []
    else
      var last := data[|data| - 1];
      SetParams(data[..|data| - 1]) + [ParamFor(last.0, last.1)]
  }

  /** The update data after `update_data["updated_at"] = now`. */
  function Stamped(u: TodoUpdate, now: string): seq<(string, PyValue)> {
    UpdateData(u) + [("updated_at", PyDateTime(now))]
  }

  function UpdateSql(data: seq<(string, PyValue)>): string {
    UpdatePrefix + Join(SetClauses(data), ClauseSeparator) + ById
  }

  /** What `update_task` does: nothing for an unknown id, no statement when no
    * field was set, otherwise one UPDATE with its parameters. */
  datatype UpdateOutcome = NoSuchTask | NothingToWrite | Execute(sql: string, params: seq<PyValue>)

  lemma StampedConvertible(u: TodoUpdate, now: string)
    ensures AllConvertible(Stamped(u, now))
  {
    var d := Stamped(u, now);
    forall i | 0 <= i < |d|
      ensures Convertible(d[i].0, d[i].1)
    {
    }
  }

  lemma SetStep(data: seq<(string, PyValue)>, i: nat)
    requires AllConvertible(data) && i < |data|
    ensures AllConvertible(data[..i]) && AllConvertible(data[..i + 1])
    ensures SetClauses(data[..i + 1]) == SetClauses(data[..i]) + [data[i].0 + ClauseSuffix]
    ensures SetParams(data[..i + 1]) == SetParams(data[..i]) + [ParamFor(data[i].0, data[i].1)]
  {
    assert data[..i + 1][..i] == data[..i];
  }

  /** The loop over `update_data.items()` that builds the SET clauses and
    * their parameters. */
  method BuildSetClauses(updateData: seq<(string, PyValue)>) returns (setClauses: seq<string>, params: seq<PyValue>)
    requires AllConvertible(updateData)
    ensures setClauses == SetClauses(updateData) && params == SetParams(updateData)
  {
    setClauses, params := [], [];
    var i := 0;
    while i < |updateData|
      invariant 0 <= i <= |updateData| && AllConvertible(updateData[..i])
      invariant setClauses == SetClauses(updateData[..i])
      invariant params == SetParams(updateData[..i])
    {
      var (field, value) := updateData[i];
      SetStep(updateData, i);
      if field == "tags" {
        assert "tags = ?" == field + ClauseSuffix;
        setClauses := setClauses + ["tags = ?"];
        params := params + [JsonText(value)];
      } else if field == "due_date" {
        assert "due_date = ?" == field + ClauseSuffix;
        setClauses := setClauses + ["due_date = ?"];
        params := params + [if PyTruthy(value) then PyStr(value.iso) else PyNone];
      } else if field == "updated_at" {
        assert "updated_at = ?" == field + ClauseSuffix;
        setClauses := setClauses + ["updated_at = ?"];
        params := params + [PyStr(value.iso)];
      } else {
        setClauses := setClauses + [field + " = ?"];
        params := params + [value];
      }
      i := i + 1;
    }
    assert updateData[..i] == updateData;
  }

  /** `update_task`'s statement construction; `stored` is the set of ids
    * `get_task` would find, `now` the update time's ISO text. */
  method UpdateTask(stored: set<string>, taskId: string, updates: TodoUpdate, now: string)
    returns (r: UpdateOutcome)
    ensures taskId !in stored ==> r == NoSuchTask
    ensures taskId in stored && UpdateData(updates) == [] ==> r == NothingToWrite
    ensures taskId in stored && UpdateData(updates) != [] ==>
      AllConvertible(Stamped(updates, now))
      && r == Execute(UpdateSql(Stamped(updates, now)), SetParams(Stamped(updates, now)) + [PyStr(taskId)])
  {
    if taskId !in stored {
      return NoSuchTask;
    }
    var updateData := UpdateData(updates);
    if |updateData| == 0 {
      return NothingToWrite;
    }
    updateData := updateData + [("updated_at", PyDateTime(now))];
    StampedConvertible(updates, now);
    var setClauses, params := BuildSetClauses(updateData);
    params := params + [PyStr(taskId)];
    r := Execute(UpdatePrefix + Join(setClauses, ", ") + ById, params);
  }

  /** No statement is issued exactly when the request set no field. */
  lemma NothingSetNothingWritten(u: TodoUpdate)
    ensures UpdateData(u) == [] <==> u == TodoUpdate(Unset, Unset, Unset, Unset, Unset, Unset, Unset)
  {
    if UpdateData(u) == [] {
      assert |UpdateData(u)| == 0;
    }
  }

  /** Clause `i` assigns field `i` of the data and parameter `i` is its
    * converted value. */
  lemma {:induction false} ClausesMatchData(data: seq<(string, PyValue)>, i: nat)
    requires AllConvertible(data) && i < |data|
    ensures SetClauses(data)[i] == data[i].0 + ClauseSuffix
    ensures SetParams(data)[i] == ParamFor(data[i].0, data[i].1)
    decreases |data|
  {
    if i < |data| - 1 {
      ClausesMatchData(data[..|data| - 1], i);
    }
  }

  /** A non-empty update always ends with `updated_at = ?` bound to the update
    * time, followed by the task id for the WHERE clause. */
  lemma UpdateEndsWithStamp(u: TodoUpdate, now: string, taskId: string)
    ensures AllConvertible(Stamped(u, now))
    ensures var d := Stamped(u, now);
      var ps := SetParams(d) + [PyStr(taskId)];
      SetClauses(d)[|d| - 1] == "updated_at = ?"
      && |ps| == |UpdateData(u)| + 2 && ps[|ps| - 2] == PyStr(now) && ps[|ps| - 1] == PyStr(taskId)
  {
    StampedConvertible(u, now);
    var d := Stamped(u, now);
    ClausesMatchData(d, |d| - 1);
  }

  /** A field explicitly set to None is still written, binding NULL. */
  lemma ClearedFieldWritesNull(u: TodoUpdate, now: string)
    requires u.description == SetTo(None)
    ensures AllConvertible(Stamped(u, now))
    ensures exists i :: (0 <= i < |Stamped(u, now)|
      && SetClauses(Stamped(u, now))[i] == "description = ?" && SetParams(Stamped(u, now))[i] == PyNone)
  {
    StampedConvertible(u, now);
    var d := Stamped(u, now);
    var i := |Entry("title", u.title, OfText)|;
    assert d[i] == ("description", PyNone);
    ClausesMatchData(d, i);
  }

  lemma {:induction false} FieldNamesUnmarked(data: seq<(string, PyValue)>)
    requires forall i :: 0 <= i < |data| ==> '?' !in data[i].0
    ensures MarksSum(SetClauses(data)) == |data|
    decreases |data|
  {
    if |data| > 0 {
      var init := data[..|data| - 1];
      FieldNamesUnmarked(init);
      assert SetClauses(data)[..|data| - 1] == SetClauses(init);
      var name := data[|data| - 1].0;
      assert name + ClauseSuffix == (name + " = ") + "?";
      assert '?' !in " = ";
      assert '?' !in name + " = ";
      MarksPlaceholder(name + " = ");
    }
  }

  /** No field name contains a `?`. */
  predicate PlainNames(data: seq<(string, PyValue)>) {
    forall i :: 0 <= i < |data| ==> '?' !in data[i].0
  }

  lemma PlainConcat(a: seq<(string, PyValue)>, b: seq<(string, PyValue)>)
    requires PlainNames(a) && PlainNames(b)
    ensures PlainNames(a + b)
  {
    forall i | 0 <= i < |a + b|
      ensures '?' !in (a + b)[i].0
    {
      if i >= |a| {
        assert (a + b)[i] == b[i - |a|];
      }
    }
  }

  lemma StampedPlain(u: TodoUpdate, now: string)
    ensures PlainNames(Stamped(u, now))
  {
    assert '?' !in "title" && '?' !in "description" && '?' !in "completed" && '?' !in "due_date";
    assert '?' !in "priority" && '?' !in "category" && '?' !in "tags" && '?' !in "updated_at";
    var e1 := Entry("title", u.title, OfText);
    var e2 := Entry("description", u.description, OfText);
    var e3 := Entry("completed", u.completed, OfBool);
    var e4 := Entry("due_date", u.dueDate, OfDate);
    var e5 := Entry("priority", u.priority, OfText);
    var e6 := Entry("category", u.category, OfText);
    var e7 := Entry("tags", u.tags, OfTags);
    PlainConcat(e1, e2);
    PlainConcat(e1 + e2, e3);
    PlainConcat(e1 + e2 + e3, e4);
    PlainConcat(e1 + e2 + e3 + e4, e5);
    PlainConcat(e1 + e2 + e3 + e4 + e5, e6);
    PlainConcat(e1 + e2 + e3 + e4 + e5 + e6, e7);
    PlainConcat(UpdateData(u), [("updated_at", PyDateTime(now))]);
  }

  /** The UPDATE has one placeholder per parameter: one per SET clause and one
    * for the task id. */
  lemma UpdatePlaceholdersMatchParams(u: TodoUpdate, now: string, taskId: string)
    ensures AllConvertible(Stamped(u, now))
    ensures Marks(UpdateSql(Stamped(u, now))) == |SetParams(Stamped(u, now)) + [PyStr(taskId)]|
  {
    StampedConvertible(u, now);
    var d := Stamped(u, now);
    StampedPlain(u, now);
    FieldNamesUnmarked(d);
    assert '?' !in ClauseSeparator && '?' !in UpdatePrefix && '?' !in " WHERE id = ";
    NoMarks(UpdatePrefix);
    MarksJoin(SetClauses(d), ClauseSeparator);
    assert ById == " WHERE id = " + "?";
    MarksPlaceholder(" WHERE id = ");
    MarksConcat(UpdatePrefix, Join(SetClauses(d), ClauseSeparator));
    MarksConcat(UpdatePrefix + Join(SetClauses(d), ClauseSeparator), ById);
  }

  // ---------------------------------------------------------------------
  // create_task: the new row

  datatype TodoCreate = TodoCreate(title: string, description: Option<string>, dueDate: Option<string>,
                                   priority: string, category: Option<string>, tags: seq<string>)

  /** A stored task; datetimes are their ISO text. */
  datatype TodoItem = TodoItem(id: string, title: string, description: Option<string>, completed: bool,
                               createdAt: string, updatedAt: string, dueDate: Option<string>,
                               priority: string, category: Option<string>, tags: seq<string>)

  /** The new task: its id is the clock reading in microseconds, written in
    * decimal, and both timestamps are the second clock reading `now`. */
  function CreateTask(data: TodoCreate, micros: int, now: string): (t: TodoItem)
    ensures !t.completed && t.createdAt == now && t.updatedAt == now
    ensures t.id == IntToString(micros)
    ensures t.title == data.title && t.description == data.description && t.dueDate == data.dueDate
    ensures t.priority == data.priority && t.category == data.category && t.tags == data.tags
  {
    TodoItem(IntToString(micros), data.title, data.description, false, now, now,
             data.dueDate, data.priority, data.category, data.tags)
  }

  /** The ten parameters of the INSERT, in column order. */
  function InsertRow(t: TodoItem): (row: seq<PyValue>)
    ensures |row| == 10
    ensures row[0] == PyStr(t.id) && row[3] == PyBool(t.completed)
    ensures row[4] == PyStr(t.createdAt) && row[5] == PyStr(t.updatedAt)
    ensures row[6] == (if t.dueDate.Some? then PyStr(t.dueDate.value) else PyNone)
    ensures row[9] == JsonText(PyList(t.tags))
  {
    [PyStr(t.id), PyStr(t.title), OfText(t.description), PyBool(t.completed),
     PyStr(t.createdAt), PyStr(t.updatedAt),
     if t.dueDate.Some? then PyStr(t.dueDate.value) else PyNone,
     PyStr(t.priority), OfText(t.category), JsonText(PyList(t.tags))]
  }

  /** A new task is stored open, with equal creation and update times. */
  lemma NewTaskRow(data: TodoCreate, micros: int, now: string)
    ensures var row := InsertRow(CreateTask(data, micros, now));
      row[3] == PyBool(false) && row[4] == row[5] == PyStr(now)
  {
  }

  /** Tasks created at different microseconds get different ids. */
  lemma DistinctStampsDistinctIds(a: nat, b: nat, data: TodoCreate, now: string)
    requires a != b
    ensures CreateTask(data, a, now).id != CreateTask(data, b, now).id
  {
    if IntToString(a) == IntToString(b) {
      NatToStringInjective(a, b);
    }
  }
}
