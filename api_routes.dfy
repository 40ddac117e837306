// The two suggestion routes of the web front end (`/api/actions` and
// `/api/files`): each forwards the query to the backend and, when that
// fails, answers from three built-in entries filtered by the query.
module ApiRoutes {
  import opened Wrappers
  import opened Strings
  import opened Lists

  datatype Suggestion = Suggestion(id: string, caption: string, description: string)

  const FallbackActions := [
    Suggestion("search", "search", "Search through files and content"),
    Suggestion("create", "create", "Create a new file or folder"),
    Suggestion("edit", "edit", "Edit an existing file")]

  const FallbackFiles := [
    Suggestion("1", "README.md", "Project documentation"),
    Suggestion("2", "package.json", "Package configuration"),
    Suggestion("3", "src/components/ChatInterface.tsx", "Chat component")]

  const FallbackError := "Backend not available, using fallback data"

  /**
   * What a route answers: the backend's JSON body unchanged, or the
   * filtered built-in entries marked as fallback.
   */
  datatype RouteResponse<J> = PassedOn(body: J) | Fallback(items: seq<Suggestion>, error: string)

  /** `searchParams.get('q') || ''`. */
  function QueryOf(q: Option<string>): (r: string)
    ensures q.None? ==> r == ""
    ensures q.Some? ==> r == q.value
  {
    q.GetOr("")
  }

  /** The entry's caption or description contains the query, both lower-cased. */
  predicate MatchesQuery(s: Suggestion, query: string) {
    Contains(Lower(s.caption), Lower(query)) || Contains(Lower(s.description), Lower(query))
  }

  function QueryStage(query: string): Suggestion -> bool {
    (s: Suggestion) => MatchesQuery(s, query)
  }

  /**
   * The route. `backend` is the parsed body of a successful backend reply;
   * `None` stands for a failed request, a status that is not ok, or a body
   * that does not parse.
   */
  function Route<J>(fallback: seq<Suggestion>, q: Option<string>, backend: Option<J>): (r: RouteResponse<J>)
    ensures backend.Some? ==> r == PassedOn(backend.value)
    ensures backend.None? ==> r.Fallback? && r.error == FallbackError && IsSubsequence(r.items, fallback)
    ensures backend.None? ==> forall s :: s in r.items <==> s in fallback && MatchesQuery(s, QueryOf(q))
  {
    match backend
    case Some(body) => PassedOn(body)
    case None =>
      var items := Filter(fallback, QueryStage(QueryOf(q)));
      FilterIsSubsequence(fallback, QueryStage(QueryOf(q)));
      Fallback(items, FallbackError)
  }

  /** Without a query, or with an empty one, the fallback lists every built-in entry, in order. */
  lemma EmptyQueryKeepsAll<J>(fallback: seq<Suggestion>, q: Option<string>)
    requires q.None? || q == Some("")
    ensures Route<J>(fallback, q, None) == Fallback(fallback, FallbackError)
  {
    forall i | 0 <= i < |fallback| ensures MatchesQuery(fallback[i], QueryOf(q)) {
      assert OccursAt(Lower(fallback[i].caption), "", 0);
    }
    FilterAll(fallback, QueryStage(QueryOf(q)));
  }

  /** The query is matched without regard to letter case. */
  lemma QueryCaseInsensitive(s: Suggestion, query: string)
    ensures MatchesQuery(s, query) <==> MatchesQuery(s, Lower(query))
  {
    LowerIdempotent(query);
  }

  /** A query no built-in caption or description holds gives an empty fallback list. */
  lemma UnmatchedQueryEmpty<J>(fallback: seq<Suggestion>, q: string)
    requires forall i :: 0 <= i < |fallback| ==> !MatchesQuery(fallback[i], q)
    ensures Route<J>(fallback, Some(q), None) == Fallback([], FallbackError)
  {
    FilterNone(fallback, QueryStage(q));
  }

  /** `GET /api/actions`. */
  function ActionsRoute<J>(q: Option<string>, backend: Option<J>): (r: RouteResponse<J>)
    ensures backend.Some? ==> r == PassedOn(backend.value)
    ensures backend.None? ==> r.Fallback? && |r.items| <= 3
    ensures backend.None? && QueryOf(q) == "" ==> r == Fallback(FallbackActions, FallbackError)
  {
    if backend.None? && QueryOf(q) == "" then
      EmptyQueryKeepsAll<J>(FallbackActions, q);
      Route(FallbackActions, q, backend)
    else Route(FallbackActions, q, backend)
  }

  /** `GET /api/files`. */
  function FilesRoute<J>(q: Option<string>, backend: Option<J>): (r: RouteResponse<J>)
    ensures backend.Some? ==> r == PassedOn(backend.value)
    ensures backend.None? ==> r.Fallback? && |r.items| <= 3
    ensures backend.None? && QueryOf(q) == "" ==> r == Fallback(FallbackFiles, FallbackError)
  {
    if backend.None? && QueryOf(q) == "" then
      EmptyQueryKeepsAll<J>(FallbackFiles, q);
      Route(FallbackFiles, q, backend)
    else Route(FallbackFiles, q, backend)
  }
}
