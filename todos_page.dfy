/**
 * The Todos page: the query parameter it sends, the list reducers it applies
 * after a successful write, the status counts, and the sequencing of its
 * `loading`, `error` and `todos` state. Server replies are parameters: a
 * FetchOutcome for GET /todos and an optional record for the writes.
 */
module TodosPage {
  import opened Wrappers
  import opened Api
  import TodoRoutes
  import opened AuthContext

  /** The `status` parameter `fetchTodos` sends for the selected filter. */
  function StatusParam(selectedFilter: string): (p: Option<string>)
    ensures p.Some? <==> selectedFilter != "" && selectedFilter != "All"
    ensures p.Some? ==> p.value == selectedFilter
  {
    if selectedFilter != "" && selectedFilter != "All" then Some(selectedFilter) else None
  }

  /** Whatever the client sends, the server filters by exactly the status the user selected. */
  lemma ServerFiltersAsSelected(selectedFilter: string)
    ensures TodoRoutes.Filters(StatusParam(selectedFilter)) <==> StatusParam(selectedFilter).Some?
    ensures TodoRoutes.Filters(StatusParam(selectedFilter)) ==> StatusParam(selectedFilter).value == selectedFilter
  {
  }

  /** `prev.map((t) => (t._id === id ? updated : t))`. */
  function ReplaceById(s: seq<Entry>, id: TodoId, updated: Entry): (r: seq<Entry>)
    ensures |r| == |s|
    ensures forall i :: 0 <= i < |s| ==> r[i] == (if s[i].id == id then updated else s[i])
  {
    if s == [] then []
    else [if s[0].id == id then updated else s[0]] + ReplaceById(s[1..], id, updated)
  }

  /** `prev.filter((t) => t._id !== id)`. */
  function RemoveById(s: seq<Entry>, id: TodoId): (r: seq<Entry>)
    ensures |r| <= |s|
    ensures forall x :: x in r <==> x in s && x.id != id
  {
    if s == [] then []
    else (if s[0].id == id then [] else [s[0]]) + RemoveById(s[1..], id)
  }

  /** `todos.filter((t) => t.status === status).length`. */
  function CountStatus(s: seq<Entry>, status: string): (n: nat)
    ensures n <= |s|
  {
    if s == [] then 0
    else (if s[0].todo.status == status then 1 else 0) + CountStatus(s[1..], status)
  }

  /** The status the toggle button asks for: Pending becomes Completed, anything else Pending. */
  function NextStatus(status: string): string
  {
    if status == Pending then Completed else Pending
  }

  lemma NextStatusAlternates(status: string)
    requires status == Pending || status == Completed
    ensures NextStatus(status) != status
    ensures NextStatus(NextStatus(status)) == status
  {
  }

  /** Removing keeps the survivors in their original order: it distributes over concatenation. */
  lemma {:induction false} RemoveByIdDistributes(a: seq<Entry>, b: seq<Entry>, id: TodoId)
    ensures RemoveById(a + b, id) == RemoveById(a, id) + RemoveById(b, id)
  {
    if a == [] {
      assert a + b == b;
    } else {
      assert (a + b)[1..] == a[1..] + b;
      RemoveByIdDistributes(a[1..], b, id);
    }
  }

  /** Removing an id no element carries changes nothing. */
  lemma {:induction false} RemoveAbsentId(s: seq<Entry>, id: TodoId)
    requires forall x :: x in s ==> x.id != id
    ensures RemoveById(s, id) == s
  {
    if s != [] {
      assert s[0] in s;
      assert forall x :: x in s[1..] ==> x in s;
      RemoveAbsentId(s[1..], id);
      assert s == [s[0]] + s[1..];
    }
  }

  /** Replacing an id and then removing it is the same as removing it. */
  lemma {:induction false} RemoveAfterReplace(s: seq<Entry>, id: TodoId, updated: Entry)
    requires updated.id == id
    ensures RemoveById(ReplaceById(s, id, updated), id) == RemoveById(s, id)
  {
    if s != [] {
      RemoveAfterReplace(s[1..], id, updated);
      assert ReplaceById(s, id, updated)[1..] == ReplaceById(s[1..], id, updated);
    }
  }

  /**
   * The Pending and Completed counts never exceed the list's length, and they
   * add up to it exactly when every status is one of the two.
   */
  lemma {:induction false} StatusCountsBounded(s: seq<Entry>)
    ensures CountStatus(s, Pending) + CountStatus(s, Completed) <= |s|
    ensures CountStatus(s, Pending) + CountStatus(s, Completed) == |s| <==>
              forall x :: x in s ==> x.todo.status == Pending || x.todo.status == Completed
  {
    if s != [] {
      StatusCountsBounded(s[1..]);
      assert forall x :: x in s <==> x == s[0] || x in s[1..];
    }
  }

  /** What GET /todos gave back: the list, or a failure with the HTTP status when there was a response. */
  datatype FetchOutcome = Fetched(data: seq<Entry>) | FetchFailed(status: Option<int>)

  class TodosPage {
    var todos: seq<Entry>
    var filter: string
    var loading: bool
    var error: string
    const auth: AuthProvider

    constructor (session: AuthProvider)
      ensures auth == session
      ensures todos == [] && filter == "All" && !loading && error == ""
    {
      auth := session;
      todos, filter, loading, error := [], "All", false, "";
    }

    function PendingCount(): (n: nat)
      reads this
      ensures n + CountStatus(todos, Completed) <= |todos|
    {
      StatusCountsBounded(todos);
      CountStatus(todos, Pending)
    }

    function CompletedCount(): (n: nat)
      reads this
      ensures CountStatus(todos, Pending) + n <= |todos|
    {
      StatusCountsBounded(todos);
      CountStatus(todos, Completed)
    }

    /**
     * `fetchTodos`: sends the status parameter; on success the list becomes the
     * reply; a 401 logs the session out and shows no error; any other failure
     * shows "Failed to load todos" and keeps the list.
     */
    method FetchTodos(selectedFilter: string, outcome: FetchOutcome) returns (params: Option<string>)
      modifies this, auth
      ensures params == StatusParam(selectedFilter)
      ensures old(auth.Valid()) ==> auth.Valid()
      ensures !loading && filter == old(filter)
      ensures outcome.Fetched? ==> todos == outcome.data && error == "" && unchanged(auth)
      ensures outcome == FetchFailed(Some(Unauthorized)) ==>
                && todos == old(todos) && error == ""
                && auth.token.None? && auth.user.None? && auth.storedToken.None?
                && auth.storedUser.None? && auth.lastActivity.None? && auth.loading == old(auth.loading)
      ensures outcome.FetchFailed? && outcome.status != Some(Unauthorized) ==>
                todos == old(todos) && error == "Failed to load todos" && unchanged(auth)
    {
      loading := true;
      error := "";
      params := None;
      if selectedFilter != "" && selectedFilter != "All" {
        params := Some(selectedFilter);
      }
      match outcome {
        case Fetched(data) =>
          todos := data;
        case FetchFailed(status) =>
          if status == Some(Unauthorized) {
            auth.Logout();
          } else {
            error := "Failed to load todos";
          }
      }
      loading := false;
    }

    /**
     * Clicking a filter button: `setFilter(f)`. The fetch runs from the effect
     * keyed on `filter`, so it happens only when the filter actually changes;
     * `sent` is the status parameter of that request, or None when no request
     * is made and nothing changes.
     */
    method SelectFilter(f: string, outcome: FetchOutcome) returns (sent: Option<Option<string>>)
      modifies this, auth
      ensures old(auth.Valid()) ==> auth.Valid()
      ensures f == old(filter) ==> sent.None? && unchanged(this) && unchanged(auth)
      ensures f != old(filter) ==> filter == f && sent == Some(StatusParam(f)) && !loading
      ensures f != old(filter) && outcome.Fetched? ==> todos == outcome.data && error == "" && unchanged(auth)
      ensures f != old(filter) && outcome == FetchFailed(Some(Unauthorized)) ==>
                && todos == old(todos) && error == ""
                && auth.token.None? && auth.user.None? && auth.storedToken.None?
                && auth.storedUser.None? && auth.lastActivity.None? && auth.loading == old(auth.loading)
      ensures f != old(filter) && outcome.FetchFailed? && outcome.status != Some(Unauthorized) ==>
                todos == old(todos) && error == "Failed to load todos" && unchanged(auth)
    {
      if f == filter {
        return None;
      }
      filter := f;
      var params := FetchTodos(f, outcome);
      sent := Some(params);
    }

    /** `handleAddTodo`: the created record goes to the front; a failure only sets the error. */
    method AddTodo(created: Option<Entry>)
      modifies this
      ensures created.Some? ==> todos == [created.value] + old(todos) && error == old(error)
      ensures created.None? ==> todos == old(todos) && error == "Failed to add todo"
      ensures |todos| <= |old(todos)| + 1 && todos[|todos| - |old(todos)|..] == old(todos)
      ensures filter == old(filter) && loading == old(loading)
    {
      if created.Some? {
        todos := [created.value] + todos;
      } else {
        error := "Failed to add todo";
      }
    }

    /** `handleToggleStatus`: the record the server returned replaces every entry with that id. */
    method ToggleStatus(id: TodoId, updated: Option<Entry>)
      modifies this
      ensures updated.Some? ==> todos == ReplaceById(old(todos), id, updated.value) && error == old(error)
      ensures updated.None? ==> todos == old(todos) && error == "Failed to update todo"
      ensures |todos| == |old(todos)|
      ensures forall i :: 0 <= i < |todos| && old(todos)[i].id != id ==> todos[i] == old(todos)[i]
      ensures filter == old(filter) && loading == old(loading)
    {
      if updated.Some? {
        todos := ReplaceById(todos, id, updated.value);
      } else {
        error := "Failed to update todo";
      }
    }

    /** `handleDelete`: after a successful DELETE every entry with that id is dropped. */
    method DeleteTodo(id: TodoId, deleted: bool)
      modifies this
      ensures deleted ==> todos == RemoveById(old(todos), id) && error == old(error)
      ensures !deleted ==> todos == old(todos) && error == "Failed to delete todo"
      ensures forall x :: x in todos ==> x.id != id || !deleted
      ensures filter == old(filter) && loading == old(loading)
    {
      if deleted {
        todos := RemoveById(todos, id);
      } else {
        error := "Failed to delete todo";
      }
    }
  }
}
