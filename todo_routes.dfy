/**
 * The todo resource handlers (GET /, POST /, PUT /:id, DELETE /:id) over an
 * abstract store: a map from todo id to record. The caller's id is the one the
 * authentication middleware resolved; it is an input here.
 */
module TodoRoutes {
  import opened Wrappers
  import opened Api

  /** The body of PUT /:id: every field may be absent. */
  datatype Patch = Patch(title: Option<string>, description: Option<string>, status: Option<string>)

  /** The query object GET / hands to the store: the owner, and a status once one is added. */
  datatype Query = Query(user: UserId, status: Option<string>)

  predicate Matches(q: Query, t: Todo)
  {
    t.owner == q.user && (q.status.Some? ==> t.status == q.status.value)
  }

  /** The status restriction GET / applies for the query parameter `status`. */
  predicate Filters(status: Option<string>)
  {
    Truthy(status) && status.value != "All"
  }

  predicate NewestFirst(s: seq<Entry>)
  {
    forall i, j :: 0 <= i < j < |s| ==> s[i].todo.createdAt >= s[j].todo.createdAt
  }

  predicate DistinctIds(s: seq<Entry>)
  {
    forall i, j :: 0 <= i < j < |s| ==> s[i].id != s[j].id
  }

  /** The records one user owns, by id. */
  function OwnedBy(todos: map<TodoId, Todo>, user: UserId): (m: map<TodoId, Todo>)
    ensures forall id :: id in m <==> id in todos && todos[id].owner == user
    ensures forall id :: id in m ==> m[id] == todos[id]
  {
    map id | id in todos && todos[id].owner == user :: todos[id]
  }

  /** Places `e` among the newest-first entries `s`, before those no newer than it. */
  function InsertNewestFirst(s: seq<Entry>, e: Entry): (r: seq<Entry>)
    requires NewestFirst(s)
    ensures NewestFirst(r)
    ensures |r| == |s| + 1
    ensures forall x :: x in r <==> x in s || x == e
    ensures multiset(r) == multiset(s) + multiset{e}
  {
    if s == [] || e.todo.createdAt >= s[0].todo.createdAt then
      [e] + s
    else
      var rest := InsertNewestFirst(s[1..], e);
      assert s == [s[0]] + s[1..];
      assert multiset(s) == multiset{s[0]} + multiset(s[1..]);
      assert forall x :: x in rest ==> x.todo.createdAt <= s[0].todo.createdAt;
      assert forall j :: 0 <= j < |rest| ==> rest[j] in rest;
      [s[0]] + rest
  }

  lemma {:induction false} InsertKeepsIdsDistinct(s: seq<Entry>, e: Entry)
    requires NewestFirst(s) && DistinctIds(s)
    requires forall x :: x in s ==> x.id != e.id
    ensures DistinctIds(InsertNewestFirst(s, e))
  {
    if s == [] || e.todo.createdAt >= s[0].todo.createdAt {
    } else {
      InsertKeepsIdsDistinct(s[1..], e);
      var rest := InsertNewestFirst(s[1..], e);
      assert forall x :: x in rest ==> x.id != s[0].id;
      assert InsertNewestFirst(s, e) == [s[0]] + rest;
    }
  }

  /** Applies the fields present in a patch; absent fields keep their value. */
  function ApplyPatch(t: Todo, p: Patch): (r: Todo)
    ensures r.owner == t.owner && r.createdAt == t.createdAt
  {
    t.(title := if p.title.Some? then p.title.value else t.title,
       description := if p.description.Some? then p.description else t.description,
       status := if p.status.Some? then p.status.value else t.status)
  }

  /** A field the patch carries is written; a field it leaves out keeps its value. */
  lemma PatchWritesOnlyPresentFields(t: Todo, p: Patch)
    ensures ApplyPatch(t, p).title == if p.title.Some? then p.title.value else t.title
    ensures ApplyPatch(t, p).description == if p.description.Some? then p.description else t.description
    ensures ApplyPatch(t, p).status == if p.status.Some? then p.status.value else t.status
  {
  }

  /** The patch equivalent to applying `p` and then `q`: a later field wins. */
  function Then(p: Patch, q: Patch): Patch
  {
    Patch(if q.title.Some? then q.title else p.title,
          if q.description.Some? then q.description else p.description,
          if q.status.Some? then q.status else p.status)
  }

  lemma EmptyPatchChangesNothing(t: Todo)
    ensures ApplyPatch(t, Patch(None, None, None)) == t
  {
  }

  lemma ApplyPatchIdempotent(t: Todo, p: Patch)
    ensures ApplyPatch(ApplyPatch(t, p), p) == ApplyPatch(t, p)
  {
  }

  lemma ApplyPatchComposes(t: Todo, p: Patch, q: Patch)
    ensures ApplyPatch(ApplyPatch(t, p), q) == ApplyPatch(t, Then(p, q))
  {
  }

  class TodoStore {
    var todos: map<TodoId, Todo>

    constructor (initial: map<TodoId, Todo>)
      ensures todos == initial
    {
      todos := initial;
    }

    /**
     * GET /: the caller's todos, restricted to one status when the parameter
     * is present and not 'All', newest first.
     */
    method List(caller: UserId, status: Option<string>) returns (r: seq<Entry>)
      ensures forall e :: e in r ==> e.id in todos && todos[e.id] == e.todo
      ensures forall e :: e in r ==> e.todo.owner == caller
      ensures forall e :: e in r && Filters(status) ==> e.todo.status == status.value
      ensures forall id :: id in todos && todos[id].owner == caller
                && (Filters(status) ==> todos[id].status == status.value)
                ==> Entry(id, todos[id]) in r
      ensures NewestFirst(r) && DistinctIds(r)
    {
      var query := Query(caller, None);
      if Truthy(status) && status.value != "All" {
        query := query.(status := status);
      }
      var remaining := todos.Keys;
      r := [];
      while remaining != {}
        invariant remaining <= todos.Keys
        invariant NewestFirst(r) && DistinctIds(r)
        invariant forall e :: e in r ==>
                    e.id in todos && e.id !in remaining && todos[e.id] == e.todo && Matches(query, e.todo)
        invariant forall id :: id in todos && id !in remaining && Matches(query, todos[id]) ==>
                    Entry(id, todos[id]) in r
        decreases remaining
      {
        var id :| id in remaining;
        if Matches(query, todos[id]) {
          InsertKeepsIdsDistinct(r, Entry(id, todos[id]));
          r := InsertNewestFirst(r, Entry(id, todos[id]));
        }
        remaining := remaining - {id};
      }
    }

    /**
     * POST /: a missing or empty title is refused; otherwise one record owned
     * by the caller is created. `newId`, `defaultStatus` and `now` are what the
     * database and the schema supply.
     */
    method Create(caller: UserId, title: Option<string>, description: Option<string>,
                  newId: TodoId, defaultStatus: string, now: int) returns (r: Response<Entry>)
      requires newId !in todos
      modifies this
      ensures !Truthy(title) ==> r == Failure(BadRequest, "Title is required") && todos == old(todos)
      ensures Truthy(title) ==>
                && r == Success(Created, Entry(newId, Todo(title.value, description, defaultStatus, caller, now)))
                && todos == old(todos)[newId := r.body.todo]
      ensures forall u :: u != caller ==> OwnedBy(todos, u) == OwnedBy(old(todos), u)
    {
      if !Truthy(title) {
        return Failure(BadRequest, "Title is required");
      }
      var todo := Todo(title.value, description, defaultStatus, caller, now);
      todos := todos[newId := todo];
      r := Success(Created, Entry(newId, todo));
    }

    /**
     * PUT /:id: 404 when the id is absent, then 403 when the caller is not the
     * owner; otherwise writes the fields present in the patch.
     */
    method Update(caller: UserId, id: TodoId, patch: Patch) returns (r: Response<Entry>)
      modifies this
      ensures id !in old(todos) ==> r == Failure(NotFound, "Todo not found") && todos == old(todos)
      ensures id in old(todos) && old(todos)[id].owner != caller ==>
                r == Failure(Forbidden, "Not authorized") && todos == old(todos)
      ensures id in old(todos) && old(todos)[id].owner == caller ==>
                && r == Success(OK, Entry(id, ApplyPatch(old(todos)[id], patch)))
                && todos == old(todos)[id := ApplyPatch(old(todos)[id], patch)]
      ensures forall u :: u != caller ==> OwnedBy(todos, u) == OwnedBy(old(todos), u)
      ensures todos.Keys == old(todos).Keys
    {
      if id !in todos {
        return Failure(NotFound, "Todo not found");
      }
      var todo := todos[id];
      if todo.owner != caller {
        return Failure(Forbidden, "Not authorized");
      }
      if patch.title.Some? { todo := todo.(title := patch.title.value); }
      if patch.description.Some? { todo := todo.(description := patch.description); }
      if patch.status.Some? { todo := todo.(status := patch.status.value); }
      todos := todos[id := todo];
      r := Success(OK, Entry(id, todo));
    }

    /**
     * DELETE /:id: the same 404-then-403 checks as PUT; on success exactly that
     * id is removed.
     */
    method Delete(caller: UserId, id: TodoId) returns (r: Response<string>)
      modifies this
      ensures id !in old(todos) ==> r == Failure(NotFound, "Todo not found") && todos == old(todos)
      ensures id in old(todos) && old(todos)[id].owner != caller ==>
                r == Failure(Forbidden, "Not authorized") && todos == old(todos)
      ensures id in old(todos) && old(todos)[id].owner == caller ==>
                r == Success(OK, "Todo removed") && todos == old(todos) - {id}
      ensures forall u :: u != caller ==> OwnedBy(todos, u) == OwnedBy(old(todos), u)
    {
      if id !in todos {
        return Failure(NotFound, "Todo not found");
      }
      if todos[id].owner != caller {
        return Failure(Forbidden, "Not authorized");
      }
      todos := todos - {id};
      r := Success(OK, "Todo removed");
    }
  }
}
