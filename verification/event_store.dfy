/** The in-memory event list behind the mocked REST handlers.

    The store is a sequence of events looked up by `id`. The handler factories
    of `handlersUtils.ts` and the module-level handlers of `handlers.ts` run the
    same four operations on it: list, create, merge-update and delete. They are
    defined here once. The id generator (`String(Date.now())`) is the
    `freshId` parameter.
 */
module EventStore {
  import opened EventTypes

  type Store = seq<Event>

  predicate HasId(s: Store, id: string) {
    exists i :: 0 <= i < |s| && s[i].id == Some(id)
  }

  /** `findIndex(e => e.id === id)`: the first position holding `id`, or -1. */
  function FindEventIndex(s: Store, id: string): (r: int)
    ensures -1 <= r < |s|
    ensures r == -1 <==> !HasId(s, id)
    ensures r != -1 ==> s[r].id == Some(id)
    ensures r != -1 ==> forall i :: 0 <= i < r ==> s[i].id != Some(id)
  {
    if |s| == 0 then -1
    else if s[0].id == Some(id) then 0
    else
      var k := FindEventIndex(s[1..], id);
      if k == -1 then
        assert forall i :: 1 <= i < |s| ==> s[i] == s[1..][i - 1];
        -1
      else k + 1
  }

  /** `{ ...body, id: body.id || generateId() }`. */
  function WithId(body: Event, freshId: string): (e: Event)
    ensures Truthy(body.id) ==> e.id == body.id
    ensures !Truthy(body.id) ==> e.id == Some(freshId)
    ensures e.(id := body.id) == body
  {
    body.(id := if Truthy(body.id) then body.id else Some(freshId))
  }

  datatype Created = Created(store: Store, event: Event)

  /** POST: keep a truthy supplied id or take the fresh one, then append. */
  function CreateEvent(s: Store, body: Event, freshId: string): (r: Created)
    ensures |r.store| == |s| + 1
    ensures r.store[..|s|] == s
    ensures r.store[|s|] == r.event
    ensures r.event == WithId(body, freshId)
  {
    var e := WithId(body, freshId);
    Created(s + [e], e)
  }

  datatype Updated = UpdateNotFound | Updated(store: Store, event: Event)

  /** PUT: shallow-merge the body into the first event with `id`; 404 when there is none. */
  function UpdateEvent(s: Store, id: string, patch: Patch): (r: Updated)
    ensures r.UpdateNotFound? <==> !HasId(s, id)
    ensures r.Updated? ==>
      var k := FindEventIndex(s, id);
      && |r.store| == |s|
      && r.event == r.store[k] == Merge(s[k], patch)
      && (forall j :: 0 <= j < |s| && j != k ==> r.store[j] == s[j])
  {
    var k := FindEventIndex(s, id);
    if k == -1 then UpdateNotFound
    else
      var e := Merge(s[k], patch);
      Updated(s[k := e], e)
  }

  datatype Deleted = DeleteNotFound | Deleted(store: Store)

  /** DELETE: `splice` out the first event with `id`; 404 when there is none. */
  function DeleteEvent(s: Store, id: string): (r: Deleted)
    ensures r.DeleteNotFound? <==> !HasId(s, id)
    ensures r.Deleted? ==>
      var k := FindEventIndex(s, id);
      && |r.store| == |s| - 1
      && (forall j :: 0 <= j < k ==> r.store[j] == s[j])
      && (forall j :: k <= j < |r.store| ==> r.store[j] == s[j + 1])
      && multiset(r.store) + multiset{s[k]} == multiset(s)
  {
    var k := FindEventIndex(s, id);
    if k == -1 then DeleteNotFound
    else
      assert s == s[..k] + [s[k]] + s[k + 1..];
      Deleted(s[..k] + s[k + 1..])
  }

  /** The HTTP answers of the handlers. The status codes are in `Status`. */
  datatype Response =
    | Listed(events: seq<Event>)
    | CreatedBody(event: Event)
    | UpdatedBody(event: Event)
    | DeleteSuccess
    | NotFound

  function Status(r: Response): int {
    match r
    case CreatedBody(_) => 201
    case NotFound => 404
    case _ => 200
  }

  /** `response.ok`: the status lies in 200..299. */
  predicate IsOk(r: Response) {
    200 <= Status(r) <= 299
  }

  /** A handler's answer together with the store it leaves behind. */
  datatype Served = Served(response: Response, store: Store)

  /** Creating an event under an id the store does not hold and then deleting
      that id gives back the original store. */
  lemma CreateThenDelete(s: Store, body: Event, freshId: string)
    requires !HasId(s, WithId(body, freshId).id.value)
    ensures DeleteEvent(CreateEvent(s, body, freshId).store, WithId(body, freshId).id.value)
         == Deleted(s)
  {
    var e := WithId(body, freshId);
    var t := CreateEvent(s, body, freshId).store;
    assert t == s + [e];
    FindAfterAppend(s, e, e.id.value);
    assert t[..|s|] + t[|s| + 1..] == s;
  }

  /** An id that is missing from `s` is found at the appended position. */
  lemma {:induction false} FindAfterAppend(s: Store, e: Event, id: string)
    requires !HasId(s, id) && e.id == Some(id)
    ensures FindEventIndex(s + [e], id) == |s|
  {
    if |s| == 0 {
    } else {
      assert (s + [e])[1..] == s[1..] + [e];
      assert !HasId(s[1..], id) by {
        forall i | 0 <= i < |s[1..]|
          ensures s[1..][i].id != Some(id)
        {
          assert s[1..][i] == s[i + 1];
        }
      }
      FindAfterAppend(s[1..], e, id);
    }
  }

  /** Updating twice with the same body is the same as updating once, when
      the body does not move the event to another id. */
  lemma UpdateIdempotent(s: Store, id: string, patch: Patch)
    requires patch.id.None? || patch.id == Some(id)
    ensures UpdateEvent(s, id, patch).Updated? ==>
      UpdateEvent(UpdateEvent(s, id, patch).store, id, patch) == UpdateEvent(s, id, patch)
  {
    var r := UpdateEvent(s, id, patch);
    if r.Updated? {
      var k := FindEventIndex(s, id);
      var t := r.store;
      assert t[k].id == Some(id);
      SameIdsSameIndex(s, t, id, k);
      MergeLaws(s[k], patch);
      assert t[k := Merge(t[k], patch)] == t;
    }
  }

  /** Two stores that agree on which positions hold `id` below `k`, and both hold
      it at `k`, find it at `k`. */
  lemma SameIdsSameIndex(s: Store, t: Store, id: string, k: int)
    requires |s| == |t| && 0 <= k < |s|
    requires FindEventIndex(s, id) == k && t[k].id == Some(id)
    requires forall j :: 0 <= j < |s| && j != k ==> t[j] == s[j]
    ensures FindEventIndex(t, id) == k
  {
    assert forall j :: 0 <= j < k ==> t[j].id == s[j].id;
  }
}
