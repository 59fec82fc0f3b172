/** The save paths of `useEventOperations` played against the `handlers.ts`
    store. A request's `response.ok` is then no longer an input: it is what
    the store answers.
 */
module SaveAgainstStore {
  import opened EventTypes
  import opened EventStore
  import opened EventOperations
  import Handlers

  /** Sends PUT requests in order while the store answers ok. The result is
      `None` as soon as one is answered 404, which is where the client aborts. */
  function ApplyPuts(s: Store, reqs: seq<Request>): Option<Store>
    decreases |reqs|
  {
    if |reqs| == 0 then Some(s)
    else
      var served := Handlers.Handle(s, reqs[0], "");
      if IsOk(served.response) then ApplyPuts(served.store, reqs[1..]) else None
  }

  lemma {:induction false} ApplyPutsAppend(s: Store, a: seq<Request>, b: seq<Request>)
    ensures ApplyPuts(s, a + b)
         == (match ApplyPuts(s, a) case None => None case Some(t) => ApplyPuts(t, b))
    decreases |a|
  {
    if |a| == 0 {
      assert a + b == b;
    } else {
      assert (a + b)[1..] == a[1..] + b;
      var served := Handlers.Handle(s, a[0], "");
      if IsOk(served.response) {
        ApplyPutsAppend(served.store, a[1..], b);
      }
    }
  }

  /** Every loaded event has an id, and no two share one. */
  predicate UniqueIds(events: seq<Event>) {
    && (forall i :: 0 <= i < |events| ==> events[i].id.Some?)
    && (forall i, j :: 0 <= i < j < |events| ==> events[i].id != events[j].id)
  }

  /** The store after the first `n` loaded events have been seen by a group edit:
      the group members among them carry the edited content. */
  function GroupState(events: seq<Event>, data: Event, n: nat): (t: Store)
    ensures |t| == |events|
  {
    seq(|events|, j requires 0 <= j < |events| =>
      if j < n && events[j].repeatParentId == data.repeatParentId
      then MergeIntoMember(events[j], data) else events[j])
  }

  lemma GroupRequestsStep(events: seq<Event>, data: Event, n: nat)
    requires n < |events|
    ensures GroupUpdateRequests(events[..n + 1], data)
         == GroupUpdateRequests(events[..n], data)
            + (if events[n].repeatParentId == data.repeatParentId
               then [Put(UrlId(events[n]), ToPatch(MergeIntoMember(events[n], data)))] else [])
  {
    var p := data.repeatParentId;
    assert events[..n + 1] == events[..n] + [events[n]];
    RelatedEventsAppend(events[..n], [events[n]], p);
    assert RelatedEvents([events[n]], p)
        == (if events[n].repeatParentId == p then [events[n]] else []) by {
      assert [events[n]][1..] == [];
    }
  }

  /** The PUT for member `n` finds it at its own position and leaves it in edited form. */
  lemma GroupPutStep(events: seq<Event>, data: Event, n: nat)
    requires UniqueIds(events) && n < |events|
    requires events[n].repeatParentId == data.repeatParentId
    ensures ApplyPuts(GroupState(events, data, n),
                      [Put(UrlId(events[n]), ToPatch(MergeIntoMember(events[n], data)))])
         == Some(GroupState(events, data, n + 1))
  {
    var t := GroupState(events, data, n);
    var x := events[n];
    var m := MergeIntoMember(x, data);
    var id := x.id.value;
    assert t[n] == x;
    assert HasId(t, id);
    var k := FindEventIndex(t, id);
    assert forall j :: 0 <= j < |t| && j != n ==> t[j].id == events[j].id != x.id;
    assert k == n;
    MergeFullBody(x, m);
    assert Merge(t[n], ToPatch(m)) == m;
    var req := Put(id, ToPatch(m));
    assert [req][1..] == [];
    assert Handlers.Handle(t, req, "").store == t[n := m];
    assert t[n := m] == GroupState(events, data, n + 1);
  }

  /** Seeing a group member: its PUT is appended and applied. */
  lemma GroupStepMember(events: seq<Event>, data: Event, n: nat)
    requires UniqueIds(events) && n < |events|
    requires events[n].repeatParentId == data.repeatParentId
    requires ApplyPuts(events, GroupUpdateRequests(events[..n], data)) == Some(GroupState(events, data, n))
    ensures ApplyPuts(events, GroupUpdateRequests(events[..n + 1], data))
         == Some(GroupState(events, data, n + 1))
  {
    GroupRequestsStep(events, data, n);
    var x := events[n];
    ApplyPutsAppend(events, GroupUpdateRequests(events[..n], data),
                    [Put(UrlId(x), ToPatch(MergeIntoMember(x, data)))]);
    GroupPutStep(events, data, n);
  }

  /** Seeing an event of another group: no request, no change. */
  lemma GroupStepOther(events: seq<Event>, data: Event, n: nat)
    requires n < |events|
    requires events[n].repeatParentId != data.repeatParentId
    ensures GroupUpdateRequests(events[..n + 1], data) == GroupUpdateRequests(events[..n], data)
    ensures GroupState(events, data, n + 1) == GroupState(events, data, n)
  {
    GroupRequestsStep(events, data, n);
    var before := GroupUpdateRequests(events[..n], data);
    assert before + [] == before;
    var t, t' := GroupState(events, data, n), GroupState(events, data, n + 1);
    forall j | 0 <= j < |events|
      ensures t'[j] == t[j]
    {
    }
  }

  /** One more loaded event seen, whether or not it belongs to the group. */
  lemma GroupStep(events: seq<Event>, data: Event, n: nat)
    requires UniqueIds(events) && n < |events|
    requires ApplyPuts(events, GroupUpdateRequests(events[..n], data)) == Some(GroupState(events, data, n))
    ensures ApplyPuts(events, GroupUpdateRequests(events[..n + 1], data))
         == Some(GroupState(events, data, n + 1))
  {
    if events[n].repeatParentId == data.repeatParentId {
      GroupStepMember(events, data, n);
    } else {
      GroupStepOther(events, data, n);
    }
  }

  /** Before any event is seen: no request, and the store is as loaded. */
  lemma GroupStart(events: seq<Event>, data: Event)
    ensures ApplyPuts(events, GroupUpdateRequests(events[..0], data)) == Some(GroupState(events, data, 0))
  {
    assert events[..0] == [];
    assert GroupUpdateRequests([], data) == [];
    assert GroupState(events, data, 0) == events;
  }

  lemma {:induction false} GroupPrefix(events: seq<Event>, data: Event, n: nat)
    requires UniqueIds(events) && n <= |events|
    ensures ApplyPuts(events, GroupUpdateRequests(events[..n], data))
         == Some(GroupState(events, data, n))
    decreases n
  {
    if n == 0 {
      GroupStart(events, data);
    } else {
      GroupPrefix(events, data, n - 1);
      GroupStep(events, data, n - 1);
    }
  }

  /** An edit of a whole group, sent to a store that holds exactly the loaded
      events under distinct ids, succeeds on every PUT. Each group member then
      carries the edited content and keeps its id, date and group, and every
      other event is untouched. */
  lemma GroupEditOnStore(events: seq<Event>, data: Event)
    requires UniqueIds(events)
    ensures var r := ApplyPuts(events, GroupUpdateRequests(events, data));
      && r.Some?
      && |r.value| == |events|
      && forall j :: 0 <= j < |events| ==>
           if events[j].repeatParentId == data.repeatParentId then
             && ContentOf(r.value[j]) == ContentOf(data)
             && r.value[j].id == events[j].id
             && r.value[j].date == events[j].date
             && r.value[j].repeatParentId == events[j].repeatParentId
           else r.value[j] == events[j]
  {
    GroupPrefix(events, data, |events|);
    assert events[..|events|] == events;
  }

  /** A single-occurrence edit reaches the store as a merge. The body has no
      `repeatParentId` key, so the merge cannot remove the stored one: the
      stored event becomes non-repeating and stays in its group. */
  lemma SingleEditKeepsStoredParent(s: Store, data: Event)
    requires data.id.Some? && HasId(s, data.id.value)
    ensures var k := FindEventIndex(s, data.id.value);
      var served := Handlers.Handle(s, Put(UrlId(data), ToPatch(ConvertToSingleEvent(data))), "");
      && IsOk(served.response)
      && served.store[k].repeat.kind == NoRepeat
      && served.store[k].repeatParentId == s[k].repeatParentId
  {
    MergeFullBody(s[FindEventIndex(s, data.id.value)], ConvertToSingleEvent(data));
  }

  /** The plain edit of an event the store does not hold is answered 404, so
      the save reports a failure after its one PUT. */
  lemma PlainEditOfUnknownIdFails(s: Store, data: Event, events: seq<Event>,
                                  generate: Event -> seq<Event>)
    requires !HasId(s, UrlId(data))
    ensures var put := Put(UrlId(data), ToPatch(data));
      var ok := IsOk(Handlers.Handle(s, put, "").response);
      SaveEvent(true, data, None, events, generate, [ok]) == Outcome([put], SaveFailed)
  {
    var put := Put(UrlId(data), ToPatch(data));
    assert PlanSave(true, data, None, events, generate).requests == [put];
    assert !IsOk(Handlers.Handle(s, put, "").response);
  }

  /** The hook reports a deletion exactly when the store held the id, and the
      store then holds one event fewer. */
  lemma DeleteMessageMatchesStore(s: Store, id: string)
    ensures var served := Handlers.Handle(s, Delete(id), "");
      && (DeleteSaved(id, IsOk(served.response)).message == DeletedMessage <==> HasId(s, id))
      && (HasId(s, id) ==> |served.store| == |s| - 1)
      && (!HasId(s, id) ==> served.store == s)
  {
  }

  /** A fetch answered by the store's GET makes the loaded list the store's
      contents, whatever was loaded before, and the GET changes nothing. */
  lemma FetchShowsStore(s: Store, loaded: seq<Event>)
    ensures var get := Handlers.Handle(s, GetAll, "");
      && IsOk(get.response)
      && get.store == s
      && FetchEvents(loaded, Some(get.response.events)) == (s, None)
  {
  }

  /** `deleteEvent` of a stored id: the DELETE succeeds, the refetch that
      follows it loads the store without the first event carrying the id,
      and the deletion message is shown. */
  lemma DeleteThenRefetch(s: Store, loaded: seq<Event>, id: string)
    requires HasId(s, id)
    ensures var del := Handlers.Handle(s, Delete(id), "");
      var k := FindEventIndex(s, id);
      var get := Handlers.Handle(del.store, GetAll, "");
      var (shown, error) := FetchEvents(loaded, Some(get.response.events));
      && DeleteSaved(id, IsOk(del.response)).message == DeletedMessage
      && error.None?
      && shown == s[..k] + s[k + 1..]
      && multiset(shown) + multiset{s[k]} == multiset(s)
  {
    var k := FindEventIndex(s, id);
    var t := Handlers.Handle(s, Delete(id), "").store;
    assert t == s[..k] + s[k + 1..];
    FetchShowsStore(t, loaded);
  }
}
