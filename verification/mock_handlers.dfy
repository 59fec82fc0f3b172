/** `handlers.ts`: the default handler set, one route per REST operation, over
    the module-level list `mockEvents`. Its initial contents (`events.json`)
    are whatever store the caller passes in.
 */
module Handlers {
  import opened EventTypes
  import opened EventStore

  /** `findEventById(id)` is `FindEventIndex(mockEvents, id)`. */
  function Handle(mockEvents: Store, req: Request, freshId: string): (r: Served)
    ensures IsOk(r.response) <==> r.response != NotFound
    ensures r.response == NotFound <==>
      ((req.Put? || req.Delete?) && !HasId(mockEvents, req.id))
    ensures r.response == NotFound ==> r.store == mockEvents
    ensures req.GetAll? ==> r == Served(Listed(mockEvents), mockEvents)
    ensures req.Post? ==>
      && Status(r.response) == 201
      && r.response == CreatedBody(WithId(req.body, freshId))
      && r.store == mockEvents + [r.response.event]
    ensures req.Put? && HasId(mockEvents, req.id) ==>
      var k := FindEventIndex(mockEvents, req.id);
      && r.response == UpdatedBody(Merge(mockEvents[k], req.patch))
      && r.store == mockEvents[k := r.response.event]
    ensures req.Delete? && HasId(mockEvents, req.id) ==>
      var k := FindEventIndex(mockEvents, req.id);
      && r.response == DeleteSuccess
      && r.store == mockEvents[..k] + mockEvents[k + 1..]
  {
    match req
    case GetAll => Served(Listed(mockEvents), mockEvents)
    case Post(body) =>
      var c := CreateEvent(mockEvents, body, freshId);
      Served(CreatedBody(c.event), c.store)
    case Put(id, patch) =>
      (match UpdateEvent(mockEvents, id, patch)
       case UpdateNotFound => Served(NotFound, mockEvents)
       case Updated(s', e) => Served(UpdatedBody(e), s'))
    case Delete(id) =>
      (match DeleteEvent(mockEvents, id)
       case DeleteNotFound => Served(NotFound, mockEvents)
       case Deleted(s') => Served(DeleteSuccess, s'))
  }
}

/** `handlersUtils.ts`: per-test handler factories. Each factory copies its
    initial list and routes GET plus one write operation over that copy. A test
    installs a factory in front of the default handlers, so every request the
    factory does not route reaches `handlers.ts` and its `mockEvents` instead.
 */
module HandlersUtils {
  import opened EventTypes
  import opened EventStore
  import Handlers

  datatype Factory = Creation | Updating | Deletion

  /** The routes of `setupMockHandlerCreation`, `...Updating` and `...Deletion`. */
  predicate Routes(f: Factory, req: Request) {
    match req
    case GetAll => true
    case Post(_) => f == Creation
    case Put(_, _) => f == Updating
    case Delete(_) => f == Deletion
  }

  /** The factory's answer to a request it routes; `None` when it routes none. */
  function Handle(f: Factory, events: Store, req: Request, freshId: string): (r: Option<Served>)
    ensures r.Some? <==> Routes(f, req)
    ensures r.Some? ==> (r.value.response == NotFound <==>
      ((req.Put? || req.Delete?) && !HasId(events, req.id)))
    ensures r.Some? && r.value.response == NotFound ==> r.value.store == events
    ensures r.Some? && req.GetAll? ==> r.value == Served(Listed(events), events)
  {
    match req
    case GetAll => Some(Served(Listed(events), events))
    case Post(body) =>
      if f != Creation then None
      else
        var c := CreateEvent(events, body, freshId);
        Some(Served(CreatedBody(c.event), c.store))
    case Put(id, patch) =>
      if f != Updating then None
      else
        (match UpdateEvent(events, id, patch)
         case UpdateNotFound => Some(Served(NotFound, events))
         case Updated(s', e) => Some(Served(UpdatedBody(e), s')))
    case Delete(id) =>
      if f != Deletion then None
      else
        (match DeleteEvent(events, id)
         case DeleteNotFound => Some(Served(NotFound, events))
         case Deleted(s') => Some(Served(DeleteSuccess, s')))
  }

  /** The factory's private list and the default handlers' `mockEvents`. */
  datatype Layers = Layers(local: Store, base: Store)

  /** `server.use(...factory)`: the factory answers first and the default
      handlers answer the rest. Each request changes exactly one of the two lists. */
  function HandleLayered(f: Factory, st: Layers, req: Request, freshId: string)
    : (r: (Response, Layers))
    ensures Routes(f, req) ==> r.1.base == st.base
    ensures !Routes(f, req) ==> r.1.local == st.local
    ensures Routes(f, req) ==> r == (Handlers.Handle(st.local, req, freshId).response,
                                     st.(local := Handlers.Handle(st.local, req, freshId).store))
    ensures !Routes(f, req) ==> r == (Handlers.Handle(st.base, req, freshId).response,
                                      st.(base := Handlers.Handle(st.base, req, freshId).store))
  {
    match Handle(f, st.local, req, freshId)
    case Some(served) => (served.response, st.(local := served.store))
    case None =>
      var served := Handlers.Handle(st.base, req, freshId);
      (served.response, st.(base := served.store))
  }

  /** Runs requests in order; `ids[i]` is the clock reading `generateId` sees at request `i`. */
  function Run(f: Factory, st: Layers, reqs: seq<Request>, ids: seq<string>)
    : (r: (seq<Response>, Layers))
    requires |ids| == |reqs|
    ensures |r.0| == |reqs|
    decreases |reqs|
  {
    if |reqs| == 0 then ([], st)
    else
      var (resp, st') := HandleLayered(f, st, reqs[0], ids[0]);
      var (rest, fin) := Run(f, st', reqs[1..], ids[1..]);
      ([resp] + rest, fin)
  }

  function Stamped(bodies: seq<Event>, ids: seq<string>): (r: seq<Event>)
    requires |ids| == |bodies|
    ensures |r| == |bodies|
    ensures forall i :: 0 <= i < |bodies| ==> r[i] == WithId(bodies[i], ids[i])
  {
    seq(|bodies|, i requires 0 <= i < |bodies| => WithId(bodies[i], ids[i]))
  }

  /** A run of POSTs against the creation factory appends the stamped events
      in request order, answers each with 201, and leaves `mockEvents` alone. */
  lemma {:induction false} PostsAppendInOrder(st: Layers, bodies: seq<Event>, ids: seq<string>)
    requires |ids| == |bodies|
    ensures var r := Run(Creation, st, PostAll(bodies), ids);
      && r.1 == Layers(st.local + Stamped(bodies, ids), st.base)
      && forall i :: 0 <= i < |bodies| ==> Status(r.0[i]) == 201
    decreases |bodies|
  {
    if |bodies| == 0 {
      assert st.local + Stamped(bodies, ids) == st.local;
    } else {
      var e := WithId(bodies[0], ids[0]);
      var st' := Layers(st.local + [e], st.base);
      assert PostAll(bodies)[1..] == PostAll(bodies[1..]);
      PostsAppendInOrder(st', bodies[1..], ids[1..]);
      assert Stamped(bodies, ids) == [e] + Stamped(bodies[1..], ids[1..]);
    }
  }

  /** Where a factory routes a request, it answers exactly as `handlers.ts` does. */
  lemma FactoriesAgreeWithHandlers(f: Factory, s: Store, req: Request, freshId: string)
    requires Routes(f, req)
    ensures Handle(f, s, req, freshId) == Some(Handlers.Handle(s, req, freshId))
  {
  }
}
