/** The records the calendar's hooks and its mocked REST layer exchange.

    An `Event` is the JSON object the application sends and stores. The keys
    that may be missing from it (`id`, `repeatParentId`, `repeat.endDate`) are
    `Option`s, and `None` stands for a missing key. `JSON.stringify` drops
    `undefined` keys, so a missing key stays missing on the wire.
 */
module EventTypes {

  datatype Option<+T> = None | Some(value: T)

  /** JavaScript truthiness of an optional string: present and not empty. */
  predicate Truthy(s: Option<string>) {
    s.Some? && s.value != ""
  }

  /** The repeat types the calendar offers; `NoRepeat` is the source's `'none'`. */
  datatype RepeatType = NoRepeat | Daily | Weekly | Monthly | Yearly

  datatype RepeatInfo = RepeatInfo(kind: RepeatType, interval: int, endDate: Option<string>)

  /** One calendar event. An `EventForm` in the source is the same record with no `id`. */
  datatype Event = Event(
    id: Option<string>,
    title: string,
    date: string,
    startTime: string,
    endTime: string,
    description: string,
    location: string,
    category: string,
    repeat: RepeatInfo,
    notificationTime: int,
    repeatParentId: Option<string>)

  /** The content fields that an edit of a whole repeat group copies onto every member. */
  datatype Content = Content(
    title: string,
    startTime: string,
    endTime: string,
    description: string,
    location: string,
    category: string,
    repeat: RepeatInfo,
    notificationTime: int)

  function ContentOf(e: Event): Content {
    Content(e.title, e.startTime, e.endTime, e.description, e.location, e.category,
            e.repeat, e.notificationTime)
  }

  /** A `Partial<Event>` JSON body as the server reads it: any key may be missing. */
  datatype Patch = Patch(
    id: Option<string>,
    title: Option<string>,
    date: Option<string>,
    startTime: Option<string>,
    endTime: Option<string>,
    description: Option<string>,
    location: Option<string>,
    category: Option<string>,
    repeat: Option<RepeatInfo>,
    notificationTime: Option<int>,
    repeatParentId: Option<string>)

  /** The body `JSON.stringify` sends for an event. Every required key carries
      the event's value, and a missing optional key stays missing. */
  function ToPatch(e: Event): (p: Patch)
    ensures p.id == e.id && p.repeatParentId == e.repeatParentId
    ensures p.title == Some(e.title) && p.date == Some(e.date)
    ensures p.startTime == Some(e.startTime) && p.endTime == Some(e.endTime)
    ensures p.description == Some(e.description) && p.location == Some(e.location)
    ensures p.category == Some(e.category) && p.repeat == Some(e.repeat)
    ensures p.notificationTime == Some(e.notificationTime)
  {
    Patch(e.id, Some(e.title), Some(e.date), Some(e.startTime), Some(e.endTime),
          Some(e.description), Some(e.location), Some(e.category), Some(e.repeat),
          Some(e.notificationTime), e.repeatParentId)
  }

  function Pick<T>(override: Option<T>, keep: T): T {
    if override.Some? then override.value else keep
  }

  function PickOpt<T>(override: Option<T>, keep: Option<T>): Option<T> {
    if override.Some? then override else keep
  }

  /** The shallow spread `{ ...e, ...p }`: each key present in `p` replaces the
      stored value, and each missing key keeps it. */
  function Merge(e: Event, p: Patch): Event {
    Event(PickOpt(p.id, e.id), Pick(p.title, e.title), Pick(p.date, e.date),
          Pick(p.startTime, e.startTime), Pick(p.endTime, e.endTime),
          Pick(p.description, e.description), Pick(p.location, e.location),
          Pick(p.category, e.category), Pick(p.repeat, e.repeat),
          Pick(p.notificationTime, e.notificationTime),
          PickOpt(p.repeatParentId, e.repeatParentId))
  }

  const EmptyPatch: Patch :=
    Patch(None, None, None, None, None, None, None, None, None, None, None)

  /** Merging a full client body yields that body. The two optional keys are the
      exception: when the body leaves one out, the stored value survives. */
  lemma MergeFullBody(stored: Event, body: Event)
    ensures Merge(stored, ToPatch(body))
         == body.(id := if body.id.Some? then body.id else stored.id,
                  repeatParentId := if body.repeatParentId.Some? then body.repeatParentId
                                    else stored.repeatParentId)
  {
  }

  /** A merge with an empty body changes nothing, and a merge is idempotent. */
  lemma MergeLaws(e: Event, p: Patch)
    ensures Merge(e, EmptyPatch) == e
    ensures Merge(Merge(e, p), p) == Merge(e, p)
  {
  }

  /** The REST requests on `/api/events`. The save paths issue POST and PUT, and
      the mocked server answers all four. */
  datatype Request =
    | GetAll
    | Post(body: Event)
    | Put(id: string, patch: Patch)
    | Delete(id: string)

  /** One POST per event, in list order. */
  function PostAll(events: seq<Event>): (reqs: seq<Request>)
    ensures |reqs| == |events|
    ensures forall i :: 0 <= i < |events| ==> reqs[i] == Post(events[i])
  {
    seq(|events|, i requires 0 <= i < |events| => Post(events[i]))
  }
}
