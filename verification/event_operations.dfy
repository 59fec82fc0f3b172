/** `useEventOperations`: how a save is routed to POST or PUT requests, the
    record transforms on the way, and the rule that a batch stops at its first
    failed request.

    The network is abstracted away. `oks[i]` is the `response.ok` of the i-th
    request issued. `events` is the list the hook loaded last. `generate` is
    the recurrence generator `generateRecurringEvents`, which is not part of
    this model.
 */
module EventOperations {
  import opened EventTypes

  const AddedMessage: string := "일정이 추가되었습니다."
  const UpdatedMessage: string := "일정이 수정되었습니다."
  const SaveFailed: string := "일정 저장 실패"
  const DeletedMessage: string := "일정이 삭제되었습니다."
  const DeleteFailed: string := "일정 삭제 실패"
  const LoadFailed: string := "이벤트 로딩 실패"

  /** `editOption`: edit this occurrence only, or the whole repeat group. */
  datatype EditOption = Single | All

  /** The id in `/api/events/${id}`; a missing id prints as `undefined`. */
  function UrlId(e: Event): string {
    if e.id.Some? then e.id.value else "undefined"
  }

  /** `convertToSingleEvent`: detach an occurrence from its repeat group. */
  function ConvertToSingleEvent(e: Event): (r: Event)
    ensures r.repeat.kind == NoRepeat
    ensures r.repeat.interval == e.repeat.interval && r.repeat.endDate == e.repeat.endDate
    ensures r.repeatParentId.None?
    ensures r.(repeat := e.repeat, repeatParentId := e.repeatParentId) == e
  {
    e.(repeat := e.repeat.(kind := NoRepeat), repeatParentId := None)
  }

  /** `events.filter(event => event.repeatParentId === repeatParentId)`. */
  function RelatedEvents(events: seq<Event>, parent: Option<string>): (r: seq<Event>)
    ensures |r| <= |events|
    ensures forall e :: e in r <==> e in events && e.repeatParentId == parent
    decreases |events|
  {
    if |events| == 0 then []
    else
      var rest := RelatedEvents(events[1..], parent);
      assert forall e :: e in events <==> e == events[0] || e in events[1..];
      if events[0].repeatParentId == parent then [events[0]] + rest else rest
  }

  /** The filter keeps the loaded order: filtering a concatenation is the
      concatenation of the filtered parts. */
  lemma {:induction false} RelatedEventsAppend(a: seq<Event>, b: seq<Event>, parent: Option<string>)
    ensures RelatedEvents(a + b, parent) == RelatedEvents(a, parent) + RelatedEvents(b, parent)
    decreases |a|
  {
    if |a| == 0 {
      assert a + b == b;
    } else {
      assert (a + b)[1..] == a[1..] + b;
      RelatedEventsAppend(a[1..], b, parent);
    }
  }

  /** One member of an edited group. It keeps its own id, date and group, and
      takes every content field from the edited data. */
  function MergeIntoMember(member: Event, data: Event): (r: Event)
    ensures ContentOf(r) == ContentOf(data)
    ensures r.id == member.id && r.date == member.date
    ensures r.repeatParentId == member.repeatParentId
  {
    member.(title := data.title, startTime := data.startTime, endTime := data.endTime,
            description := data.description, location := data.location,
            category := data.category, repeat := data.repeat,
            notificationTime := data.notificationTime)
  }

  /** The PUT requests of `updateAllRelatedEvents`, one per group member in loaded order. */
  function GroupUpdateRequests(events: seq<Event>, data: Event): (reqs: seq<Request>)
    ensures var group := RelatedEvents(events, data.repeatParentId);
      && |reqs| == |group|
      && forall i :: 0 <= i < |group| ==>
           reqs[i] == Put(UrlId(group[i]), ToPatch(MergeIntoMember(group[i], data)))
  {
    var group := RelatedEvents(events, data.repeatParentId);
    seq(|group|, i requires 0 <= i < |group| => Put(UrlId(group[i]), ToPatch(MergeIntoMember(group[i], data))))
  }

  /** The five paths of `saveEvent`. */
  datatype Branch = SingleEdit | GroupEdit | PlainEdit | CreateRepeating | CreateSingle

  function SelectBranch(editing: bool, data: Event, option: Option<EditOption>): Branch {
    if editing then
      if option == Some(Single) && Truthy(data.repeatParentId) then SingleEdit
      else if option == Some(All) && Truthy(data.repeatParentId) then GroupEdit
      else PlainEdit
    else if data.repeat.kind != NoRepeat then CreateRepeating
    else CreateSingle
  }

  /** The requests a save issues when every one of them succeeds, and the message it then shows. */
  datatype Plan = Plan(requests: seq<Request>, successMessage: string)

  function PlanSave(editing: bool, data: Event, option: Option<EditOption>,
                    events: seq<Event>, generate: Event -> seq<Event>): (p: Plan)
    ensures p.successMessage == (if editing then UpdatedMessage else AddedMessage)
    ensures editing ==> forall i :: 0 <= i < |p.requests| ==> p.requests[i].Put?
    ensures !editing ==> forall i :: 0 <= i < |p.requests| ==> p.requests[i].Post?
  {
    match SelectBranch(editing, data, option)
    case SingleEdit => Plan([Put(UrlId(data), ToPatch(ConvertToSingleEvent(data)))], UpdatedMessage)
    case GroupEdit => Plan(GroupUpdateRequests(events, data), UpdatedMessage)
    case PlainEdit => Plan([Put(UrlId(data), ToPatch(data))], UpdatedMessage)
    case CreateRepeating => Plan(PostAll(generate(data)), AddedMessage)
    case CreateSingle => Plan([Post(data)], AddedMessage)
  }

  /** The position of the first failed request, or `|oks|` when none failed. */
  function FirstFailure(oks: seq<bool>): (k: nat)
    ensures k <= |oks|
    ensures forall i :: 0 <= i < k ==> oks[i]
    ensures k < |oks| ==> !oks[k]
  {
    if |oks| == 0 then 0
    else if !oks[0] then 0
    else 1 + FirstFailure(oks[1..])
  }

  /** What a save did: the requests it sent, in order, and the message it showed. */
  datatype Outcome = Outcome(sent: seq<Request>, message: string)

  /** Requests go out one at a time, and the first failure throws into `saveEvent`'s catch. */
  function Execute(p: Plan, oks: seq<bool>): (o: Outcome)
    requires |oks| == |p.requests|
    ensures |o.sent| <= |p.requests| && o.sent == p.requests[..|o.sent|]
    ensures (forall i :: 0 <= i < |oks| ==> oks[i]) ==> o == Outcome(p.requests, p.successMessage)
    ensures (exists i :: 0 <= i < |oks| && !oks[i]) ==>
      && o.message == SaveFailed
      && 1 <= |o.sent|
      && !oks[|o.sent| - 1]
      && (forall i :: 0 <= i < |o.sent| - 1 ==> oks[i])
  {
    var k := FirstFailure(oks);
    if k < |oks| then Outcome(p.requests[..k + 1], SaveFailed)
    else Outcome(p.requests, p.successMessage)
  }

  /** The `for` loop of `saveRepeatingEvent` and `updateAllRelatedEvents`. */
  method SendInOrder(requests: seq<Request>, oks: seq<bool>, successMessage: string)
    returns (o: Outcome)
    requires |oks| == |requests|
    ensures o == Execute(Plan(requests, successMessage), oks)
  {
    var i := 0;
    while i < |requests|
      invariant 0 <= i <= |requests|
      invariant forall j :: 0 <= j < i ==> oks[j]
    {
      if !oks[i] {
        return Outcome(requests[..i + 1], SaveFailed);
      }
      i := i + 1;
    }
    return Outcome(requests, successMessage);
  }

  /** `saveEvent(eventData, editOption)`. */
  function SaveEvent(editing: bool, data: Event, option: Option<EditOption>,
                     events: seq<Event>, generate: Event -> seq<Event>, oks: seq<bool>): (o: Outcome)
    requires |oks| == |PlanSave(editing, data, option, events, generate).requests|
    ensures o.message in {AddedMessage, UpdatedMessage, SaveFailed}
    ensures o.message == SaveFailed <==> exists i :: 0 <= i < |oks| && !oks[i]
    ensures o.message == AddedMessage ==> !editing
    ensures o.message == UpdatedMessage ==> editing
  {
    Execute(PlanSave(editing, data, option, events, generate), oks)
  }

  /** In editing mode: a single-occurrence edit of a group member detaches it
      and PUTs it, an edit of the whole group PUTs every member, and anything
      else PUTs the data unchanged. */
  lemma EditRouting(data: Event, option: Option<EditOption>, events: seq<Event>,
                    generate: Event -> seq<Event>)
    ensures var p := PlanSave(true, data, option, events, generate);
      && (option == Some(Single) && Truthy(data.repeatParentId) ==>
            p.requests == [Put(UrlId(data), ToPatch(ConvertToSingleEvent(data)))])
      && (option == Some(All) && Truthy(data.repeatParentId) ==>
            p.requests == GroupUpdateRequests(events, data))
      && (option.None? || !Truthy(data.repeatParentId) ==>
            p.requests == [Put(UrlId(data), ToPatch(data))])
  {
  }

  /** In create mode: a repeating event POSTs every generated occurrence in
      order, and any other event is POSTed once as it is. */
  lemma CreateRouting(data: Event, option: Option<EditOption>, events: seq<Event>,
                      generate: Event -> seq<Event>)
    ensures var p := PlanSave(false, data, option, events, generate);
      && (data.repeat.kind != NoRepeat ==> p.requests == PostAll(generate(data)))
      && (data.repeat.kind == NoRepeat ==> p.requests == [Post(data)])
  {
  }

  /** The generator is consulted only when creating a repeating event: on every
      other path, two different generators give the same plan. */
  lemma GeneratorOnlyForRepeatingCreate(editing: bool, data: Event, option: Option<EditOption>,
                                        events: seq<Event>, g1: Event -> seq<Event>,
                                        g2: Event -> seq<Event>)
    requires editing || data.repeat.kind == NoRepeat
    ensures PlanSave(editing, data, option, events, g1) == PlanSave(editing, data, option, events, g2)
  {
  }

  /** An empty generated list sends nothing and still reports the event as added. */
  lemma EmptyGenerationStillAdded(data: Event, option: Option<EditOption>, events: seq<Event>,
                                  generate: Event -> seq<Event>)
    requires data.repeat.kind != NoRepeat && generate(data) == []
    ensures PlanSave(false, data, option, events, generate).requests == []
    ensures SaveEvent(false, data, option, events, generate, []) == Outcome([], AddedMessage)
  {
  }

  /** When the i-th request fails and all before it succeed, exactly the
      requests up to and including the i-th were sent. */
  lemma AbortAtFirstFailure(p: Plan, oks: seq<bool>, i: nat)
    requires |oks| == |p.requests| && i < |oks|
    requires !oks[i] && forall j :: 0 <= j < i ==> oks[j]
    ensures Execute(p, oks) == Outcome(p.requests[..i + 1], SaveFailed)
  {
    var k := FirstFailure(oks);
    assert k == i;
  }

  /** Detaching is idempotent, and a detached event is later edited on the plain path. */
  lemma DetachedEditsPlainly(e: Event, option: Option<EditOption>)
    ensures ConvertToSingleEvent(ConvertToSingleEvent(e)) == ConvertToSingleEvent(e)
    ensures SelectBranch(true, ConvertToSingleEvent(e), option) == PlainEdit
  {
  }

  /** `deleteEvent(id)`: one DELETE, whose `response.ok` picks the message. */
  function DeleteSaved(id: string, ok: bool): (o: Outcome)
    ensures o.sent == [Delete(id)]
    ensures o.message == (if ok then DeletedMessage else DeleteFailed)
  {
    Outcome([Delete(id)], if ok then DeletedMessage else DeleteFailed)
  }

  /** `fetchEvents()`: the GET either delivers a list, which replaces the loaded
      events, or fails, which keeps them and shows the loading error. */
  function FetchEvents(loaded: seq<Event>, answer: Option<seq<Event>>)
    : (r: (seq<Event>, Option<string>))
    ensures answer.Some? ==> r == (answer.value, None)
    ensures answer.None? ==> r == (loaded, Some(LoadFailed))
  {
    match answer
    case Some(events) => (events, None)
    case None => (loaded, Some(LoadFailed))
  }
}
