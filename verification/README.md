# Calendar event operations, event form and mocked event store — a Dafny model

This project models the working logic of a browser calendar application.

- **Save and edit routing (`useEventOperations`).** `saveEvent` picks one of
  five paths: detach-and-update one occurrence of a repeat group, update the
  whole group, plain update, create a repeating event, or create a single
  event. It then sends POST or PUT requests one at a time and stops at the
  first failed one. `convertToSingleEvent` turns an occurrence into a
  stand-alone event. The group update copies the edited content onto every
  loaded event that shares the edited event's `repeatParentId`. `deleteEvent`
  and `fetchEvents` are the two remaining requests of the hook.
- **Event form (`useEventForm`).** The form state is modelled with the
  repeat-end-date check `validateRepeatEndDate`, the end-date change handler,
  `editEvent`, `resetForm` and the initial `useState` values.
- **Mocked REST store (`handlersUtils.ts`, `handlers.ts`).** Events are a
  sequence keyed by `id`. Create keeps a truthy supplied id or takes a fresh
  one, update merges shallowly, delete removes one event, and GET lists the
  store. An unknown id is answered 404.
- **Handler layering.** Each handler factory routes GET plus one write
  operation. A test installs it in front of the default handlers, so the
  requests the factory does not route reach the default handlers.

The modules follow the source files:

| module | file | source |
|---|---|---|
| `EventTypes` | `event_types.dfy` | the `Event` record, its JSON body and the shallow merge `{ ...a, ...b }` |
| `Dates` | `dates.dfy` | ISO `YYYY-MM-DD` strings and the order `new Date(...)` compares them by |
| `EventStore` | `event_store.dfy` | `findEventIndex` and the create/update/delete operations on the event list |
| `Handlers` | `mock_handlers.dfy` | `src/__mocks__/handlers.ts` |
| `HandlersUtils` | `mock_handlers.dfy` | `src/__mocks__/handlersUtils.ts` |
| `EventOperations` | `event_operations.dfy` | `src/hooks/useEventOperations.ts` |
| `SaveAgainstStore` | `save_against_store.dfy` | the save paths played against the `handlers.ts` store |
| `EventForm` | `event_form.dfy` | `src/hooks/useEventForm.ts` |

Inputs that the source takes from the environment are parameters here:

- `oks: seq<bool>` holds each request's `response.ok`, one flag per request
  the save would issue if all succeeded.
- `generate` is the recurrence generator.
- `freshId` is the value of `String(Date.now())`.
- `maxDate` is `MAX_DATE`.

`SaveAgainstStore` closes the loop. It computes the `ok` flags from what the
`handlers.ts` store answers, which yields three facts:

- A group edit against a store of distinct ids updates exactly the group
  members, and each keeps its id, date and group.
- Editing an unknown id fails.
- A detached single edit sent to the mock store does not clear the stored
  `repeatParentId`. The PUT body simply lacks that key, and a shallow merge
  keeps what a body lacks.

## Model

| member | source | states |
|---|---|---|
| `EventStore.FindEventIndex` | src/__mocks__/handlersUtils.ts:17 | -1 exactly when no event has the id; otherwise an index holding the id with no earlier one holding it |
| `EventStore.FindAfterAppend` | src/__mocks__/handlersUtils.ts:17 | after appending an event under an id the store lacks, the lookup of that id finds the new last position |
| `EventTypes.ToPatch` | src/hooks/useEventOperations.ts:105 | the JSON body of an event carries each of the event's values under its own key, and an optional key exactly when the event has a value for it |
| `EventStore.WithId` | src/__mocks__/handlersUtils.ts:40-43 | a truthy supplied id is kept, a missing or empty one is replaced by the fresh id, and no other field changes |
| `EventStore.CreateEvent` | src/__mocks__/handlersUtils.ts:38-46 | the store grows by exactly one, the earlier events are unchanged, and the new last event is the body with its id settled |
| `EventStore.UpdateEvent` | src/__mocks__/handlersUtils.ts:63-74 | not-found exactly when no event has the id; otherwise the first such event becomes its shallow merge with the body, and length, order and every other event stay |
| `EventStore.DeleteEvent` | src/__mocks__/handlersUtils.ts:90-100 | not-found exactly when no event has the id; otherwise the first such event is removed, the others keep their relative order, and the multiset loses exactly that event |
| `EventStore.CreateThenDelete` | src/__mocks__/handlersUtils.ts:38-99 | creating under an id the store lacks and then deleting that id restores the original store |
| `EventStore.UpdateIdempotent` | src/__mocks__/handlersUtils.ts:67-73 | repeating a merge-update with the same body (one that keeps the id) changes nothing more |
| `EventTypes.MergeFullBody` | src/__mocks__/handlersUtils.ts:72 | merging a full client body yields the body, except that an optional key the body lacks keeps its stored value |
| `EventTypes.MergeLaws` | src/__mocks__/handlers.ts:46 | merging an empty body is the identity, and merging is idempotent |
| `Handlers.Handle` | src/__mocks__/handlers.ts:18-60 | GET lists the store; POST answers 201 and appends the event with its id settled; PUT/DELETE on an unknown id answer 404 and change nothing; on a known id they merge into or remove exactly the first match; `ok` exactly when not 404 |
| `HandlersUtils.Handle` | src/__mocks__/handlersUtils.ts:20-102 | a factory answers exactly the requests it routes; 404 exactly for PUT/DELETE of an unknown id, with the list unchanged; GET lists the current contents |
| `HandlersUtils.HandleLayered` | src/setupTests.ts:9 | a request the factory routes is answered as `handlers.ts` would answer it over the factory's list, which alone changes; any other request is answered as `handlers.ts` answers it over the default list, which alone changes |
| `HandlersUtils.PostsAppendInOrder` | src/__mocks__/handlersUtils.ts:32-47 | a run of POSTs on the creation factory answers 201 each time and appends the id-settled bodies in request order, leaving the default list untouched |
| `HandlersUtils.FactoriesAgreeWithHandlers` | src/__mocks__/handlers.ts:21-61 | wherever a factory routes a request, it answers and updates its list exactly as the module-level handlers do |
| `Dates.ParseFormat` | src/hooks/useEventForm.ts:53-55 | a valid date formatted as `YYYY-MM-DD` parses back to itself |
| `Dates.FormatParse` | src/hooks/useEventForm.ts:53-55 | a well-formed ISO date string formats back from its parsed date to the same string |
| `EventOperations.ConvertToSingleEvent` | src/hooks/useEventOperations.ts:89-96 | repeat type becomes none with interval and end date kept, `repeatParentId` is gone, and every other field is unchanged |
| `EventOperations.DetachedEditsPlainly` | src/hooks/useEventOperations.ts:145-160 | detaching twice is detaching once, and a detached event is afterwards edited on the plain path |
| `EventOperations.RelatedEvents` | src/hooks/useEventOperations.ts:117-121 | the group holds exactly the loaded events whose `repeatParentId` equals the edited one's |
| `EventOperations.RelatedEventsAppend` | src/hooks/useEventOperations.ts:121 | the filter keeps the loaded order |
| `EventOperations.MergeIntoMember` | src/hooks/useEventOperations.ts:124-135 | a group member keeps its id, date and group and takes title, times, description, location, category, repeat and notification time from the edited data |
| `EventOperations.GroupUpdateRequests` | src/hooks/useEventOperations.ts:124-138 | one PUT per group member, in loaded order, addressed to the member's own id |
| `EventOperations.PlanSave` | src/hooks/useEventOperations.ts:143-172 | editing sends only PUTs and succeeds with "일정이 수정되었습니다."; creating sends only POSTs and succeeds with "일정이 추가되었습니다." |
| `EventOperations.EditRouting` | src/hooks/useEventOperations.ts:145-160 | `'single'` with a truthy `repeatParentId` detaches then PUTs; `'all'` with one PUTs the whole group; anything else PUTs the data unchanged |
| `EventOperations.CreateRouting` | src/hooks/useEventOperations.ts:161-172 | a repeat type other than none POSTs every generated occurrence in order; type none POSTs the data once |
| `EventOperations.GeneratorOnlyForRepeatingCreate` | src/hooks/useEventOperations.ts:163-171 | when editing or when the type is none, the generator does not affect the plan |
| `EventOperations.EmptyGenerationStillAdded` | src/hooks/useEventOperations.ts:39-46 | an empty generated list sends no request and reports "일정이 추가되었습니다." |
| `EventOperations.FirstFailure` | src/hooks/useEventOperations.ts:58-60 | the position of the first failed request: all before it succeeded, and it failed unless it is past the end |
| `EventOperations.Execute` | src/hooks/useEventOperations.ts:49-64 | what was sent is a prefix of the plan; with no failure, everything is sent and the success message shows; otherwise the last request sent is the first failed one and "일정 저장 실패" shows |
| `EventOperations.SendInOrder` | src/hooks/useEventOperations.ts:124-140 | the request loop sends in order and stops at the first failure, with the same outcome as `Execute` |
| `EventOperations.AbortAtFirstFailure` | src/hooks/useEventOperations.ts:173-176 | if request i is the first to fail, exactly requests 0..i were sent and the outcome is "일정 저장 실패" |
| `EventOperations.SaveEvent` | src/hooks/useEventOperations.ts:143-177 | the message is the failure message exactly when some request failed; "added" only in create mode and "updated" only in editing mode |
| `EventOperations.DeleteSaved` | src/hooks/useEventOperations.ts:179-193 | one DELETE to the id; "일정이 삭제되었습니다." when it succeeds, "일정 삭제 실패" otherwise |
| `EventOperations.FetchEvents` | src/hooks/useEventOperations.ts:11-23 | a delivered list replaces the loaded events; a failed GET keeps them and shows "이벤트 로딩 실패" |
| `SaveAgainstStore.GroupEditOnStore` | src/hooks/useEventOperations.ts:117-141 | against a store of the loaded events with distinct ids, every group PUT succeeds; members get the edited content with their own id, date and group, and all other events are unchanged |
| `SaveAgainstStore.SingleEditKeepsStoredParent` | src/__mocks__/handlers.ts:46 | a detached single edit makes the stored event non-repeating but keeps its stored `repeatParentId` |
| `SaveAgainstStore.PlainEditOfUnknownIdFails` | src/__mocks__/handlers.ts:41-44 | a plain edit of an id the store lacks sends one PUT, is answered 404, and reports "일정 저장 실패" |
| `SaveAgainstStore.DeleteMessageMatchesStore` | src/__mocks__/handlers.ts:50-59 | the deletion message appears exactly when the store held the id; the store then shrinks by one, and otherwise it is unchanged |
| `SaveAgainstStore.FetchShowsStore` | src/hooks/useEventOperations.ts:11-18 | a fetch answered by the store's GET replaces the loaded list with exactly the store's contents, and the GET leaves the store as it was |
| `SaveAgainstStore.DeleteThenRefetch` | src/hooks/useEventOperations.ts:179-188 | deleting a stored id shows the deletion message, and the refetch then loads the store without the first event that had the id, with the multiset short by exactly that event |
| `EventForm.ValidateRepeatEndDate` | src/hooks/useEventForm.ts:44-68 | an empty end or start date gives no error; an end before the start gives "종료일은 시작일 이후여야 합니다."; otherwise an end after `MAX_DATE` gives the `MAX_DATE` message |
| `EventForm.NoErrorIffInRange` | src/hooks/useEventForm.ts:57-67 | no error exactly when a field is empty or start ≤ end ≤ `MAX_DATE`, both bounds included |
| `EventForm.MessagesDiffer` | src/hooks/useEventForm.ts:59-64 | the before-start message and the `MAX_DATE` message are different strings |
| `EventForm.ChangeRepeatEndDate` | src/hooks/useEventForm.ts:70-76 | the end-date field takes the new value and the error takes its check result; nothing else changes |
| `EventForm.EditEvent` | src/hooks/useEventForm.ts:93-107 | every form field is the event's field; the repeat flag is set exactly when the type is not none; the end date is the event's or empty; the event is remembered for editing |
| `EventForm.EditForgetsPreviousForm` | src/hooks/useEventForm.ts:94-106 | the edited form depends only on the event and the end-date error |
| `EventForm.ResetForm` | src/hooks/useEventForm.ts:78-91 | the repeat flag agrees with the type, and the remembered event and end-date error are left as they are |
| `EventForm.ResetIsEditOfBlank` | src/hooks/useEventForm.ts:79-90 | reset gives what loading the default event gives: empty strings, category "업무", no repeat, interval 1, no end date, notification 10 |
| `EventForm.InitialFormAsWritten` | src/hooks/useEventForm.ts:10-21 | with no initial event, the form opens ticked as repeating while its type is none |
| `EventForm.InitialRepeatFlagAsWritten` | src/hooks/useEventForm.ts:17 | the as-written initial form breaks the repeat-flag invariant and differs from every reset form |
| `EventForm.InitialForm` | src/hooks/useEventForm.ts:10-21 | the initial form keeps the repeat flag in step with the type and remembers no event |
| `EventForm.InitialFormAgrees` | src/hooks/useEventForm.ts:16-21 | the corrected empty initial form equals a reset form, and an event with truthy fields opens as `editEvent` loads it |

## Findings

| source | as written | input that shows it | evidently intended | confidence | as-written member | corrected member |
|---|---|---|---|---|---|---|
| src/hooks/useEventForm.ts:17 | `useState(initialEvent?.repeat.type !== 'none')` evaluates `undefined !== 'none'` when no event is given | `useEventForm()` with no argument: `isRepeating` is true while `repeatType` is `'none'` | the repeat checkbox starts unticked, as `resetForm` leaves it and as the integration test assumes when it ticks the box to reveal the end-date field | medium; not executed | `EventForm.InitialRepeatFlagAsWritten` | `EventForm.InitialFormAgrees` |

## Left out

- `src/utils/recurringEventUtils.ts` is not part of this model. Both of its functions are unimplemented stubs: one returns `[]` and the other `null`. The save routing takes the generator as a parameter instead. `src/__tests__/unit/recurringEventUtils.spec.ts` expects a working occurrence generator; the code has none, and the model follows the code.
- `MAX_DATE` comes from a module whose constant is not shown, so it is a parameter.
- React state, `useEffect` initialisation, the snackbar calls and the `fetch` transport are left out. Network results are input flags, or the `handlers.ts` store's answers in `SaveAgainstStore`.
- The refetch in `handleSaveSuccess` is left out. A refetch failure is caught inside `fetchEvents` and only adds its loading toast; the save message is shown either way.
- The `onSave` callback is left out.
- Malformed date strings are not modelled. The validator requires each date argument to be empty or a valid ISO date, which is what a date input yields. JavaScript's NaN comparisons for other strings are outside the model.
- `String(Date.now())` id generation is the `freshId` parameter. Two requests in the same millisecond may get the same id, and the model makes no uniqueness claim.
- The mock store's initial contents (`events.json`) are not shown, so they are a parameter. Copying `initEvents` into a private list needs no statement with immutable sequences: an operation cannot change its caller's list.
- The time-of-day checks (`getTimeErrorMessage`, `handleStartTimeChange`, `handleEndTimeChange`) are left out; their validation module is not part of this model.
- `setupMockHandlerForDelete` is an alias of the deletion factory and needs no member of its own.
- The number fields are integers. NaN and the falsiness of `NaN` in `|| 1` / `|| 10` are not modelled.
- The group delete by `deleteOption` is not modelled. It appears only in tests; the hook's `deleteEvent` deletes one id.
- `EventOperations.SaveEvent`: the flags cover the requests of the plan, one each. A flag sequence of any other length is outside the contract, even though the source would simply keep sending.
