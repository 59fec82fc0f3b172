/** `useEventForm`: the form state of the event editor, the repeat-end-date
    check, and the three mappings that fill the form: the initial state,
    `editEvent` and `resetForm`.

    `MAX_DATE` is the `maxDate` parameter. The time-of-day checks
    (`getTimeErrorMessage`) are not part of this model.
 */
module EventForm {
  import opened EventTypes
  import opened Dates

  const DefaultCategory: string := "업무"
  const EndBeforeStart: string := "종료일은 시작일 이후여야 합니다."

  /** `` `종료일은 ${MAX_DATE} 이하여야 합니다.` `` */
  function EndAfterMax(maxDate: string): string {
    "종료일은 " + maxDate + " 이하여야 합니다."
  }

  datatype FormState = FormState(
    title: string,
    date: string,
    startTime: string,
    endTime: string,
    description: string,
    location: string,
    category: string,
    isRepeating: bool,
    repeatType: RepeatType,
    repeatInterval: int,
    repeatEndDate: string,
    notificationTime: int,
    editingEvent: Option<Event>,
    repeatEndDateError: Option<string>)

  /** The repeat checkbox is ticked exactly when a repeat type is chosen. */
  predicate RepeatConsistent(f: FormState) {
    f.isRepeating <==> f.repeatType != NoRepeat
  }

  /** A date field's value: empty, or a well-formed ISO date. */
  predicate DateInput(s: string) {
    s == "" || IsIsoDate(s)
  }

  /** `validateRepeatEndDate(endDate, startDate)`. An empty field stops the
      check; otherwise an end before the start wins over an end after `maxDate`. */
  function ValidateRepeatEndDate(endDate: string, startDate: string, maxDate: string)
    : (r: Option<string>)
    requires DateInput(endDate) && DateInput(startDate) && IsIsoDate(maxDate)
    ensures endDate == "" || startDate == "" ==> r == None
    ensures r == Some(EndBeforeStart) <==>
      endDate != "" && startDate != ""
      && Before(ParseIso(endDate).value, ParseIso(startDate).value)
    ensures r == Some(EndAfterMax(maxDate)) <==>
      endDate != "" && startDate != ""
      && !Before(ParseIso(endDate).value, ParseIso(startDate).value)
      && Before(ParseIso(maxDate).value, ParseIso(endDate).value)
    ensures r.None? || r == Some(EndBeforeStart) || r == Some(EndAfterMax(maxDate))
  {
    if endDate == "" then None
    else if startDate == "" then None
    else
      var end, start, max := ParseIso(endDate).value, ParseIso(startDate).value, ParseIso(maxDate).value;
      if Before(end, start) then Some(EndBeforeStart)
      else if Before(max, end) then Some(EndAfterMax(maxDate))
      else None
  }

  /** The two messages differ: the character after `종료일은 ` is a digit in one
      and `시` in the other. */
  lemma MessagesDiffer(maxDate: string)
    requires IsIsoDate(maxDate)
    ensures EndBeforeStart != EndAfterMax(maxDate)
  {
    assert EndBeforeStart[5] == '시';
    assert EndAfterMax(maxDate)[5] == maxDate[0];
  }

  /** No error exactly when a field is empty or start <= end <= maxDate,
      the bounds included. */
  lemma NoErrorIffInRange(endDate: string, startDate: string, maxDate: string)
    requires DateInput(endDate) && DateInput(startDate) && IsIsoDate(maxDate)
    ensures ValidateRepeatEndDate(endDate, startDate, maxDate).None? <==>
      || endDate == ""
      || startDate == ""
      || (&& !Before(ParseIso(endDate).value, ParseIso(startDate).value)
          && !Before(ParseIso(maxDate).value, ParseIso(endDate).value))
  {
    MessagesDiffer(maxDate);
  }

  /** `handleRepeatEndDateChange`: store the new end date and its check result. */
  function ChangeRepeatEndDate(f: FormState, newEndDate: string, maxDate: string): (r: FormState)
    requires DateInput(newEndDate) && DateInput(f.date) && IsIsoDate(maxDate)
    ensures r.repeatEndDate == newEndDate
    ensures r.repeatEndDateError == ValidateRepeatEndDate(newEndDate, f.date, maxDate)
    ensures r.(repeatEndDate := f.repeatEndDate, repeatEndDateError := f.repeatEndDateError) == f
  {
    f.(repeatEndDate := newEndDate,
       repeatEndDateError := ValidateRepeatEndDate(newEndDate, f.date, maxDate))
  }

  /** `editEvent(event)`: load an event into the form and remember it as the one being edited. */
  function EditEvent(f: FormState, e: Event): (r: FormState)
    ensures RepeatConsistent(r)
    ensures r.editingEvent == Some(e)
    ensures r.repeatEndDate == (if e.repeat.endDate.Some? then e.repeat.endDate.value else "")
    ensures r.title == e.title && r.date == e.date && r.startTime == e.startTime
    ensures r.endTime == e.endTime && r.description == e.description
    ensures r.location == e.location && r.category == e.category
    ensures r.repeatType == e.repeat.kind && r.repeatInterval == e.repeat.interval
    ensures r.notificationTime == e.notificationTime
    ensures r.repeatEndDateError == f.repeatEndDateError
  {
    FormState(e.title, e.date, e.startTime, e.endTime, e.description, e.location, e.category,
              e.repeat.kind != NoRepeat, e.repeat.kind, e.repeat.interval,
              if e.repeat.endDate.Some? then e.repeat.endDate.value else "",
              e.notificationTime, Some(e), f.repeatEndDateError)
  }

  /** The event a blank form stands for: every default of the form. */
  const BlankEvent: Event :=
    Event(None, "", "", "", "", "", "", DefaultCategory, RepeatInfo(NoRepeat, 1, None), 10, None)

  /** `resetForm()`: every field back to its default. The event being edited
      and the end-date error are left as they are. */
  function ResetForm(f: FormState): (r: FormState)
    ensures RepeatConsistent(r)
    ensures r.editingEvent == f.editingEvent && r.repeatEndDateError == f.repeatEndDateError
  {
    f.(title := "", date := "", startTime := "", endTime := "", description := "",
       location := "", category := DefaultCategory, isRepeating := false,
       repeatType := NoRepeat, repeatInterval := 1, repeatEndDate := "",
       notificationTime := 10)
  }

  /** Resetting gives the form that editing the blank event gives, apart from
      the remembered event. So reset restores exactly the defaults. */
  lemma ResetIsEditOfBlank(f: FormState)
    ensures ResetForm(f) == EditEvent(f, BlankEvent).(editingEvent := f.editingEvent)
  {
  }

  /** Editing forgets the previous form: only the end-date error survives from it. */
  lemma EditForgetsPreviousForm(f: FormState, g: FormState, e: Event)
    requires f.repeatEndDateError == g.repeatEndDateError
    ensures EditEvent(f, e) == EditEvent(g, e)
  {
  }

  /** JavaScript `a || b` for a string, number or repeat type. */
  function OrString(a: string, b: string): string { if a != "" then a else b }
  function OrInt(a: int, b: int): int { if a != 0 then a else b }

  /** The `useState` initial values, as the source writes them. With no initial
      event, `initialEvent?.repeat.type !== 'none'` is `undefined !== 'none'`,
      which is true. */
  function InitialFormAsWritten(initial: Option<Event>): (r: FormState)
    ensures initial.None? ==> r.isRepeating && r.repeatType == NoRepeat
  {
    match initial
    case None =>
      FormState("", "", "", "", "", "", DefaultCategory, true, NoRepeat, 1, "", 10, None, None)
    case Some(e) => InitialForm(initial)
  }

  /** The initial values with the repeat checkbox off when there is no initial event. */
  function InitialForm(initial: Option<Event>): (r: FormState)
    ensures RepeatConsistent(r)
    ensures r.editingEvent.None? && r.repeatEndDateError.None?
  {
    match initial
    case None =>
      FormState("", "", "", "", "", "", DefaultCategory, false, NoRepeat, 1, "", 10, None, None)
    case Some(e) =>
      FormState(e.title, e.date, e.startTime, e.endTime, e.description, e.location,
                OrString(e.category, DefaultCategory), e.repeat.kind != NoRepeat, e.repeat.kind,
                OrInt(e.repeat.interval, 1),
                if e.repeat.endDate.Some? then e.repeat.endDate.value else "",
                OrInt(e.notificationTime, 10), None, None)
  }

  /** As written, the form opens with the repeat checkbox ticked and repeat type
      `'none'`, unlike the state `resetForm` produces. */
  lemma InitialRepeatFlagAsWritten(f: FormState)
    ensures !RepeatConsistent(InitialFormAsWritten(None))
    ensures InitialFormAsWritten(None) != ResetForm(f)
  {
  }

  /** Corrected, the empty initial form is the reset form of an untouched form,
      and an event whose fields are all truthy opens as `editEvent` would load it. */
  lemma InitialFormAgrees(f: FormState, e: Event)
    requires f.editingEvent.None? && f.repeatEndDateError.None?
    requires e.category != "" && e.repeat.interval != 0 && e.notificationTime != 0
    ensures InitialForm(None) == ResetForm(f)
    ensures InitialForm(Some(e)) == EditEvent(f, e).(editingEvent := None)
  {
  }
}
