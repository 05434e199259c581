/** The weekly timetable page (Components/Features/Timetable.jsx): the week
    the service returns, flattened and ordered by weekday then start time, and
    the add-class form with its guard, request body and reset. */
module Timetable {
  import opened Optional
  import opened Text
  import opened Sorting
  import opened Records

  /** The page's weekday order, Monday first. */
  const Days: seq<string> := ["Monday", "Tuesday", "Wednesday", "Thursday", "Friday", "Saturday", "Sunday"]

  /** `days.indexOf(d)`: -1 for a name that is not a weekday. */
  function WeekdayIndex(day: string): (r: int)
    ensures -1 <= r < 7
    ensures r == -1 <==> day !in Days
    ensures 0 <= r ==> Days[r] == day
  {
    if day == "Monday" then 0
    else if day == "Tuesday" then 1
    else if day == "Wednesday" then 2
    else if day == "Thursday" then 3
    else if day == "Friday" then 4
    else if day == "Saturday" then 5
    else if day == "Sunday" then 6
    else -1
  }

  /** The comparator `dayIndex(a) - dayIndex(b) || a.startTime.localeCompare(b.startTime)`:
      the weekday decides, and the start time breaks a tie. */
  predicate EntryLe(a: TimetableEntry, b: TimetableEntry) {
    var i, j := WeekdayIndex(a.dayOfWeek), WeekdayIndex(b.dayOfWeek);
    i < j || (i == j && StrLe(a.startTime, b.startTime))
  }

  lemma EntryLePreorder()
    ensures TotalPreorder(EntryLe)
  {
    forall a, b ensures EntryLe(a, b) || EntryLe(b, a) {
      StrLeTotal(a.startTime, b.startTime);
    }
    forall a, b, c | EntryLe(a, b) && EntryLe(b, c) ensures EntryLe(a, c) {
      if WeekdayIndex(a.dayOfWeek) == WeekdayIndex(b.dayOfWeek) == WeekdayIndex(c.dayOfWeek) {
        StrLeTransitive(a.startTime, b.startTime, c.startTime);
      }
    }
  }

  /** The entries `loadEntries` shows for a week. */
  function WeekEntries(week: Week): (r: seq<TimetableEntry>)
    ensures |r| == WeekSize(week)
    ensures multiset(r) == multiset(FlattenWeek(week))
  {
    Sort(FlattenWeek(week), EntryLe)
  }

  /** Entries with the same weekday and start time keep their flattened
      order: day keys in order, then each day's list in order. */
  lemma WeekEntriesStable(week: Week, k: TimetableEntry)
    ensures Filter(WeekEntries(week), TiedWith(EntryLe, k)) == Filter(FlattenWeek(week), TiedWith(EntryLe, k))
  {
    EntryLePreorder();
    SortStable(FlattenWeek(week), EntryLe, k);
  }

  /** The shown entries are every flattened entry, ordered by weekday (entries
      with an unknown day first), and by start time within a day. */
  lemma WeekEntriesOrdered(week: Week)
    ensures SortedBy(WeekEntries(week), EntryLe)
    ensures forall i, j :: 0 <= i < j < |WeekEntries(week)| ==>
      WeekdayIndex(WeekEntries(week)[i].dayOfWeek) <= WeekdayIndex(WeekEntries(week)[j].dayOfWeek)
    ensures forall e :: e in WeekEntries(week) <==> e in FlattenWeek(week)
  {
    EntryLePreorder();
    SortSorted(FlattenWeek(week), EntryLe);
    var r := WeekEntries(week);
    forall e ensures e in r <==> e in FlattenWeek(week) {
      assert e in r <==> e in multiset(r);
    }
  }

  /** Every class the service files under a weekday is shown, stamped with that
      day when it carries none. */
  lemma WeekEntriesShowAll(week: Week, d: nat, i: nat)
    requires d < |week| && i < |week[d].1|
    ensures week[d].1[i].(dayOfWeek := DefaultDay(week[d].1[i], week[d].0)) in WeekEntries(week)
  {
    FlattenWeekAt(week, d, i);
    WeekEntriesOrdered(week);
  }

  // ------------------------------------------------------------------ form

  /** The add-class form; `kind` is its `type` field. */
  datatype EntryForm = EntryForm(dayOfWeek: string, startTime: string, endTime: string, subject: string, kind: string, room: string)

  /** The fields `handleInputChange` is called with. */
  datatype FormField = DayOfWeekField | StartTimeField | EndTimeField | SubjectField | KindField | RoomField

  const EmptyForm: EntryForm := EntryForm("", "", "", "", "Lecture", "")

  /** `{...prev, [field]: value}`. */
  function SetField(form: EntryForm, field: FormField, value: string): (r: EntryForm)
    ensures field == DayOfWeekField ==> r == form.(dayOfWeek := value)
    ensures field == StartTimeField ==> r == form.(startTime := value)
    ensures field == EndTimeField ==> r == form.(endTime := value)
    ensures field == SubjectField ==> r == form.(subject := value)
    ensures field == KindField ==> r == form.(kind := value)
    ensures field == RoomField ==> r == form.(room := value)
  {
    match field
    case DayOfWeekField => form.(dayOfWeek := value)
    case StartTimeField => form.(startTime := value)
    case EndTimeField => form.(endTime := value)
    case SubjectField => form.(subject := value)
    case KindField => form.(kind := value)
    case RoomField => form.(room := value)
  }

  /** The guard of `handleSave`: day, both times and a subject that is not blank. */
  predicate CanSave(form: EntryForm) {
    form.dayOfWeek != "" && form.startTime != "" && form.endTime != "" && Trim(form.subject) != ""
  }

  /** The request body; a blank room is left out. */
  datatype EntryPayload = EntryPayload(dayOfWeek: string, startTime: string, endTime: string, subject: string, kind: string, room: Option<string>)

  function PayloadOf(form: EntryForm): (r: EntryPayload)
    ensures r.dayOfWeek == form.dayOfWeek && r.startTime == form.startTime && r.endTime == form.endTime
    ensures r.kind == form.kind && r.subject == Trim(form.subject)
    ensures r.room.None? <==> IsBlank(form.room)
    ensures r.room.Some? ==> r.room.value == Trim(form.room)
  {
    var room := Trim(form.room);
    EntryPayload(form.dayOfWeek, form.startTime, form.endTime, Trim(form.subject), form.kind,
                 if room == "" then None else Some(room))
  }

  /** The form a payload would be typed back in as. */
  function FormOf(p: EntryPayload): EntryForm {
    EntryForm(p.dayOfWeek, p.startTime, p.endTime, p.subject, p.kind, if p.room.Some? then p.room.value else "")
  }

  /** A form that passes the guard sends a subject with no surrounding white
      space, and typing a sent body back in sends the same body again. */
  lemma PayloadRoundTrip(form: EntryForm)
    requires CanSave(form)
    ensures PayloadOf(form).subject != "" && CanSave(FormOf(PayloadOf(form)))
    ensures PayloadOf(FormOf(PayloadOf(form))) == PayloadOf(form)
  {
    TrimIdempotent(form.subject);
    TrimIdempotent(form.room);
  }

  /** The entries and error after `loadEntries` receives `response`. */
  function Loaded(response: Response<Week>, entries: seq<TimetableEntry>, error: string): (r: (seq<TimetableEntry>, string))
    ensures response.Success? ==> r == (WeekEntries(response.value), error)
    ensures response.Unsuccessful? ==> r == ([], error)
    ensures response.Thrown? ==> r == (entries, ErrorText(response.message, "Failed to load timetable"))
  {
    match response
    case Success(week) => (WeekEntries(week), error)
    case Unsuccessful => ([], error)
    case Thrown(message) => (entries, ErrorText(message, "Failed to load timetable"))
  }

  /** The page's state. */
  class Page {
    var entries: seq<TimetableEntry>
    var saving: bool
    var error: string
    var form: EntryForm

    constructor ()
      ensures entries == [] && !saving && error == "" && form == EmptyForm
    {
      entries, saving, error, form := [], false, "", EmptyForm;
    }

    /** `loadEntries`: a body without a week shows an empty timetable; a
        rejected call keeps the entries and sets the error. */
    method LoadEntries(response: Response<Week>)
      modifies this
      ensures saving == old(saving) && form == old(form)
      ensures (entries, error) == Loaded(response, old(entries), old(error))
    {
      entries, error := Loaded(response, entries, error).0, Loaded(response, entries, error).1;
    }

    method HandleInputChange(field: FormField, value: string)
      modifies this
      ensures form == SetField(old(form), field, value)
      ensures entries == old(entries) && saving == old(saving) && error == old(error)
    {
      form := SetField(form, field, value);
    }

    /** `handleSave`: a form failing the guard sends nothing and only sets the
        error. Otherwise the body is sent; `failure` is the message of a
        rejected request, and after an accepted one the form is reset and the
        entries reload from `reload`. */
    method HandleSave(failure: Option<string>, reload: Response<Week>) returns (sent: Option<EntryPayload>)
      modifies this
      ensures !CanSave(old(form)) ==> sent.None? && error == "Please fill in all required fields"
      ensures !CanSave(old(form)) ==> entries == old(entries) && form == old(form) && saving == old(saving)
      ensures CanSave(old(form)) ==> sent == Some(PayloadOf(old(form))) && !saving
      ensures CanSave(old(form)) && failure.Some? ==> entries == old(entries) && form == old(form)
      ensures CanSave(old(form)) && failure.Some? ==> error == ErrorText(failure.value, "Failed to save timetable")
      ensures CanSave(old(form)) && failure.None? ==> form == EmptyForm
      ensures CanSave(old(form)) && failure.None? ==> (entries, error) == Loaded(reload, old(entries), "")
    {
      if !CanSave(form) {
        error := "Please fill in all required fields";
        return None;
      }
      sent := Some(PayloadOf(form));
      if failure.Some? {
        SetState(entries, ErrorText(failure.value, "Failed to save timetable"), form);
      } else {
        var loaded := Loaded(reload, entries, "");
        SetState(loaded.0, loaded.1, EmptyForm);
      }
    }

    /** The state setters `handleSave` calls once the request has settled;
        `saving` ends false. */
    method SetState(list: seq<TimetableEntry>, message: string, newForm: EntryForm)
      modifies this
      ensures entries == list && error == message && form == newForm && !saving
    {
      entries, error, form, saving := list, message, newForm, false;
    }
  }
}
