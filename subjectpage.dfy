/** The subject countdowns (Components/Pages/SubjectPage/SubjectPage.jsx): a
    list of subjects, each with a study time in seconds, and an object from
    subject id to a countdown that a one-second interval ticks down while it
    runs. The object is its sequence of entries, in enumeration order. */
module SubjectPage {
  import opened Optional
  import opened Text
  import opened Numeric
  import opened Sorting

  /** `time` is in seconds. */
  datatype Subject = Subject(id: int, name: string, time: int)

  datatype Timer = Timer(remaining: int, running: bool)

  /** The add/edit form; `time` holds minutes as typed. */
  datatype SubjectForm = SubjectForm(name: string, time: string)

  const InitialSubjects: seq<Subject> := [Subject(1, "Mathematics", 900), Subject(2, "Science", 600)]
  const EmptyForm: SubjectForm := SubjectForm("", "")

  // ------------------------------------------------------------------ tick

  /** One tick of one countdown: a running countdown with time left loses a second. */
  function TickTimer(t: Timer): (r: Timer)
    ensures r.running == t.running
    ensures t.running && t.remaining > 0 ==> r.remaining == t.remaining - 1
    ensures !(t.running && t.remaining > 0) ==> r == t
    ensures t.remaining >= 0 ==> r.remaining >= 0
  {
    if t.running && t.remaining > 0 then t.(remaining := t.remaining - 1) else t
  }

  /** The `timers` object: its (id, countdown) entries in enumeration order. */
  type Timers = seq<(int, Timer)>

  /** `timers[id]`: the first entry under `id`, or undefined. */
  function Lookup(timers: Timers, id: int): (r: Option<Timer>)
    ensures r.None? <==> forall i :: 0 <= i < |timers| ==> timers[i].0 != id
    ensures r.Some? ==> (id, r.value) in timers
  {
    if timers == [] then None
    else if timers[0].0 == id then Some(timers[0].1)
    else Lookup(timers[1..], id)
  }

  /** `{...timers, [id]: t}`: the entry under `id` replaced, or a new entry at
      the end. */
  function Put(timers: Timers, id: int, t: Timer): (r: Timers)
    ensures Lookup(r, id) == Some(t)
    ensures forall k :: k != id ==> Lookup(r, k) == Lookup(timers, k)
  {
    if timers == [] then [(id, t)]
    else if timers[0].0 == id then [(id, t)] + timers[1..]
    else [timers[0]] + Put(timers[1..], id, t)
  }

  /** `delete timers[id]` on a copy. */
  function Remove(timers: Timers, id: int): (r: Timers)
    ensures Lookup(r, id).None?
    ensures forall k :: k != id ==> Lookup(r, k) == Lookup(timers, k)
  {
    if timers == [] then []
    else if timers[0].0 == id then Remove(timers[1..], id)
    else [timers[0]] + Remove(timers[1..], id)
  }

  /** Every countdown ticked once, in place. */
  function TickAll(timers: Timers): (r: Timers)
    ensures |r| == |timers|
    ensures forall i :: 0 <= i < |timers| ==> r[i] == (timers[i].0, TickTimer(timers[i].1))
  {
    seq(|timers|, i requires 0 <= i < |timers| => (timers[i].0, TickTimer(timers[i].1)))
  }

  /** After a tick every id has the countdown it had, ticked once, and no id
      gains or loses a countdown. */
  lemma {:induction false} TickAllLookup(timers: Timers, id: int)
    ensures Lookup(TickAll(timers), id).Some? <==> Lookup(timers, id).Some?
    ensures Lookup(timers, id).Some? ==> Lookup(TickAll(timers), id) == Some(TickTimer(Lookup(timers, id).value))
  {
    if timers != [] {
      TickAllLookup(timers[1..], id);
      assert TickAll(timers)[1..] == TickAll(timers[1..]);
    }
  }

  /** `n` ticks of one countdown. */
  function TickTimes(t: Timer, n: nat): Timer {
    if n == 0 then t else TickTimer(TickTimes(t, n - 1))
  }

  /** A running countdown counts down one second per tick and stops at zero;
      a stopped one never changes. */
  lemma {:induction false} TickTimesRunning(t: Timer, n: nat)
    requires t.remaining >= 0
    ensures TickTimes(t, n).running == t.running
    ensures t.running ==> TickTimes(t, n).remaining == if n <= t.remaining then t.remaining - n else 0
    ensures !t.running ==> TickTimes(t, n) == t
  {
    if n > 0 {
      TickTimesRunning(t, n - 1);
    }
  }

  // ----------------------------------------------------------- formatTime

  /** `formatTime`: hours, minutes and seconds, each printed with at least two
      digits, the minutes and seconds taken with JavaScript's `%`. */
  function FormatHms(seconds: int): string {
    var h := seconds / 3600;
    var m := JsRem(seconds, 3600) / 60;
    var s := JsRem(seconds, 60);
    PadStart2(IntToString(h)) + ":" + PadStart2(IntToString(m)) + ":" + PadStart2(IntToString(s))
  }

  /** For a non-negative count the clock ends in ":MM:SS", both fields below
      60, and hours, minutes and seconds read back give the count. */
  lemma FormatHmsRoundTrip(seconds: int)
    requires seconds >= 0
    ensures var r := FormatHms(seconds);
      && |r| >= 8 && r[|r| - 6] == ':' && r[|r| - 3] == ':'
      && AllDigits(r[..|r| - 6]) && AllDigits(r[|r| - 5..|r| - 3]) && AllDigits(r[|r| - 2..])
      && DigitsValue(r[|r| - 5..|r| - 3]) < 60 && DigitsValue(r[|r| - 2..]) < 60
      && 3600 * DigitsValue(r[..|r| - 6]) + 60 * DigitsValue(r[|r| - 5..|r| - 3]) + DigitsValue(r[|r| - 2..]) == seconds
  {
    var h, m, s := seconds / 3600, (seconds % 3600) / 60, seconds % 60;
    ClockSplit(seconds);
    FormatHmsFields(seconds);
    ClockText(h, m, s);
  }

  /** The three fields of the clock of a non-negative count. */
  lemma FormatHmsFields(seconds: int)
    requires seconds >= 0
    ensures FormatHms(seconds) == PadStart2(NatToString(seconds / 3600)) + ":"
      + PadStart2(NatToString((seconds % 3600) / 60)) + ":" + PadStart2(NatToString(seconds % 60))
  {
    ClockSplit(seconds);
    var h, m, s := seconds / 3600, (seconds % 3600) / 60, seconds % 60;
    assert IntToString(h) == NatToString(h) && IntToString(m) == NatToString(m) && IntToString(s) == NatToString(s);
  }

  /** The clock text of given hours, minutes and seconds, field by field. */
  lemma ClockText(h: nat, m: nat, s: nat)
    requires m < 60 && s < 60
    ensures var r := PadStart2(NatToString(h)) + ":" + PadStart2(NatToString(m)) + ":" + PadStart2(NatToString(s));
      && |r| >= 8 && r[|r| - 6] == ':' && r[|r| - 3] == ':'
      && AllDigits(r[..|r| - 6]) && AllDigits(r[|r| - 5..|r| - 3]) && AllDigits(r[|r| - 2..])
      && DigitsValue(r[..|r| - 6]) == h && DigitsValue(r[|r| - 5..|r| - 3]) == m && DigitsValue(r[|r| - 2..]) == s
  {
    PaddedValue(h);
    PaddedValue(m);
    PaddedValue(s);
    FieldsAt(PadStart2(NatToString(h)), PadStart2(NatToString(m)), PadStart2(NatToString(s)));
  }

  /** Hours, minutes and seconds of a non-negative count. */
  lemma ClockSplit(x: int)
    requires x >= 0
    ensures 0 <= (x % 3600) / 60 < 60 && 0 <= x % 60 < 60 && x / 3600 >= 0
    ensures 3600 * (x / 3600) + 60 * ((x % 3600) / 60) + x % 60 == x
    ensures JsRem(x, 3600) / 60 == (x % 3600) / 60 && JsRem(x, 60) == x % 60
  {
    var q, r := x / 3600, x % 3600;
    assert x == 3600 * q + r;
    assert r == 60 * (r / 60) + r % 60;
    SixtyRemainder(x, 60 * q + r / 60, r % 60);
    JsRemNonNegative(x, 3600);
    JsRemNonNegative(x, 60);
  }

  /** The remainder by 60 of `60 * k + s` with `0 <= s < 60` is `s`. */
  lemma SixtyRemainder(x: int, k: int, s: int)
    requires 0 <= s < 60 && x == 60 * k + s
    ensures x % 60 == s
  {
    var k', s' := x / 60, x % 60;
    assert 60 * (k - k') == s' - s;
    if k != k' {
      assert false;
    }
  }

  /** Where the fields of "HH:MM:SS" sit. */
  lemma FieldsAt(hh: string, mm: string, ss: string)
    requires |mm| == 2 && |ss| == 2
    ensures var r := hh + ":" + mm + ":" + ss;
      && |r| == |hh| + 6 && r[|r| - 6] == ':' && r[|r| - 3] == ':'
      && r[..|r| - 6] == hh && r[|r| - 5..|r| - 3] == mm && r[|r| - 2..] == ss
  {
  }

  // ------------------------------------------------------------- handlers

  /** `subjects.find(s => s.id === id)`. */
  function FindSubject(subjects: seq<Subject>, id: int): (r: Option<Subject>)
    ensures r.Some? ==> r.value in subjects && r.value.id == id
    ensures r.None? <==> forall s :: s in subjects ==> s.id != id
  {
    if subjects == [] then None
    else if subjects[0].id == id then Some(subjects[0])
    else FindSubject(subjects[1..], id)
  }

  /** The countdown `toggleTimer` flips: the stored one, else a stopped one
      holding the subject's full time. */
  function CurrentTimer(timers: Timers, subjects: seq<Subject>, id: int): (r: Timer)
    requires Lookup(timers, id).Some? || FindSubject(subjects, id).Some?
    ensures Lookup(timers, id).Some? ==> r == Lookup(timers, id).value
    ensures Lookup(timers, id).None? ==> r == Timer(FindSubject(subjects, id).value.time, false)
  {
    if Lookup(timers, id).Some? then Lookup(timers, id).value else Timer(FindSubject(subjects, id).value.time, false)
  }

  /** `{...current, running: !current.running}`. */
  function Toggled(t: Timer): (r: Timer)
    ensures r.remaining == t.remaining && r.running == !t.running
  {
    t.(running := !t.running)
  }

  /** Toggling twice gives back the countdown. */
  lemma ToggledTwice(t: Timer)
    ensures Toggled(Toggled(t)) == t
  {
  }

  /** `prev.map(s => s.id === editId ? {...s, name, time} : s)`. */
  function Rename(subjects: seq<Subject>, id: int, name: string, time: int): (r: seq<Subject>)
    ensures |r| == |subjects|
    ensures forall i :: 0 <= i < |subjects| && subjects[i].id == id ==> r[i] == Subject(id, name, time)
    ensures forall i :: 0 <= i < |subjects| && subjects[i].id != id ==> r[i] == subjects[i]
  {
    seq(|subjects|, i requires 0 <= i < |subjects| =>
      if subjects[i].id == id then subjects[i].(name := name, time := time) else subjects[i])
  }

  /** The seconds the form asks for, or None when the guard rejects it. */
  function FormSeconds(form: SubjectForm): (r: Option<int>)
    ensures r.Some? <==> form.name != "" && ParseInt(form.time).Some?
    ensures r.Some? ==> r.value == ParseInt(form.time).value * 60
  {
    var minutes := ParseInt(form.time);
    if form.name == "" || minutes.None? then None else Some(minutes.value * 60)
  }

  lemma WholeMinutes(minutes: int)
    ensures (minutes * 60) % 60 == 0
  {
  }

  /** A subject opened for editing and saved unchanged keeps its time: the
      form shows whole minutes, which read back to the same seconds. */
  lemma EditUnchangedKeepsTime(s: Subject)
    requires s.time % 60 == 0 && s.name != ""
    ensures FormSeconds(SubjectForm(s.name, IntToString(s.time / 60))) == Some(s.time)
  {
    MinutesBack(s.time);
    FormSecondsOfMinutes(s.name, s.time / 60);
  }

  lemma MinutesBack(t: int)
    requires t % 60 == 0
    ensures (t / 60) * 60 == t
  {
  }

  /** A named form holding printed minutes reads as that many minutes. */
  lemma FormSecondsOfMinutes(name: string, minutes: int)
    requires name != ""
    ensures FormSeconds(SubjectForm(name, IntToString(minutes))) == Some(minutes * 60)
  {
    ParseIntOfIntToString(minutes);
  }

  class Page {
    var subjects: seq<Subject>
    var timers: Timers
    var showModal: bool
    var newSubject: SubjectForm
    /** `editId`, read only while `isEditing`: closing the form clears the
        flag and leaves the id behind. */
    var editing: Option<int>

    /** Every stored time is a whole number of minutes. */
    predicate Valid()
      reads this
    {
      forall s :: s in subjects ==> s.time % 60 == 0
    }

    constructor ()
      ensures Valid()
      ensures subjects == InitialSubjects && timers == [] && !showModal && newSubject == EmptyForm && editing.None?
    {
      subjects, timers, showModal, newSubject, editing := InitialSubjects, [], false, EmptyForm, None;
    }

    /** The interval's body: the `for…in` loop over the countdowns. */
    method Tick()
      modifies this
      ensures timers == TickAll(old(timers))
      ensures subjects == old(subjects) && showModal == old(showModal)
      ensures newSubject == old(newSubject) && editing == old(editing)
    {
      var updated := timers;
      for i := 0 to |updated|
        invariant |updated| == |timers|
        invariant forall j :: 0 <= j < i ==> updated[j] == (timers[j].0, TickTimer(timers[j].1))
        invariant forall j :: i <= j < |updated| ==> updated[j] == timers[j]
      {
        if updated[i].1.running && updated[i].1.remaining > 0 {
          updated := updated[i := (updated[i].0, updated[i].1.(remaining := updated[i].1.remaining - 1))];
        }
      }
      timers := updated;
    }

    /** `toggleTimer`: flips the running flag of the subject's countdown, first
        creating a stopped, full one when there is none. The source dereferences
        the subject in that case, so the id must name a countdown or a subject. */
    method ToggleTimer(subjectId: int)
      requires Lookup(timers, subjectId).Some? || FindSubject(subjects, subjectId).Some?
      modifies this
      ensures Lookup(timers, subjectId) == Some(Toggled(CurrentTimer(old(timers), old(subjects), subjectId)))
      ensures forall k :: k != subjectId ==> Lookup(timers, k) == Lookup(old(timers), k)
      ensures subjects == old(subjects) && showModal == old(showModal)
      ensures newSubject == old(newSubject) && editing == old(editing)
    {
      var current := CurrentTimer(timers, subjects, subjectId);
      timers := Put(timers, subjectId, Toggled(current));
    }

    /** The state setters a handler calls, as one batched update. */
    method SetState(list: seq<Subject>, countdowns: Timers, form: SubjectForm, modal: bool, edit: Option<int>)
      modifies this
      ensures subjects == list && timers == countdowns && newSubject == form && showModal == modal && editing == edit
    {
      subjects, timers, newSubject, showModal, editing := list, countdowns, form, modal, edit;
    }

    /** `handleAddSubject`: nothing happens without a name or with minutes that
        do not parse. Editing replaces the edited subject's name and time and
        restarts its countdown stopped and full; adding appends a subject under
        `freshId` (the source's `Date.now()`) with a stopped, full countdown. */
    method HandleAddSubject(freshId: int)
      requires Valid()
      modifies this
      ensures Valid()
      ensures FormSeconds(old(newSubject)).None? ==>
        subjects == old(subjects) && timers == old(timers) && newSubject == old(newSubject)
      ensures FormSeconds(old(newSubject)).None? ==> showModal == old(showModal) && editing == old(editing)
      ensures FormSeconds(old(newSubject)).Some? ==> newSubject == EmptyForm && !showModal && editing.None?
      ensures FormSeconds(old(newSubject)).Some? && old(editing).Some? ==>
        subjects == Rename(old(subjects), old(editing).value, old(newSubject).name, FormSeconds(old(newSubject)).value)
      ensures FormSeconds(old(newSubject)).Some? && old(editing).Some? ==>
        timers == Put(old(timers), old(editing).value, Timer(FormSeconds(old(newSubject)).value, false))
      ensures FormSeconds(old(newSubject)).Some? && old(editing).None? ==>
        subjects == old(subjects) + [Subject(freshId, old(newSubject).name, FormSeconds(old(newSubject)).value)]
      ensures FormSeconds(old(newSubject)).Some? && old(editing).None? ==>
        timers == Put(old(timers), freshId, Timer(FormSeconds(old(newSubject)).value, false))
    {
      var seconds := FormSeconds(newSubject);
      if seconds.None? {
        return;
      }
      var time := seconds.value;
      WholeMinutes(ParseInt(newSubject.time).value);
      var id := if editing.Some? then editing.value else freshId;
      var list := if editing.Some? then Rename(subjects, id, newSubject.name, time)
                  else subjects + [Subject(freshId, newSubject.name, time)];
      SetState(list, Put(timers, id, Timer(time, false)), EmptyForm, false, None);
    }

    /** `handleEdit`: opens the form on the subject, its time shown in minutes. */
    method HandleEdit(subject: Subject)
      requires Valid() && subject in subjects
      modifies this
      ensures Valid()
      ensures newSubject == SubjectForm(subject.name, IntToString(subject.time / 60))
      ensures editing == Some(subject.id) && showModal
      ensures subjects == old(subjects) && timers == old(timers)
    {
      newSubject, editing, showModal := SubjectForm(subject.name, IntToString(subject.time / 60)), Some(subject.id), true;
    }

    /** `handleDelete`: the subjects with the id and its countdown go; nothing
        else changes. */
    method HandleDelete(id: int)
      requires Valid()
      modifies this
      ensures Valid()
      ensures subjects == Filter(old(subjects), (s: Subject) => s.id != id)
      ensures forall s :: s in subjects <==> s in old(subjects) && s.id != id
      ensures timers == Remove(old(timers), id)
      ensures showModal == old(showModal) && newSubject == old(newSubject) && editing == old(editing)
    {
      subjects := Filter(subjects, (s: Subject) => s.id != id);
      timers := Remove(timers, id);
    }
  }
}
