/** The reminders page (Components/Features/Reminders.jsx): the countdown
    line of each reminder and the add-reminder form with its guard and reset. */
module RemindersPage {
  import opened Optional
  import opened Text
  import opened Numeric
  import opened Records

  /** One countdown line: the reminder's id and its text. */
  datatype CountdownLine = CountdownLine(id: string, text: string)

  /** The text for a reminder due at `due`, seen at `now`. */
  function CountdownText(due: Option<int>, now: int): string {
    if due.None? then ""
    else if due.value - now <= 0 then "Due now"
    else LeftText(HoursMinutes(due.value - now))
  }

  /** `${h}h ${m}m left`. */
  function LeftText(hm: (int, int)): string {
    IntToString(hm.0) + LeftSuffix(hm.1)
  }

  /** The text after the hours: `h ${m}m left`. */
  function LeftSuffix(m: int): string {
    "h " + (IntToString(m) + "m left")
  }

  /** `countdown`: one line per reminder, in list order. */
  function Countdown(reminders: seq<Reminder>, now: int): (r: seq<CountdownLine>)
    ensures |r| == |reminders|
    ensures forall i :: 0 <= i < |reminders| ==> r[i] == CountdownLine(reminders[i].id, CountdownText(reminders[i].date, now))
  {
    seq(|reminders|, i requires 0 <= i < |reminders| => CountdownLine(reminders[i].id, CountdownText(reminders[i].date, now)))
  }

  /** The three kinds of text: empty exactly for an undated reminder, "Due
      now" exactly for one whose moment has come, and otherwise hours and
      minutes left. */
  lemma CountdownTextKinds(due: Option<int>, now: int)
    ensures CountdownText(due, now) == "" <==> due.None?
    ensures CountdownText(due, now) == "Due now" <==> due.Some? && due.value <= now
  {
    if due.Some? && due.value > now {
      var hm := HoursMinutes(due.value - now);
      NotDueNow(hm.0, hm.1);
    }
  }

  /** `text` starts with the hours `h`, followed by "h " and the minutes `m`,
      and `parseInt` reads both numbers back. */
  predicate ReadsBack(text: string, h: int, m: int) {
    var hs := IntToString(h);
    && |hs| + 2 <= |text| && text[..|hs|] == hs
    && ParseInt(text) == Some(h) && ParseInt(text[|hs| + 2..]) == Some(m)
  }

  /** The text of a reminder not yet due reads back as the whole hours, then
      the whole minutes (below 60), left. */
  lemma CountdownTextReads(due: int, now: int)
    requires due > now
    ensures var hm := HoursMinutes(due - now); ReadsBack(CountdownText(Some(due), now), hm.0, hm.1)
  {
    var hm := HoursMinutes(due - now);
    CountdownLeft(due, now);
    HoursText(hm.0, hm.1);
  }

  lemma CountdownLeft(due: int, now: int)
    requires due > now
    ensures var hm := HoursMinutes(due - now);
      CountdownText(Some(due), now) == IntToString(hm.0) + LeftSuffix(hm.1)
  {
  }

  /** Both numbers of "{h}h {m}m left" read back. */
  lemma HoursText(h: int, m: int)
    ensures ReadsBack(IntToString(h) + LeftSuffix(m), h, m)
  {
    ParseIntWithSuffix(h, LeftSuffix(m));
    MinutesField(h, m);
    ParseIntWithSuffix(m, "m left");
  }

  lemma MinutesField(h: int, m: int)
    ensures var hs := IntToString(h); (hs + LeftSuffix(m))[|hs| + 2..] == IntToString(m) + "m left"
  {
    var hs := IntToString(h);
    assert (hs + LeftSuffix(m))[|hs| + 2..] == LeftSuffix(m)[2..];
  }

  lemma NotDueNow(h: int, m: int)
    ensures IntToString(h) + LeftSuffix(m) != "Due now"
  {
    var hs := IntToString(h);
    assert (hs + LeftSuffix(m))[|hs|] == 'h';
    assert forall i :: 0 <= i < |"Due now"| ==> "Due now"[i] != 'h';
  }

  /** A later moment never shows more hours left. */
  lemma CountdownCountsDown(due: int, now: int, later: int)
    requires now <= later < due
    ensures var a, b := ParseInt(CountdownText(Some(due), later)), ParseInt(CountdownText(Some(due), now));
      a.Some? && b.Some? && a.value <= b.value
  {
    CountdownTextReads(due, now);
    CountdownTextReads(due, later);
    HoursMono(due - later, due - now);
  }

  lemma HoursMono(a: int, b: int)
    requires 0 < a <= b
    ensures HoursMinutes(a).0 <= HoursMinutes(b).0
  {
    DivMono(a, b, MsPerHour);
  }

  /** What `createReminder` receives: the trimmed title and the local
      date-time string the moment is parsed from. */
  datatype ReminderRequest = ReminderRequest(title: string, localDateTime: string)

  /** The request for the form's inputs. */
  function RequestOf(title: string, date: string, time: string): (r: ReminderRequest)
    ensures r.title == Trim(title)
    ensures r.localDateTime == date + "T" + time + ":00"
  {
    ReminderRequest(Trim(title), date + "T" + time + ":00")
  }

  /** The guard of `addReminder`. */
  predicate CanAdd(title: string, date: string, time: string) {
    !IsBlank(title) && date != "" && time != ""
  }

  /** The reminders and error after `load` receives `response`. */
  function Loaded(response: Response<seq<Reminder>>, reminders: seq<Reminder>, error: string): (r: (seq<Reminder>, string))
    ensures response.Success? ==> r == (response.value, error)
    ensures response.Unsuccessful? ==> r == ([], error)
    ensures response.Thrown? ==> r == (reminders, ErrorText(response.message, "Failed to load reminders"))
  {
    match response
    case Success(list) => (list, error)
    case Unsuccessful => ([], error)
    case Thrown(message) => (reminders, ErrorText(message, "Failed to load reminders"))
  }

  class Page {
    var reminders: seq<Reminder>
    var title: string
    var date: string
    var time: string
    var saving: bool
    var error: string

    constructor ()
      ensures reminders == [] && title == "" && date == "" && time == "" && !saving && error == ""
    {
      reminders, title, date, time, saving, error := [], "", "", "", false, "";
    }

    method Load(response: Response<seq<Reminder>>)
      modifies this
      ensures (reminders, error) == Loaded(response, old(reminders), old(error))
      ensures title == old(title) && date == old(date) && time == old(time) && saving == old(saving)
    {
      var loaded := Loaded(response, reminders, error);
      reminders, error := loaded.0, loaded.1;
    }

    /** `addReminder`: a blank title or a missing date or time does nothing at
        all. Otherwise the request is sent; `failure` is the message of a
        rejected one, and after an accepted one the three inputs are cleared
        and the list reloads from `reload`. */
    method AddReminder(failure: Option<string>, reload: Response<seq<Reminder>>) returns (sent: Option<ReminderRequest>)
      modifies this
      ensures !CanAdd(old(title), old(date), old(time)) ==> sent.None?
      ensures !CanAdd(old(title), old(date), old(time)) ==>
        reminders == old(reminders) && title == old(title) && date == old(date) && time == old(time) && error == old(error)
      ensures CanAdd(old(title), old(date), old(time)) ==>
        sent == Some(RequestOf(old(title), old(date), old(time))) && !saving
      ensures CanAdd(old(title), old(date), old(time)) && failure.Some? ==>
        reminders == old(reminders) && title == old(title) && date == old(date) && time == old(time)
      ensures CanAdd(old(title), old(date), old(time)) && failure.Some? ==>
        error == ErrorText(failure.value, "Failed to add reminder")
      ensures CanAdd(old(title), old(date), old(time)) && failure.None? ==>
        title == "" && date == "" && time == "" && (reminders, error) == Loaded(reload, old(reminders), "")
      ensures saving == (old(saving) && !CanAdd(old(title), old(date), old(time)))
    {
      if !CanAdd(title, date, time) {
        return None;
      }
      sent := Some(RequestOf(title, date, time));
      if failure.Some? {
        SetState(reminders, title, date, time, ErrorText(failure.value, "Failed to add reminder"));
      } else {
        var loaded := Loaded(reload, reminders, "");
        SetState(loaded.0, "", "", "", loaded.1);
      }
    }

    /** The state setters `addReminder` calls once the request has settled;
        `saving` ends false. */
    method SetState(list: seq<Reminder>, newTitle: string, newDate: string, newTime: string, message: string)
      modifies this
      ensures reminders == list && title == newTitle && date == newDate && time == newTime && error == message && !saving
    {
      reminders, title, date, time, error, saving := list, newTitle, newDate, newTime, message, false;
    }
  }
}
