/** The study stopwatch (Components/Pages/StudySessionTracker/StudySessionTracker.jsx):
    starting and stopping a session with the service, the one-second tick while
    running, the "MM:SS" display and the duration label of the session history. */
module StudySessionTracker {
  import opened Optional
  import opened Text
  import opened Numeric
  import opened Records

  /** `formatTime`: the whole minutes with at least two digits, ":", then the
      seconds within the minute with two digits. */
  function FormatMmSs(t: nat): string {
    PadStart2(NatToString(t / 60)) + ":" + PadStart2(NatToString(t % 60))
  }

  /** The display ends in ":SS" with the seconds below 60, and minutes and
      seconds read back give the count. */
  lemma FormatMmSsRoundTrip(t: nat)
    ensures var r := FormatMmSs(t);
      && |r| >= 5 && r[|r| - 3] == ':'
      && AllDigits(r[..|r| - 3]) && AllDigits(r[|r| - 2..])
      && DigitsValue(r[|r| - 2..]) < 60
      && 60 * DigitsValue(r[..|r| - 3]) + DigitsValue(r[|r| - 2..]) == t
  {
    var m, sec := t / 60, t % 60;
    assert 60 * m + sec == t && sec < 60;
    PaddedValue(m);
    PaddedValue(sec);
    var mm, ss := PadStart2(NatToString(m)), PadStart2(NatToString(sec));
    assert FormatMmSs(t) == mm + ":" + ss;
    MmSsAt(mm, ss);
  }

  /** Where the fields of "MM:SS" sit. */
  lemma MmSsAt(mm: string, ss: string)
    requires |mm| >= 2 && |ss| == 2
    ensures var r := mm + ":" + ss;
      && |r| == |mm| + 3 && r[|r| - 3] == ':' && r[..|r| - 3] == mm && r[|r| - 2..] == ss
  {
  }

  /** The history's duration cell: the stored minutes when the session has a
      duration (0 included), else the rounded minutes between its start and
      end, else "-". */
  function DurationLabel(s: StudySession): string {
    if s.duration.Some? then IntToString(s.duration.value) + " min"
    else if s.start.Some? && s.end.Some? then IntToString(RoundDiv(s.end.value - s.start.value, MsPerMinute)) + " min"
    else "-"
  }

  /** The number a label starts with reads back as the stored duration, or as
      the elapsed milliseconds rounded to whole minutes; a label for a
      session without both times holds no number. */
  lemma DurationLabelReads(s: StudySession)
    ensures s.duration.Some? ==> ParseInt(DurationLabel(s)) == s.duration
    ensures s.duration.None? && s.start.Some? && s.end.Some? ==>
      ParseInt(DurationLabel(s)) == Some(RoundDiv(s.end.value - s.start.value, MsPerMinute))
    ensures s.duration.None? && !(s.start.Some? && s.end.Some?) ==> DurationLabel(s) == "-" && ParseInt(DurationLabel(s)).None?
  {
    if s.duration.Some? {
      assert DurationLabel(s) == IntToString(s.duration.value) + " min";
      ParseIntWithSuffix(s.duration.value, " min");
    } else if s.start.Some? && s.end.Some? {
      var m := RoundDiv(s.end.value - s.start.value, MsPerMinute);
      assert DurationLabel(s) == IntToString(m) + " min";
      ParseIntWithSuffix(m, " min");
    } else {
      DashHoldsNoNumber();
    }
  }

  lemma DashHoldsNoNumber()
    ensures ParseInt("-").None?
  {
    assert TrimStart("-") == "-";
    assert SignStripped("-") == [];
  }

  /** The request `endStudySession` receives: the session id and the notes,
      left out when blank. */
  datatype EndRequest = EndRequest(sessionId: string, notes: Option<string>)

  function NotesOf(workDone: string): (r: Option<string>)
    ensures r.None? <==> IsBlank(workDone)
    ensures r.Some? ==> r.value == Trim(workDone)
  {
    if Trim(workDone) == "" then None else Some(Trim(workDone))
  }

  /** The sessions `loadSessions` shows: the listed ones, none for a body
      without a list, the previous ones when the call is rejected. */
  function LoadedSessions(response: Response<seq<StudySession>>, previous: seq<StudySession>): (r: seq<StudySession>)
    ensures response.Success? ==> r == response.value
    ensures response.Unsuccessful? ==> r == []
    ensures response.Thrown? ==> r == previous
  {
    match response
    case Success(list) => list
    case Unsuccessful => []
    case Thrown(_) => previous
  }

  class Stopwatch {
    var time: nat
    var isRunning: bool
    var sessions: seq<StudySession>
    var activeSessionId: Option<string>
    var subject: string
    var loading: bool
    var workDone: string

    constructor ()
      ensures time == 0 && !isRunning && sessions == [] && activeSessionId.None?
      ensures subject == "" && !loading && workDone == ""
    {
      time, isRunning, sessions, activeSessionId := 0, false, [], None;
      subject, loading, workDone := "", false, "";
    }

    /** `loadSessions`, on mount and after a session ends. */
    method LoadSessions(response: Response<seq<StudySession>>)
      modifies this
      ensures sessions == LoadedSessions(response, old(sessions))
      ensures time == old(time) && isRunning == old(isRunning) && activeSessionId == old(activeSessionId)
      ensures subject == old(subject) && loading == old(loading) && workDone == old(workDone)
    {
      sessions := LoadedSessions(response, sessions);
    }

    /** One second of the interval, which exists only while running. */
    method Tick()
      modifies this
      ensures isRunning ==> time == old(time) + 1
      ensures !isRunning ==> time == old(time)
      ensures isRunning == old(isRunning) && sessions == old(sessions) && activeSessionId == old(activeSessionId)
      ensures subject == old(subject) && loading == old(loading) && workDone == old(workDone)
    {
      if isRunning {
        time := time + 1;
      }
    }

    /** `startTimer`: nothing happens while running or for a blank subject.
        Otherwise the trimmed subject is sent; `started` is the id the service
        returned ("" when the body has none), or None when the call was
        rejected, which leaves the stopwatch stopped. */
    method StartTimer(started: Option<string>) returns (sent: Option<string>)
      modifies this
      ensures old(isRunning) || IsBlank(old(subject)) ==> sent.None?
      ensures old(isRunning) || IsBlank(old(subject)) ==>
        isRunning == old(isRunning) && activeSessionId == old(activeSessionId) && loading == old(loading)
      ensures !old(isRunning) && !IsBlank(old(subject)) ==> sent == Some(Trim(old(subject))) && !loading
      ensures !old(isRunning) && !IsBlank(old(subject)) && started.Some? ==>
        isRunning && activeSessionId == (if started.value == "" then None else Some(started.value))
      ensures !old(isRunning) && !IsBlank(old(subject)) && started.None? ==>
        !isRunning && activeSessionId == old(activeSessionId)
      ensures time == old(time) && sessions == old(sessions) && subject == old(subject) && workDone == old(workDone)
    {
      if isRunning || Trim(subject) == "" {
        return None;
      }
      sent := Some(Trim(subject));
      if started.Some? {
        activeSessionId, isRunning := if started.value == "" then None else Some(started.value), true;
      }
      loading := false;
    }

    /** `stopTimer`: nothing happens while stopped. Otherwise the stopwatch
        stops and, with an active session, its end is sent; `endFailed` says
        the service rejected it, else the active id is cleared and the sessions
        reload from `reload`. Time, notes and subject are reset either way. */
    method StopTimer(endFailed: bool, reload: Response<seq<StudySession>>) returns (sent: Option<EndRequest>)
      modifies this
      ensures !old(isRunning) ==> sent.None? && !isRunning
      ensures !old(isRunning) ==> time == old(time) && subject == old(subject) && workDone == old(workDone)
      ensures !old(isRunning) ==> activeSessionId == old(activeSessionId) && sessions == old(sessions)
      ensures old(isRunning) ==> !isRunning && time == 0 && subject == "" && workDone == ""
      ensures old(isRunning) && old(activeSessionId).None? ==> sent.None?
      ensures old(isRunning) && old(activeSessionId).None? ==> activeSessionId.None? && sessions == old(sessions)
      ensures old(isRunning) && old(activeSessionId).Some? ==>
        sent == Some(EndRequest(old(activeSessionId).value, NotesOf(old(workDone))))
      ensures old(isRunning) && old(activeSessionId).Some? && endFailed ==>
        activeSessionId == old(activeSessionId) && sessions == old(sessions)
      ensures old(isRunning) && old(activeSessionId).Some? && !endFailed ==>
        activeSessionId.None? && sessions == LoadedSessions(reload, old(sessions))
      ensures loading == old(loading)
    {
      if !isRunning {
        return None;
      }
      sent := None;
      if activeSessionId.Some? {
        sent := Some(EndRequest(activeSessionId.value, NotesOf(workDone)));
        if !endFailed {
          SetStopped(None, LoadedSessions(reload, sessions));
          return;
        }
      }
      SetStopped(activeSessionId, sessions);
    }

    /** The state setters `stopTimer` calls: the stopwatch stops and resets
        its time, notes and subject. */
    method SetStopped(active: Option<string>, list: seq<StudySession>)
      modifies this
      ensures activeSessionId == active && sessions == list && loading == old(loading)
      ensures !isRunning && time == 0 && subject == "" && workDone == ""
    {
      activeSessionId, sessions, isRunning, time, workDone, subject := active, list, false, 0, "", "";
    }
  }
}
