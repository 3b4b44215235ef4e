/** `RollingWindowRateLimiter`: at most `maxEvents` events in any window, with pruned state. */
module RollingWindow {

  /** Times are ticks of one clock. `persistent` tells whether a path was given. */
  datatype Config = Config(maxEvents: int, window: int, persistent: bool) {
    predicate Valid() { maxEvents >= 1 && window >= 0 }
  }

  datatype Op = Ping | PingIfReady | IsReady
  datatype Call = Call(op: Op, now: int)

  /** The events after the cutoff, in order: the list comprehension of `_prune_timestamps`. */
  function Newer(events: seq<int>, cutoff: int): seq<int> {
    if events == [] then []
    else
      var last := events[|events| - 1];
      Newer(events[..|events| - 1], cutoff) + (if last > cutoff then [last] else [])
  }

  /** One locked call: the list that the next call will see, and the answer
      (`ping` answers nothing; `true` stands for it). A refusal prunes a list held in memory,
      and leaves a file as it was. */
  function Step(c: Config, stored: seq<int>, call: Call): (r: (seq<int>, bool)) {
    var pruned := Newer(stored, call.now - c.window);
    var ready := |pruned| < c.maxEvents;
    match call.op
    case Ping => (pruned + [call.now], true)
    case PingIfReady =>
      if ready then (pruned + [call.now], true)
      else (if c.persistent then stored else pruned, false)
    case IsReady => (if c.persistent then stored else pruned, ready)
  }

  // ---------- The limiter that forgets nothing ----------

  /** How many events of the log lie in the window (from, to]. */
  function InWindow(log: seq<int>, from: int, to: int): nat {
    if log == [] then 0
    else
      var last := log[|log| - 1];
      InWindow(log[..|log| - 1], from, to) + (if from < last <= to then 1 else 0)
  }

  /** The positions of these events. */
  ghost function EventsIn(log: seq<int>, from: int, to: int): set<int> {
    set i | 0 <= i < |log| && from < log[i] <= to
  }

  lemma {:induction false} InWindowSpec(log: seq<int>, from: int, to: int)
    ensures InWindow(log, from, to) == |EventsIn(log, from, to)|
  {
    if log != [] {
      var n := |log| - 1;
      InWindowSpec(log[..n], from, to);
      assert EventsIn(log, from, to) == EventsIn(log[..n], from, to) + (if from < log[n] <= to then {n} else {});
    }
  }

  function NaiveStep(c: Config, log: seq<int>, call: Call): (seq<int>, bool) {
    var ready := InWindow(log, call.now - c.window, call.now) < c.maxEvents;
    match call.op
    case Ping => (log + [call.now], true)
    case PingIfReady => if ready then (log + [call.now], true) else (log, false)
    case IsReady => (log, ready)
  }

  function Answers(c: Config, stored: seq<int>, calls: seq<Call>): seq<bool>
    decreases |calls|
  {
    if calls == [] then []
    else
      var (next, answer) := Step(c, stored, calls[0]);
      [answer] + Answers(c, next, calls[1..])
  }

  function NaiveAnswers(c: Config, log: seq<int>, calls: seq<Call>): seq<bool>
    decreases |calls|
  {
    if calls == [] then []
    else
      var (next, answer) := NaiveStep(c, log, calls[0]);
      [answer] + NaiveAnswers(c, next, calls[1..])
  }

  /** The stored list after the calls, and the log of every event that was recorded. */
  function StoredAfter(c: Config, stored: seq<int>, calls: seq<Call>): seq<int>
    decreases |calls|
  {
    if calls == [] then stored else StoredAfter(c, Step(c, stored, calls[0]).0, calls[1..])
  }

  function LogAfter(c: Config, log: seq<int>, calls: seq<Call>): seq<int>
    decreases |calls|
  {
    if calls == [] then log else LogAfter(c, NaiveStep(c, log, calls[0]).0, calls[1..])
  }

  /** The calls, in lock order, see a clock that never goes back; `since` is its last reading. */
  ghost predicate Nondecreasing(since: int, calls: seq<Call>) {
    forall i | 0 <= i < |calls| ::
      since <= calls[i].now && forall j | i <= j < |calls| :: calls[i].now <= calls[j].now
  }

  ghost predicate UpTo(log: seq<int>, t: int) {
    forall i | 0 <= i < |log| :: log[i] <= t
  }

  // ---------- Filtering ----------

  lemma NewerOfAppend(events: seq<int>, e: int, cutoff: int)
    ensures Newer(events + [e], cutoff) == Newer(events, cutoff) + (if e > cutoff then [e] else [])
  {
    assert (events + [e])[..|events|] == events;
  }

  lemma {:induction false} NewerOfNewer(events: seq<int>, first: int, second: int)
    requires first <= second
    ensures Newer(Newer(events, first), second) == Newer(events, second)
  {
    if events != [] {
      var init, last := events[..|events| - 1], events[|events| - 1];
      NewerOfNewer(init, first, second);
      if last > first { NewerOfAppend(Newer(init, first), last, second); }
      else { assert Newer(init, first) + [] == Newer(init, first); }
    }
  }

  lemma {:induction false} WindowIsNewer(log: seq<int>, from: int, to: int)
    requires UpTo(log, to)
    ensures InWindow(log, from, to) == |Newer(log, from)|
  {
    if log != [] { WindowIsNewer(log[..|log| - 1], from, to); }
  }

  // ---------- The pruned limiter refines the naive one ----------

  /** From the cutoff `since` on, the stored list and the full log cannot be told apart. */
  ghost predicate Agree(stored: seq<int>, log: seq<int>, since: int) {
    forall cutoff :: since <= cutoff ==> Newer(stored, cutoff) == Newer(log, cutoff)
  }

  lemma PrunedAgrees(stored: seq<int>, log: seq<int>, since: int, from: int)
    requires since <= from && Agree(stored, log, since)
    ensures Agree(Newer(stored, from), log, from)
  {
    forall cutoff | from <= cutoff ensures Newer(Newer(stored, from), cutoff) == Newer(log, cutoff) {
      NewerOfNewer(stored, from, cutoff);
    }
  }

  lemma AppendAgrees(stored: seq<int>, log: seq<int>, since: int, e: int)
    requires Agree(stored, log, since)
    ensures Agree(stored + [e], log + [e], since)
  {
    forall cutoff | since <= cutoff ensures Newer(stored + [e], cutoff) == Newer(log + [e], cutoff) {
      NewerOfAppend(stored, e, cutoff);
      NewerOfAppend(log, e, cutoff);
    }
  }

  lemma SameRoom(stored: seq<int>, log: seq<int>, from: int, to: int)
    requires Newer(stored, from) == Newer(log, from) && UpTo(log, to)
    ensures InWindow(log, from, to) == |Newer(stored, from)|
  {
    WindowIsNewer(log, from, to);
  }

  lemma SameAnswer(c: Config, stored: seq<int>, log: seq<int>, call: Call)
    requires InWindow(log, call.now - c.window, call.now) == |Newer(stored, call.now - c.window)|
    ensures Step(c, stored, call).1 == NaiveStep(c, log, call).1
  {
  }

  lemma LogStaysUpTo(c: Config, log: seq<int>, call: Call)
    requires UpTo(log, call.now)
    ensures UpTo(NaiveStep(c, log, call).0, call.now)
  {
    assert UpTo(log + [call.now], call.now);
  }

  /** A call that records its event, and one that does not. */
  lemma BothRecord(c: Config, stored: seq<int>, log: seq<int>, call: Call)
    requires call.op != IsReady && Step(c, stored, call).1 && NaiveStep(c, log, call).1
    ensures Step(c, stored, call).0 == Newer(stored, call.now - c.window) + [call.now]
    ensures NaiveStep(c, log, call).0 == log + [call.now]
  {
  }

  lemma RecordedAgrees(stored: seq<int>, log: seq<int>, since: int, from: int, e: int)
    requires since <= from && Agree(stored, log, since)
    ensures Agree(Newer(stored, from) + [e], log + [e], from)
  {
    PrunedAgrees(stored, log, since, from);
    AppendAgrees(Newer(stored, from), log, from, e);
  }

  lemma RecordingAgrees(c: Config, stored: seq<int>, log: seq<int>, call: Call, since: int)
    requires since <= call.now - c.window && Agree(stored, log, since)
    requires call.op != IsReady && Step(c, stored, call).1 && NaiveStep(c, log, call).1
    ensures Agree(Step(c, stored, call).0, NaiveStep(c, log, call).0, call.now - c.window)
  {
    BothRecord(c, stored, log, call);
    RecordedAgrees(stored, log, since, call.now - c.window, call.now);
  }

  lemma LookingAgrees(c: Config, stored: seq<int>, log: seq<int>, call: Call, since: int)
    requires since <= call.now - c.window && Agree(stored, log, since)
    requires call.op == IsReady || (call.op == PingIfReady && !Step(c, stored, call).1 && !NaiveStep(c, log, call).1)
    ensures Agree(Step(c, stored, call).0, NaiveStep(c, log, call).0, call.now - c.window)
  {
    PrunedAgrees(stored, log, since, call.now - c.window);
  }

  lemma StepAgrees(c: Config, stored: seq<int>, log: seq<int>, call: Call, now: int)
    requires now <= call.now && Agree(stored, log, now - c.window) && UpTo(log, now)
    ensures Step(c, stored, call).1 == NaiveStep(c, log, call).1
    ensures Agree(Step(c, stored, call).0, NaiveStep(c, log, call).0, call.now - c.window)
    ensures UpTo(NaiveStep(c, log, call).0, call.now)
  {
    assert UpTo(log, call.now);
    SameRoom(stored, log, call.now - c.window, call.now);
    SameAnswer(c, stored, log, call);
    LogStaysUpTo(c, log, call);
    if call.op != IsReady && Step(c, stored, call).1 {
      RecordingAgrees(c, stored, log, call, now - c.window);
    } else {
      LookingAgrees(c, stored, log, call, now - c.window);
    }
  }

  lemma {:induction false} RefinesFrom(c: Config, stored: seq<int>, log: seq<int>, calls: seq<Call>, now: int)
    requires Agree(stored, log, now - c.window) && Nondecreasing(now, calls)
    requires UpTo(log, now)
    ensures Answers(c, stored, calls) == NaiveAnswers(c, log, calls)
    decreases |calls|
  {
    if calls != [] {
      var rest := calls[1..];
      assert forall i | 0 <= i < |rest| :: rest[i] == calls[i + 1];
      StepAgrees(c, stored, log, calls[0], now);
      RefinesFrom(c, Step(c, stored, calls[0]).0, NaiveStep(c, log, calls[0]).0, rest, calls[0].now);
    }
  }

  /** On every sequence of calls the pruned limiter answers what the naive one answers. */
  lemma PruningIsInvisible(c: Config, calls: seq<Call>, start: int)
    requires Nondecreasing(start, calls)
    ensures Answers(c, [], calls) == NaiveAnswers(c, [], calls)
  {
    RefinesFrom(c, [], [], calls, start);
  }

  // ---------- The sliding-window promise ----------

  /** Every event of the log was accepted with room left in the window that ends with it. */
  ghost predicate Admitted(c: Config, log: seq<int>) {
    log == [] ||
    var init, last := log[..|log| - 1], log[|log| - 1];
    Admitted(c, init) && InWindow(init, last - c.window, last) < c.maxEvents && UpTo(init, last)
  }

  lemma {:induction false} WindowWithin(log: seq<int>, from: int, to: int, from': int, to': int)
    requires from' <= from && to <= to'
    ensures InWindow(log, from, to) <= InWindow(log, from', to')
  {
    if log != [] { WindowWithin(log[..|log| - 1], from, to, from', to'); }
  }

  lemma {:induction false} WindowCapped(log: seq<int>, from: int, to: int, last: int)
    requires last <= to && UpTo(log, last)
    ensures InWindow(log, from, to) == InWindow(log, from, last)
  {
    if log != [] { WindowCapped(log[..|log| - 1], from, to, last); }
  }

  lemma {:induction false} AdmittedBound(c: Config, log: seq<int>, t: int)
    requires c.Valid() && Admitted(c, log)
    ensures InWindow(log, t - c.window, t) <= c.maxEvents
  {
    if log != [] {
      var init, last := log[..|log| - 1], log[|log| - 1];
      AdmittedBound(c, init, t);
      if last <= t {
        WindowCapped(init, t - c.window, t, last);
        WindowWithin(init, t - c.window, last, last - c.window, last);
      }
    }
  }

  lemma {:induction false} LogIsAdmitted(c: Config, log: seq<int>, calls: seq<Call>, now: int)
    requires Nondecreasing(now, calls) && Admitted(c, log)
    requires UpTo(log, now)
    requires forall i | 0 <= i < |calls| :: calls[i].op != Ping
    ensures Admitted(c, LogAfter(c, log, calls))
    decreases |calls|
  {
    if calls != [] {
      var rest, next := calls[1..], NaiveStep(c, log, calls[0]).0;
      assert forall i | 0 <= i < |rest| :: rest[i] == calls[i + 1];
      assert next != log ==> next[..|next| - 1] == log;
      LogIsAdmitted(c, next, rest, calls[0].now);
    }
  }

  /** When events are recorded only by `ping_if_ready`, every window (t - window, t]
      of the whole history holds at most `maxEvents` of them. */
  lemma EveryWindowIsBounded(c: Config, calls: seq<Call>, start: int, t: int)
    requires c.Valid() && Nondecreasing(start, calls)
    requires forall i | 0 <= i < |calls| :: calls[i].op != Ping
    ensures InWindow(LogAfter(c, [], calls), t - c.window, t) <= c.maxEvents
  {
    LogIsAdmitted(c, [], calls, start);
    AdmittedBound(c, LogAfter(c, [], calls), t);
  }

  /** The log of the naive limiter is the log of the events that the real one accepts. */
  function Recorded(calls: seq<Call>, answers: seq<bool>): seq<int>
    requires |calls| == |answers|
  {
    if calls == [] then []
    else
      (if calls[0].op != IsReady && answers[0] then [calls[0].now] else [])
      + Recorded(calls[1..], answers[1..])
  }

  lemma {:induction false} LogIsRecorded(c: Config, log: seq<int>, calls: seq<Call>)
    ensures |NaiveAnswers(c, log, calls)| == |calls|
    ensures LogAfter(c, log, calls) == log + Recorded(calls, NaiveAnswers(c, log, calls))
    decreases |calls|
  {
    if calls == [] {
      assert log + [] == log;
    } else {
      var (next, answer) := NaiveStep(c, log, calls[0]);
      LogIsRecorded(c, next, calls[1..]);
      assert NaiveAnswers(c, log, calls)[1..] == NaiveAnswers(c, next, calls[1..]);
      assert next == log + (if calls[0].op != IsReady && answer then [calls[0].now] else []);
    }
  }

  /** What every answer says: an event is accepted, or could be, exactly when fewer than `maxEvents` of the
      events accepted before it lie in the window that ends now. */
  lemma {:induction false} NaiveAnswersTell(c: Config, log: seq<int>, calls: seq<Call>, i: nat)
    requires i < |calls| && |NaiveAnswers(c, log, calls)| == |calls|
    ensures var answers := NaiveAnswers(c, log, calls); var now := calls[i].now;
            var before := log + Recorded(calls[..i], answers[..i]);
            answers[i] <==> calls[i].op == Ping || |EventsIn(before, now - c.window, now)| < c.maxEvents
    decreases |calls|
  {
    var answers := NaiveAnswers(c, log, calls);
    if i == 0 {
      assert log + Recorded(calls[..0], answers[..0]) == log;
      InWindowSpec(log, calls[0].now - c.window, calls[0].now);
    } else {
      var (next, answer) := NaiveStep(c, log, calls[0]);
      LogIsRecorded(c, next, calls[1..]);
      NaiveAnswersTell(c, next, calls[1..], i - 1);
      assert answers[1..] == NaiveAnswers(c, next, calls[1..]);
      assert next == log + (if calls[0].op != IsReady && answer then [calls[0].now] else []);
      RecordedFromNext(log, calls, answers, i);
    }
  }

  lemma RecordedFromNext(log: seq<int>, calls: seq<Call>, answers: seq<bool>, i: nat)
    requires 0 < i <= |calls| == |answers|
    ensures var first := if calls[0].op != IsReady && answers[0] then [calls[0].now] else [];
            log + Recorded(calls[..i], answers[..i]) == log + first + Recorded(calls[1..][..i - 1], answers[1..][..i - 1])
  {
    assert calls[..i][1..] == calls[1..][..i - 1] && answers[..i][1..] == answers[1..][..i - 1];
  }

  /** The same of the pruned limiter: it refuses exactly when the window is full. */
  lemma AnswersTellTheWindow(c: Config, calls: seq<Call>, start: int, i: nat)
    requires Nondecreasing(start, calls) && i < |calls|
    ensures |Answers(c, [], calls)| == |calls|
    ensures var answers := Answers(c, [], calls); var now := calls[i].now;
            answers[i] <==>
            calls[i].op == Ping || |EventsIn(Recorded(calls[..i], answers[..i]), now - c.window, now)| < c.maxEvents
  {
    PruningIsInvisible(c, calls, start);
    LogIsRecorded(c, [], calls);
    NaiveAnswersTell(c, [], calls, i);
    var answers := Answers(c, [], calls);
    assert [] + Recorded(calls[..i], answers[..i]) == Recorded(calls[..i], answers[..i]);
  }

  /** The promise, about the events that the pruned limiter accepts. */
  lemma AcceptedEventsAreBounded(c: Config, calls: seq<Call>, start: int, t: int)
    requires c.Valid() && Nondecreasing(start, calls)
    requires forall i | 0 <= i < |calls| :: calls[i].op != Ping
    ensures |Answers(c, [], calls)| == |calls|
    ensures InWindow(Recorded(calls, Answers(c, [], calls)), t - c.window, t) <= c.maxEvents
  {
    PruningIsInvisible(c, calls, start);
    LogIsRecorded(c, [], calls);
    EveryWindowIsBounded(c, calls, start, t);
    assert [] + Recorded(calls, Answers(c, [], calls)) == Recorded(calls, Answers(c, [], calls));
  }

  /** The stored list never outgrows `maxEvents` either. */
  lemma {:induction false} StoredIsBounded(c: Config, stored: seq<int>, calls: seq<Call>)
    requires c.Valid() && |stored| <= c.maxEvents
    requires forall i | 0 <= i < |calls| :: calls[i].op != Ping
    ensures |StoredAfter(c, stored, calls)| <= c.maxEvents
    decreases |calls|
  {
    if calls != [] {
      assert forall i | 0 <= i < |calls[1..]| :: calls[1..][i] == calls[i + 1];
      NewerNoLonger(stored, calls[0].now - c.window);
      StoredIsBounded(c, Step(c, stored, calls[0]).0, calls[1..]);
    }
  }

  lemma {:induction false} NewerNoLonger(events: seq<int>, cutoff: int)
    ensures |Newer(events, cutoff)| <= |events|
  {
    if events != [] { NewerNoLonger(events[..|events| - 1], cutoff); }
  }

  // ---------- Many sharers of one file ----------

  type Process = nat

  /** The list in memory after a call that started from the stored one. */
  function InMemory(c: Config, stored: seq<int>, call: Call): seq<int> {
    var pruned := Newer(stored, call.now - c.window);
    if call.op == Ping || (call.op == PingIfReady && |pruned| < c.maxEvents) then pruned + [call.now] else pruned
  }

  /** The file, and the list that each sharer has in memory. */
  datatype Sharing = Sharing(file: seq<int>, memories: map<Process, seq<int>>)

  datatype Visit = Visit(process: Process, call: Call)

  /** A sharer reads the file into memory, prunes the memory, and writes it back only with a new event. */
  function OnVisit(c: Config, s: Sharing, v: Visit): (Sharing, bool) {
    var pruned := Newer(s.file, v.call.now - c.window);
    var ready := |pruned| < c.maxEvents;
    var records := v.call.op == Ping || (v.call.op == PingIfReady && ready);
    var memory := InMemory(c, s.file, v.call);
    (Sharing(if records then memory else s.file, s.memories[v.process := memory]), v.call.op == Ping || ready)
  }

  function VisitAnswers(c: Config, s: Sharing, visits: seq<Visit>): seq<bool>
    decreases |visits|
  {
    if visits == [] then []
    else [OnVisit(c, s, visits[0]).1] + VisitAnswers(c, OnVisit(c, s, visits[0]).0, visits[1..])
  }

  function AfterVisits(c: Config, s: Sharing, visits: seq<Visit>): Sharing
    decreases |visits|
  {
    if visits == [] then s else AfterVisits(c, OnVisit(c, s, visits[0]).0, visits[1..])
  }

  /** The calls of the visits, whoever makes them. */
  function Calls(visits: seq<Visit>): (calls: seq<Call>)
    ensures |calls| == |visits| && forall i | 0 <= i < |visits| :: calls[i] == visits[i].call
  {
    seq(|visits|, i requires 0 <= i < |visits| => visits[i].call)
  }

  lemma VisitIsStep(c: Config, s: Sharing, v: Visit)
    requires c.persistent
    ensures OnVisit(c, s, v).0.file == Step(c, s.file, v.call).0 && OnVisit(c, s, v).1 == Step(c, s.file, v.call).1
  {
  }

  lemma {:induction false} VisitsAreCalls(c: Config, s: Sharing, visits: seq<Visit>)
    requires c.persistent
    ensures VisitAnswers(c, s, visits) == Answers(c, s.file, Calls(visits))
    decreases |visits|
  {
    if visits != [] {
      VisitIsStep(c, s, visits[0]);
      assert Calls(visits)[1..] == Calls(visits[1..]);
      VisitsAreCalls(c, OnVisit(c, s, visits[0]).0, visits[1..]);
    }
  }

  ghost predicate AllShort(c: Config, s: Sharing) {
    |s.file| <= c.maxEvents && forall p :: p in s.memories ==> |s.memories[p]| <= c.maxEvents
  }

  lemma VisitStaysShort(c: Config, s: Sharing, v: Visit)
    requires AllShort(c, s) && v.call.op != Ping
    ensures AllShort(c, OnVisit(c, s, v).0)
  {
    NewerNoLonger(s.file, v.call.now - c.window);
  }

  lemma {:induction false} VisitsStayShort(c: Config, s: Sharing, visits: seq<Visit>)
    requires AllShort(c, s) && forall i | 0 <= i < |visits| :: visits[i].call.op != Ping
    ensures AllShort(c, AfterVisits(c, s, visits))
    decreases |visits|
  {
    if visits != [] {
      assert forall i | 0 <= i < |visits[1..]| :: visits[1..][i] == visits[i + 1];
      VisitStaysShort(c, s, visits[0]);
      VisitsStayShort(c, OnVisit(c, s, visits[0]).0, visits[1..]);
    }
  }

  const NOBODY := Sharing([], map[])

  /** Any number of sharers of one file, in any order, get the answers of a single limiter that
      forgets nothing, although each of them prunes a list of its own. */
  lemma SharersAnswerAsOne(c: Config, visits: seq<Visit>, start: int)
    requires c.persistent && Nondecreasing(start, Calls(visits))
    ensures VisitAnswers(c, NOBODY, visits) == NaiveAnswers(c, [], Calls(visits))
  {
    VisitsAreCalls(c, NOBODY, visits);
    PruningIsInvisible(c, Calls(visits), start);
  }

  /** And together they keep the promise: with `ping_if_ready` alone every window holds at most
      `maxEvents` of the events accepted by anyone, and no list outgrows that. */
  lemma SharersAreBounded(c: Config, visits: seq<Visit>, start: int, t: int)
    requires c.Valid() && c.persistent && Nondecreasing(start, Calls(visits))
    requires forall i | 0 <= i < |visits| :: visits[i].call.op != Ping
    ensures |VisitAnswers(c, NOBODY, visits)| == |visits|
    ensures InWindow(Recorded(Calls(visits), VisitAnswers(c, NOBODY, visits)), t - c.window, t) <= c.maxEvents
    ensures AllShort(c, AfterVisits(c, NOBODY, visits))
  {
    VisitsAreCalls(c, NOBODY, visits);
    AcceptedEventsAreBounded(c, Calls(visits), start, t);
    VisitsStayShort(c, NOBODY, visits);
  }

  // ---------- The limiter ----------

  /** The state file: missing, blank, not a list of numbers, or the stored times. */
  datatype Content = Absent | Blank | Corrupt | Times(times: seq<int>)

  class StateFile {
    var content: Content
  }

  datatype Reply = Answer(ready: bool) | RaisedValueError

  class Limiter {
    const maxEvents: int
    const window: int
    const file: StateFile?
    var timestamps: seq<int>

    function Settings(): Config { Config(maxEvents, window, file != null) }

    /** Reading the state file raises. */
    predicate Unreadable()
      reads file
    {
      file != null && file.content == Corrupt
    }

    /** What the next locked call starts from. */
    function Stored(): seq<int>
      reads this, file
      requires !Unreadable()
    {
      if file == null then timestamps
      else if file.content.Times? then file.content.times else []
    }

    /** The constructor, after its arguments have been accepted by `Create`. */
    constructor (maxEvents: int, window: int, file: StateFile?)
      requires Config(maxEvents, window, file != null).Valid()
      requires file != null ==> file.content != Corrupt
      ensures this.maxEvents == maxEvents && this.window == window && this.file == file
      ensures !Unreadable() && Stored() == if file == null then [] else
                (if file.content.Times? then file.content.times else [])
    {
      this.maxEvents, this.window, this.file := maxEvents, window, file;
      timestamps := [];
      new;
      var ok := Refresh();
    }

    method Refresh() returns (ok: bool)
      modifies this
      ensures ok == !Unreadable()
      ensures !ok ==> timestamps == old(timestamps)
      ensures ok ==> timestamps == Stored() == old(Stored())
    {
      ok := true;
      if file != null {
        match file.content {
          case Absent => timestamps := [];
          case Blank => timestamps := [];
          case Corrupt => ok := false;
          case Times(times) => timestamps := times;
        }
      }
    }

    method Write()
      modifies file
      ensures !Unreadable() && Stored() == timestamps
    {
      if file != null { file.content := Times(timestamps); }
    }

    /** Keeps the times after the cutoff, in their order. */
    method PruneTimestamps(now: int)
      modifies this
      ensures timestamps == Newer(old(timestamps), now - window)
    {
      var cutoff := now - window;
      var kept: seq<int> := [];
      for i := 0 to |timestamps|
        invariant timestamps == old(timestamps) && kept == Newer(timestamps[..i], cutoff)
      {
        assert timestamps[..i + 1] == timestamps[..i] + [timestamps[i]];
        NewerOfAppend(timestamps[..i], timestamps[i], cutoff);
        if timestamps[i] > cutoff { kept := kept + [timestamps[i]]; }
      }
      assert timestamps[..|timestamps|] == timestamps;
      timestamps := kept;
    }

    method IsReadyAt(now: int) returns (ready: bool)
      modifies this
      ensures timestamps == Newer(old(timestamps), now - window)
      ensures UpTo(old(timestamps), now) ==> (ready <==> InWindow(old(timestamps), now - window, now) < maxEvents)
      ensures ready <==> |timestamps| < maxEvents
    {
      PruneTimestamps(now);
      if UpTo(old(timestamps), now) { WindowIsNewer(old(timestamps), now - window, now); }
      ready := |timestamps| < maxEvents;
    }

    method DoPing(now: int) returns (ok: bool)
      modifies this, file
      ensures ok == !old(Unreadable())
      ensures !ok ==> file != null && file.content == old(file.content)
      ensures ok ==> !Unreadable() && Stored() == Step(Settings(), old(Stored()), Call(Ping, now)).0
      ensures ok ==> timestamps == InMemory(Settings(), old(Stored()), Call(Ping, now))
    {
      ok := Refresh();
      if !ok { return; }
      PruneTimestamps(now);
      timestamps := timestamps + [now];
      Write();
    }

    method DoPingIfReady(now: int) returns (reply: Reply)
      modifies this, file
      ensures reply == RaisedValueError <==> old(Unreadable())
      ensures reply == RaisedValueError ==> file != null && file.content == old(file.content)
      ensures reply.Answer? ==>
                !Unreadable() && (Stored(), reply.ready) == Step(Settings(), old(Stored()), Call(PingIfReady, now))
      ensures reply == Answer(false) && file != null ==> file.content == old(file.content)
      ensures reply.Answer? ==> timestamps == InMemory(Settings(), old(Stored()), Call(PingIfReady, now))
    {
      var ok := Refresh();
      if !ok { return RaisedValueError; }
      var ready := IsReadyAt(now);
      if !ready { return Answer(false); }
      timestamps := timestamps + [now];
      Write();
      reply := Answer(true);
    }

    method DoIsReady(now: int) returns (reply: Reply)
      modifies this
      ensures reply == RaisedValueError <==> Unreadable()
      ensures reply.Answer? ==>
                (Stored(), reply.ready) == Step(Settings(), old(Stored()), Call(IsReady, now))
      ensures reply.Answer? ==> timestamps == InMemory(Settings(), old(Stored()), Call(IsReady, now))
    {
      var ok := Refresh();
      if !ok { return RaisedValueError; }
      var ready := IsReadyAt(now);
      reply := Answer(ready);
    }
  }

  datatype Created = Accepted(limiter: Limiter) | Rejected

  /** Construction with its checks: `max_events`, then `window`, then the state file. */
  method Create(maxEvents: int, window: int, file: StateFile?) returns (result: Created)
    ensures result == Rejected <==>
              maxEvents < 1 || window < 0 || (file != null && file.content == Corrupt)
    ensures result.Accepted? ==>
              && fresh(result.limiter) && result.limiter.file == file
              && result.limiter.Settings() == Config(maxEvents, window, file != null)
  {
    if maxEvents < 1 { return Rejected; }
    if window < 0 { return Rejected; }
    if file != null && file.content == Corrupt { return Rejected; }
    var limiter := new Limiter(maxEvents, window, file);
    result := Accepted(limiter);
  }
}
