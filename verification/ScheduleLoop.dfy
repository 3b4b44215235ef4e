/** The scheduler loop of `schedule`, interleaved with control requests. */
module ScheduleLoop {
  import opened Wrappers
  import opened History
  import opened LastRunPolicy
  import opened Controller

  /** `max_runs`, and whether the interval is positive. */
  datatype Config = Config(maxRuns: Option<int>, sleeps: bool)

  /** The statement that the loop thread executes next. */
  datatype Pc =
    | Head                  // should_stop_loop at the top
    | Take                  // take_next_run_mode
    | Mark(mode: Mode)      // mark_running
    | Force(mode: Mode)     // force_next_return_value
    | Consult(mode: Mode)   // the predicate is asked
    | Job(mode: Mode)       // the job executes
    | Count                 // n_runs += 1
    | Publish               // update_run_count
    | Check                 // should_stop_loop after the attempt
    | Pending               // has_pending_work
    | Wait                  // wait_for_work, up to the wait
    | Waiting               // inside the wait
    | Exit                  // mark_stopped
    | Dead

  datatype State = State(
    pc: Pc,
    control: Control,
    nRuns: nat,
    forced: Option<bool>,
    // history
    accepted: nat,          // run-now requests accepted
    wakes: nat,             // wake requests accepted
    takes: nat,             // calls of take_next_run_mode
    taken: nat,             // those that returned run-now
    wakesTaken: nat,        // those that found a wake pending
    forcedJobs: nat,        // jobs executed in such an iteration
    begun: nat,             // attempts begun
    begunAfterQuit: nat,    // attempts begun after a quit was accepted
    marked: bool,           // mark_running was called, and no wait and no mark_stopped since
    interrupted: bool
  )

  const START := State(Head, INITIAL, 0, None, 0, 0, 0, 0, 0, 0, 0, 0, false, false)

  /** A request is handled; the loop thread executes its next statement, where `allow` is what
      the history says when the predicate is not forced; or an exception leaves the loop. */
  datatype Action = Ask(request: Request) | Next(allow: bool) | Interrupt

  function StatusOf(s: State): Status { s.control.status }

  predicate ShouldStop(c: Config, s: State) {
    StatusOf(s).quitRequested || (c.maxRuns.Some? && s.nRuns >= c.maxRuns.value)
  }

  predicate Alive(s: State) { s.pc != Exit && s.pc != Dead }

  function OnAsk(s: State, request: Request): State {
    var (control, response) := Handle(s.control, request);
    s.(control := control,
       accepted := s.accepted + if request == RunNowRequest && response.status == Accepted then 1 else 0,
       wakes := s.wakes + if request == WakeRequest && response.status == Accepted then 1 else 0)
  }

  function OnNext(c: Config, s: State, allow: bool): State {
    match s.pc
    case Head => s.(pc := if ShouldStop(c, s) then Exit else Take)
    case Take =>
      var (control, mode) := TakeNextRunMode(s.control);
      s.(pc := Mark(mode), control := control, takes := s.takes + 1,
         taken := s.taken + if mode == RunNow then 1 else 0,
         wakesTaken := s.wakesTaken + if StatusOf(s).pendingWake then 1 else 0)
    case Mark(mode) => s.(pc := Force(mode), control := Set(s.control, StatusOf(s).(state := Running)), marked := true)
    case Force(mode) => s.(pc := Consult(mode), forced := if mode == RunNow then Some(true) else s.forced)
    case Consult(mode) =>
      var run := if s.forced.Some? then s.forced.value else allow;
      s.(pc := if run then Job(mode) else Count, forced := None, begun := s.begun + 1,
         begunAfterQuit := s.begunAfterQuit + if StatusOf(s).quitRequested then 1 else 0,
         forcedJobs := s.forcedJobs + if run && mode == RunNow then 1 else 0)
    case Job(_) => s.(pc := Count)
    case Count => s.(pc := Publish, nRuns := s.nRuns + 1)
    case Publish => s.(pc := Check, control := Set(s.control, StatusOf(s).(runCount := s.nRuns)))
    case Check => s.(pc := if ShouldStop(c, s) then Exit else Pending)
    case Pending => s.(pc := if c.sleeps && !HasPendingWork(StatusOf(s)) then Wait else Head)
    case Wait =>
      var control := BeginWait(s.control);
      s.(pc := if control.waiter == Blocked then Waiting else Head, control := control, marked := false)
    case Waiting => s.(pc := Head, control := s.control.(waiter := NotWaiting))
    case Exit => s.(pc := Dead, control := Set(s.control, StatusOf(s).(state := Stopped)), marked := false)
    case Dead => s
  }

  function Act(c: Config, s: State, a: Action): State {
    match a
    case Ask(request) => OnAsk(s, request)
    case Next(allow) => OnNext(c, s, allow)
    case Interrupt =>
      if Alive(s) then s.(pc := Exit, control := s.control.(waiter := NotWaiting), interrupted := true) else s
  }

  function AfterActions(c: Config, s: State, actions: seq<Action>): State
    decreases |actions|
  {
    if actions == [] then s else AfterActions(c, Act(c, s, actions[0]), actions[1..])
  }

  // ---------- What every reachable state keeps ----------

  predicate Attempting(pc: Pc) {
    pc.Force? || pc.Consult? || pc.Job? || pc.Count? || pc.Publish? || pc.Check? || pc.Pending? || pc.Wait?
  }

  predicate BeforeAttempt(pc: Pc) {
    pc.Take? || pc.Mark? || pc.Force? || pc.Consult?
  }

  /** The iteration has taken a run-now and not yet executed the job for it. */
  predicate OwesForcedJob(pc: Pc) {
    (pc.Mark? || pc.Force? || pc.Consult?) && pc.mode == RunNow
  }

  function One(b: bool): nat { if b then 1 else 0 }

  /** The published state: "running" throughout an attempt, "sleeping" in the wait unless a quit was
      asked, and "stopped" at the end, where a quit can still change it. */
  predicate StatePublished(s: State) {
    && (Attempting(s.pc) ==> StatusOf(s).state == Running)
    && (s.pc == Waiting ==> StatusOf(s).state == if StatusOf(s).quitRequested then Stopping else Sleeping)
    && (s.pc == Dead ==> StatusOf(s).state == Stopped || (StatusOf(s).state == Stopping && StatusOf(s).quitRequested))
    && (StatusOf(s).state == Stopping ==> StatusOf(s).quitRequested)
    && (StatusOf(s).state == Stopped ==> s.pc == Dead)
    && (StatusOf(s).quitRequested ==> StatusOf(s).state != Starting && StatusOf(s).state != Sleeping)
  }

  /** The published state is "running" from `mark_running` until the loop waits or ends;
      a loop without an interval never waits. */
  predicate RunningIsMarked(c: Config, s: State) {
    && (StatusOf(s).state == Running <==> s.marked)
    && (!c.sleeps ==> s.pc != Wait && s.pc != Waiting)
  }

  /** A forced value is set only between its iteration's `force` and the predicate's answer. */
  predicate ForcedOnlyOnce(s: State) {
    && (Alive(s) && s.forced.Some? ==> s.pc == Consult(RunNow))
    && (s.pc == Consult(RunNow) ==> s.forced == Some(true))
  }

  /** Requests are not invented. */
  predicate RequestsCounted(s: State) {
    && s.taken + One(StatusOf(s).pendingRunNow) <= s.accepted
    && s.wakesTaken + One(StatusOf(s).pendingWake) <= s.wakes
  }

  /** And each one taken executes the job once. */
  predicate RequestsConserved(s: State) {
    && RequestsCounted(s)
    && s.forcedJobs <= s.taken
    && (Alive(s) ==> s.forcedJobs + One(OwesForcedJob(s.pc)) == s.taken)
  }

  /** Blocked means: inside the wait, with nothing asked since it began. */
  predicate NoLostWakeUp(s: State) {
    && (s.control.waiter == Blocked ==> s.pc == Waiting && !HasPendingWork(StatusOf(s)))
    && (s.pc == Waiting <==> s.control.waiter != NotWaiting)
  }

  predicate OneAttemptAfterQuit(s: State) {
    s.begunAfterQuit + One(StatusOf(s).quitRequested && BeforeAttempt(s.pc)) <= One(StatusOf(s).quitRequested)
  }

  predicate RunsCounted(c: Config, s: State) {
    && StatusOf(s).runCount <= s.nRuns
    && (s.pc != Publish && !s.interrupted ==> StatusOf(s).runCount == s.nRuns)
    && (Alive(s) ==> !s.interrupted)
    && (c.maxRuns.Some? ==>
          && s.nRuns <= (if c.maxRuns.value > 0 then c.maxRuns.value else 0)
          && (BeforeAttempt(s.pc) || s.pc.Job? || s.pc.Count? ==> s.nRuns < c.maxRuns.value))
    && (!Alive(s) && !s.interrupted && !StatusOf(s).quitRequested ==>
          c.maxRuns.Some? && s.nRuns >= c.maxRuns.value)
  }

  predicate Inv(c: Config, s: State) {
    && StatePublished(s) && RunningIsMarked(c, s) && ForcedOnlyOnce(s) && RequestsConserved(s)
    && NoLostWakeUp(s) && OneAttemptAfterQuit(s) && RunsCounted(c, s)
  }

  lemma ForcedStep(c: Config, s: State, a: Action)
    requires ForcedOnlyOnce(s)
    ensures ForcedOnlyOnce(Act(c, s, a))
  {
  }

  lemma MarkedStep(c: Config, s: State, a: Action)
    requires RunningIsMarked(c, s)
    ensures RunningIsMarked(c, Act(c, s, a))
  {
  }

  lemma CountedAsk(s: State, request: Request)
    requires RequestsCounted(s)
    ensures RequestsCounted(OnAsk(s, request))
  {
  }

  /** Only `take_next_run_mode` takes requests. */
  lemma OthersTakeNothing(c: Config, s: State, allow: bool)
    requires s.pc != Take
    ensures var t := OnNext(c, s, allow);
            && StatusOf(t).pendingRunNow == StatusOf(s).pendingRunNow && StatusOf(t).pendingWake == StatusOf(s).pendingWake
            && t.taken == s.taken && t.wakesTaken == s.wakesTaken && t.accepted == s.accepted && t.wakes == s.wakes
  {
  }

  lemma CountedStep(c: Config, s: State, a: Action)
    requires RequestsCounted(s)
    ensures RequestsCounted(Act(c, s, a))
  {
    match a {
      case Ask(request) => CountedAsk(s, request);
      case Next(allow) => if s.pc != Take { OthersTakeNothing(c, s, allow); }
      case Interrupt =>
    }
  }

  lemma RequestsStep(c: Config, s: State, a: Action)
    requires ForcedOnlyOnce(s) && RequestsConserved(s)
    ensures RequestsConserved(Act(c, s, a))
  {
    CountedStep(c, s, a);
  }

  lemma WaitStep(c: Config, s: State, a: Action)
    requires NoLostWakeUp(s) && StatePublished(s)
    ensures var t := Act(c, s, a); NoLostWakeUp(t) && StatePublished(t)
  {
  }

  lemma CountStep(c: Config, s: State, a: Action)
    requires OneAttemptAfterQuit(s) && RunsCounted(c, s)
    ensures var t := Act(c, s, a); OneAttemptAfterQuit(t) && RunsCounted(c, t)
  {
  }

  lemma InvStep(c: Config, s: State, a: Action)
    requires Inv(c, s)
    ensures Inv(c, Act(c, s, a))
  {
    ForcedStep(c, s, a);
    MarkedStep(c, s, a);
    RequestsStep(c, s, a);
    WaitStep(c, s, a);
    CountStep(c, s, a);
  }

  lemma {:induction false} InvRun(c: Config, s: State, actions: seq<Action>)
    requires Inv(c, s)
    ensures Inv(c, AfterActions(c, s, actions))
    decreases |actions|
  {
    if actions != [] {
      InvStep(c, s, actions[0]);
      InvRun(c, Act(c, s, actions[0]), actions[1..]);
    }
  }

  /** Every state that some interleaving of requests, exceptions and loop statements leads to. */
  ghost predicate Reachable(c: Config, s: State) {
    exists actions :: AfterActions(c, START, actions) == s
  }

  lemma StartInv(c: Config, s: State)
    requires s.pc == Head && s.control.waiter == NotWaiting && StatusOf(s) == Status(Starting, false, false, false, 0)
    requires s.nRuns == 0 && s.forced == None && !s.marked && !s.interrupted
    requires s.accepted == 0 && s.wakes == 0 && s.taken == 0 && s.wakesTaken == 0 && s.forcedJobs == 0 && s.begunAfterQuit == 0
    ensures Inv(c, s)
  {
  }

  lemma ReachableKeepsInv(c: Config, s: State)
    requires Reachable(c, s)
    ensures Inv(c, s)
  {
    var actions :| AfterActions(c, START, actions) == s;
    StartInv(c, START);
    InvRun(c, START, actions);
  }

  lemma {:induction false} AfterJoin(c: Config, s: State, a: seq<Action>, b: seq<Action>)
    ensures AfterActions(c, s, a + b) == AfterActions(c, AfterActions(c, s, a), b)
    decreases |a|
  {
    if a == [] {
      assert a + b == b;
    } else {
      assert (a + b)[1..] == a[1..] + b;
      AfterJoin(c, Act(c, s, a[0]), a[1..], b);
    }
  }

  lemma ReachableStep(c: Config, s: State, a: Action)
    requires Reachable(c, s)
    ensures Reachable(c, Act(c, s, a))
  {
    var actions :| AfterActions(c, START, actions) == s;
    AfterJoin(c, START, actions, [a]);
    assert [a][1..] == [];
    assert AfterActions(c, START, actions + [a]) == Act(c, s, a);
  }

  function Nexts(actions: seq<Action>): nat {
    if actions == [] then 0 else One(actions[0].Next?) + Nexts(actions[1..])
  }

  predicate Uninterrupted(actions: seq<Action>) {
    forall i | 0 <= i < |actions| :: !actions[i].Interrupt?
  }

  // ---------- Requests ----------

  /** A run-now is answered "busy", and changes nothing, exactly when `mark_running` was called
      and the loop has neither waited nor ended since: taking the next mode ends nothing. */
  lemma BusyIsMarked(c: Config, s: State)
    requires Reachable(c, s)
    ensures Handle(s.control, RunNowRequest).1.status == Busy <==> s.marked
    ensures s.marked ==> OnAsk(s, RunNowRequest) == s
  {
    ReachableKeepsInv(c, s);
  }

  /** Nobody executes a job, the next mode has been taken, and still the answer is "busy": the
      second iteration of a loop without an interval. */
  lemma BusyBetweenJobs() returns (s: State)
    ensures Reachable(Config(None, false), s) && s.pc == Mark(Normal) && s.takes == 2
    ensures Handle(s.control, RunNowRequest).1.status == Busy
  {
    var c := Config(None, false);
    assert AfterActions(c, START, []) == START;
    s := AfterIteration(c, START);
    ReachableStep(c, s, Next(false));
    var t := Act(c, s, Next(false));
    ReachableStep(c, t, Next(false));
    s := Act(c, t, Next(false));
  }

  /** An iteration in which nothing is asked and the job is skipped. */
  lemma AfterIteration(c: Config, s: State) returns (t: State)
    requires Reachable(c, s) && s.pc == Head && s.forced == None && !HasPendingWork(StatusOf(s))
    requires c.maxRuns == None && !c.sleeps
    ensures Reachable(c, t) && t.pc == Head && StatusOf(t).state == Running && !HasPendingWork(StatusOf(t))
    ensures t.takes == s.takes + 1
  {
    t := OneNext(c, s);
    t := OneNext(c, t);
    t := OneNext(c, t);
    t := OneNext(c, t);
    t := SkippedAttempt(c, t);
  }

  lemma SkippedAttempt(c: Config, s: State) returns (t: State)
    requires Reachable(c, s) && s.pc == Consult(Normal) && s.forced == None && !HasPendingWork(StatusOf(s))
    requires StatusOf(s).state == Running && c.maxRuns == None && !c.sleeps
    ensures Reachable(c, t) && t.pc == Head && StatusOf(t).state == Running && !HasPendingWork(StatusOf(t))
    ensures t.takes == s.takes
  {
    t := OneNext(c, s);
    t := OneNext(c, t);
    t := OneNext(c, t);
    t := NoSleep(c, t);
  }

  lemma NoSleep(c: Config, s: State) returns (t: State)
    requires Reachable(c, s) && s.pc == Check && !HasPendingWork(StatusOf(s))
    requires StatusOf(s).state == Running && c.maxRuns == None && !c.sleeps
    ensures Reachable(c, t) && t == s.(pc := Head)
  {
    t := OneNext(c, s);
    t := OneNext(c, t);
  }

  lemma OneNext(c: Config, s: State) returns (t: State)
    requires Reachable(c, s)
    ensures t == OnNext(c, s, false) && Reachable(c, t)
  {
    ReachableStep(c, s, Next(false));
    t := Act(c, s, Next(false));
  }

  lemma {:induction false} MarkedForGood(c: Config, s: State, actions: seq<Action>)
    requires Inv(c, s) && !c.sleeps && (s.pc == Dead || s.marked)
    ensures var t := AfterActions(c, s, actions);
            t.pc == Dead || (s.pc != Dead && t.marked && t.accepted == s.accepted)
    decreases |actions|
  {
    if actions != [] {
      InvStep(c, s, actions[0]);
      MarkedForGood(c, Act(c, s, actions[0]), actions[1..]);
    }
  }

  /** Without an interval no run-now is accepted between the first `mark_running` and
      `mark_stopped`, however many iterations lie between them. */
  lemma SleeplessLoopStaysBusy(c: Config, s: State, actions: seq<Action>)
    requires Reachable(c, s) && !c.sleeps && s.marked
    ensures var t := AfterActions(c, s, actions);
            t.pc == Dead || (t.accepted == s.accepted && Handle(t.control, RunNowRequest).1.status == Busy)
  {
    ReachableKeepsInv(c, s);
    MarkedForGood(c, s, actions);
    InvRun(c, s, actions);
  }

  /** While an attempt is made, from `mark_running` on, a run-now is answered "busy". */
  lemma NoRunNowDuringAttempt(c: Config, s: State)
    requires Reachable(c, s) && Attempting(s.pc)
    ensures Handle(s.control, RunNowRequest).1.status == Busy && OnAsk(s, RunNowRequest) == s
  {
    ReachableKeepsInv(c, s);
  }

  /** A pending request stays pending until `take_next_run_mode` finds it. */
  predicate StillAsked(s: State, t: State) {
    && t.takes >= s.takes && t.taken >= s.taken
    && (StatusOf(s).pendingWake ==> (StatusOf(t).pendingWake && t.takes == s.takes) || t.wakesTaken > s.wakesTaken)
    && (StatusOf(s).pendingRunNow ==> (StatusOf(t).pendingRunNow && t.takes == s.takes) || t.taken > s.taken)
    && t.wakesTaken >= s.wakesTaken
  }

  lemma AskedStep(c: Config, s: State, a: Action)
    ensures StillAsked(s, Act(c, s, a))
  {
  }

  lemma {:induction false} RequestsStayPending(c: Config, s: State, actions: seq<Action>)
    ensures StillAsked(s, AfterActions(c, s, actions))
    decreases |actions|
  {
    if actions != [] {
      AskedStep(c, s, actions[0]);
      RequestsStayPending(c, Act(c, s, actions[0]), actions[1..]);
    }
  }

  /** Statements left until the next `take_next_run_mode`, when something is asked. */
  function ToTake(pc: Pc): nat {
    match pc
    case Take => 1
    case Head => 2
    case Waiting => 3
    case Wait => 3
    case Pending => 3
    case Check => 4
    case Publish => 5
    case Count => 6
    case Job(_) => 7
    case Consult(_) => 8
    case Force(_) => 9
    case Mark(_) => 10
    case _ => 0
  }

  predicate Asked(s: State) { StatusOf(s).pendingWake || StatusOf(s).pendingRunNow }

  lemma ServeStep(c: Config, s: State, a: Action)
    requires NoLostWakeUp(s) && Alive(s) && Asked(s) && !a.Interrupt?
    ensures s.control.waiter != Blocked && ToTake(s.pc) > 0
    ensures var t := Act(c, s, a);
            t.takes > s.takes || !Alive(t) || (Asked(t) && ToTake(t.pc) <= ToTake(s.pc) - One(a.Next?))
    ensures Act(c, s, a).interrupted == s.interrupted
  {
  }

  /** Why a loop that was not interrupted has ended. */
  predicate StoppedByRule(c: Config, t: State) {
    !Alive(t) && (StatusOf(t).quitRequested || (c.maxRuns.Some? && t.nRuns >= c.maxRuns.value))
  }

  /** When something is asked, the loop thread is not blocked, and takes it within ten
      statements, unless a quit or `max_runs` ends the loop first. */
  lemma {:induction false} AskedIsServed(c: Config, s: State, actions: seq<Action>)
    requires Inv(c, s) && Alive(s) && Asked(s)
    requires Uninterrupted(actions) && Nexts(actions) >= ToTake(s.pc)
    ensures s.control.waiter != Blocked
    ensures AfterActions(c, s, actions).takes > s.takes || StoppedByRule(c, AfterActions(c, s, actions))
    decreases |actions|
  {
    var next := Act(c, s, actions[0]);
    InvStep(c, s, actions[0]);
    ServeStep(c, s, actions[0]);
    var rest := actions[1..];
    assert forall i | 0 <= i < |rest| :: rest[i] == actions[i + 1];
    AskedStep(c, s, actions[0]);
    RequestsStayPending(c, next, rest);
    if Alive(next) {
      if next.takes == s.takes { AskedIsServed(c, next, rest); }
    } else {
      StoppedStays(c, next, rest);
    }
  }

  /** From the request to its effect: a run-now that is accepted makes a forced iteration begin,
      and a wake that is accepted an iteration, within ten statements of the loop thread. */
  lemma AcceptedRequestIsServed(c: Config, s: State, request: Request, actions: seq<Action>)
    requires Reachable(c, s) && Alive(s) && (request == RunNowRequest || request == WakeRequest)
    requires Handle(s.control, request).1.status == Accepted
    requires Uninterrupted(actions) && Nexts(actions) >= 10
    ensures var t := AfterActions(c, OnAsk(s, request), actions);
            StoppedByRule(c, t) || (if request == RunNowRequest then t.taken > s.taken else t.wakesTaken > s.wakesTaken)
  {
    ReachableKeepsInv(c, s);
    InvStep(c, s, Ask(request));
    var asked := OnAsk(s, request);
    AskedIsServed(c, asked, actions);
    RequestsStayPending(c, asked, actions);
  }

  /** The run-now that follows `n` taken ones is pending, or taken with its job still to come. */
  predicate RunNowComing(s: State, n: nat) {
    Alive(s) && ((s.taken == n && StatusOf(s).pendingRunNow) || (s.taken == n + 1 && OwesForcedJob(s.pc)))
  }

  function ToForcedJob(s: State, n: nat): nat {
    if s.taken == n then ToTake(s.pc) + 3
    else match s.pc
      case Mark(_) => 3
      case Force(_) => 2
      case _ => 1
  }

  lemma RunNowStep(c: Config, s: State, a: Action, n: nat)
    requires ForcedOnlyOnce(s) && RequestsConserved(s) && RunNowComing(s, n) && !a.Interrupt?
    ensures var t := Act(c, s, a);
            || t.forcedJobs > n || !Alive(t)
            || (RunNowComing(t, n) && (s.control.waiter != Blocked ==> ToForcedJob(t, n) <= ToForcedJob(s, n) - One(a.Next?)))
    ensures Act(c, s, a).forcedJobs >= s.forcedJobs && Act(c, s, a).interrupted == s.interrupted
  {
  }

  lemma {:induction false} ForcedJobsGrow(c: Config, s: State, actions: seq<Action>)
    ensures AfterActions(c, s, actions).forcedJobs >= s.forcedJobs
    decreases |actions|
  {
    if actions != [] { ForcedJobsGrow(c, Act(c, s, actions[0]), actions[1..]); }
  }

  lemma {:induction false} RunNowComes(c: Config, s: State, actions: seq<Action>, n: nat)
    requires Inv(c, s) && RunNowComing(s, n)
    requires Uninterrupted(actions) && Nexts(actions) >= ToForcedJob(s, n)
    ensures AfterActions(c, s, actions).forcedJobs > n || StoppedByRule(c, AfterActions(c, s, actions))
    decreases |actions|
  {
    var next, rest := Act(c, s, actions[0]), actions[1..];
    InvStep(c, s, actions[0]);
    RunNowStep(c, s, actions[0], n);
    assert forall i | 0 <= i < |rest| :: rest[i] == actions[i + 1];
    if next.forcedJobs > n {
      ForcedJobsGrow(c, next, rest);
    } else if Alive(next) {
      RunNowComes(c, next, rest, n);
    } else {
      StoppedStays(c, next, rest);
    }
  }

  /** An accepted run-now executes the job, and not only one that was asked for before it,
      within thirteen statements of the loop thread, unless a quit or `max_runs` ends the loop. */
  lemma AcceptedRunNowIsExecuted(c: Config, s: State, actions: seq<Action>)
    requires Reachable(c, s) && Alive(s) && Handle(s.control, RunNowRequest).1.status == Accepted
    requires Uninterrupted(actions) && Nexts(actions) >= 13
    ensures var t := AfterActions(c, OnAsk(s, RunNowRequest), actions);
            t.forcedJobs > s.taken >= s.forcedJobs || StoppedByRule(c, t)
  {
    ReachableKeepsInv(c, s);
    InvStep(c, s, Ask(RunNowRequest));
    RunNowComes(c, OnAsk(s, RunNowRequest), actions, s.taken);
  }

  /** A loop that has ended for a quit or for `max_runs` has ended for good. */
  lemma {:induction false} StoppedStays(c: Config, s: State, actions: seq<Action>)
    requires Inv(c, s) && !Alive(s) && !s.interrupted
    ensures StoppedByRule(c, AfterActions(c, s, actions))
    decreases |actions|
  {
    if actions != [] {
      InvStep(c, s, actions[0]);
      StoppedStep(c, s, actions[0]);
      StoppedStays(c, Act(c, s, actions[0]), actions[1..]);
    }
  }

  lemma StoppedStep(c: Config, s: State, a: Action)
    requires !Alive(s)
    ensures !Alive(Act(c, s, a)) && Act(c, s, a).interrupted == s.interrupted
  {
  }

  /** Forced iterations never outnumber the accepted requests, and each executes the job,
      whatever the history answers. */
  lemma ForcedIterationsAreRequested(c: Config, s: State)
    requires Reachable(c, s)
    ensures s.forcedJobs <= s.taken <= s.accepted
    ensures s.pc == Head ==> s.forced == None && s.forcedJobs == s.taken
    ensures s.pc == Consult(RunNow) ==> forall allow :: OnNext(c, s, allow).pc == Job(RunNow)
  {
    ReachableKeepsInv(c, s);
  }

  // ---------- Waking up ----------

  /** A loop that waits while something is asked has been notified of it. */
  lemma NoWakeUpIsLost(c: Config, s: State)
    requires Reachable(c, s) && s.pc == Waiting && HasPendingWork(StatusOf(s))
    ensures s.control.waiter == Notified
  {
    ReachableKeepsInv(c, s);
  }

  // ---------- Sleeping between attempts ----------

  /** The loop thread is in the wait, nothing has woken it, and it says so. */
  predicate Asleep(s: State) {
    s.pc == Waiting && s.control.waiter == Blocked && StatusOf(s).state == Sleeping
  }

  /** At some moment of the run, the first and the last included, the loop is asleep. */
  predicate SleepsDuring(c: Config, s: State, actions: seq<Action>)
    decreases |actions|
  {
    Asleep(s) || (actions != [] && SleepsDuring(c, Act(c, s, actions[0]), actions[1..]))
  }

  predicate NothingAccepted(s: State, t: State) { t.accepted == s.accepted && t.wakes == s.wakes }

  lemma AcceptedGrows(c: Config, s: State, a: Action)
    ensures Act(c, s, a).accepted >= s.accepted && Act(c, s, a).wakes >= s.wakes
  {
  }

  lemma {:induction false} AcceptedGrowsOver(c: Config, s: State, actions: seq<Action>)
    ensures var t := AfterActions(c, s, actions); t.accepted >= s.accepted && t.wakes >= s.wakes
    decreases |actions|
  {
    if actions != [] {
      AcceptedGrows(c, s, actions[0]);
      AcceptedGrowsOver(c, Act(c, s, actions[0]), actions[1..]);
    }
  }

  /** Between two attempts when nothing is asked: the next one has not begun (`left == 1`),
      or it has (`left == 0`) and the loop is on its way to the wait or to its end. */
  predicate BeforeSleep(s: State, left: nat) {
    || !Alive(s)
    || (left == 1 && (s.pc == Head || s.pc == Take))
    || (left == 1 && BeforeAttempt(s.pc) && !Asked(s))
    || (left == 0 && !Asked(s) && (s.pc.Job? || s.pc.Count? || s.pc.Publish? || s.pc.Check? || s.pc == Pc.Pending || s.pc == Wait))
    || (left == 0 && StatusOf(s).quitRequested && s.pc == Head)
  }

  lemma BeforeSleepStep(c: Config, s: State, a: Action, left: nat)
    requires c.sleeps && NoLostWakeUp(s) && BeforeSleep(s, left)
    ensures var t := Act(c, s, a);
            || t.accepted > s.accepted || t.wakes > s.wakes
            || Asleep(t)
            || (t.begun == s.begun && BeforeSleep(t, left))
            || (left == 1 && t.begun == s.begun + 1 && BeforeSleep(t, 0))
  {
  }

  lemma {:induction false} NoAttemptBeforeSleep(c: Config, s: State, actions: seq<Action>, left: nat)
    requires c.sleeps && Inv(c, s) && BeforeSleep(s, left)
    ensures var t := AfterActions(c, s, actions);
            t.begun <= s.begun + left || SleepsDuring(c, s, actions) || !NothingAccepted(s, t)
    decreases |actions|
  {
    if actions != [] {
      var next, rest := Act(c, s, actions[0]), actions[1..];
      InvStep(c, s, actions[0]);
      BeforeSleepStep(c, s, actions[0], left);
      AcceptedGrows(c, s, actions[0]);
      AcceptedGrowsOver(c, next, rest);
      if next.accepted == s.accepted && next.wakes == s.wakes && !Asleep(next) {
        NoAttemptBeforeSleep(c, next, rest, if next.begun == s.begun then left else 0);
      }
    }
  }

  /** With an interval, from the head of the loop on, whatever was pending there and whatever happens:
      a second attempt begins only if the loop has slept, or a wake or a run-now was accepted meanwhile. */
  lemma LoopSleepsBetweenAttempts(c: Config, s: State, actions: seq<Action>)
    requires c.sleeps && Reachable(c, s) && s.pc == Head
    ensures var t := AfterActions(c, s, actions);
            t.begun <= s.begun + 1 || SleepsDuring(c, s, actions) || t.accepted > s.accepted || t.wakes > s.wakes
  {
    ReachableKeepsInv(c, s);
    NoAttemptBeforeSleep(c, s, actions, 1);
    AcceptedGrowsOver(c, s, actions);
  }

  predicate OnlyStatements(actions: seq<Action>) {
    forall i | 0 <= i < |actions| :: actions[i].Next?
  }

  function ToSleep(pc: Pc): nat {
    match pc
    case Head => 11
    case Take => 10
    case Mark(_) => 9
    case Force(_) => 8
    case Consult(_) => 7
    case Job(_) => 6
    case Count => 5
    case Publish => 4
    case Check => 3
    case Pending => 2
    case Wait => 1
    case _ => 0
  }

  predicate GoesToSleep(s: State) {
    ToSleep(s.pc) > 0 && !Asked(s) && !StatusOf(s).quitRequested
  }

  lemma SleepStep(c: Config, s: State, allow: bool)
    requires c.sleeps && NoLostWakeUp(s) && GoesToSleep(s)
    ensures var t := OnNext(c, s, allow);
            Asleep(t) || (t.pc == Exit && c.maxRuns.Some? && t.nRuns >= c.maxRuns.value)
            || (GoesToSleep(t) && ToSleep(t.pc) < ToSleep(s.pc))
    ensures OnNext(c, s, allow).interrupted == s.interrupted
  {
  }

  lemma {:induction false} StatementsLeadToSleep(c: Config, s: State, actions: seq<Action>)
    requires c.sleeps && Inv(c, s) && GoesToSleep(s) && OnlyStatements(actions) && |actions| >= ToSleep(s.pc)
    ensures SleepsDuring(c, s, actions) || StoppedByRule(c, AfterActions(c, s, actions))
    decreases |actions|
  {
    var next, rest := Act(c, s, actions[0]), actions[1..];
    assert forall i | 0 <= i < |rest| :: rest[i] == actions[i + 1];
    InvStep(c, s, actions[0]);
    SleepStep(c, s, actions[0].allow);
    if next.pc == Exit {
      StoppedStays(c, next, rest);
    } else if !Asleep(next) {
      StatementsLeadToSleep(c, next, rest);
    }
  }

  /** When nothing is asked, the loop is asleep within eleven of its statements, the job included,
      unless `max_runs` ends it. */
  lemma QuietLoopSleeps(c: Config, s: State, actions: seq<Action>)
    requires c.sleeps && Reachable(c, s) && s.pc == Head && !Asked(s) && !StatusOf(s).quitRequested
    requires OnlyStatements(actions) && |actions| >= 11
    ensures SleepsDuring(c, s, actions) || StoppedByRule(c, AfterActions(c, s, actions))
  {
    ReachableKeepsInv(c, s);
    StatementsLeadToSleep(c, s, actions);
  }

  // ---------- Quit ----------

  /** What one step after a quit, and so any number of them, cannot do. */
  predicate QuitFollows(s: State, t: State) {
    && StatusOf(s).quitRequested && StatusOf(t).quitRequested
    && t.accepted == s.accepted && t.wakes == s.wakes
    && (StatusOf(t).pendingRunNow ==> StatusOf(s).pendingRunNow)
    && (StatusOf(t).pendingWake ==> StatusOf(s).pendingWake)
    && (t.pc == Waiting ==> s.pc == Waiting)
    && t.begun + One(BeforeAttempt(t.pc)) <= s.begun + One(BeforeAttempt(s.pc))
  }

  lemma QuitStep(c: Config, s: State, a: Action)
    requires NoLostWakeUp(s) && StatusOf(s).quitRequested
    ensures QuitFollows(s, Act(c, s, a))
  {
  }

  lemma QuitApproaches(c: Config, s: State, a: Action)
    requires NoLostWakeUp(s) && StatusOf(s).quitRequested
    ensures ToQuit(Act(c, s, a).pc) <= ToQuit(s.pc) - One(a.Next? && s.pc != Dead)
  {
  }

  /** After a quit: it stands, no wake and no run-now is accepted, the loop enters no new wait,
      and at most one more attempt begins. */
  lemma {:induction false} QuitIsFinal(c: Config, s: State, actions: seq<Action>)
    requires Inv(c, s) && StatusOf(s).quitRequested
    ensures QuitFollows(s, AfterActions(c, s, actions))
    decreases |actions|
  {
    if actions != [] {
      InvStep(c, s, actions[0]);
      QuitStep(c, s, actions[0]);
      QuitIsFinal(c, Act(c, s, actions[0]), actions[1..]);
    }
  }

  /** Statements left until a loop that was asked to quit has ended. */
  function ToQuit(pc: Pc): nat {
    match pc
    case Dead => 0
    case Exit => 1
    case Head => 2
    case Check => 2
    case Waiting => 3
    case Wait => 3
    case Pending => 3
    case Publish => 3
    case Count => 4
    case Job(_) => 5
    case Consult(_) => 6
    case Force(_) => 7
    case Mark(_) => 8
    case Take => 9
  }

  /** A quit ends the loop within nine of its statements, and it is not blocked meanwhile. */
  lemma {:induction false} QuitTerminates(c: Config, s: State, actions: seq<Action>)
    requires Inv(c, s) && StatusOf(s).quitRequested && Nexts(actions) >= ToQuit(s.pc)
    ensures s.control.waiter != Blocked
    ensures AfterActions(c, s, actions).pc == Dead
    decreases |actions|
  {
    if actions != [] {
      InvStep(c, s, actions[0]);
      QuitStep(c, s, actions[0]);
      QuitApproaches(c, s, actions[0]);
      QuitTerminates(c, Act(c, s, actions[0]), actions[1..]);
    }
  }

  /** From the request to its effect: a quit is always accepted; the job that executes runs to
      its end, at most one more attempt begins, and the loop is over within nine statements. */
  lemma QuitEndsTheLoop(c: Config, s: State, actions: seq<Action>)
    requires Reachable(c, s)
    ensures Handle(s.control, QuitRequest).1.status == Accepted
    ensures var asked := OnAsk(s, QuitRequest); var t := AfterActions(c, asked, actions);
            && asked.pc == s.pc
            && QuitFollows(asked, t)
            && (Nexts(actions) >= 9 ==> t.pc == Dead)
  {
    ReachableKeepsInv(c, s);
    InvStep(c, s, Ask(QuitRequest));
    var asked := OnAsk(s, QuitRequest);
    QuitIsFinal(c, asked, actions);
    if Nexts(actions) >= 9 { QuitTerminates(c, asked, actions); }
  }

  // ---------- After the end ----------

  predicate AsksToQuit(actions: seq<Action>) {
    exists i | 0 <= i < |actions| :: actions[i] == Ask(QuitRequest)
  }

  /** Once the loop is over its published state changes exactly when a quit is asked,
      and then from "stopped" to "stopping". */
  lemma {:induction false} StoppedUntilQuit(c: Config, s: State, actions: seq<Action>)
    requires s.pc == Dead && (StatusOf(s).state == Stopped || StatusOf(s).state == Stopping)
    ensures StatusOf(AfterActions(c, s, actions)).state == if AsksToQuit(actions) then Stopping else StatusOf(s).state
    decreases |actions|
  {
    if actions != [] {
      var rest := actions[1..];
      assert forall i | 0 <= i < |rest| :: rest[i] == actions[i + 1];
      assert AsksToQuit(actions) <==> actions[0] == Ask(QuitRequest) || AsksToQuit(rest) by {
        if AsksToQuit(rest) {
          var i :| 0 <= i < |rest| && rest[i] == Ask(QuitRequest);
          assert actions[i + 1] == Ask(QuitRequest);
        }
      }
      StoppedUntilQuit(c, Act(c, s, actions[0]), rest);
    }
  }

  // ---------- Counting the iterations ----------

  function RunsWanted(c: Config): nat
    requires c.maxRuns.Some?
  {
    if c.maxRuns.value > 0 then c.maxRuns.value else 0
  }

  /** Without quit and exceptions the loop ends after exactly `max(0, max_runs)` iterations,
      and never without `max_runs`. */
  lemma ExactlyMaxRuns(c: Config, s: State)
    requires Reachable(c, s)
    ensures s.pc == Dead && !s.interrupted && !StatusOf(s).quitRequested ==>
              c.maxRuns.Some? && s.nRuns == StatusOf(s).runCount == RunsWanted(c)
    ensures StatusOf(s).runCount <= s.nRuns && (c.maxRuns.Some? ==> s.nRuns <= RunsWanted(c))
  {
    ReachableKeepsInv(c, s);
  }

  function ToEnd(c: Config, s: State): int
    requires c.maxRuns.Some?
  {
    if s.pc == Dead then 0
    else if s.pc == Exit then 1
    else 13 * (RunsWanted(c) - s.nRuns) + InIteration(s.pc)
  }

  function InIteration(pc: Pc): nat {
    match pc
    case Exit => 0
    case Dead => 0
    case Count => 7
    case Job(_) => 8
    case Consult(_) => 9
    case Force(_) => 10
    case Mark(_) => 11
    case Take => 12
    case Head => 13
    case Waiting => 14
    case Wait => 15
    case Pending => 16
    case Check => 17
    case Publish => 18
  }

  lemma EndStep(c: Config, s: State, a: Action)
    requires RunsCounted(c, s) && c.maxRuns.Some?
    ensures ToEnd(c, Act(c, s, a)) <= ToEnd(c, s) - One(a.Next? && s.pc != Dead)
    ensures ToEnd(c, s) >= One(s.pc != Dead)
  {
  }

  /** With `max_runs` the loop ends, within thirteen statements for each iteration. */
  lemma {:induction false} MaxRunsTerminates(c: Config, s: State, actions: seq<Action>)
    requires Inv(c, s) && c.maxRuns.Some? && Nexts(actions) >= ToEnd(c, s)
    ensures AfterActions(c, s, actions).pc == Dead
    decreases |actions|
  {
    if actions != [] {
      InvStep(c, s, actions[0]);
      EndStep(c, s, actions[0]);
      MaxRunsTerminates(c, Act(c, s, actions[0]), actions[1..]);
    }
  }

  // ---------- What an attempt means ----------

  /** What the scheduled function returns: nothing, a text, or something else. */
  datatype ReturnValue = Nothing | Text(text: string) | Anything(id: int)

  function AssessReturnValue(returned: ReturnValue): (Outcome, string) {
    if returned == Nothing || returned == Text("success") then (Success, "")
    else if returned == Text("failure") then (Failure, "")
    else if returned == Text("neutral") then (Neutral, "")
    else (Failure, "Unexpected result")
  }

  function AssessResult(job: JobEnd<ReturnValue>): (Outcome, string) {
    match job
    case Raised(_) => (Failure, "Raised")
    case Returned(value) => AssessReturnValue(value)
  }

  /** Which returned value means what: nothing and "success" are a success, "failure" and "neutral" are
      themselves, and everything else is a failure with details. An exception is a failure. */
  lemma AssessedOutcomes(job: JobEnd<ReturnValue>)
    ensures AssessResult(job).0 == Success <==> job == Returned(Nothing) || job == Returned(Text("success"))
    ensures AssessResult(job).0 == Neutral <==> job == Returned(Text("neutral"))
    ensures AssessResult(job).1 == "" <==>
            job.Returned? && (job.value == Nothing || (job.value.Text? && job.value.text in ["success", "failure", "neutral"]))
  {
    assert ["success", "failure", "neutral"][0] == "success" && ["success", "failure", "neutral"][1] == "failure";
    assert ["success", "failure", "neutral"][2] == "neutral";
  }

  // ---------- The loop ----------

  /** What the rest of the world does before a statement of the loop thread: requests that are
      handled, an exception that leaves the loop here, the clock, and how a job ends here
      (`fatal`: with an exception that is not an `Exception`, such as a keyboard interrupt). */
  datatype Moment = Moment(
    requests: seq<Request>,
    interrupt: bool,
    now: int,
    startedAt: int,
    finishedAt: int,
    job: JobEnd<ReturnValue>,
    fatal: bool
  )

  lemma {:induction false} OneMoreAttempt(p: Policy, max: nat, log: seq<Entry>, attempts: seq<Attempt>, a: Attempt)
    ensures AfterAttempts(p, max, log, attempts + [a]) ==
            AfterAttempt(p, max, AfterAttempts(p, max, log, attempts), a)
    decreases |attempts|
  {
    if attempts == [] {
      assert (attempts + [a])[1..] == [];
    } else {
      assert (attempts + [a])[1..] == attempts[1..] + [a];
      OneMoreAttempt(p, max, AfterAttempt(p, max, log, attempts[0]), attempts[1..], a);
    }
  }

  /** How a part of the loop ends: at the end of the given moments, by leaving the loop,
      or by going on to the next statement. */
  datatype Going = CutOff | Left | Goes

  class Scheduler {
    const config: Config
    const controller: ScheduleController
    const shouldRun: RunPredicate
    const lastRun: LastRun
    const moments: seq<Moment>
    var nRuns: nat
    var k: nat                       // the next moment
    ghost const log: seq<Entry>      // everything recorded before the loop
    ghost var s: State
    ghost var attempts: seq<Attempt>

    constructor (
      config: Config, controller: ScheduleController, shouldRun: RunPredicate, lastRun: LastRun, moments: seq<Moment>,
      ghost log: seq<Entry>
    )
      requires controller.View() == INITIAL && shouldRun.forced == None
      requires lastRun.history.Now() == Suffix(log, lastRun.history.maxEntries)
      ensures this.config == config && this.controller == controller && this.shouldRun == shouldRun
      ensures this.lastRun == lastRun && this.moments == moments && this.log == log
      ensures Valid() && s == START
    {
      this.config, this.controller, this.shouldRun, this.lastRun := config, controller, shouldRun, lastRun;
      this.moments, this.log := moments, log;
      nRuns, k, s, attempts := 0, 0, START, [];
      new;
      assert AfterActions(config, START, []) == START;
    }

    /** What is kept is the end of the log of the attempts. */
    ghost predicate Recorded()
      reads this, lastRun.history, lastRun.history.file
    {
      lastRun.history.Now() ==
      Suffix(AfterAttempts(shouldRun.policy, lastRun.history.maxEntries, log, attempts), lastRun.history.maxEntries)
    }

    /** The objects agree with a reachable state of the transition system. */
    ghost predicate Tied()
      reads this, controller, shouldRun
    {
      && Reachable(config, s)
      && controller.View() == s.control && shouldRun.forced == s.forced
      && nRuns == s.nRuns && |attempts| == s.begun && k <= |moments|
    }

    ghost predicate Valid()
      reads this, controller, shouldRun, lastRun.history, lastRun.history.file
    {
      Tied() && Recorded()
    }

    ghost method Advance(allow: bool)
      requires Reachable(config, s)
      modifies this`s
      ensures s == OnNext(config, old(s), allow) && Reachable(config, s)
    {
      ReachableStep(config, s, Next(allow));
      s := Act(config, s, Next(allow));
    }

    /** The requests of one moment, each handled under the lock. */
    method Interleave(requests: seq<Request>)
      requires Tied()
      modifies this`s, controller
      ensures Tied() && s.pc == old(s.pc)
      ensures (controller.waiter == NotWaiting) == (old(controller.waiter) == NotWaiting)
    {
      for i := 0 to |requests|
        invariant Tied() && s.pc == old(s.pc)
        invariant (controller.waiter == NotWaiting) == (old(controller.waiter) == NotWaiting)
      {
        var response := controller.HandleRequest(requests[i]);
        ReachableStep(config, s, Ask(requests[i]));
        s := Act(config, s, Ask(requests[i]));
      }
    }

    /** The world moves on before the next statement. */
    method Pause() returns (going: Going)
      requires Valid()
      modifies this`s, this`k, controller
      ensures Valid()
      ensures going == CutOff <==> old(k) == |moments|
      ensures going == CutOff ==> s == old(s) && k == old(k)
      ensures going != CutOff ==> k == old(k) + 1
      ensures going == Left ==> s.pc == if Alive(old(s)) then Exit else old(s.pc)
      ensures going == Goes ==> s.pc == old(s.pc)
    {
      if k == |moments| { return CutOff; }
      Interleave(moments[k].requests);
      going := Goes;
      if moments[k].interrupt { going := Left; Leave(); }
      k := k + 1;
    }

    /** An exception leaves the loop, out of the wait if it is there. */
    method Leave()
      requires Tied()
      modifies this`s, controller
      ensures Tied() && s == Act(config, old(s), Interrupt)
    {
      ReachableKeepsInv(config, s);
      if controller.waiter != NotWaiting { controller.StopWaiting(); }
      ReachableStep(config, s, Interrupt);
      s := Act(config, s, Interrupt);
    }

    method ShouldStopLoop() returns (stop: bool)
      requires Valid() && (s.pc == Head || s.pc == Check)
      modifies this`s
      ensures Valid() && s.pc == if stop then Exit else if old(s.pc) == Head then Take else Pc.Pending
    {
      stop := controller.quitRequested || (config.maxRuns.Some? && nRuns >= config.maxRuns.value);
      Advance(false);
    }

    method TakeMode() returns (mode: Mode)
      requires Valid() && s.pc == Take
      modifies this`s, controller
      ensures Valid() && s.pc == Mark(mode)
    {
      mode := controller.TakeRunMode();
      Advance(false);
    }

    method MarkRunning(mode: Mode)
      requires Valid() && s.pc == Mark(mode)
      modifies this`s, controller
      ensures Valid() && s.pc == Force(mode)
    {
      controller.MarkRunning();
      Advance(false);
    }

    method ForceWhenAsked(mode: Mode)
      requires Valid() && s.pc == Force(mode)
      modifies this`s, shouldRun
      ensures Valid() && s.pc == Consult(mode) && shouldRun.reports == old(shouldRun.reports)
    {
      if mode == RunNow { shouldRun.ForceNextReturnValue(true); }
      Advance(false);
    }

    /** `attempt`: errors stay inside, unless they are fatal. */
    method MakeAttempt(m: Moment, mode: Mode) returns (ran: bool, fatal: bool)
      requires Valid() && s.pc == Consult(mode)
      modifies this`s, this`attempts, shouldRun, lastRun.history, lastRun.history.file
      ensures Valid() && s.pc == (if ran then Job(mode) else Count)
      ensures fatal ==> ran && m.job.Raised? && m.fatal
    {
      ghost var before := lastRun.history.Now();
      ghost var max := lastRun.history.maxEntries;
      ghost var full := AfterAttempts(shouldRun.policy, max, log, attempts);
      var end;
      ghost var attempt;
      end, attempt := lastRun.Call(shouldRun, m.now, m.startedAt, m.finishedAt, m.job, AssessResult);
      Advance(MayRun(shouldRun.policy, m.now, before));
      OneMoreAttempt(shouldRun.policy, max, log, attempts, attempt);
      KeptIsSuffix(shouldRun.policy, max, full, attempt, lastRun.history.Now());
      attempts := attempts + [attempt];
      ran := !end.Skipped?;
      fatal := end.Escaped? && m.fatal;
    }

    /** The job executes while requests are handled, and a fatal error leaves the loop. */
    method FinishJob(fatal: bool) returns (going: Going)
      requires Valid() && s.pc.Job?
      modifies this`s, this`k, controller
      ensures Valid() && k >= old(k)
      ensures going == Goes ==> s.pc == Count
      ensures going == Left ==> s.pc == Exit
      ensures going == CutOff ==> s.pc != Dead && k == |moments|
    {
      going := Pause();
      if going != Goes { return; }
      if fatal {
        Leave();
        return Left;
      }
      Advance(false);
    }

    method CountRun()
      requires Valid() && s.pc == Count
      modifies this`s, this`nRuns
      ensures Valid() && s.pc == Publish
    {
      nRuns := nRuns + 1;
      Advance(false);
    }

    method PublishCount()
      requires Valid() && s.pc == Publish
      modifies this`s, controller
      ensures Valid() && s.pc == Check
    {
      controller.UpdateRunCount(nRuns);
      Advance(false);
    }

    method NeedsSleep() returns (sleep: bool)
      requires Valid() && s.pc == Pc.Pending
      modifies this`s
      ensures Valid() && s.pc == if sleep then Wait else Head
    {
      var pending := controller.PendingWork();
      sleep := config.sleeps && !pending;
      Advance(false);
    }

    method StartWaiting() returns (waiting: bool)
      requires Valid() && s.pc == Wait
      modifies this`s, controller
      ensures Valid() && s.pc == if waiting then Waiting else Head
    {
      ReachableKeepsInv(config, s);
      waiting := controller.StartWaiting();
      Advance(false);
    }

    method StopWaiting()
      requires Valid() && s.pc == Waiting
      modifies this`s, controller
      ensures Valid() && s.pc == Head
    {
      controller.StopWaiting();
      Advance(false);
    }

    method BeginIteration() returns (going: Going, mode: Mode)
      requires Valid() && s.pc == Head
      modifies this`s, this`k, controller
      ensures Valid() && k >= old(k)
      ensures going == Goes ==> s.pc == Force(mode) && k > old(k)
      ensures going == Left ==> s.pc == Exit
      ensures going == CutOff ==> s.pc != Dead && k == |moments|
    {
      mode := Normal;
      going := Pause();
      if going != Goes { return; }
      var stop := ShouldStopLoop();
      if stop { return Left, mode; }
      going := Pause();
      if going != Goes { return; }
      mode := TakeMode();
      going := Pause();
      if going != Goes { return; }
      MarkRunning(mode);
    }

    method Iterate(mode: Mode) returns (going: Going)
      requires Valid() && s.pc == Force(mode)
      modifies this, controller, shouldRun, lastRun.history, lastRun.history.file
      ensures Valid() && k >= old(k)
      ensures going == Goes ==> s.pc == Publish
      ensures going == Left ==> s.pc == Exit
      ensures going == CutOff ==> s.pc != Dead && k == |moments|
    {
      going := Pause();
      if going != Goes { return; }
      ForceWhenAsked(mode);
      going := Pause();
      if going != Goes { return; }
      var ran, fatal := MakeAttempt(moments[k - 1], mode);
      if ran {
        going := FinishJob(fatal);
        if going != Goes { return; }
      }
      going := Pause();
      if going != Goes { return; }
      CountRun();
    }

    method EndIteration() returns (going: Going)
      requires Valid() && s.pc == Publish
      modifies this`s, this`k, controller
      ensures Valid() && k >= old(k)
      ensures going == Goes ==> s.pc == Pc.Pending
      ensures going == Left ==> s.pc == Exit
      ensures going == CutOff ==> s.pc != Dead && k == |moments|
    {
      going := Pause();
      if going != Goes { return; }
      PublishCount();
      going := Pause();
      if going != Goes { return; }
      var stop := ShouldStopLoop();
      if stop { going := Left; }
    }

    method Sleep() returns (going: Going)
      requires Valid() && s.pc == Pc.Pending
      modifies this`s, this`k, controller
      ensures Valid() && k >= old(k)
      ensures going == Goes ==> s.pc == Head
      ensures going == Left ==> s.pc == Exit
      ensures going == CutOff ==> s.pc != Dead && k == |moments|
    {
      going := Pause();
      if going != Goes { return; }
      var sleep := NeedsSleep();
      if !sleep { return; }
      going := Pause();
      if going != Goes { return; }
      var waiting := StartWaiting();
      if !waiting { return; }
      going := Pause();
      if going != Goes { return; }
      StopWaiting();
    }

    /** The loop of `schedule`, up to `mark_stopped`. Whatever the world does, it is a run of
        the transition system, and the history holds the end of the log of its attempts. */
    method Run() returns (ended: bool)
      requires Valid() && s.pc == Head
      modifies this, controller, shouldRun, lastRun.history, lastRun.history.file
      ensures Valid() && (ended <==> s.pc == Dead)
      ensures !ended ==> k == |moments|
      ensures ended ==> controller.state == Stopped
      ensures ended && !s.interrupted && !controller.quitRequested ==>
                config.maxRuns.Some? && nRuns == RunsWanted(config)
    {
      var going := Goes;
      while going == Goes
        invariant Valid()
        invariant going == Goes ==> s.pc == Head
        invariant going == Left ==> s.pc == Exit
        invariant going == CutOff ==> s.pc != Dead && k == |moments|
        decreases |moments| - k, going == Goes
      {
        var mode;
        going, mode := BeginIteration();
        if going == Goes { going := Iterate(mode); }
        if going == Goes { going := EndIteration(); }
        if going == Goes { going := Sleep(); }
      }
      if going == CutOff { return false; }
      ended := Finish();
      ReachableKeepsInv(config, s);
    }

    /** The `finally` of the loop. */
    method Finish() returns (ended: bool)
      requires Valid() && s.pc == Exit
      modifies this`s, this`k, controller
      ensures Valid() && (ended <==> s.pc == Dead) && (if ended then controller.state == Stopped else k == |moments|)
    {
      var going := Pause();
      if going == CutOff { return false; }
      controller.MarkStopped();
      Advance(false);
      ended := true;
    }
  }
}
