/** `RateLimiter`: a minimum period between actions, kept in the modification time
    of the limiter's own lock file. */
module MinimumPeriod {
  import opened Wrappers

  type Process = nat

  // ---------- The protocol of concurrent `ping_if_ready` calls ----------

  /** Where a call stands. `created` tells whether this call created the file. */
  datatype Pc =
    | Start                                     // exclusive creation comes next
    | Reopen                                    // the file was there: open it
    | Opened(created: bool)                     // waiting for the flock
    | Locked                                    // the creator holds the flock: reset the time
    | Ready(created: bool)                      // read the modification time
    | Read(created: bool, timestamp: int)       // compare with the clock
    | Touching(created: bool)                   // ready: touch the file
    | Leaving(created: bool, answer: bool, at: int)  // give up the flock and return
    | Done

  datatype State = State(
    clock: int,
    present: bool,
    mtime: int,
    holder: Option<Process>,
    pcs: map<Process, Pc>,
    // history
    createdAt: int,
    returned: seq<Return>
  )

  /** A call that has returned: whether it created the file, its answer,
      and the time at which an accepted call touched the file. */
  datatype Return = Return(created: bool, answer: bool, at: int)

  datatype Action = Tick(clock: int) | Go(process: Process)

  function At(s: State, p: Process, pc: Pc): State {
    s.(pcs := s.pcs[p := pc])
  }

  /** One atomic step; an action that is not enabled changes nothing. */
  function Do(period: int, s: State, a: Action): State {
    match a
    case Tick(clock) => if clock >= s.clock then s.(clock := clock) else s
    case Go(p) =>
      if p !in s.pcs then s
      else match s.pcs[p]
        case Start =>
          if s.present then At(s, p, Reopen)
          else At(s, p, Opened(true)).(present := true, mtime := s.clock, createdAt := s.clock)
        case Reopen => At(s, p, if s.present then Opened(false) else Start)
        case Opened(created) =>
          if s.holder.Some? then s
          else At(s, p, if created then Locked else Ready(false)).(holder := Some(p))
        case Locked => At(s, p, Ready(true)).(mtime := 0)
        case Ready(created) => At(s, p, Read(created, s.mtime))
        case Read(created, timestamp) =>
          At(s, p, if s.clock - timestamp >= period then Touching(created) else Leaving(created, false, s.clock))
        case Touching(created) =>
          At(s, p, Leaving(created, true, s.clock)).(mtime := s.clock)
        case Leaving(created, answer, at) =>
          At(s, p, Done).(holder := None, returned := s.returned + [Return(created, answer, at)])
        case Done => At(s, p, Start)  // the process calls again
  }

  function After(period: int, s: State, actions: seq<Action>): State
    decreases |actions|
  {
    if actions == [] then s else After(period, Do(period, s, actions[0]), actions[1..])
  }

  predicate HoldsFlock(pc: Pc) {
    pc.Locked? || pc.Ready? || pc.Read? || pc.Touching? || pc.Leaving?
  }

  predicate IsCreator(pc: Pc) {
    pc.Locked? || ((pc.Opened? || pc.Ready? || pc.Read? || pc.Touching? || pc.Leaving?) && pc.created)
  }

  ghost predicate OneHolder(s: State) {
    && (forall p :: p in s.pcs && HoldsFlock(s.pcs[p]) ==> s.holder == Some(p))
    && (s.holder.Some? ==> s.holder.value in s.pcs && HoldsFlock(s.pcs[s.holder.value]))
  }

  /** The flock has one holder, and what the holder has read is still there. */
  ghost predicate FlockInv(s: State) {
    && OneHolder(s)
    && (forall p :: p in s.pcs && s.pcs[p].Read? ==> s.pcs[p].timestamp == s.mtime)
  }

  // ---------- A file that does not exist yet ----------

  ghost predicate Fresh(period: int, s: State) {
    && !s.present && s.holder == None && s.returned == []
    && (forall p :: p in s.pcs ==> s.pcs[p] == Start)
    && 0 < period <= s.clock
  }

  /** Every step that follows the creation falls within one period of it. */
  predicate StaysWithin(period: int, s: State, actions: seq<Action>)
    decreases |actions|
  {
    && (s.present ==> s.clock < s.createdAt + period)
    && (actions == [] || StaysWithin(period, Do(period, s, actions[0]), actions[1..]))
  }

  /** How far the creator has come: it has not reset the time yet, it has reset it
      and not touched the file yet, or it has touched it. */
  datatype Phase = NoFile | Untouched | Reset | Touched

  ghost predicate CreatorReturned(s: State) {
    exists i | 0 <= i < |s.returned| :: s.returned[i].created
  }

  ghost predicate InPhase(s: State, phase: Phase, creator: Process) {
    && (forall p :: p in s.pcs && IsCreator(s.pcs[p]) ==> p == creator)
    && (phase != NoFile ==> s.present && creator in s.pcs)
    && match phase
       case NoFile => !s.present && s.returned == [] && forall p :: p in s.pcs ==> s.pcs[p] == Start
       case Untouched =>
         && s.mtime == s.createdAt && !CreatorReturned(s)
         && (s.pcs[creator] == Opened(true) || s.pcs[creator] == Locked)
       case Reset =>
         && s.mtime == 0 && !CreatorReturned(s)
         && (s.pcs[creator] == Ready(true) || s.pcs[creator] == Read(true, 0) || s.pcs[creator] == Touching(true))
       case Touched =>
         && s.mtime >= s.createdAt
         && (IsCreator(s.pcs[creator]) ==> s.pcs[creator].Leaving? && s.pcs[creator].answer)
         && (CreatorReturned(s) <==> !IsCreator(s.pcs[creator]))
  }

  ghost predicate FreshInv(period: int, s: State, phase: Phase, creator: Process) {
    && FlockInv(s) && InPhase(s, phase, creator)
    && 0 < period <= s.clock && (s.present ==> s.createdAt <= s.clock)
    && (forall p :: p in s.pcs && !IsCreator(s.pcs[p]) ==>
          !s.pcs[p].Touching? && (s.pcs[p].Leaving? ==> !s.pcs[p].answer))
    && (forall i | 0 <= i < |s.returned| :: s.returned[i].created == s.returned[i].answer)
    && (forall i, j | 0 <= i < j < |s.returned| :: !(s.returned[i].created && s.returned[j].created))
  }

  lemma FreshOpen(period: int, s: State, p: Process, phase: Phase, creator: Process)
    returns (phase': Phase, creator': Process)
    requires FreshInv(period, s, phase, creator)
    requires p in s.pcs && (s.pcs[p].Start? || s.pcs[p].Reopen? || s.pcs[p].Opened? || s.pcs[p].Done?)
    ensures FreshInv(period, Do(period, s, Go(p)), phase', creator')
  {
    phase', creator' := phase, creator;
    if !s.present {
      phase', creator' := Untouched, p;
      assert s.pcs[p].Start?;
    }
  }

  lemma FreshLocked(period: int, s: State, p: Process, phase: Phase, creator: Process) returns (phase': Phase)
    requires FreshInv(period, s, phase, creator) && (s.present ==> s.clock < s.createdAt + period)
    requires p in s.pcs && (s.pcs[p].Locked? || s.pcs[p].Ready? || s.pcs[p].Read? || s.pcs[p].Touching?)
    ensures FreshInv(period, Do(period, s, Go(p)), phase', creator)
  {
    phase' := if s.pcs[p].Locked? then Reset else if s.pcs[p].Touching? then Touched else phase;
  }

  lemma FreshReturn(period: int, s: State, p: Process, phase: Phase, creator: Process)
    requires FreshInv(period, s, phase, creator)
    requires p in s.pcs && s.pcs[p].Leaving?
    ensures FreshInv(period, Do(period, s, Go(p)), phase, creator)
  {
    var s' := Do(period, s, Go(p));
    var n := |s.returned|;
    assert s'.returned[n].created == s.pcs[p].created;
    assert forall i | 0 <= i < n :: s'.returned[i] == s.returned[i];
    if CreatorReturned(s) {
      var i :| 0 <= i < n && s.returned[i].created;
      assert s'.returned[i].created;
    }
  }

  lemma FreshStep(period: int, s: State, a: Action, phase: Phase, creator: Process)
    returns (phase': Phase, creator': Process)
    requires FreshInv(period, s, phase, creator) && (s.present ==> s.clock < s.createdAt + period)
    ensures FreshInv(period, Do(period, s, a), phase', creator')
  {
    phase', creator' := phase, creator;
    if a.Go? && a.process in s.pcs {
      var pc := s.pcs[a.process];
      if pc.Leaving? {
        FreshReturn(period, s, a.process, phase, creator);
      } else if HoldsFlock(pc) {
        phase' := FreshLocked(period, s, a.process, phase, creator);
      } else {
        phase', creator' := FreshOpen(period, s, a.process, phase, creator);
      }
    }
  }

  lemma {:induction false} FreshRun(period: int, s: State, actions: seq<Action>, phase: Phase, creator: Process)
    returns (phase': Phase, creator': Process)
    requires FreshInv(period, s, phase, creator) && StaysWithin(period, s, actions)
    ensures FreshInv(period, After(period, s, actions), phase', creator')
    decreases |actions|
  {
    phase', creator' := phase, creator;
    if actions != [] {
      phase', creator' := FreshStep(period, s, actions[0], phase, creator);
      phase', creator' := FreshRun(period, Do(period, s, actions[0]), actions[1..], phase', creator');
    }
  }

  /** While one period has not passed since the creation, in every interleaving: a call is
      accepted exactly when it created the file, and no two calls are. So exactly one is
      as soon as the creator's call has returned. */
  lemma FreshFileRace(period: int, s: State, actions: seq<Action>)
    requires Fresh(period, s) && StaysWithin(period, s, actions)
    ensures var r := After(period, s, actions).returned;
            && (forall i | 0 <= i < |r| :: r[i].answer <==> r[i].created)
            && (forall i, j | 0 <= i < |r| && 0 <= j < |r| && r[i].answer && r[j].answer :: i == j)
  {
    var phase, creator := FreshRun(period, s, actions, NoFile, 0);
  }

  // ---------- A file that exists ----------

  ghost predicate Existing(s: State) {
    && s.present && s.holder == None && s.returned == []
    && (forall p :: p in s.pcs ==> s.pcs[p] == Start)
    && s.mtime <= s.clock
  }

  /** Each accepted call touched the file at least one period after the accepted calls before it. */
  ghost predicate Apart(period: int, returned: seq<Return>) {
    forall i, j | 0 <= i < j < |returned| && returned[i].answer && returned[j].answer ::
      returned[j].at >= returned[i].at + period
  }

  /** And after the time the file had at the start. */
  ghost predicate Spaced(period: int, first: int, returned: seq<Return>) {
    && (forall i | 0 <= i < |returned| && returned[i].answer :: returned[i].at >= first + period)
    && Apart(period, returned)
  }

  ghost predicate AcceptedBy(returned: seq<Return>, t: int) {
    forall i | 0 <= i < |returned| && returned[i].answer :: returned[i].at <= t
  }

  /** Kept by every step that does not reset the time. */
  ghost predicate SpacedInv(period: int, first: int, s: State) {
    && s.present && FlockInv(s) && first <= s.mtime <= s.clock
    && (forall p :: p in s.pcs && s.pcs[p].Touching? ==> s.clock - s.mtime >= period)
    && (forall p :: p in s.pcs && s.pcs[p].Leaving? && s.pcs[p].answer ==>
          s.pcs[p].at == s.mtime >= first + period && AcceptedBy(s.returned, s.mtime - period))
    && AcceptedBy(s.returned, s.mtime)
    && Spaced(period, first, s.returned)
  }

  predicate Resets(s: State, a: Action) {
    a.Go? && a.process in s.pcs && s.pcs[a.process].Locked?
  }

  lemma SpacedStep(period: int, first: int, s: State, a: Action)
    requires SpacedInv(period, first, s) && !Resets(s, a)
    ensures SpacedInv(period, first, Do(period, s, a))
  {
    if a.Go? && a.process in s.pcs {
      var pc := s.pcs[a.process];
      if pc.Touching? {
        SpacedTouch(period, first, s, a.process);
      } else if pc.Leaving? {
        SpacedReturn(period, first, s, a.process);
      } else {
        SpacedMove(period, first, s, a.process);
      }
    }
  }

  lemma SpacedMove(period: int, first: int, s: State, p: Process)
    requires SpacedInv(period, first, s) && p in s.pcs && !s.pcs[p].Touching? && !s.pcs[p].Leaving? && !s.pcs[p].Locked?
    ensures SpacedInv(period, first, Do(period, s, Go(p)))
  {
    var s' := Do(period, s, Go(p));
    assert s'.returned == s.returned && s'.mtime == s.mtime && s'.clock == s.clock;
  }

  lemma SpacedTouch(period: int, first: int, s: State, p: Process)
    requires SpacedInv(period, first, s) && p in s.pcs && s.pcs[p].Touching?
    ensures SpacedInv(period, first, Do(period, s, Go(p)))
  {
    assert AcceptedBy(s.returned, s.clock - period);
  }

  lemma SpacedReturn(period: int, first: int, s: State, p: Process)
    requires SpacedInv(period, first, s) && p in s.pcs && s.pcs[p].Leaving?
    ensures SpacedInv(period, first, Do(period, s, Go(p)))
  {
    var last := Return(s.pcs[p].created, s.pcs[p].answer, s.pcs[p].at);
    var r := s.returned + [last];
    assert forall i | 0 <= i < |s.returned| :: r[i] == s.returned[i];
    assert Spaced(period, first, r);
  }

  /** A call that created the file and has not reset its time yet. */
  predicate WillReset(pc: Pc) { pc == Opened(true) || pc.Locked? }

  ghost predicate NobodyResets(s: State) {
    forall p :: p in s.pcs ==> !WillReset(s.pcs[p])
  }

  lemma NobodyResetsStep(period: int, s: State, a: Action)
    requires s.present && NobodyResets(s)
    ensures NobodyResets(Do(period, s, a)) && !Resets(s, a)
  {
  }

  lemma {:induction false} SpacedRun(period: int, first: int, s: State, actions: seq<Action>)
    requires SpacedInv(period, first, s) && NobodyResets(s)
    ensures SpacedInv(period, first, After(period, s, actions))
    decreases |actions|
  {
    if actions != [] {
      NobodyResetsStep(period, s, actions[0]);
      SpacedStep(period, first, s, actions[0]);
      SpacedRun(period, first, Do(period, s, actions[0]), actions[1..]);
    }
  }

  /** Over every interleaving of calls on an existing file the accepted calls keep
      the minimum period. */
  lemma AcceptedCallsAreSpaced(period: int, s: State, actions: seq<Action>)
    requires Existing(s)
    ensures Spaced(period, s.mtime, After(period, s, actions).returned)
  {
    SpacedRun(period, s.mtime, s, actions);
  }

  // ---------- A file that is new, and a creator that is not held up ----------

  /** Whoever resets the time does so before one period has passed since the creation. */
  predicate ResetsInTime(period: int, s: State, actions: seq<Action>)
    decreases |actions|
  {
    actions == [] ||
    ((Resets(s, actions[0]) ==> s.clock < s.createdAt + period) &&
     ResetsInTime(period, Do(period, s, actions[0]), actions[1..]))
  }

  ghost predicate OnlyResets(s: State, creator: Process) {
    forall p :: p in s.pcs && WillReset(s.pcs[p]) ==> p == creator
  }

  /** No call has been accepted yet, and the creator with the flock is the next to be. */
  ghost predicate AboutToAccept(period: int, s: State, creator: Process) {
    && s.present && FlockInv(s) && NobodyResets(s) && creator in s.pcs
    && s.mtime == 0 && 0 < period <= s.clock
    && (s.pcs[creator] == Ready(true) || s.pcs[creator] == Read(true, 0) || s.pcs[creator] == Touching(true))
    && forall i | 0 <= i < |s.returned| :: !s.returned[i].answer
  }

  lemma ResetStep(period: int, s: State, p: Process)
    requires SpacedInv(period, s.createdAt, s) && Resets(s, Go(p)) && OnlyResets(s, p)
    requires s.clock < s.createdAt + period && 0 < period <= s.clock
    ensures AboutToAccept(period, Do(period, s, Go(p)), p)
  {
    assert forall i | 0 <= i < |s.returned| && s.returned[i].answer :: s.returned[i].at >= s.createdAt + period;
  }

  lemma AcceptStep(period: int, s: State, a: Action, creator: Process)
    requires AboutToAccept(period, s, creator)
    ensures var s' := Do(period, s, a);
            if a == Go(creator) && s.pcs[creator].Touching? then SpacedInv(period, s.clock - period, s') && NobodyResets(s')
            else AboutToAccept(period, s', creator)
  {
    if a == Go(creator) && s.pcs[creator].Touching? {
      AcceptTouches(period, s, creator);
    } else if a.Go? && a.process in s.pcs && a.process != creator {
      assert !HoldsFlock(s.pcs[a.process]);
    }
  }

  lemma AcceptTouches(period: int, s: State, creator: Process)
    requires AboutToAccept(period, s, creator) && s.pcs[creator].Touching?
    ensures var s' := Do(period, s, Go(creator)); SpacedInv(period, s.clock - period, s') && NobodyResets(s')
  {
    assert forall p :: p in s.pcs && p != creator ==> !HoldsFlock(s.pcs[p]);
  }

  lemma {:induction false} AcceptRun(period: int, s: State, actions: seq<Action>, creator: Process)
    requires AboutToAccept(period, s, creator)
    ensures Apart(period, After(period, s, actions).returned)
    decreases |actions|
  {
    if actions != [] {
      var next := Do(period, s, actions[0]);
      AcceptStep(period, s, actions[0], creator);
      if actions[0] == Go(creator) && s.pcs[creator].Touching? {
        SpacedRun(period, s.clock - period, next, actions[1..]);
      } else {
        AcceptRun(period, next, actions[1..], creator);
      }
    }
  }

  lemma OnlyResetsStep(period: int, s: State, a: Action, creator: Process)
    requires s.present && OnlyResets(s, creator) && !Resets(s, a)
    ensures var s' := Do(period, s, a);
            OnlyResets(s', creator) && s'.createdAt == s.createdAt && s'.clock >= s.clock
  {
  }

  lemma {:induction false} CreatedRun(period: int, s: State, actions: seq<Action>, creator: Process)
    requires SpacedInv(period, s.createdAt, s) && OnlyResets(s, creator)
    requires 0 < period <= s.clock && ResetsInTime(period, s, actions)
    ensures Apart(period, After(period, s, actions).returned)
    decreases |actions|
  {
    if actions != [] {
      var next := Do(period, s, actions[0]);
      if Resets(s, actions[0]) {
        ResetStep(period, s, actions[0].process);
        AcceptRun(period, next, actions[1..], actions[0].process);
      } else {
        SpacedStep(period, s.createdAt, s, actions[0]);
        OnlyResetsStep(period, s, actions[0], creator);
        CreatedRun(period, next, actions[1..], creator);
      }
    }
  }

  /** When the file is new, and the call that creates it resets the time before one period has
      passed, the minimum period is kept over runs of any length. */
  lemma {:induction false} PromptCreatorKeepsSpacing(period: int, s: State, actions: seq<Action>)
    requires Fresh(period, s) && ResetsInTime(period, s, actions)
    ensures Apart(period, After(period, s, actions).returned)
    decreases |actions|
  {
    if actions != [] {
      var next := Do(period, s, actions[0]);
      if next.present {
        CreatedRun(period, next, actions[1..], actions[0].process);
      } else {
        PromptCreatorKeepsSpacing(period, next, actions[1..]);
      }
    }
  }

  // ---------- Between the check and the ping ----------

  ghost predicate Idle(s: State) {
    s.holder == None && forall p :: p in s.pcs ==> s.pcs[p] == Start
  }

  lemma FlockStep(period: int, s: State, a: Action)
    requires OneHolder(s)
    ensures OneHolder(Do(period, s, a))
  {
  }

  lemma {:induction false} FlockRun(period: int, s: State, actions: seq<Action>)
    requires OneHolder(s)
    ensures OneHolder(After(period, s, actions))
    decreases |actions|
  {
    if actions != [] {
      FlockStep(period, s, actions[0]);
      FlockRun(period, Do(period, s, actions[0]), actions[1..]);
    }
  }

  /** At the k-th action `p` reads the time it will compare with the clock. */
  predicate Checks(period: int, s: State, actions: seq<Action>, k: nat, p: Process) {
    k < |actions| && actions[k] == Go(p) && p in s.pcs && PcAt(period, s, actions, k, p).Ready?
  }

  /** At the k-th action `p`, having found that it is ready, touches the file. */
  predicate Pings(period: int, s: State, actions: seq<Action>, k: nat, p: Process) {
    k < |actions| && actions[k] == Go(p) && p in s.pcs && PcAt(period, s, actions, k, p).Touching?
  }

  lemma {:induction false} SameProcesses(period: int, s: State, actions: seq<Action>)
    ensures After(period, s, actions).pcs.Keys == s.pcs.Keys
    decreases |actions|
  {
    if actions != [] { SameProcesses(period, Do(period, s, actions[0]), actions[1..]); }
  }

  function PcAt(period: int, s: State, actions: seq<Action>, k: nat, p: Process): Pc
    requires k <= |actions| && p in s.pcs
  {
    SameProcesses(period, s, actions[..k]);
    After(period, s, actions[..k]).pcs[p]
  }

  lemma OneStep(period: int, s: State, actions: seq<Action>, k: nat)
    requires k < |actions|
    ensures After(period, s, actions[..k + 1]) == Do(period, After(period, s, actions[..k]), actions[k])
  {
    AfterJoin(period, s, actions[..k], [actions[k]]);
    assert actions[..k + 1] == actions[..k] + [actions[k]] && [actions[k]][1..] == [];
    assert After(period, Do(period, After(period, s, actions[..k]), actions[k]), []) == Do(period, After(period, s, actions[..k]), actions[k]);
  }

  /** From its check to its ping a call stays between them. */
  lemma {:induction false} StaysBetween(period: int, s: State, actions: seq<Action>, m: nat, n: nat, k: nat, p: Process)
    requires m < n <= k < |actions| && p in s.pcs && Pings(period, s, actions, k, p)
    requires forall i | m < i < k :: !Checks(period, s, actions, i, p)
    ensures PcAt(period, s, actions, n, p).Read? || PcAt(period, s, actions, n, p).Touching?
    decreases k - n
  {
    if n < k {
      StaysBetween(period, s, actions, m, n + 1, k, p);
      OneStep(period, s, actions, n);
      assert !Checks(period, s, actions, n, p);
    }
  }

  /** One accepted call of `p`: its check at `m`, its ping at `k`. */
  ghost predicate AcceptedCall(period: int, s: State, actions: seq<Action>, m: nat, k: nat, p: Process) {
    && m < k && Checks(period, s, actions, m, p) && Pings(period, s, actions, k, p)
    && forall i | m < i < k :: !Checks(period, s, actions, i, p)
  }

  /** No process checks the time between the check of an accepted call and its ping. */
  lemma NoCheckBeforeThePing(period: int, s: State, actions: seq<Action>, m: nat, k: nat, p: Process, n: nat, q: Process)
    requires Idle(s) && p in s.pcs && q in s.pcs && AcceptedCall(period, s, actions, m, k, p)
    ensures m < n < k ==> !Checks(period, s, actions, n, q)
  {
    if m < n < k {
      StaysBetween(period, s, actions, m, n, k, p);
      FlockRun(period, s, actions[..n]);
      SameProcesses(period, s, actions[..n]);
      assert After(period, s, actions[..n]).holder == Some(p);
    }
  }

  /** Of two accepted calls, of any processes and in any interleaving, from any file, one has
      pinged before the other checks. */
  lemma AcceptedCallsAreSerial(
    period: int, s: State, actions: seq<Action>, m: nat, k: nat, p: Process, n: nat, l: nat, q: Process
  )
    requires Idle(s) && p in s.pcs && q in s.pcs && (m, p) != (n, q)
    requires AcceptedCall(period, s, actions, m, k, p) && AcceptedCall(period, s, actions, n, l, q)
    ensures k < n || l < m
  {
    NoCheckBeforeThePing(period, s, actions, m, k, p, n, q);
    NoCheckBeforeThePing(period, s, actions, n, l, q, m, p);
  }

  // ---------- Why the two cases are apart ----------

  /** The steps of one process in a row. */
  function Turn(period: int, s: State, p: Process, n: nat): State
    decreases n
  {
    if n == 0 then s else Turn(period, Do(period, s, Go(p)), p, n - 1)
  }

  function Repeat(a: Action, n: nat): seq<Action> {
    if n == 0 then [] else [a] + Repeat(a, n - 1)
  }

  lemma {:induction false} TurnIsRun(period: int, s: State, p: Process, n: nat)
    ensures After(period, s, Repeat(Go(p), n)) == Turn(period, s, p, n)
    decreases n
  {
    if n > 0 { TurnIsRun(period, Do(period, s, Go(p)), p, n - 1); }
  }

  lemma {:induction false} AfterJoin(period: int, s: State, a: seq<Action>, b: seq<Action>)
    ensures After(period, s, a + b) == After(period, After(period, s, a), b)
    decreases |a|
  {
    if a == [] {
      assert a + b == b;
    } else {
      assert (a + b)[1..] == a[1..] + b;
      AfterJoin(period, Do(period, s, a[0]), a[1..], b);
    }
  }

  /** An undisturbed call that finds the file compares its time with the clock. */
  lemma UndisturbedCall(period: int, s: State, p: Process)
    requires s.present && s.holder == None && p in s.pcs && s.pcs[p] == Start
    ensures var ready := s.clock - s.mtime >= period;
            Turn(period, s, p, if ready then 7 else 6) ==
            At(s, p, Done).(mtime := if ready then s.clock else s.mtime,
                            returned := s.returned + [Return(false, ready, s.clock)])
  {
    var ready := s.clock - s.mtime >= period;
    var waiting := At(s, p, Opened(false));
    var read := At(s, p, Read(false, s.mtime)).(holder := Some(p));
    assert Do(period, Do(period, s, Go(p)), Go(p)) == waiting;
    assert Do(period, Do(period, waiting, Go(p)), Go(p)) == read;
    var next := Do(period, read, Go(p));
    var left := if ready then Do(period, next, Go(p)) else next;
    assert left == At(read, p, Leaving(false, ready, s.clock)).(mtime := if ready then s.clock else s.mtime);
    assert Do(period, left, Go(p)).pcs == s.pcs[p := Done];
    assert Turn(period, left, p, 1) == Do(period, left, Go(p)) by { assert Turn(period, Do(period, left, Go(p)), p, 0) == Do(period, left, Go(p)); }
    assert Turn(period, s, p, if ready then 7 else 6) == Turn(period, read, p, if ready then 3 else 2);
  }

  /** The call that created the file and waits for the flock resets the time first,
      so it is accepted whatever has happened since. */
  lemma UndisturbedCreator(period: int, s: State, p: Process)
    requires s.holder == None && p in s.pcs && s.pcs[p] == Opened(true) && s.clock >= period
    ensures Turn(period, s, p, 6) ==
            At(s, p, Done).(mtime := s.clock, returned := s.returned + [Return(true, true, s.clock)])
  {
    var read := At(s, p, Read(true, 0)).(holder := Some(p), mtime := 0);
    assert Do(period, Do(period, Do(period, s, Go(p)), Go(p)), Go(p)) == read;
    var left := At(read, p, Leaving(true, true, s.clock)).(mtime := s.clock);
    assert Do(period, Do(period, read, Go(p)), Go(p)) == left;
    assert Do(period, left, Go(p)).pcs == s.pcs[p := Done];
    assert Turn(period, left, p, 1) == Do(period, left, Go(p)) by { assert Turn(period, Do(period, left, Go(p)), p, 0) == Do(period, left, Go(p)); }
    assert Turn(period, s, p, 6) == Turn(period, read, p, 3);
  }

  /** The limiter is not slower than it must be: from every idle state with a file, for every n, one process
      is accepted n times in a row, each time exactly one period after the time that the file has. */
  lemma {:induction false} CallsAreAccepted(period: int, s: State, p: Process, n: nat) returns (actions: seq<Action>)
    requires s.present && s.holder == None && p in s.pcs && s.pcs[p] == Start && period >= 0 && s.mtime <= s.clock <= s.mtime + period
    ensures var r := After(period, s, actions).returned;
            && |r| == |s.returned| + n && s.returned <= r
            && forall i | |s.returned| <= i < |r| :: r[i] == Return(false, true, s.mtime + period * (i - |s.returned| + 1))
    decreases n
  {
    if n == 0 {
      actions := [];
    } else {
      var due := s.(clock := s.mtime + period);
      var next := At(due, p, Start).(mtime := due.clock, returned := s.returned + [Return(false, true, due.clock)]);
      var rest := CallsAreAccepted(period, next, p, n - 1);
      var first := [Tick(s.mtime + period)] + Repeat(Go(p), 8);
      actions := first + rest;
      OneAccepted(period, s, p, first, due, next);
      AfterJoin(period, s, first, rest);
      var r := After(period, next, rest).returned;
      forall i | |s.returned| <= i < |r|
        ensures r[i] == Return(false, true, s.mtime + period * (i - |s.returned| + 1))
      {
        if i == |s.returned| { assert r[i] == next.returned[i]; }
        else { Distributes(period, i - |s.returned|); }
      }
    }
  }

  lemma Distributes(period: int, k: int)
    ensures period + period * k == period * (k + 1)
  {
  }

  lemma OneAccepted(period: int, s: State, p: Process, first: seq<Action>, due: State, next: State)
    requires s.present && s.holder == None && p in s.pcs && s.pcs[p] == Start && s.clock <= s.mtime + period
    requires due == s.(clock := s.mtime + period) && first == [Tick(s.mtime + period)] + Repeat(Go(p), 8)
    requires next == At(due, p, Start).(mtime := due.clock, returned := s.returned + [Return(false, true, due.clock)])
    ensures After(period, s, first) == next
  {
    assert first[1..] == Repeat(Go(p), 8);
    assert After(period, s, first) == After(period, due, Repeat(Go(p), 8));
    TurnIsRun(period, due, p, 8);
    UndisturbedCall(period, due, p);
    LastTurn(period, due, p, 7);
  }

  lemma {:induction false} LastTurn(period: int, s: State, p: Process, n: nat)
    ensures Turn(period, s, p, n + 1) == Do(period, Turn(period, s, p, n), Go(p))
    decreases n
  {
    if n > 0 { LastTurn(period, Do(period, s, Go(p)), p, n - 1); }
  }

  /** A creator that is held up for a whole period erases a ping made meanwhile: from every
      fresh state with two processes there is a run that accepts two calls at the same time. */
  lemma DelayedCreatorErasesAPing(period: int, s: State, p: Process, q: Process) returns (actions: seq<Action>)
    requires Fresh(period, s) && p in s.pcs && q in s.pcs && p != q
    ensures After(period, s, actions).returned ==
            [Return(false, true, s.clock + period), Return(true, true, s.clock + period)]
  {
    var first := [Go(p), Tick(s.clock + period)];
    actions := first + (Repeat(Go(q), 7) + Repeat(Go(p), 6));
    CreateAndWait(period, s, p, first);
    TwoTurns(period, s, first, q, 7, p, 6);
    PingThenReset(period, CreatedLongAgo(period, s, p), q, p);
  }

  /** Over all interleavings of two or more processes the minimum period is kept
      exactly when the file is there before the first call. */
  lemma SpacingNeedsTheFile(period: int, s: State, p: Process, q: Process)
    requires Existing(s) || Fresh(period, s)
    requires 0 < period && p in s.pcs && q in s.pcs && p != q
    ensures s.present <==> forall actions :: Apart(period, After(period, s, actions).returned)
  {
    if s.present {
      forall actions ensures Apart(period, After(period, s, actions).returned) {
        AcceptedCallsAreSpaced(period, s, actions);
      }
    } else {
      var actions := DelayedCreatorErasesAPing(period, s, p, q);
      var r := After(period, s, actions).returned;
      assert r[0].answer && r[1].answer && r[1].at < r[0].at + period;
      assert !Apart(period, r);
    }
  }

  lemma PingThenReset(period: int, s: State, q: Process, p: Process)
    requires s.present && s.holder == None && p in s.pcs && q in s.pcs && p != q
    requires s.pcs[q] == Start && s.pcs[p] == Opened(true) && s.clock - s.mtime >= period && s.clock >= period
    requires s.returned == []
    ensures Turn(period, Turn(period, s, q, 7), p, 6).returned ==
            [Return(false, true, s.clock), Return(true, true, s.clock)]
  {
    UndisturbedCall(period, s, q);
    UndisturbedCreator(period, Turn(period, s, q, 7), p);
  }

  /** One period after `p` created the file. */
  function CreatedLongAgo(period: int, s: State, p: Process): State {
    At(s, p, Opened(true)).(present := true, mtime := s.clock, createdAt := s.clock, clock := s.clock + period)
  }

  lemma CreateAndWait(period: int, s: State, p: Process, first: seq<Action>)
    requires !s.present && p in s.pcs && s.pcs[p] == Start && period >= 0
    requires first == [Go(p), Tick(s.clock + period)]
    ensures After(period, s, first) == CreatedLongAgo(period, s, p)
  {
    var late := CreatedLongAgo(period, s, p);
    var start := Do(period, s, Go(p));
    assert first[1..] == [Tick(s.clock + period)] && first[1..][1..] == [];
    assert Do(period, start, Tick(s.clock + period)) == late;
    assert After(period, late, []) == late;
  }

  lemma TwoTurns(period: int, s: State, first: seq<Action>, q: Process, m: nat, p: Process, n: nat)
    ensures After(period, s, first + (Repeat(Go(q), m) + Repeat(Go(p), n))) ==
            Turn(period, Turn(period, After(period, s, first), q, m), p, n)
  {
    var late := After(period, s, first);
    AfterJoin(period, s, first, Repeat(Go(q), m) + Repeat(Go(p), n));
    AfterJoin(period, late, Repeat(Go(q), m), Repeat(Go(p), n));
    TurnIsRun(period, late, q, m);
    TurnIsRun(period, Turn(period, late, q, m), p, n);
  }

  // ---------- The limiter, one call at a time ----------

  class TouchFile {
    var present: bool
    var mtime: int
  }

  class RateLimiter {
    const minimumPeriod: int
    const file: TouchFile?
    var timestamp: int

    /** The time of the last action as the next call will see it; the epoch when there is none. */
    function Stored(): int
      reads this, file
    {
      if file == null then timestamp else if file.present then file.mtime else 0
    }

    constructor (minimumPeriod: int, file: TouchFile?)
      ensures this.minimumPeriod == minimumPeriod && this.file == file
      ensures timestamp == Stored()
      ensures file == null || !file.present ==> timestamp == 0
    {
      this.minimumPeriod, this.file := minimumPeriod, file;
      timestamp := 0;
      new;
      Refresh();
    }

    method Refresh()
      modifies this
      ensures timestamp == Stored() == old(Stored())
      ensures file != null ==> timestamp == if file.present then file.mtime else 0
    {
      if file != null {
        timestamp := if file.present then file.mtime else 0;
      }
    }

    /** The lock is the limiter's own file: taking it creates the file, dated at the epoch. */
    method TakeLock()
      modifies file
      ensures Stored() == old(Stored()) && (file != null ==> file.present)
      ensures file != null ==> file.mtime == if old(file.present) then old(file.mtime) else 0
    {
      if file != null && !file.present {
        file.present := true;
        file.mtime := 0;
      }
    }

    method Touch(now: int)
      modifies this, file
      ensures Stored() == timestamp == now && (file != null ==> file.present)
    {
      if file == null {
        timestamp := now;
      } else {
        file.present := true;
        file.mtime := now;
        Refresh();
      }
    }

    method Ping(now: int)
      modifies this, file
      ensures Stored() == timestamp == now && (file != null ==> file.present)
    {
      TakeLock();
      Touch(now);
    }

    /** The clock is read once for the decision, and again for the time that is kept. */
    method PingIfReady(now: int, later: int) returns (ready: bool)
      requires now <= later
      modifies this, file
      ensures ready <==> now - old(Stored()) >= minimumPeriod
      ensures Stored() == timestamp == if ready then later else old(Stored())
      ensures ready ==> Stored() - old(Stored()) >= minimumPeriod
      ensures file != null ==> file.present
    {
      TakeLock();
      Refresh();
      ready := now - timestamp >= minimumPeriod;
      if ready { Touch(later); }
    }

    method IsReady(now: int) returns (ready: bool)
      modifies this
      ensures ready <==> now - Stored() >= minimumPeriod
      ensures Stored() == timestamp == old(Stored())
    {
      Refresh();
      ready := now - timestamp >= minimumPeriod;
    }
  }
}
