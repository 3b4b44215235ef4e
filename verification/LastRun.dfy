/** `RunPredicate` and `LastRun.wrap`: when a job may run again, and what a run records. */
module LastRunPolicy {
  import opened Wrappers
  import opened History

  datatype OnMaxFailures = Ignore | Stall | SuccessSchedule | Unexpected

  /** Periods and times are ticks of one clock. */
  datatype Policy = Policy(
    successPeriod: int,
    neutralPeriod: int,
    failurePeriod: int,
    maxFailures: int,
    onMaxFailures: OnMaxFailures
  )

  function Period(c: Policy, outcome: Outcome): int {
    match outcome
    case Success => c.successPeriod
    case Neutral => c.neutralPeriod
    case Failure => c.failurePeriod
  }

  function LastFinished(entries: seq<Entry>): Option<Entry> { FindLast(FINISHED, entries) }

  function LastSuccess(entries: seq<Entry>): Option<Entry> { FindLast(With(Success), entries) }

  predicate Capped(c: Policy, entries: seq<Entry>) {
    CappedAt(c, Failures(entries))
  }

  predicate CappedAt(c: Policy, failures: nat) {
    c.onMaxFailures != Ignore && failures >= c.maxFailures
  }

  /** What `_predicate` makes of the three things that it reads. */
  predicate Decide(c: Policy, now: int, finished: Option<Entry>, failures: nat, success: Option<Entry>)
    requires finished.Some? ==> finished.value.Finished?
  {
    match finished
    case None => true
    case Some(last) =>
      if last.outcome != Failure || !CappedAt(c, failures) then now - last.at > Period(c, last.outcome)
      else c.onMaxFailures == SuccessSchedule && success.Some? && now - success.value.at > c.successPeriod
  }

  /** `_predicate`. */
  predicate MayRun(c: Policy, now: int, entries: seq<Entry>) {
    Decide(c, now, LastFinished(entries), Failures(entries), LastSuccess(entries))
  }

  /** When `_predicate` reports an error: the job stalls, or the policy is not one it knows. */
  predicate ReportsError(c: Policy, entries: seq<Entry>) {
    && LastFinished(entries).Some? && LastFinished(entries).value.outcome == Failure && Capped(c, entries)
    && !(c.onMaxFailures == SuccessSchedule && LastSuccess(entries).Some?)
  }

  /** `_predicate` refreshes from the file for each of the three things that it reads, while other
      processes go on. Since it holds the lock meanwhile, it decides as if it had read all three at once. */
  lemma PredicateReadsOneLog(
    c: Policy, now: int, max: nat, g: Guarded, p: Process, first: seq<Event>, second: seq<Event>, third: seq<Event>
  )
    requires g.holder == None && p in g.shared.caches
    requires OnlyQueries(p, first) && OnlyQueries(p, second) && OnlyQueries(p, third)
    ensures var g1 := AfterEvents(max, React(max, g, Lock(p)), first);
            var g2 := AfterEvents(max, React(max, g1, Locked(Query(p))), second);
            var g3 := AfterEvents(max, React(max, g2, Locked(Query(p))), third);
            && p in g1.shared.caches && p in g2.shared.caches && p in g3.shared.caches
            && Decide(c, now, LastFinished(Seen(max, g1, p)), Failures(Seen(max, g2, p)), LastSuccess(Seen(max, g3, p)))
               == MayRun(c, now, Seen(max, g, p))
  {
    var g0 := React(max, g, Lock(p));
    var query := Locked(Query(p));
    OneSnapshot(max, g0, first, p);
    var g1 := AfterEvents(max, g0, first);
    SnapshotStep(max, g1, query, p);
    OneSnapshot(max, React(max, g1, query), second, p);
    var g2 := AfterEvents(max, React(max, g1, query), second);
    SnapshotStep(max, g2, query, p);
    OneSnapshot(max, React(max, g2, query), third, p);
  }

  /** Which period follows which outcome, and what counts past the cap. */
  lemma PeriodsFollowOutcomes(c: Policy, now: int, entries: seq<Entry>)
    ensures LastFinished(entries) == None ==> MayRun(c, now, entries)
    ensures LastFinished(entries).Some? ==>
            var last := LastFinished(entries).value;
            var failed := last.outcome == Failure;
            var capped := c.onMaxFailures != Ignore && Failures(entries) >= c.maxFailures;
            && (last.outcome == Success ==> (MayRun(c, now, entries) <==> now - last.at > c.successPeriod))
            && (last.outcome == Neutral ==> (MayRun(c, now, entries) <==> now - last.at > c.neutralPeriod))
            && (failed && !capped ==> (MayRun(c, now, entries) <==> now - last.at > c.failurePeriod))
            && (failed && capped ==>
                  (MayRun(c, now, entries) <==>
                   c.onMaxFailures == SuccessSchedule && LastSuccess(entries).Some?
                   && now - LastSuccess(entries).value.at > c.successPeriod))
  {
  }

  /** An error is reported exactly for a history after which the job never runs again. */
  lemma ErrorsMeanNever(c: Policy, entries: seq<Entry>)
    ensures ReportsError(c, entries) <==> forall now :: !MayRun(c, now, entries)
  {
    if !ReportsError(c, entries) {
      var now := match LastFinished(entries)
        case None => 0
        case Some(last) =>
          if last.outcome == Failure && Capped(c, entries) then LastSuccess(entries).value.at + c.successPeriod + 1
          else last.at + Period(c, last.outcome) + 1;
      assert MayRun(c, now, entries);
    }
  }

  // ---------- The predicate object ----------

  class RunPredicate {
    const policy: Policy
    var forced: Option<bool>  // `_next_return_value`
    var reports: nat          // errors logged and sent to the health check

    constructor (policy: Policy)
      ensures this.policy == policy && forced == None && reports == 0
    {
      this.policy, forced, reports := policy, None, 0;
    }

    method ForceNextReturnValue(value: bool)
      modifies this
      ensures forced == Some(value) && reports == old(reports)
    {
      forced := Some(value);
    }

    method UnsetNextReturnValue()
      modifies this
      ensures forced == None && reports == old(reports)
    {
      forced := None;
    }

    method Evaluate(now: int, history: LastRunHistory) returns (result: bool)
      modifies this, history
      ensures history.Now() == old(history.Now()) && forced == old(forced)
      ensures result == MayRun(policy, now, history.Now())
      ensures reports == old(reports) + if ReportsError(policy, history.Now()) then 1 else 0
    {
      var last := history.FindLastEntry(FINISHED);
      if last.None? { return true; }
      if last.value.outcome == Success { return now - last.value.at > policy.successPeriod; }
      if last.value.outcome == Neutral { return now - last.value.at > policy.neutralPeriod; }
      var n := history.NFailuresSinceLastSuccess();
      if n < policy.maxFailures || policy.onMaxFailures == Ignore {
        return now - last.value.at > policy.failurePeriod;
      }
      var success := history.FindLastEntry(With(Success));
      if policy.onMaxFailures == Stall || success.None? {
        reports := reports + 1;
        return false;
      }
      if policy.onMaxFailures == SuccessSchedule {
        return now - success.value.at > policy.successPeriod;
      }
      reports := reports + 1;
      result := false;
    }

    /** A forced value answers one call, whatever the history says, and is then gone. */
    method Call(now: int, history: LastRunHistory) returns (result: bool)
      modifies this, history
      ensures history.Now() == old(history.Now()) && forced == None
      ensures result == if old(forced).Some? then old(forced).value else MayRun(policy, now, history.Now())
    {
      if forced.Some? {
        result := forced.value;
        forced := None;
        return;
      }
      result := Evaluate(now, history);
    }
  }

  // ---------- One wrapped call ----------

  /** How the job ends: a returned or a raised value. */
  datatype JobEnd<R> = Returned(value: R) | Raised(error: int)

  datatype CallEnd<R> = Skipped | Value(value: R) | Suppressed | Escaped(error: int)

  /** One call: the clock when the predicate is asked, and before and after the job;
      a value that was forced; and what `assess_result` says of the end of the job. */
  datatype Attempt = Attempt(
    now: int,
    startedAt: int,
    finishedAt: int,
    forced: Option<bool>,
    outcome: Outcome,
    details: string
  )

  predicate Runs(c: Policy, entries: seq<Entry>, a: Attempt) {
    if a.forced.Some? then a.forced.value else MayRun(c, a.now, entries)
  }

  function Bracket(a: Attempt): seq<Entry> {
    [Started(a.startedAt), Finished(a.finishedAt, a.outcome, a.details)]
  }

  class LastRun {
    const history: LastRunHistory

    constructor (maxEntries: nat, file: HistoryFile?)
      ensures fresh(history) && history.maxEntries == maxEntries && history.file == file
    {
      history := new LastRunHistory(maxEntries, file);
    }

    /** The wrapper. Nothing else writes the file meanwhile, and `assess` is total. */
    method Call<R>(
      shouldRun: RunPredicate,
      now: int, startedAt: int, finishedAt: int,
      job: JobEnd<R>,
      assess: JobEnd<R> -> (Outcome, string)
    ) returns (end: CallEnd<R>, ghost attempt: Attempt)
      modifies shouldRun, history, history.file
      ensures attempt == Attempt(now, startedAt, finishedAt, old(shouldRun.forced), assess(job).0, assess(job).1)
      ensures shouldRun.forced == None
      ensures end.Skipped? <==> !Runs(shouldRun.policy, old(history.Now()), attempt)
      ensures history.Now() ==
              if end.Skipped? then old(history.Now())
              else Suffix(old(history.Now()) + [Started(startedAt), Finished(finishedAt, assess(job).0, assess(job).1)],
                          history.maxEntries)
      ensures end.Escaped? <==> !end.Skipped? && job.Raised? && attempt.outcome == Failure
      ensures end.Suppressed? <==> !end.Skipped? && job.Raised? && attempt.outcome != Failure
      ensures end.Value? ==> job == Returned(end.value)
      ensures end.Escaped? ==> job == Raised(end.error)
    {
      var (outcome, details) := assess(job);
      attempt := Attempt(now, startedAt, finishedAt, shouldRun.forced, outcome, details);
      var run := shouldRun.Call(now, history);
      if !run { return Skipped, attempt; }
      ghost var before := history.Now();
      history.Append(Started(startedAt));
      end := match job
        case Returned(value) => Value(value)
        case Raised(error) => if outcome == Failure then Escaped(error) else Suppressed;
      history.Append(Finished(finishedAt, outcome, details));
      SuffixOfAppend(before + [Started(startedAt)], [Finished(finishedAt, outcome, details)], history.maxEntries);
      assert before + [Started(startedAt)] + [Finished(finishedAt, outcome, details)] == before + Bracket(attempt);
    }
  }

  // ---------- Runs of one scheduler ----------

  /** The full log after one more call. The history keeps the end of it. */
  function AfterAttempt(c: Policy, max: nat, log: seq<Entry>, a: Attempt): seq<Entry> {
    if Runs(c, Suffix(log, max), a) then log + Bracket(a) else log
  }

  function AfterAttempts(c: Policy, max: nat, log: seq<Entry>, attempts: seq<Attempt>): seq<Entry>
    decreases |attempts|
  {
    if attempts == [] then log
    else AfterAttempts(c, max, AfterAttempt(c, max, log, attempts[0]), attempts[1..])
  }

  /** A history that holds the end of the log goes on holding it. */
  lemma KeptIsSuffix(c: Policy, max: nat, log: seq<Entry>, a: Attempt, kept: seq<Entry>)
    requires kept == if Runs(c, Suffix(log, max), a) then Suffix(Suffix(log, max) + Bracket(a), max) else Suffix(log, max)
    ensures kept == Suffix(AfterAttempt(c, max, log, a), max)
  {
    SuffixOfAppend(log, Bracket(a), max);
  }

  /** (started finished)*, the shape of every log. */
  ghost predicate Bracketed(log: seq<Entry>) {
    log == [] ||
    (|log| >= 2 && log[|log| - 2].Started? && log[|log| - 1].Finished? && Bracketed(log[..|log| - 2]))
  }

  lemma {:induction false} LogIsBracketed(c: Policy, max: nat, log: seq<Entry>, attempts: seq<Attempt>)
    requires Bracketed(log)
    ensures Bracketed(AfterAttempts(c, max, log, attempts))
    ensures log <= AfterAttempts(c, max, log, attempts)
    decreases |attempts|
  {
    if attempts != [] {
      assert (log + Bracket(attempts[0]))[..|log|] == log;
      LogIsBracketed(c, max, AfterAttempt(c, max, log, attempts[0]), attempts[1..]);
    }
  }

  // ---------- Truncation ----------

  lemma {:induction false} FailuresOfAppend(a: seq<Entry>, b: seq<Entry>)
    ensures Failures(a + b) == Failures(b) + if LastSuccess(b).Some? then 0 else Failures(a)
  {
    if b == [] {
      assert a + b == a;
    } else {
      assert (a + b)[..|a + b| - 1] == a + b[..|b| - 1];
      FailuresOfAppend(a, b[..|b| - 1]);
    }
  }

  lemma {:induction false} FindLastOfAppend(f: Filter, a: seq<Entry>, b: seq<Entry>)
    ensures FindLast(f, a + b) == if FindLast(f, b).Some? then FindLast(f, b) else FindLast(f, a)
  {
    if b == [] {
      assert a + b == a;
    } else {
      assert (a + b)[..|a + b| - 1] == a + b[..|b| - 1];
      FindLastOfAppend(f, a, b[..|b| - 1]);
    }
  }

  lemma SuffixSplits(log: seq<Entry>, max: nat) returns (dropped: seq<Entry>)
    ensures log == dropped + Suffix(log, max)
  {
    dropped := if |log| <= max then [] else log[..|log| - max];
  }

  /** Truncation never adds failures. */
  lemma TruncationNeverAddsFailures(log: seq<Entry>, max: nat)
    ensures Failures(Suffix(log, max)) <= Failures(log)
  {
    var dropped := SuffixSplits(log, max);
    FailuresOfAppend(dropped, Suffix(log, max));
  }

  /** A success ends an attempt. */
  lemma {:induction false} SuccessIsFinished(entries: seq<Entry>)
    requires LastSuccess(entries).Some?
    ensures LastFinished(entries).Some?
  {
    if !Matches(FINISHED, entries[|entries| - 1]) { SuccessIsFinished(entries[..|entries| - 1]); }
  }

  /** As long as the kept end of the log holds a success, the policy reads from it
      what it would read from the whole log, and decides the same at every time. */
  lemma TruncationKeepsPolicy(c: Policy, log: seq<Entry>, max: nat)
    requires LastSuccess(Suffix(log, max)).Some?
    ensures LastFinished(Suffix(log, max)) == LastFinished(log)
    ensures LastSuccess(Suffix(log, max)) == LastSuccess(log)
    ensures Failures(Suffix(log, max)) == Failures(log)
    ensures forall now :: MayRun(c, now, Suffix(log, max)) == MayRun(c, now, log)
  {
    var kept := Suffix(log, max);
    var dropped := SuffixSplits(log, max);
    FailuresOfAppend(dropped, kept);
    FindLastOfAppend(With(Success), dropped, kept);
    FindLastOfAppend(FINISHED, dropped, kept);
    SuccessIsFinished(kept);
  }

  /** Without a cap it is enough to keep the last finished entry. */
  lemma TruncationKeepsIgnore(c: Policy, log: seq<Entry>, max: nat)
    requires c.onMaxFailures == Ignore && LastFinished(Suffix(log, max)).Some?
    ensures forall now :: MayRun(c, now, Suffix(log, max)) == MayRun(c, now, log)
  {
    var dropped := SuffixSplits(log, max);
    FindLastOfAppend(FINISHED, dropped, Suffix(log, max));
  }

  /** When the kept end of the log decides at every time as the whole log does. It must show the last
      finished entry. After a failure, and with no success kept, it must also show that the cap is
      reached when it is; and then, under "success_schedule", there must be no success to go by.
      The two schedules that apply on either side may also happen to fall due together. */
  predicate TruncationIsHarmless(c: Policy, log: seq<Entry>, kept: seq<Entry>) {
    match LastFinished(kept)
    case None => LastFinished(log) == None
    case Some(last) =>
      || last.outcome != Failure
      || LastSuccess(kept).Some?
      || !Capped(c, log)
      || (if c.onMaxFailures == SuccessSchedule && LastSuccess(log).Some? then
            !Capped(c, kept) && last.at + c.failurePeriod == LastSuccess(log).value.at + c.successPeriod
          else Capped(c, kept))
  }

  lemma HarmlessDecides(c: Policy, log: seq<Entry>, kept: seq<Entry>, now: int)
    requires LastFinished(kept).Some? ==> LastFinished(kept) == LastFinished(log)
    requires LastSuccess(kept).Some? ==> LastSuccess(kept) == LastSuccess(log) && Failures(kept) == Failures(log)
    requires Failures(kept) <= Failures(log) && TruncationIsHarmless(c, log, kept)
    ensures MayRun(c, now, kept) == MayRun(c, now, log)
  {
  }

  /** A time at which the decisions differ. */
  function Telltale(c: Policy, log: seq<Entry>, kept: seq<Entry>): int
    requires LastFinished(log).Some?
  {
    var last := LastFinished(log).value;
    var bySuccess := if LastSuccess(log).Some? then LastSuccess(log).value.at + c.successPeriod else 0;
    var byFailure := last.at + c.failurePeriod;
    if LastFinished(kept) == None then
      if last.outcome == Failure && Capped(c, log) then bySuccess else last.at + Period(c, last.outcome)
    else if c.onMaxFailures != SuccessSchedule || LastSuccess(log) == None then byFailure + 1
    else if Capped(c, kept) || bySuccess < byFailure then bySuccess + 1
    else byFailure + 1
  }

  lemma TelltaleTells(c: Policy, log: seq<Entry>, kept: seq<Entry>)
    requires LastFinished(kept).Some? ==> LastFinished(kept) == LastFinished(log)
    requires LastSuccess(kept).Some? ==> LastFinished(kept).Some?
    requires LastFinished(log).Some? && Failures(kept) <= Failures(log) && !TruncationIsHarmless(c, log, kept)
    ensures MayRun(c, Telltale(c, log, kept), kept) != MayRun(c, Telltale(c, log, kept), log)
  {
  }

  /** Under every policy: truncation leaves all decisions as they are exactly when it is harmless. */
  lemma TruncationIsHarmlessExactly(c: Policy, log: seq<Entry>, max: nat)
    ensures (forall now :: MayRun(c, now, Suffix(log, max)) == MayRun(c, now, log)) <==>
            TruncationIsHarmless(c, log, Suffix(log, max))
  {
    var kept := Suffix(log, max);
    TruncationReads(log, max);
    if TruncationIsHarmless(c, log, kept) {
      forall now ensures MayRun(c, now, kept) == MayRun(c, now, log) { HarmlessDecides(c, log, kept, now); }
    } else {
      TelltaleTells(c, log, kept);
    }
  }

  lemma TruncationReads(log: seq<Entry>, max: nat)
    ensures var kept := Suffix(log, max);
            && (LastFinished(kept).Some? ==> LastFinished(kept) == LastFinished(log))
            && (LastSuccess(kept).Some? ==> LastSuccess(kept) == LastSuccess(log) && Failures(kept) == Failures(log))
            && (LastSuccess(kept).Some? ==> LastFinished(kept).Some?)
            && Failures(kept) <= Failures(log)
  {
    var kept := Suffix(log, max);
    var dropped := SuffixSplits(log, max);
    FailuresOfAppend(dropped, kept);
    FindLastOfAppend(With(Success), dropped, kept);
    FindLastOfAppend(FINISHED, dropped, kept);
    if LastSuccess(kept).Some? { SuccessIsFinished(kept); }
  }

  /** Under "stall" truncation changes some decision exactly when it hides the cap. */
  lemma TruncationHidesTheCap(c: Policy, log: seq<Entry>, max: nat)
    requires c.onMaxFailures == Stall && LastFinished(Suffix(log, max)).Some?
    ensures (forall now :: MayRun(c, now, Suffix(log, max)) == MayRun(c, now, log)) <==>
            (LastFinished(Suffix(log, max)).value.outcome == Failure ==>
               (Failures(log) >= c.maxFailures ==> Failures(Suffix(log, max)) >= c.maxFailures))
  {
    var kept := Suffix(log, max);
    var dropped := SuffixSplits(log, max);
    FindLastOfAppend(FINISHED, dropped, kept);
    TruncationNeverAddsFailures(log, max);
    var last := LastFinished(kept).value;
    var late := last.at + c.failurePeriod + 1;
    assert last.outcome == Failure && Failures(kept) < c.maxFailures ==> MayRun(c, late, kept);
    assert last.outcome == Failure && Failures(log) >= c.maxFailures ==> !MayRun(c, late, log);
  }

  // ---------- The failure cap over whole runs ----------

  function Limit(c: Policy): int { if c.maxFailures > 1 then c.maxFailures else 1 }

  /** What every run keeps: the cap, with room left whenever the last outcome was neutral. */
  predicate WithinCap(c: Policy, kept: seq<Entry>) {
    && Failures(kept) <= Limit(c)
    && (LastFinished(kept).Some? && LastFinished(kept).value.outcome == Neutral ==> Failures(kept) < Limit(c))
  }

  /** The last outcome is read off the last finished entry. */
  lemma {:induction false} FailuresAfterLast(entries: seq<Entry>)
    ensures LastFinished(entries) == None ==> Failures(entries) == 0
    ensures LastFinished(entries).Some? && LastFinished(entries).value.outcome == Success ==> Failures(entries) == 0
  {
    if entries != [] { FailuresAfterLast(entries[..|entries| - 1]); }
  }

  lemma RunLeavesRoom(c: Policy, now: int, kept: seq<Entry>)
    requires c.onMaxFailures == Stall && WithinCap(c, kept) && MayRun(c, now, kept)
    ensures Failures(kept) < Limit(c)
  {
    FailuresAfterLast(kept);
  }

  lemma BracketReads(entries: seq<Entry>, a: Attempt)
    ensures var more := entries + Bracket(a);
            && LastFinished(more) == Some(Finished(a.finishedAt, a.outcome, a.details))
            && Failures(more) == (match a.outcome
                                  case Success => 0
                                  case Failure => Failures(entries) + 1
                                  case Neutral => Failures(entries))
  {
    var more := entries + Bracket(a);
    assert more[..|more| - 1] == entries + [Started(a.startedAt)];
    assert more[..|more| - 1][..|entries|] == entries;
  }

  lemma CapStep(c: Policy, max: nat, log: seq<Entry>, a: Attempt)
    requires c.onMaxFailures == Stall && a.forced == None && WithinCap(c, Suffix(log, max))
    ensures WithinCap(c, Suffix(AfterAttempt(c, max, log, a), max))
  {
    var kept := Suffix(log, max);
    if MayRun(c, a.now, kept) {
      RunLeavesRoom(c, a.now, kept);
      BracketReads(kept, a);
      var more := kept + Bracket(a);
      SuffixOfAppend(log, Bracket(a), max);
      TruncationNeverAddsFailures(more, max);
      var dropped := SuffixSplits(more, max);
      FindLastOfAppend(FINISHED, dropped, Suffix(more, max));
    }
  }

  /** Under "stall", with no forced run, any outcomes and any size of the history:
      the stored failures since the last success never pass `max(max_failures, 1)`. */
  lemma {:induction false} FailuresNeverPassTheCap(c: Policy, max: nat, log: seq<Entry>, attempts: seq<Attempt>)
    requires c.onMaxFailures == Stall && WithinCap(c, Suffix(log, max))
    requires forall i | 0 <= i < |attempts| :: attempts[i].forced == None
    ensures WithinCap(c, Suffix(AfterAttempts(c, max, log, attempts), max))
    decreases |attempts|
  {
    if attempts != [] {
      CapStep(c, max, log, attempts[0]);
      assert forall i | 0 <= i < |attempts[1..]| :: attempts[1..][i] == attempts[i + 1];
      FailuresNeverPassTheCap(c, max, AfterAttempt(c, max, log, attempts[0]), attempts[1..]);
    }
  }

  lemma FailuresNeverPassTheCapFromEmpty(c: Policy, max: nat, attempts: seq<Attempt>)
    requires c.onMaxFailures == Stall
    requires forall i | 0 <= i < |attempts| :: attempts[i].forced == None
    ensures Failures(Suffix(AfterAttempts(c, max, [], attempts), max)) <= if c.maxFailures > 1 then c.maxFailures else 1
  {
    FailuresNeverPassTheCap(c, max, [], attempts);
  }

  // ---------- The sharp stall threshold ----------

  /** `log` is `base` and then `k` failed attempts. */
  ghost predicate FailedSince(base: seq<Entry>, log: seq<Entry>, k: nat) {
    if k == 0 then log == base
    else
      && |log| >= 2 && log[|log| - 2].Started?
      && log[|log| - 1].Finished? && log[|log| - 1].outcome == Failure
      && FailedSince(base, log[..|log| - 2], k - 1)
  }

  predicate FreshStart(base: seq<Entry>) {
    base == [] || (base[|base| - 1].Finished? && base[|base| - 1].outcome == Success)
  }

  lemma {:induction false} FailedLength(base: seq<Entry>, log: seq<Entry>, k: nat)
    requires FailedSince(base, log, k)
    ensures |log| == |base| + 2 * k
    decreases k
  {
    if k > 0 { FailedLength(base, log[..|log| - 2], k - 1); }
  }

  /** The kept end of a log that ends with a failed attempt. */
  lemma OneMoreFailure(before: seq<Entry>, started: Entry, failed: Entry, max: nat)
    requires started.Started? && failed.Finished? && failed.outcome == Failure
    ensures var kept := Suffix(before + [started, failed], max);
            Failures(kept) == if max == 0 then 0 else if max == 1 then 1 else Failures(Suffix(before, max - 2)) + 1
  {
    var log := before + [started, failed];
    var kept := Suffix(log, max);
    if max == 1 {
      assert kept == [failed] && kept[..0] == [];
    } else if max > 1 {
      var init := Suffix(before, max - 2);
      assert kept == init + [started, failed];
      assert kept[..|kept| - 1] == init + [started];
      assert kept[..|kept| - 1][..|init|] == init;
    }
  }

  lemma NoFailuresShown(base: seq<Entry>, max: nat)
    requires FreshStart(base)
    ensures Failures(Suffix(base, max)) == 0
  {
    var kept := Suffix(base, max);
    if kept != [] { assert kept[|kept| - 1] == base[|base| - 1]; }
  }

  /** The bounded history shows half of its entries as failures, and no more than there were. */
  lemma {:induction false} FailuresShown(base: seq<Entry>, log: seq<Entry>, k: nat, max: nat)
    requires FailedSince(base, log, k) && FreshStart(base)
    ensures Failures(Suffix(log, max)) == if k < (max + 1) / 2 then k else (max + 1) / 2
    decreases k
  {
    if k == 0 {
      NoFailuresShown(base, max);
    } else {
      var before := log[..|log| - 2];
      assert log == before + [log[|log| - 2], log[|log| - 1]];
      OneMoreFailure(before, log[|log| - 2], log[|log| - 1], max);
      if max > 1 { FailuresShown(base, before, k - 1, max - 2); }
    }
  }

  /** Enough time has passed since the last stored attempt. */
  predicate Due(c: Policy, now: int, kept: seq<Entry>) {
    match LastFinished(kept)
    case None => true
    case Some(last) => now - last.at > Period(c, last.outcome)
  }

  /** After k failures and nothing else, the job may run when it is due and either fewer than
      `max_failures` attempts have failed or the history is too short to show that many. */
  lemma StallThreshold(c: Policy, base: seq<Entry>, log: seq<Entry>, k: nat, max: nat, now: int)
    requires c.onMaxFailures == Stall && c.maxFailures >= 1
    requires FailedSince(base, log, k) && FreshStart(base)
    ensures MayRun(c, now, Suffix(log, max)) <==>
            Due(c, now, Suffix(log, max)) && (k < c.maxFailures || max < 2 * c.maxFailures - 1)
  {
    var kept := Suffix(log, max);
    FailuresShown(base, log, k, max);
    FailuresAfterLast(kept);
    if kept != [] {
      assert kept[|kept| - 1] == log[|log| - 1];
    }
  }

  // ---------- "success_schedule" past its cap ----------

  /** With no success in `kept`, and after a failure at the cap, there is nothing to go by. */
  predicate Stranded(c: Policy, kept: seq<Entry>) {
    && LastFinished(kept).Some? && LastFinished(kept).value.outcome == Failure
    && Capped(c, kept) && LastSuccess(kept) == None
  }

  /** Under "success_schedule" the job may never run again exactly when it is stranded. */
  lemma StrandedIsStalled(c: Policy, kept: seq<Entry>)
    requires c.onMaxFailures == SuccessSchedule
    ensures (forall now :: !MayRun(c, now, kept)) <==> Stranded(c, kept)
  {
    if !Stranded(c, kept) {
      var now := match LastFinished(kept)
        case None => 0
        case Some(last) =>
          if last.outcome == Failure && Capped(c, kept) then LastSuccess(kept).value.at + c.successPeriod + 1
          else last.at + Period(c, last.outcome) + 1;
      assert MayRun(c, now, kept);
    }
  }

  lemma OneMoreFailureHides(before: seq<Entry>, started: Entry, failed: Entry, max: nat)
    requires started.Started? && failed.Finished? && failed.outcome == Failure
    ensures var kept := Suffix(before + [started, failed], max);
            LastSuccess(kept) == if max < 2 then None else LastSuccess(Suffix(before, max - 2))
  {
    var pair := [started, failed];
    var kept := Suffix(before + pair, max);
    assert pair[..1] == [started] && pair[..1][..0] == [] && FindLast(With(Success), pair[..1]) == None;
    assert FindLast(With(Success), pair) == None;
    if max == 1 {
      assert kept == [failed] && kept[..0] == [];
    } else if max > 1 {
      assert kept == Suffix(before, max - 2) + pair;
      FindLastOfAppend(With(Success), Suffix(before, max - 2), pair);
    }
  }

  lemma SuccessAtTheEnd(base: seq<Entry>, max: nat)
    requires FreshStart(base) && base != []
    ensures LastSuccess(Suffix(base, max)) == if max > 0 then Some(base[|base| - 1]) else None
  {
    var kept := Suffix(base, max);
    if max > 0 {
      assert kept[|kept| - 1] == base[|base| - 1];
      assert Matches(With(Success), kept[|kept| - 1]);
    } else {
      assert kept == [];
    }
  }

  /** The success before k failures is kept by a history of more than 2 * k entries. */
  lemma {:induction false} SuccessShown(base: seq<Entry>, log: seq<Entry>, k: nat, max: nat)
    requires FailedSince(base, log, k) && FreshStart(base) && base != []
    ensures LastSuccess(Suffix(log, max)) == if max > 2 * k then Some(base[|base| - 1]) else None
    decreases k
  {
    if k == 0 {
      SuccessAtTheEnd(base, max);
    } else {
      var before := log[..|log| - 2];
      assert log == before + [log[|log| - 2], log[|log| - 1]];
      OneMoreFailureHides(before, log[|log| - 2], log[|log| - 1], max);
      if max >= 2 { SuccessShown(base, before, k - 1, max - 2); }
    }
  }

  /** What a log of a success and then k failed attempts shows at its end. */
  lemma LastShown(base: seq<Entry>, log: seq<Entry>, k: nat, max: nat)
    requires FailedSince(base, log, k) && FreshStart(base) && base != []
    ensures var last := LastFinished(Suffix(log, max));
            if max == 0 then last == None else last.Some? && (last.value.outcome == Failure <==> k > 0)
  {
    if max == 0 {
      assert Suffix(log, max) == [];
    } else {
      FailedLength(base, log, k);
      LastIsFinished(log, max);
    }
  }

  /** A job that succeeded once, and then failed k times, never runs again exactly when the history
      shows that the cap is reached and does not show the success. */
  lemma SuccessIsForgotten(c: Policy, base: seq<Entry>, log: seq<Entry>, k: nat, max: nat)
    requires c.onMaxFailures == SuccessSchedule && c.maxFailures >= 1
    requires FailedSince(base, log, k) && FreshStart(base) && base != []
    ensures (forall now :: !MayRun(c, now, Suffix(log, max))) <==> 2 * c.maxFailures - 1 <= max <= 2 * k
  {
    FailuresShown(base, log, k, max);
    SuccessShown(base, log, k, max);
    LastShown(base, log, k, max);
    StrandedIsStalled(c, Suffix(log, max));
  }

  /** One success and one failure: a history of two entries does not show the success any more, and
      the job stalls although "success_schedule" has one to go by. */
  lemma ForgottenAfterOneFailure(now: int) returns (c: Policy, attempts: seq<Attempt>)
    ensures c.onMaxFailures == SuccessSchedule && |attempts| == 2
    ensures var log := AfterAttempts(c, 2, [], attempts);
            LastSuccess(log).Some? && !MayRun(c, now, Suffix(log, 2)) && MayRun(c, 10, log)
  {
    c := Policy(1, 1, 1, 1, SuccessSchedule);
    var good, bad := Attempt(0, 0, 0, None, Success, ""), Attempt(2, 2, 2, None, Failure, "");
    attempts := [good, bad];
    var base := [Started(0), Finished(0, Success, "")];
    var log := base + [Started(2), Finished(2, Failure, "")];
    assert AfterAttempt(c, 2, [], good) == base;
    assert Suffix(base, 2) == base && AfterAttempt(c, 2, base, bad) == log;
    assert attempts[1..] == [bad] && [bad][1..] == [];
    assert AfterAttempts(c, 2, [], attempts) == AfterAttempts(c, 2, base, [bad]) == AfterAttempts(c, 2, log, []) == log;
    assert log[..2] == base && FailedSince(base, base, 0) && FailedSince(base, log, 1);
    SuccessIsForgotten(c, base, log, 1, 2);
    assert Suffix(log, 4) == log;
    FailuresShown(base, log, 1, 4);
    SuccessShown(base, log, 1, 4);
    LastShown(base, log, 1, 4);
  }

  // ---------- How often a failing job runs ----------

  /** The job is due again: after the last stored attempt, or, past the cap of "success_schedule",
      after the success before the failures, whether or not that is still stored. */
  predicate DueAgain(c: Policy, base: seq<Entry>, now: int, kept: seq<Entry>) {
    if c.onMaxFailures == SuccessSchedule && Capped(c, kept) then
      base != [] && now - base[|base| - 1].at > c.successPeriod
    else Due(c, now, kept)
  }

  /** The number of failures after which the policy stalls the job. */
  function MostFailures(c: Policy, max: nat): int {
    if c.onMaxFailures == SuccessSchedule then (max + 1) / 2 else c.maxFailures
  }

  /** A policy with a cap, and a log that ends in a success; under "stall" it may be empty. */
  predicate FailsFrom(c: Policy, base: seq<Entry>) {
    && c.maxFailures >= 1 && FreshStart(base)
    && (c.onMaxFailures == Stall || (c.onMaxFailures == SuccessSchedule && base != []))
  }

  lemma ScheduleThreshold(c: Policy, base: seq<Entry>, log: seq<Entry>, k: nat, max: nat, now: int)
    requires c.onMaxFailures == SuccessSchedule && FailsFrom(c, base) && FailedSince(base, log, k)
    ensures MayRun(c, now, Suffix(log, max)) <==>
            DueAgain(c, base, now, Suffix(log, max)) && (k < (max + 1) / 2 || max < 2 * c.maxFailures - 1)
  {
    FailuresShown(base, log, k, max);
    SuccessShown(base, log, k, max);
    LastShown(base, log, k, max);
    var kept := Suffix(log, max);
    ScheduleDecides(c, now, LastFinished(kept), Failures(kept), LastSuccess(kept), base[|base| - 1], k, max);
  }

  lemma ScheduleDecides(
    c: Policy, now: int, finished: Option<Entry>, failures: nat, success: Option<Entry>, first: Entry, k: nat, max: nat
  )
    requires c.onMaxFailures == SuccessSchedule && c.maxFailures >= 1
    requires finished.Some? ==> finished.value.Finished? && (finished.value.outcome == Failure <==> k > 0)
    requires finished == None <==> max == 0
    requires failures == if k < (max + 1) / 2 then k else (max + 1) / 2
    requires success == if max > 2 * k then Some(first) else None
    ensures Decide(c, now, finished, failures, success) <==>
            (if CappedAt(c, failures) then now - first.at > c.successPeriod
             else finished.Some? ==> now - finished.value.at > Period(c, finished.value.outcome))
            && (k < (max + 1) / 2 || max < 2 * c.maxFailures - 1)
  {
  }

  predicate FailsUnforced(attempts: seq<Attempt>) {
    forall i | 0 <= i < |attempts| :: attempts[i].forced == None && attempts[i].outcome == Failure
  }

  /** For each of the attempts, whether it comes when the job is due again. */
  function Polls(c: Policy, max: nat, base: seq<Entry>, log: seq<Entry>, attempts: seq<Attempt>): seq<bool>
    decreases |attempts|
  {
    if attempts == [] then []
    else
      [DueAgain(c, base, attempts[0].now, Suffix(log, max))]
      + Polls(c, max, base, AfterAttempt(c, max, log, attempts[0]), attempts[1..])
  }

  function Count(polls: seq<bool>): nat {
    if polls == [] then 0 else (if polls[0] then 1 else 0) + Count(polls[1..])
  }

  /** How many of the attempts come when the job is due again. */
  function DueCount(c: Policy, max: nat, base: seq<Entry>, attempts: seq<Attempt>): nat {
    Count(Polls(c, max, base, base, attempts))
  }

  function Min(a: int, b: int): int { if a < b then a else b }

  function OneMore(c: Policy, max: nat, k: nat, due: bool): nat {
    if due && (k < MostFailures(c, max) || max < 2 * c.maxFailures - 1) then k + 1 else k
  }

  /** How many have failed after these polls, when `k` had failed before them. */
  function FailedAfter(c: Policy, max: nat, k: nat, polls: seq<bool>): nat
    decreases |polls|
  {
    if polls == [] then k else FailedAfter(c, max, OneMore(c, max, k, polls[0]), polls[1..])
  }

  lemma FailedStep(c: Policy, max: nat, base: seq<Entry>, log: seq<Entry>, k: nat, a: Attempt)
    requires FailsFrom(c, base) && FailedSince(base, log, k) && a.forced == None && a.outcome == Failure
    ensures FailedSince(base, AfterAttempt(c, max, log, a), OneMore(c, max, k, DueAgain(c, base, a.now, Suffix(log, max))))
  {
    if c.onMaxFailures == Stall { StallThreshold(c, base, log, k, max, a.now); }
    else { ScheduleThreshold(c, base, log, k, max, a.now); }
    var next := log + Bracket(a);
    assert next[..|next| - 2] == log;
  }

  lemma {:induction false} FailedRun(c: Policy, max: nat, base: seq<Entry>, log: seq<Entry>, k: nat, attempts: seq<Attempt>)
    requires FailsFrom(c, base) && FailedSince(base, log, k) && FailsUnforced(attempts)
    ensures FailedSince(base, AfterAttempts(c, max, log, attempts), FailedAfter(c, max, k, Polls(c, max, base, log, attempts)))
    decreases |attempts|
  {
    if attempts != [] {
      var polls := Polls(c, max, base, log, attempts);
      var next := AfterAttempt(c, max, log, attempts[0]);
      FailedStep(c, max, base, log, k, attempts[0]);
      assert forall i | 0 <= i < |attempts[1..]| :: attempts[1..][i] == attempts[i + 1];
      FailedRun(c, max, base, next, OneMore(c, max, k, polls[0]), attempts[1..]);
      assert polls[1..] == Polls(c, max, base, next, attempts[1..]);
    }
  }

  lemma {:induction false} FailedAfterDue(c: Policy, max: nat, k: nat, polls: seq<bool>)
    requires max >= 2 * c.maxFailures - 1 ==> k <= MostFailures(c, max)
    ensures FailedAfter(c, max, k, polls) ==
            if max >= 2 * c.maxFailures - 1 then Min(k + Count(polls), MostFailures(c, max)) else k + Count(polls)
    decreases |polls|
  {
    if polls != [] { FailedAfterDue(c, max, OneMore(c, max, k, polls[0]), polls[1..]); }
  }

  /** How many attempts ran. */
  function Executed(c: Policy, max: nat, log: seq<Entry>, attempts: seq<Attempt>): int {
    (|AfterAttempts(c, max, log, attempts)| - |log|) / 2
  }

  lemma ExecutedWhenDue(c: Policy, max: nat, base: seq<Entry>, attempts: seq<Attempt>)
    requires FailsFrom(c, base) && FailsUnforced(attempts)
    ensures var due := DueCount(c, max, base, attempts);
            Executed(c, max, base, attempts) ==
            if max >= 2 * c.maxFailures - 1 then Min(due, MostFailures(c, max)) else due
  {
    var polls := Polls(c, max, base, base, attempts);
    FailedRun(c, max, base, base, 0, attempts);
    FailedAfterDue(c, max, 0, polls);
    FailedLength(base, AfterAttempts(c, max, base, attempts), FailedAfter(c, max, 0, polls));
  }

  /** A job that always fails, after nothing or after a success, however often it is polled: with
      room for 2 * max_failures - 1 entries it runs whenever it is due, until it has run `max_failures`
      times, and then never again; with less room it goes on running whenever it is due. */
  lemma StallIsSharp(c: Policy, max: nat, base: seq<Entry>, attempts: seq<Attempt>)
    requires c.onMaxFailures == Stall && c.maxFailures >= 1 && FreshStart(base) && FailsUnforced(attempts)
    ensures var due := DueCount(c, max, base, attempts);
            Executed(c, max, base, attempts) ==
            if max >= 2 * c.maxFailures - 1 then Min(due, c.maxFailures) else due
  {
    ExecutedWhenDue(c, max, base, attempts);
  }

  /** The same job under "success_schedule", after a success: with room for 2 * max_failures - 1
      entries it runs whenever it is due, but no more often than half the entries of the history,
      rounded up, and then never again; with less room it goes on running whenever it is due. */
  lemma ScheduleIsSharp(c: Policy, max: nat, base: seq<Entry>, attempts: seq<Attempt>)
    requires c.onMaxFailures == SuccessSchedule && c.maxFailures >= 1
    requires base != [] && FreshStart(base) && FailsUnforced(attempts)
    ensures var due := DueCount(c, max, base, attempts);
            Executed(c, max, base, attempts) ==
            if max >= 2 * c.maxFailures - 1 then Min(due, (max + 1) / 2) else due
  {
    ExecutedWhenDue(c, max, base, attempts);
  }

  // ---------- Spacing over whole runs ----------

  /** A start at time `at` keeps its distance from the last entry of the log, or, past the cap of
      "success_schedule", from the last success that is still kept. */
  ghost predicate KeepsDistance(c: Policy, max: nat, log: seq<Entry>, at: int) {
    log == [] ||
    var last := log[|log| - 1];
    && last.Finished?
    && (last.outcome == Success ==> at - last.at > c.successPeriod)
    && (last.outcome == Neutral ==> at - last.at > c.neutralPeriod)
    && (last.outcome == Failure ==>
          || at - last.at > c.failurePeriod
          || (c.onMaxFailures == SuccessSchedule && Failures(Suffix(log, max)) >= c.maxFailures
              && LastSuccess(Suffix(log, max)).Some? && at - LastSuccess(Suffix(log, max)).value.at > c.successPeriod))
  }

  /** After every run, forced attempts in it or not: an unforced attempt that starts
      keeps its distance. The history must keep at least one entry. */
  lemma StartsAreSpaced(c: Policy, max: nat, base: seq<Entry>, attempts: seq<Attempt>, a: Attempt)
    requires max >= 1 && Bracketed(base)
    requires a.forced == None && a.now <= a.startedAt
    requires Runs(c, Suffix(AfterAttempts(c, max, base, attempts), max), a)
    ensures KeepsDistance(c, max, AfterAttempts(c, max, base, attempts), a.startedAt)
  {
    var log := AfterAttempts(c, max, base, attempts);
    LogIsBracketed(c, max, base, attempts);
    if log != [] {
      LastIsFinished(log, max);
      RunIsDistant(c, max, log, a);
    }
  }

  lemma LastIsFinished(log: seq<Entry>, max: nat)
    requires max >= 1 && log != [] && log[|log| - 1].Finished?
    ensures LastFinished(Suffix(log, max)) == Some(log[|log| - 1])
  {
    var kept := Suffix(log, max);
    assert kept[|kept| - 1] == log[|log| - 1];
  }

  lemma RunIsDistant(c: Policy, max: nat, log: seq<Entry>, a: Attempt)
    requires log != [] && LastFinished(Suffix(log, max)) == Some(log[|log| - 1])
    requires a.forced == None && a.now <= a.startedAt && MayRun(c, a.now, Suffix(log, max))
    ensures KeepsDistance(c, max, log, a.startedAt)
  {
    var last := log[|log| - 1];
    assert Matches(FINISHED, last);
  }

  /** Spacing holds exactly when the history keeps anything at all. */
  lemma SpacingNeedsHistory(c: Policy, max: nat)
    ensures max >= 1 <==>
            forall base, a: Attempt :: Bracketed(base) && a.forced == None && a.now <= a.startedAt && Runs(c, Suffix(base, max), a)
                              ==> KeepsDistance(c, max, base, a.startedAt)
  {
    if max >= 1 {
      forall base, a: Attempt | Bracketed(base) && a.forced == None && a.now <= a.startedAt && Runs(c, Suffix(base, max), a)
        ensures KeepsDistance(c, max, base, a.startedAt)
      {
        StartsAreSpaced(c, max, base, [], a);
      }
    } else {
      var base := [Started(0), Finished(0, Success, "")];
      var a := Attempt(c.successPeriod, c.successPeriod, c.successPeriod, None, Success, "");
      assert Suffix(base, max) == [];
      assert Bracketed(base) && Runs(c, Suffix(base, max), a) && !KeepsDistance(c, max, base, a.startedAt);
    }
  }
}
