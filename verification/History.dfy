/** `LastRunHistory`: the bounded log of attempts, kept in a file that processes share. */
module History {
  import opened Wrappers

  datatype Outcome = Success | Failure | Neutral

  datatype Entry =
    | Started(at: int)
    | Finished(at: int, outcome: Outcome, details: string)

  /** An element of the stored list: an entry, or something that is not one. */
  datatype Item = Valid(entry: Entry) | Invalid

  /** The history file: missing, not a JSON list, or a list of items. */
  datatype Content = Absent | Garbage | List(items: seq<Item>)

  // ---------- Bounded sequences ----------

  /** The last `n` elements. */
  function Suffix<T>(s: seq<T>, n: nat): seq<T> {
    if |s| <= n then s else s[|s| - n..]
  }

  lemma SuffixOfAppend<T>(s: seq<T>, more: seq<T>, n: nat)
    ensures Suffix(Suffix(s, n) + more, n) == Suffix(s + more, n)
  {
    if |s| > n {
      var k := |s| - n;
      assert s + more == s[..k] + (s[k..] + more);
      assert (s + more)[k..] == s[k..] + more;
      assert (s + more)[|s + more| - n..] == (s + more)[k..][|more|..];
    }
  }

  // ---------- The file ----------

  function ValidEntries(items: seq<Item>): seq<Entry> {
    if items == [] then []
    else
      ValidEntries(items[..|items| - 1])
      + (if items[|items| - 1].Valid? then [items[|items| - 1].entry] else [])
  }

  function AsItems(entries: seq<Entry>): seq<Item> {
    seq(|entries|, i requires 0 <= i < |entries| => Valid(entries[i]))
  }

  function Loaded(content: Content): seq<Entry> {
    if content.List? then ValidEntries(content.items) else []
  }

  lemma {:induction false} EntriesOfJoin(a: seq<Item>, b: seq<Item>)
    ensures ValidEntries(a + b) == ValidEntries(a) + ValidEntries(b)
  {
    if b == [] {
      assert a + b == a;
    } else {
      assert (a + b)[..|a + b| - 1] == a + b[..|b| - 1];
      EntriesOfJoin(a, b[..|b| - 1]);
    }
  }

  /** An item that is not an entry is left out, and does nothing to the entries around it;
      an entry is kept in its place. */
  lemma ItemsStandAlone(a: seq<Item>, item: Item, b: seq<Item>)
    ensures ValidEntries(a + [item] + b) ==
            ValidEntries(a) + (if item.Valid? then [item.entry] else []) + ValidEntries(b)
  {
    EntriesOfJoin(a + [item], b);
    EntriesOfJoin(a, [item]);
    assert [item][..0] == [];
  }

  /** What is written is what is read back. */
  lemma {:induction false} WrittenIsRead(entries: seq<Entry>)
    ensures ValidEntries(AsItems(entries)) == entries
  {
    if entries != [] {
      var init := entries[..|entries| - 1];
      assert AsItems(entries)[..|entries| - 1] == AsItems(init);
      WrittenIsRead(init);
    }
  }

  /** The entries that a locked operation starts from: the file when there is one,
      and otherwise the list in memory. */
  function Current(content: Content, entries: seq<Entry>, maxEntries: nat): seq<Entry> {
    if content == Absent then entries else Suffix(Loaded(content), maxEntries)
  }

  // ---------- Queries ----------

  /** Failed attempts after the last successful one. */
  function Failures(entries: seq<Entry>): nat {
    if entries == [] then 0
    else
      var last, init := entries[|entries| - 1], entries[..|entries| - 1];
      if last.Started? then Failures(init)
      else match last.outcome
        case Success => 0
        case Failure => Failures(init) + 1
        case Neutral => Failures(init)
  }

  predicate IsFailure(e: Entry) { e.Finished? && e.outcome == Failure }

  predicate IsSuccess(e: Entry) { e.Finished? && e.outcome == Success }

  /** The positions of the failures that no success follows. */
  ghost function OpenFailures(entries: seq<Entry>): set<int> {
    set i | 0 <= i < |entries| && IsFailure(entries[i]) && forall j | i < j < |entries| :: !IsSuccess(entries[j])
  }

  lemma {:induction false} FailuresSpec(entries: seq<Entry>)
    ensures Failures(entries) == |OpenFailures(entries)|
  {
    if entries != [] {
      var n := |entries| - 1;
      var init := entries[..n];
      FailuresSpec(init);
      if IsSuccess(entries[n]) {
        assert OpenFailures(entries) == {};
      } else {
        forall i | 0 <= i < n
          ensures i in OpenFailures(entries) <==> i in OpenFailures(init)
        {
          assert forall j | i < j < n :: init[j] == entries[j];
        }
        assert OpenFailures(entries) == OpenFailures(init) + (if IsFailure(entries[n]) then {n} else {});
      }
    }
  }

  datatype Filter = Filter(before: Option<int>, after: Option<int>, started: bool, finished: bool, outcome: Option<Outcome>)

  predicate Matches(f: Filter, e: Entry) {
    && (f.after.Some? ==> e.at > f.after.value)
    && (f.before.Some? ==> e.at < f.before.value)
    && (f.started ==> e.Started?)
    && (f.finished || f.outcome.Some? ==> e.Finished?)
    && (f.outcome.Some? ==> e.Finished? && e.outcome == f.outcome.value)
  }

  const FINISHED := Filter(None, None, false, true, None)

  function With(outcome: Outcome): Filter {
    Filter(None, None, false, false, Some(outcome))
  }

  /** What each filter asks for. */
  lemma FiltersMean(f: Filter, e: Entry, t: int, o: Outcome)
    ensures Matches(Filter(Some(t), None, false, false, None), e) <==> e.at < t
    ensures Matches(Filter(None, Some(t), false, false, None), e) <==> e.at > t
    ensures Matches(Filter(None, None, true, false, None), e) <==> e.Started?
    ensures Matches(FINISHED, e) <==> e.Finished?
    ensures Matches(With(o), e) <==> e.Finished? && e.outcome == o
    ensures Matches(f, e) <==>
            && Matches(Filter(f.before, None, false, false, None), e) && Matches(Filter(None, f.after, false, false, None), e)
            && Matches(Filter(None, None, f.started, false, None), e)
            && Matches(Filter(None, None, false, f.finished, None), e)
            && Matches(Filter(None, None, false, false, f.outcome), e)
  {
  }

  /** The last entry that matches. */
  function FindLast(f: Filter, entries: seq<Entry>): (r: Option<Entry>)
    ensures r.Some? ==> Matches(f, r.value)
  {
    if entries == [] then None
    else if Matches(f, entries[|entries| - 1]) then Some(entries[|entries| - 1])
    else FindLast(f, entries[..|entries| - 1])
  }

  /** Its index: a match with no match after it. */
  ghost predicate IsLastMatch(f: Filter, entries: seq<Entry>, i: int) {
    0 <= i < |entries| && Matches(f, entries[i]) && forall j | i < j < |entries| :: !Matches(f, entries[j])
  }

  lemma {:induction false} FindLastSpec(f: Filter, entries: seq<Entry>)
    ensures FindLast(f, entries) == None <==> forall j | 0 <= j < |entries| :: !Matches(f, entries[j])
    ensures forall i | IsLastMatch(f, entries, i) :: FindLast(f, entries) == Some(entries[i])
  {
    if entries != [] {
      var init := entries[..|entries| - 1];
      FindLastSpec(f, init);
      forall i | IsLastMatch(f, entries, i) ensures FindLast(f, entries) == Some(entries[i]) {
        if i < |init| { assert IsLastMatch(f, init, i); }
      }
    }
  }

  // ---------- The history of one process ----------

  class HistoryFile {
    var content: Content
  }

  /** `load_history_entries_from_file`: items that are not entries are left out, in order. */
  method LoadEntries(file: HistoryFile) returns (entries: seq<Entry>)
    ensures entries == Loaded(file.content)
    ensures !file.content.List? ==> entries == []
  {
    entries := [];
    if !file.content.List? { return; }
    var items := file.content.items;
    for i := 0 to |items|
      invariant entries == ValidEntries(items[..i])
    {
      assert items[..i + 1][..i] == items[..i];
      if items[i].Invalid? { continue; }
      entries := entries + [items[i].entry];
    }
    assert items[..|items|] == items;
  }

  class LastRunHistory {
    const maxEntries: nat
    const file: HistoryFile?
    var entries: seq<Entry>

    function FileContent(): Content
      reads file
    {
      if file == null then Absent else file.content
    }

    /** What every query and every append starts from. */
    function Now(): seq<Entry>
      reads this, file
    {
      Current(FileContent(), entries, maxEntries)
    }

    constructor (maxEntries: nat, file: HistoryFile?)
      ensures this.maxEntries == maxEntries && this.file == file
      ensures entries == Suffix(Loaded(FileContent()), maxEntries)
    {
      this.maxEntries, this.file := maxEntries, file;
      entries := [];
      new;
      LoadFromFile();
    }

    constructor WithEntries(entries: seq<Entry>, maxEntries: nat, file: HistoryFile?)
      ensures this.maxEntries == maxEntries && this.file == file && this.entries == entries
    {
      this.maxEntries, this.file, this.entries := maxEntries, file, entries;
    }

    method DiscardOldEntries()
      modifies this
      ensures entries == Suffix(old(entries), maxEntries)
    {
      ghost var k := 0;
      while |entries| > maxEntries
        invariant 0 <= k <= |old(entries)| && entries == old(entries)[k..]
        invariant |entries| >= maxEntries || k == 0
      {
        entries := entries[1..];
        k := k + 1;
      }
    }

    method LoadFromFile()
      modifies this
      ensures file == null ==> entries == old(entries)
      ensures file != null ==> entries == Suffix(Loaded(file.content), maxEntries)
    {
      if file == null { return; }
      entries := LoadEntries(file);
      DiscardOldEntries();
    }

    method Refresh()
      modifies this
      ensures entries == Now() == old(Now())
      ensures file == null || file.content == Absent ==> entries == old(entries)
      ensures file != null && file.content == Garbage ==> entries == []
    {
      if file == null || file.content == Absent { return; }
      LoadFromFile();
    }

    method PersistToFile()
      modifies file
      ensures FileContent() == (if file == null then Absent else List(AsItems(entries)))
    {
      if file != null { file.content := List(AsItems(entries)); }
    }

    method Append(entry: Entry)
      modifies this, file
      ensures entries == Now() == Suffix(old(Now()) + [entry], maxEntries)
      ensures FileContent() == (if file == null then Absent else List(AsItems(entries)))
    {
      Refresh();
      entries := entries + [entry];
      DiscardOldEntries();
      PersistToFile();
      WrittenIsRead(entries);
    }

    method Entries() returns (snapshot: seq<Entry>)
      modifies this
      ensures snapshot == Now() == old(Now())
    {
      Refresh();
      snapshot := entries;
    }

    /** Counts from the end, and stops at the first success. */
    method NFailuresSinceLastSuccess() returns (n: nat)
      modifies this
      ensures n == Failures(Now()) && Now() == old(Now())
    {
      Refresh();
      n := 0;
      var i := |entries|;
      assert entries[..i] == entries;
      while i > 0
        invariant 0 <= i <= |entries| && entries == Now() == old(Now())
        invariant Failures(entries) == Failures(entries[..i]) + n
      {
        i := i - 1;
        assert entries[..i + 1][..i] == entries[..i];
        var entry := entries[i];
        if entry.Started? { continue; }
        if entry.outcome == Success { break; }
        if entry.outcome == Failure { n := n + 1; }
      }
    }

    /** Searches from the end, one filter after the other. */
    method FindLastEntry(f: Filter) returns (found: Option<Entry>)
      modifies this
      ensures found == FindLast(f, Now()) && Now() == old(Now())
    {
      Refresh();
      var finished := f.finished || f.outcome.Some?;
      var i := |entries|;
      assert entries[..i] == entries;
      while i > 0
        invariant 0 <= i <= |entries| && entries == Now() == old(Now())
        invariant FindLast(f, entries) == FindLast(f, entries[..i])
      {
        i := i - 1;
        assert entries[..i + 1][..i] == entries[..i];
        var entry := entries[i];
        if f.after.Some? && entry.at <= f.after.value { continue; }
        if f.before.Some? && entry.at >= f.before.value { continue; }
        if f.started && !entry.Started? { continue; }
        if finished {
          if !entry.Finished? { continue; }
          if f.outcome.Some? && entry.outcome != f.outcome.value { continue; }
        }
        return Some(entry);
      }
      found := None;
    }
  }

  // ---------- Many processes, one file ----------

  type Process = nat

  /** The file and the lists in memory; `log` is every entry appended, in lock order. */
  datatype Shared = Shared(content: Content, caches: map<Process, seq<Entry>>, log: seq<Entry>)

  /** What a process does under the lock. `Persist` is the public `persist_to_file`. */
  datatype Op = Open(p: Process) | Append(p: Process, entry: Entry) | Query(p: Process) | Persist(p: Process)

  function Do(max: nat, s: Shared, op: Op): Shared {
    if op.Open? then s.(caches := s.caches[op.p := Suffix(Loaded(s.content), max)])
    else if op.p !in s.caches then s
    else
      var seen := Current(s.content, s.caches[op.p], max);
      match op
      case Append(p, entry) =>
        var next := Suffix(seen + [entry], max);
        Shared(List(AsItems(next)), s.caches[p := next], s.log + [entry])
      case Query(p) => s.(caches := s.caches[p := seen])
      case Persist(p) => s.(content := List(AsItems(s.caches[p])))
      case Open(_) => s
  }

  function After(max: nat, s: Shared, ops: seq<Op>): Shared
    decreases |ops|
  {
    if ops == [] then s else After(max, Do(max, s, ops[0]), ops[1..])
  }

  const NOTHING := Shared(Absent, map[], [])

  /** The entries that processes append after they have opened the history. */
  function Appended(users: set<Process>, ops: seq<Op>): seq<Entry>
    decreases |ops|
  {
    if ops == [] then []
    else
      (if ops[0].Append? && ops[0].p in users then [ops[0].entry] else [])
      + Appended(if ops[0].Open? then users + {ops[0].p} else users, ops[1..])
  }

  lemma {:induction false} LogIsWhatWasAppended(max: nat, s: Shared, ops: seq<Op>)
    ensures After(max, s, ops).log == s.log + Appended(s.caches.Keys, ops)
    decreases |ops|
  {
    if ops != [] {
      var next := Do(max, s, ops[0]);
      assert next.caches.Keys == if ops[0].Open? then s.caches.Keys + {ops[0].p} else s.caches.Keys;
      LogIsWhatWasAppended(max, next, ops[1..]);
    }
  }

  /** The file is the bounded end of the log; before the first write there is none. */
  ghost predicate Faithful(max: nat, s: Shared) {
    if s.content == Absent then s.log == [] && forall p :: p in s.caches ==> s.caches[p] == []
    else Loaded(s.content) == Suffix(s.log, max)
  }

  /** The process that writes what it has in memory has the end of the log there. */
  predicate UpToDate(max: nat, s: Shared, op: Op) {
    op.Persist? && op.p in s.caches ==> s.caches[op.p] == Suffix(s.log, max)
  }

  lemma FaithfulStep(max: nat, s: Shared, op: Op)
    requires Faithful(max, s)
    ensures Faithful(max, Do(max, s, op)) <==> UpToDate(max, s, op)
  {
    if op.Append? && op.p in s.caches {
      WrittenIsRead(Suffix(Current(s.content, s.caches[op.p], max) + [op.entry], max));
      SuffixOfAppend(s.log, [op.entry], max);
    } else if op.Persist? && op.p in s.caches {
      WrittenIsRead(s.caches[op.p]);
    }
  }

  predicate AllUpToDate(max: nat, s: Shared, ops: seq<Op>)
    decreases |ops|
  {
    ops == [] || (UpToDate(max, s, ops[0]) && AllUpToDate(max, Do(max, s, ops[0]), ops[1..]))
  }

  /** The file stays faithful throughout a run exactly when every `persist_to_file` in it
      is called by a process with the end of the log in memory. */
  lemma {:induction false} FaithfulRun(max: nat, s: Shared, ops: seq<Op>)
    requires Faithful(max, s)
    ensures AllUpToDate(max, s, ops) <==> forall n | 0 <= n <= |ops| :: Faithful(max, After(max, s, ops[..n]))
    decreases |ops|
  {
    if ops != [] {
      var next, rest := Do(max, s, ops[0]), ops[1..];
      FaithfulStep(max, s, ops[0]);
      forall n | 0 < n <= |ops| ensures After(max, s, ops[..n]) == After(max, next, rest[..n - 1]) {
        assert ops[..n][1..] == rest[..n - 1];
      }
      if Faithful(max, next) {
        FaithfulRun(max, next, rest);
        assert forall n | 0 <= n <= |rest| :: After(max, s, ops[..n + 1]) == After(max, next, rest[..n]);
      } else {
        assert rest[..0] == [] && After(max, s, ops[..1]) == After(max, next, rest[..0]) == next;
      }
    }
  }

  lemma {:induction false} AppendsAreUpToDate(max: nat, s: Shared, ops: seq<Op>)
    requires forall i | 0 <= i < |ops| :: !ops[i].Persist?
    ensures AllUpToDate(max, s, ops)
    decreases |ops|
  {
    if ops != [] {
      assert forall i | 0 <= i < |ops[1..]| :: ops[1..][i] == ops[i + 1];
      AppendsAreUpToDate(max, Do(max, s, ops[0]), ops[1..]);
    }
  }

  /** Whatever the processes append and query, in any order: the file holds the last `max`
      of all entries ever appended, every process reads exactly these, and below the cap
      nothing is lost. */
  lemma SharedLogIsFaithful(max: nat, ops: seq<Op>)
    requires forall i | 0 <= i < |ops| :: !ops[i].Persist?
    ensures var s := After(max, NOTHING, ops);
            && s.log == Appended({}, ops)
            && (s.log != [] ==> Loaded(s.content) == Suffix(s.log, max))
            && (forall p :: p in s.caches ==> Current(s.content, s.caches[p], max) == Suffix(s.log, max))
            && (|s.log| <= max ==> Suffix(s.log, max) == s.log)
  {
    LogIsWhatWasAppended(max, NOTHING, ops);
    assert NOTHING.caches.Keys == {} && [] + Appended({}, ops) == Appended({}, ops);
    AppendsAreUpToDate(max, NOTHING, ops);
    FaithfulRun(max, NOTHING, ops);
    assert ops[..|ops|] == ops;
  }

  // ---------- When `persist_to_file` may be called ----------

  /** Which processes have opened the history, and which of them have opened it, queried it or
      appended to it since the last append of another one. It can be read off the calls alone. */
  datatype Looks = Looks(users: set<Process>, current: set<Process>)

  const NOBODY := Looks({}, {})

  function Look(k: Looks, op: Op): Looks {
    match op
    case Open(p) => Looks(k.users + {p}, k.current + {p})
    case Append(p, _) => if p in k.users then k.(current := {p}) else k
    case Query(p) => if p in k.users then k.(current := k.current + {p}) else k
    case Persist(_) => k
  }

  predicate WritesWhatItSaw(k: Looks, op: Op) {
    op.Persist? && op.p in k.users ==> op.p in k.current
  }

  /** Nobody calls `persist_to_file` without having looked since another process appended. */
  predicate WritersHaveLooked(k: Looks, ops: seq<Op>)
    decreases |ops|
  {
    ops == [] || (WritesWhatItSaw(k, ops[0]) && WritersHaveLooked(Look(k, ops[0]), ops[1..]))
  }

  /** Those who have looked have the end of the log in memory. */
  ghost predicate Tracks(max: nat, s: Shared, k: Looks) {
    && s.caches.Keys == k.users && k.current <= k.users
    && forall p :: p in k.current ==> s.caches[p] == Suffix(s.log, max)
  }

  /** The others lack the last entry; nobody has what was not appended. */
  ghost predicate Lags(s: Shared, k: Looks) {
    && (forall p :: p in s.caches && p !in k.current ==> s.log != [] && s.log[|s.log| - 1] !in s.caches[p])
    && (forall p, e :: p in s.caches && e in s.caches[p] ==> e in s.log)
  }

  /** The entries that are appended are new, and differ from each other. */
  ghost predicate NewEntries(log: seq<Entry>, ops: seq<Op>) {
    && (forall i | 0 <= i < |ops| && ops[i].Append? :: ops[i].entry !in log)
    && (forall i, j | 0 <= i < j < |ops| && ops[i].Append? && ops[j].Append? :: ops[i].entry != ops[j].entry)
  }

  /** What a process that looks at the file finds there. */
  lemma LookFinds(max: nat, s: Shared, p: Process)
    requires Faithful(max, s)
    ensures Suffix(Loaded(s.content), max) == Suffix(s.log, max)
    ensures p in s.caches ==> Current(s.content, s.caches[p], max) == Suffix(s.log, max)
  {
  }

  lemma TracksStep(max: nat, s: Shared, k: Looks, op: Op)
    requires Faithful(max, s) && Tracks(max, s, k)
    ensures Tracks(max, Do(max, s, op), Look(k, op))
  {
    LookFinds(max, s, op.p);
    if op.Append? { SuffixOfAppend(s.log, [op.entry], max); }
  }

  lemma LagsStep(max: nat, s: Shared, k: Looks, op: Op)
    requires Faithful(max, s) && Tracks(max, s, k) && Lags(s, k) && NewEntries(s.log, [op])
    ensures Lags(Do(max, s, op), Look(k, op))
  {
    LookFinds(max, s, op.p);
    if op.Append? {
      assert [op][0].entry !in s.log;
      SuffixOfAppend(s.log, [op.entry], max);
    }
  }

  /** Someone who lags behind does not have the end of the log. */
  lemma LaggingIsStale(max: nat, s: Shared, k: Looks, op: Op)
    requires max > 0 && Tracks(max, s, k) && Lags(s, k)
    ensures UpToDate(max, s, op) <==> WritesWhatItSaw(k, op)
  {
    if s.log != [] {
      var kept := Suffix(s.log, max);
      assert kept[|kept| - 1] == s.log[|s.log| - 1];
    }
  }

  lemma NewEntriesRest(max: nat, s: Shared, ops: seq<Op>)
    requires ops != [] && NewEntries(s.log, ops)
    ensures NewEntries(s.log, [ops[0]]) && NewEntries(Do(max, s, ops[0]).log, ops[1..])
  {
    assert forall i | 0 <= i < |ops[1..]| :: ops[1..][i] == ops[i + 1];
  }

  lemma {:induction false} LookedIsUpToDate(max: nat, s: Shared, k: Looks, ops: seq<Op>)
    requires Faithful(max, s) && Tracks(max, s, k) && WritersHaveLooked(k, ops)
    ensures AllUpToDate(max, s, ops)
    decreases |ops|
  {
    if ops != [] {
      FaithfulStep(max, s, ops[0]);
      TracksStep(max, s, k, ops[0]);
      LookedIsUpToDate(max, Do(max, s, ops[0]), Look(k, ops[0]), ops[1..]);
    }
  }

  lemma {:induction false} UpToDateHaveLooked(max: nat, s: Shared, k: Looks, ops: seq<Op>)
    requires max > 0 && Faithful(max, s) && Tracks(max, s, k) && Lags(s, k)
    requires NewEntries(s.log, ops) && AllUpToDate(max, s, ops)
    ensures WritersHaveLooked(k, ops)
    decreases |ops|
  {
    if ops != [] {
      NewEntriesRest(max, s, ops);
      LaggingIsStale(max, s, k, ops[0]);
      FaithfulStep(max, s, ops[0]);
      TracksStep(max, s, k, ops[0]);
      LagsStep(max, s, k, ops[0]);
      UpToDateHaveLooked(max, Do(max, s, ops[0]), Look(k, ops[0]), ops[1..]);
    }
  }

  /** The file follows the log as long as nobody writes without having looked. */
  lemma LookingKeepsTheFile(max: nat, ops: seq<Op>)
    requires WritersHaveLooked(NOBODY, ops)
    ensures forall n | 0 <= n <= |ops| :: Faithful(max, After(max, NOTHING, ops[..n]))
  {
    LookedIsUpToDate(max, NOTHING, NOBODY, ops);
    FaithfulRun(max, NOTHING, ops);
  }

  /** And exactly then, when the history keeps anything and no two entries are the same. */
  lemma FileFollowsTheLogExactly(max: nat, ops: seq<Op>)
    requires max > 0 && NewEntries([], ops)
    ensures (forall n | 0 <= n <= |ops| :: Faithful(max, After(max, NOTHING, ops[..n])))
            <==> WritersHaveLooked(NOBODY, ops)
  {
    FaithfulRun(max, NOTHING, ops);
    if AllUpToDate(max, NOTHING, ops) {
      UpToDateHaveLooked(max, NOTHING, NOBODY, ops);
    } else if WritersHaveLooked(NOBODY, ops) {
      LookedIsUpToDate(max, NOTHING, NOBODY, ops);
    }
  }

  /** `persist_to_file` writes without reading first: a process that has not looked
      since another one appended wipes out the other's entry. */
  lemma StalePersistLosesEntries(max: nat, entry: Entry)
    requires max > 0
    ensures var s := After(max, NOTHING, [Open(0), Open(1), Append(0, entry), Persist(1)]);
            s.log == [entry] && Loaded(s.content) == []
  {
    var ops := [Open(0), Open(1), Append(0, entry), Persist(1)];
    var s1 := Do(max, NOTHING, Open(0));
    var s2 := Do(max, s1, Open(1));
    var s3 := Do(max, s2, Append(0, entry));
    var s4 := Do(max, s3, Persist(1));
    assert ops[1..] == [Open(1), Append(0, entry), Persist(1)];
    assert ops[1..][1..] == [Append(0, entry), Persist(1)];
    assert ops[1..][1..][1..] == [Persist(1)];
    assert After(max, s3, [Persist(1)]) == After(max, s4, []) == s4;
    assert After(max, s2, ops[1..][1..]) == After(max, s3, [Persist(1)]);
  }

  // ---------- Several operations under one lock ----------

  /** A process takes the lock, gives it up, or does something under it: its own lock lets it in
      again, and keeps the others out. */
  datatype Event = Lock(p: Process) | Unlock(p: Process) | Locked(op: Op)

  datatype Guarded = Guarded(shared: Shared, holder: Option<Process>)

  /** An event that has to wait changes nothing yet. */
  function React(max: nat, g: Guarded, e: Event): Guarded {
    match e
    case Lock(p) => if g.holder == None then g.(holder := Some(p)) else g
    case Unlock(p) => if g.holder == Some(p) then g.(holder := None) else g
    case Locked(op) => if g.holder == None || g.holder == Some(op.p) then g.(shared := Do(max, g.shared, op)) else g
  }

  /** The lock goes to whoever asks while nobody holds it, and only its holder gives it up; what its holder
      does, or anyone while nobody holds it, is done, and what another does has to wait. */
  lemma LockKeepsOthersOut(max: nat, g: Guarded, p: Process, op: Op)
    ensures React(max, g, Lock(p)) == if g.holder == None then Guarded(g.shared, Some(p)) else g
    ensures React(max, g, Unlock(p)) == if g.holder == Some(p) then Guarded(g.shared, None) else g
    ensures React(max, g, Locked(op)) ==
            if g.holder.Some? && g.holder != Some(op.p) then g else Guarded(Do(max, g.shared, op), g.holder)
  {
  }

  function AfterEvents(max: nat, g: Guarded, events: seq<Event>): Guarded
    decreases |events|
  {
    if events == [] then g else AfterEvents(max, React(max, g, events[0]), events[1..])
  }

  /** What a query of `p` answers from. */
  function Seen(max: nat, g: Guarded, p: Process): seq<Entry>
    requires p in g.shared.caches
  {
    Current(g.shared.content, g.shared.caches[p], max)
  }

  /** Of `p`'s own events there are only queries; the others may do what they like. */
  predicate OnlyQueries(p: Process, events: seq<Event>) {
    forall i | 0 <= i < |events| ::
      (events[i].Locked? && events[i].op.p == p ==> events[i].op.Query?) && events[i] != Unlock(p)
  }

  /** While `p` holds the lock and only queries, all its queries answer from the same entries. */
  lemma {:induction false} OneSnapshot(max: nat, g: Guarded, events: seq<Event>, p: Process)
    requires g.holder == Some(p) && p in g.shared.caches && OnlyQueries(p, events)
    ensures var h := AfterEvents(max, g, events);
            h.holder == Some(p) && p in h.shared.caches && Seen(max, h, p) == Seen(max, g, p)
    decreases |events|
  {
    if events != [] {
      var rest := events[1..];
      assert forall i | 0 <= i < |rest| :: rest[i] == events[i + 1];
      SnapshotStep(max, g, events[0], p);
      OneSnapshot(max, React(max, g, events[0]), rest, p);
    }
  }

  lemma SnapshotStep(max: nat, g: Guarded, e: Event, p: Process)
    requires g.holder == Some(p) && p in g.shared.caches && OnlyQueries(p, [e])
    ensures var h := React(max, g, e);
            h.holder == Some(p) && p in h.shared.caches && Seen(max, h, p) == Seen(max, g, p)
  {
    assert [e][0] == e;
  }
}
