/** The re-entrant lock on a file path: `RLock` states in a reference-counted registry,
    on top of a `flock` between processes. */
module PathLock {
  import opened Wrappers

  type Path = string
  type Process = nat
  type Thread = nat
  type StateId = nat

  /** A registry key. Each process has a registry of its own: here they stand side by side
      in one table, and a process uses only its own keys. */
  datatype Key = Key(process: Process, path: Path)

  /** `_ReentrantPathLockState`. The `RLock` is its owner and how often the owner holds it. */
  datatype LockState = LockState(refCount: int, depth: int, owner: Option<Thread>, held: int)

  datatype Table = Table(registry: map<Key, StateId>, states: map<StateId, LockState>, next: StateId)

  // ---------- What each locked section does to the table ----------

  function GetState(t: Table, key: Key): (Table, StateId) {
    if key in t.registry && t.registry[key] in t.states then
      var id := t.registry[key];
      (t.(states := t.states[id := t.states[id].(refCount := t.states[id].refCount + 1)]), id)
    else
      (Table(t.registry[key := t.next], t.states[t.next := LockState(1, 0, None, 0)], t.next + 1), t.next)
  }

  function ReleaseState(t: Table, key: Key, id: StateId): Table
    requires id in t.states
  {
    var state := t.states[id].(refCount := t.states[id].refCount - 1);
    Table(if state.refCount == 0 then t.registry - {key} else t.registry, t.states[id := state], t.next)
  }

  predicate CanAcquire(state: LockState, thread: Thread) {
    state.owner == None || state.owner == Some(thread)
  }

  function Acquired(state: LockState, thread: Thread): LockState {
    state.(owner := Some(thread), held := state.held + 1)
  }

  function Released(state: LockState): LockState {
    state.(owner := if state.held == 1 then None else state.owner, held := state.held - 1)
  }

  /** Where one `with reentrant_exclusive_path_lock(path)` stands. */
  datatype Pc =
    | Got                       // waiting for the RLock
    | Locked                    // the RLock is held: look at the depth
    | NestedBody
    | Opening                   // exclusive creation of the lock file comes next
    | Reopening                 // the file was there: open it
    | Opened(created: bool)     // waiting for the flock
    | Flocked                   // a created file is dated at the epoch
    | OuterBody
    | Unflocked                 // the flock is given up: reset the depth
    | Unwinding                 // release the RLock
    | Dropping                  // release the state

  predicate InMemory(pc: Pc) {
    pc.Got? || pc.Locked? || pc.NestedBody? || pc.Unflocked? || pc.Unwinding?
  }

  /** Where a step in memory leads, and the state it leaves behind. */
  function AfterMemory(state: LockState, t: Thread, pc: Pc): (Pc, LockState) {
    match pc
    case Got => (Locked, Acquired(state, t))
    case Locked =>
      if state.depth > 0 then (NestedBody, state.(depth := state.depth + 1)) else (Opening, state.(depth := 1))
    case NestedBody => (Unwinding, state.(depth := state.depth - 1))
    case Unflocked => (Unwinding, state.(depth := 0))
    case _ => (Dropping, Released(state))
  }

  /** The module-level table, and the sections of the context manager that touch it. */
  class LockTable {
    var registry: map<Key, StateId>
    var states: map<StateId, LockState>
    var next: StateId

    function View(): Table
      reads this
    {
      Table(registry, states, next)
    }

    constructor ()
      ensures View() == Table(map[], map[], 0)
    {
      registry, states, next := map[], map[], 0;
    }

    /** `_get_reentrant_path_lock_state`. */
    method Get(key: Key) returns (id: StateId)
      requires key in registry ==> registry[key] in states
      modifies this
      ensures (View(), id) == GetState(old(View()), key)
    {
      if key in registry {
        id := registry[key];
      } else {
        id := next;
        next := next + 1;
        states := states[id := LockState(0, 0, None, 0)];
        registry := registry[key := id];
      }
      var state := states[id];
      states := states[id := LockState(state.refCount + 1, state.depth, state.owner, state.held)];
      assert key !in old(registry) ==> states == old(states)[id := LockState(1, 0, None, 0)];
    }

    /** `_release_reentrant_path_lock_state`. */
    method Release(key: Key, id: StateId)
      requires id in states
      modifies this
      ensures View() == ReleaseState(old(View()), key, id)
    {
      states := states[id := states[id].(refCount := states[id].refCount - 1)];
      if states[id].refCount == 0 { registry := registry - {key}; }
    }

    method TryAcquire(id: StateId, thread: Thread) returns (acquired: bool)
      requires id in states
      modifies this`states
      ensures acquired <==> old(states)[id].owner == None || old(states)[id].owner == Some(thread)
      ensures states == if acquired then old(states)[id := Acquired(old(states)[id], thread)] else old(states)
    {
      acquired := states[id].owner == None || states[id].owner == Some(thread);
      if acquired {
        states := states[id := LockState(states[id].refCount, states[id].depth, Some(thread), states[id].held + 1)];
      }
    }

    /** The look at the depth: says whether the entry is nested. */
    method EnterDepth(id: StateId, ghost thread: Thread) returns (nested: bool)
      requires id in states
      modifies this`states
      ensures var after := AfterMemory(old(states)[id], thread, Locked);
              states == old(states)[id := after.1] && after.0 == if nested then NestedBody else Opening
    {
      var state := states[id];
      nested := state.depth > 0;
      states := states[id := LockState(state.refCount, if nested then state.depth + 1 else 1, state.owner, state.held)];
    }

    /** Leaving a body: a nested one counts down, the outermost resets the depth. */
    method LeaveDepth(id: StateId, nested: bool, ghost thread: Thread)
      requires id in states
      modifies this`states
      ensures states == old(states)[id := AfterMemory(old(states)[id], thread, if nested then NestedBody else Unflocked).1]
    {
      var state := states[id];
      states := states[id := LockState(state.refCount, if nested then state.depth - 1 else 0, state.owner, state.held)];
    }

    method ReleaseLock(id: StateId, ghost thread: Thread)
      requires id in states
      modifies this`states
      ensures states == old(states)[id := AfterMemory(old(states)[id], thread, Unwinding).1]
    {
      var state := states[id];
      var owner := if state.held == 1 then None else state.owner;
      states := states[id := LockState(state.refCount, state.depth, owner, state.held - 1)];
    }
  }

  // ---------- Threads of many processes ----------

  datatype Context = Context(path: Path, id: StateId, pc: Pc)

  /** A thread and its contexts, the innermost last. */
  datatype ThreadState = ThreadState(process: Process, contexts: seq<Context>)

  datatype System = System(
    table: Table,
    threads: map<Thread, ThreadState>,
    flocks: map<Path, (Thread, nat)>,  // the context that holds the flock of a path
    files: set<Path>
  )

  /** A thread enters a context, takes the next step of its innermost one (leaving a body
      normally or with an exception is one step), or fails to open or lock the file. */
  datatype Action = Enter(thread: Thread, path: Path) | Go(thread: Thread) | Fail(thread: Thread)

  predicate InBody(pc: Pc) { pc.NestedBody? || pc.OuterBody? }

  predicate InFlock(pc: Pc) { pc.Flocked? || pc.OuterBody? }

  /** The outermost context, between setting the depth and resetting it. */
  predicate Outer(pc: Pc) {
    pc.Opening? || pc.Reopening? || pc.Opened? || pc.Flocked? || pc.OuterBody? || pc.Unflocked?
  }

  predicate Deep(pc: Pc) { Outer(pc) || pc.NestedBody? }

  predicate Holding(pc: Pc) { Deep(pc) || pc.Locked? || pc.Unwinding? }

  function ProcessOf(s: System, t: Thread): Process
    requires t in s.threads
  {
    s.threads[t].process
  }

  function Contexts(s: System, t: Thread): seq<Context>
    requires t in s.threads
  {
    s.threads[t].contexts
  }

  function WithContexts(s: System, t: Thread, contexts: seq<Context>): System
    requires t in s.threads
  {
    s.(threads := s.threads[t := s.threads[t].(contexts := contexts)])
  }

  function To(s: System, t: Thread, pc: Pc): System
    requires t in s.threads && Contexts(s, t) != []
  {
    var cs := Contexts(s, t);
    WithContexts(s, t, cs[..|cs| - 1] + [cs[|cs| - 1].(pc := pc)])
  }

  function WithState(s: System, id: StateId, state: LockState): System {
    s.(table := s.table.(states := s.table.states[id := state]))
  }

  function OnEnter(s: System, t: Thread, path: Path): System
    requires t in s.threads
  {
    var cs := Contexts(s, t);
    if cs != [] && !InBody(cs[|cs| - 1].pc) then s
    else
      var (table, id) := GetState(s.table, Key(ProcessOf(s, t), path));
      WithContexts(s.(table := table), t, cs + [Context(path, id, Got)])
  }

  /** A step that changes the state of the innermost context. */
  function InMemoryStep(s: System, t: Thread): System
    requires t in s.threads && Contexts(s, t) != []
    requires Contexts(s, t)[|Contexts(s, t)| - 1].id in s.table.states
  {
    var top := Contexts(s, t)[|Contexts(s, t)| - 1];
    var (pc, state) := AfterMemory(s.table.states[top.id], t, top.pc);
    To(WithState(s, top.id, state), t, pc)
  }

  function OnGo(s: System, t: Thread): System
    requires t in s.threads
  {
    var cs := Contexts(s, t);
    if cs == [] || cs[|cs| - 1].id !in s.table.states then s
    else
      var n := |cs| - 1;
      var top := cs[n];
      var state := s.table.states[top.id];
      match top.pc
      case Got => if CanAcquire(state, t) then InMemoryStep(s, t) else s
      case Opening =>
        if top.path in s.files then To(s, t, Reopening)
        else To(s.(files := s.files + {top.path}), t, Opened(true))
      case Reopening => To(s, t, if top.path in s.files then Opened(false) else Opening)
      case Opened(created) =>
        if top.path in s.flocks then s
        else To(s.(flocks := s.flocks[top.path := (t, n)]), t, if created then Flocked else OuterBody)
      case Flocked => To(s, t, OuterBody)
      case OuterBody => To(s.(flocks := s.flocks - {top.path}), t, Unflocked)
      case Dropping =>
        WithContexts(s.(table := ReleaseState(s.table, Key(ProcessOf(s, t), top.path), top.id)), t, cs[..n])
      case _ => InMemoryStep(s, t)
  }

  /** An error in opening or locking the file; closing it gives up the flock. */
  function OnFail(s: System, t: Thread): System
    requires t in s.threads
  {
    var cs := Contexts(s, t);
    if cs == [] then s
    else match cs[|cs| - 1].pc
      case Opening => To(s, t, Unflocked)
      case Reopening => To(s, t, Unflocked)
      case Opened(_) => To(s, t, Unflocked)
      case Flocked => To(s.(flocks := s.flocks - {cs[|cs| - 1].path}), t, Unflocked)
      case _ => s
  }

  function Do(s: System, a: Action): System {
    if a.thread !in s.threads then s
    else match a
      case Enter(t, path) => OnEnter(s, t, path)
      case Go(t) => OnGo(s, t)
      case Fail(t) => OnFail(s, t)
  }

  function After(s: System, actions: seq<Action>): System
    decreases |actions|
  {
    if actions == [] then s else After(Do(s, actions[0]), actions[1..])
  }

  // ---------- Counting ----------

  /** How many of the contexts hold the RLock of a state, and how many its depth counts. */
  function Holds(cs: seq<Context>, id: StateId): nat {
    if cs == [] then 0
    else
      var top := cs[|cs| - 1];
      Holds(cs[..|cs| - 1], id) + if top.id == id && Holding(top.pc) then 1 else 0
  }

  function Depth(cs: seq<Context>, id: StateId): nat {
    if cs == [] then 0
    else
      var top := cs[|cs| - 1];
      Depth(cs[..|cs| - 1], id) + if top.id == id && Deep(top.pc) then 1 else 0
  }

  /** All contexts, of all threads, that use a state. */
  function Users(s: System, id: StateId): set<(Thread, nat)> {
    set t, i | t in s.threads && 0 <= i < |s.threads[t].contexts| && s.threads[t].contexts[i].id == id :: (t, i)
  }

  lemma {:induction false} DepthIsHeld(cs: seq<Context>, id: StateId)
    ensures Depth(cs, id) <= Holds(cs, id)
  {
    if cs != [] { DepthIsHeld(cs[..|cs| - 1], id); }
  }

  lemma CountsOfPush(cs: seq<Context>, c: Context, id: StateId)
    ensures Holds(cs + [c], id) == Holds(cs, id) + if c.id == id && Holding(c.pc) then 1 else 0
    ensures Depth(cs + [c], id) == Depth(cs, id) + if c.id == id && Deep(c.pc) then 1 else 0
  {
    assert (cs + [c])[..|cs|] == cs;
  }

  // ---------- The invariant ----------

  /** The registry holds the states that are in use, one for each key. */
  ghost predicate RegistryOk(s: System) {
    && (forall k :: k in s.table.registry ==>
          s.table.registry[k] in s.table.states && s.table.states[s.table.registry[k]].refCount > 0)
    && (forall k, l :: k in s.table.registry && l in s.table.registry && s.table.registry[k] == s.table.registry[l] ==> k == l)
    && (forall id :: id in s.table.states ==> id < s.table.next)
  }

  /** A thread's contexts use the states that the registry has for their paths, and only
      the innermost one is on its way in or out. */
  ghost predicate Registered(registry: map<Key, StateId>, process: Process, cs: seq<Context>) {
    forall i | 0 <= i < |cs| ::
      && Key(process, cs[i].path) in registry && registry[Key(process, cs[i].path)] == cs[i].id
      && (i < |cs| - 1 ==> InBody(cs[i].pc))
  }

  ghost predicate ContextsOk(s: System) {
    forall t :: t in s.threads ==> Registered(s.table.registry, ProcessOf(s, t), Contexts(s, t))
  }

  /** `ref_count` is the number of contexts that use the state. */
  ghost predicate RefCountsOk(s: System) {
    forall id :: id in s.table.states ==> s.table.states[id].refCount == |Users(s, id)|
  }

  /** The RLock's owner is a thread with contexts that hold it; `depth` is its nesting. */
  ghost predicate Owned(s: System, id: StateId, state: LockState) {
    match state.owner
    case None => state.held == 0 && state.depth == 0
    case Some(t) =>
      t in s.threads && state.held == Holds(Contexts(s, t), id) > 0 && state.depth == Depth(Contexts(s, t), id)
  }

  ghost predicate Owns(states: map<StateId, LockState>, t: Thread, cs: seq<Context>) {
    forall id :: Holds(cs, id) > 0 ==> id in states && states[id].owner == Some(t)
  }

  ghost predicate OwnersOk(s: System) {
    && (forall id :: id in s.table.states ==> Owned(s, id, s.table.states[id]))
    && (forall t :: t in s.threads ==> Owns(s.table.states, t, Contexts(s, t)))
  }

  /** A context is the outermost one of its thread for its state, or nested in another. */
  ghost predicate Nested(cs: seq<Context>) {
    forall i | 0 <= i < |cs| ::
      && (Outer(cs[i].pc) ==> Depth(cs[..i], cs[i].id) == 0)
      && (cs[i].pc.NestedBody? ==> Depth(cs[..i], cs[i].id) > 0)
  }

  ghost predicate NestingOk(s: System) {
    forall t :: t in s.threads ==> Nested(Contexts(s, t))
  }

  /** The contexts with the flock of their path, and the flocks, are the same. */
  ghost predicate HoldsFlocks(flocks: map<Path, (Thread, nat)>, t: Thread, cs: seq<Context>) {
    forall i | 0 <= i < |cs| && InFlock(cs[i].pc) :: cs[i].path in flocks && flocks[cs[i].path] == (t, i)
  }

  ghost predicate FlockHeld(s: System, path: Path, holder: (Thread, nat)) {
    && holder.0 in s.threads && holder.1 < |Contexts(s, holder.0)|
    && Contexts(s, holder.0)[holder.1].path == path && InFlock(Contexts(s, holder.0)[holder.1].pc)
  }

  ghost predicate FlocksOk(s: System) {
    && (forall t :: t in s.threads ==> HoldsFlocks(s.flocks, t, Contexts(s, t)))
    && (forall p :: p in s.flocks ==> FlockHeld(s, p, s.flocks[p]))
  }

  ghost predicate Inv(s: System) {
    RegistryOk(s) && ContextsOk(s) && RefCountsOk(s) && OwnersOk(s) && NestingOk(s) && FlocksOk(s)
  }

  ghost predicate Initial(s: System) {
    && s.table == Table(map[], map[], 0) && s.flocks == map[]
    && forall t :: t in s.threads ==> Contexts(s, t) == []
  }

  // ---------- One step at a time ----------

  /** A step that moves the innermost context of a thread, and changes the state it uses. */
  function Move(s: System, t: Thread, pc: Pc, state: LockState): System
    requires t in s.threads && Contexts(s, t) != []
  {
    var cs := Contexts(s, t);
    To(WithState(s, cs[|cs| - 1].id, state), t, pc)
  }

  lemma MoveKeepsUsers(s: System, t: Thread, pc: Pc, state: LockState, id: StateId)
    requires t in s.threads && Contexts(s, t) != []
    ensures Users(Move(s, t, pc, state), id) == Users(s, id)
  {
    var s' := Move(s, t, pc, state);
    forall u, i ensures (u, i) in Users(s', id) <==> (u, i) in Users(s, id) {}
  }

  lemma MoveKeepsRefCounts(s: System, t: Thread, pc: Pc, state: LockState)
    requires RefCountsOk(s) && t in s.threads && Contexts(s, t) != []
    requires var id := Contexts(s, t)[|Contexts(s, t)| - 1].id;
             id in s.table.states && state.refCount == s.table.states[id].refCount
    ensures RefCountsOk(Move(s, t, pc, state))
  {
    var s' := Move(s, t, pc, state);
    forall id | id in s'.table.states ensures s'.table.states[id].refCount == |Users(s', id)| {
      MoveKeepsUsers(s, t, pc, state, id);
    }
  }

  lemma MoveKeepsContexts(s: System, t: Thread, pc: Pc, state: LockState)
    requires ContextsOk(s) && t in s.threads && Contexts(s, t) != []
    ensures ContextsOk(Move(s, t, pc, state))
  {
    var s' := Move(s, t, pc, state);
    assert Registered(s.table.registry, ProcessOf(s, t), Contexts(s, t));
    assert Registered(s.table.registry, ProcessOf(s, t), Contexts(s', t));
  }

  /** The counts of a thread whose innermost context has moved. */
  lemma MoveCounts(cs: seq<Context>, pc: Pc, id: StateId)
    requires cs != []
    ensures var n := |cs| - 1; var moved := cs[..n] + [cs[n].(pc := pc)];
            && Holds(moved, id) == Holds(cs[..n], id) + (if cs[n].id == id && Holding(pc) then 1 else 0)
            && Depth(moved, id) == Depth(cs[..n], id) + (if cs[n].id == id && Deep(pc) then 1 else 0)
  {
    CountsOfPush(cs[..|cs| - 1], cs[|cs| - 1].(pc := pc), id);
  }

  /** The state that a move leaves behind is again the thread's own, or free. */
  ghost predicate FitsMove(s: System, t: Thread, pc: Pc, state: LockState)
    requires t in s.threads && Contexts(s, t) != []
  {
    var cs := Contexts(s, t);
    var below, id := cs[..|cs| - 1], cs[|cs| - 1].id;
    && id in s.table.states && CanAcquire(s.table.states[id], t)
    && state.refCount == s.table.states[id].refCount
    && state.held == Holds(below, id) + (if Holding(pc) then 1 else 0)
    && state.depth == Depth(below, id) + (if Deep(pc) then 1 else 0)
    && state.owner == (if state.held > 0 then Some(t) else None)
    && (Outer(pc) ==> Depth(below, id) == 0)
    && (pc.NestedBody? ==> Depth(below, id) > 0)
  }

  lemma MovedCounts(s: System, t: Thread, pc: Pc, state: LockState, id: StateId)
    requires t in s.threads && Contexts(s, t) != [] && FitsMove(s, t, pc, state)
    ensures var cs, moved := Contexts(s, t), Contexts(Move(s, t, pc, state), t);
            && Holds(moved, id) == (if id == cs[|cs| - 1].id then state.held else Holds(cs, id))
            && Depth(moved, id) == (if id == cs[|cs| - 1].id then state.depth else Depth(cs, id))
            && (Holds(moved, id) == 0 ==> Depth(moved, id) == 0)
  {
    MoveCounts(Contexts(s, t), pc, id);
    DepthIsHeld(Contexts(Move(s, t, pc, state), t), id);
  }

  lemma MoveKeepsOwned(s: System, t: Thread, pc: Pc, state: LockState, id: StateId)
    requires OwnersOk(s) && t in s.threads && Contexts(s, t) != [] && FitsMove(s, t, pc, state)
    requires id in s.table.states
    ensures var s' := Move(s, t, pc, state); Owned(s', id, s'.table.states[id])
  {
    assert Owned(s, id, s.table.states[id]);
    MovedCounts(s, t, pc, state, id);
  }

  lemma MoveKeepsOwns(s: System, t: Thread, pc: Pc, state: LockState, u: Thread)
    requires OwnersOk(s) && t in s.threads && Contexts(s, t) != [] && FitsMove(s, t, pc, state)
    requires u in s.threads
    ensures var s' := Move(s, t, pc, state); Owns(s'.table.states, u, Contexts(s', u))
  {
    var s' := Move(s, t, pc, state);
    assert Owns(s.table.states, u, Contexts(s, u));
    forall id | Holds(Contexts(s', u), id) > 0
      ensures id in s'.table.states && s'.table.states[id].owner == Some(u)
    {
      if u == t { MovedCounts(s, t, pc, state, id); }
    }
  }

  lemma MoveKeepsOwners(s: System, t: Thread, pc: Pc, state: LockState)
    requires OwnersOk(s) && t in s.threads && Contexts(s, t) != [] && FitsMove(s, t, pc, state)
    ensures OwnersOk(Move(s, t, pc, state))
  {
    var s' := Move(s, t, pc, state);
    forall id | id in s'.table.states ensures Owned(s', id, s'.table.states[id]) {
      MoveKeepsOwned(s, t, pc, state, id);
    }
    forall u | u in s'.threads ensures Owns(s'.table.states, u, Contexts(s', u)) {
      MoveKeepsOwns(s, t, pc, state, u);
    }
  }

  lemma NestedMove(cs: seq<Context>, c: Context)
    requires Nested(cs)
    requires Outer(c.pc) ==> Depth(cs, c.id) == 0
    requires c.pc.NestedBody? ==> Depth(cs, c.id) > 0
    ensures Nested(cs + [c])
  {
    var moved := cs + [c];
    forall i | 0 <= i < |moved|
      ensures Outer(moved[i].pc) ==> Depth(moved[..i], moved[i].id) == 0
      ensures moved[i].pc.NestedBody? ==> Depth(moved[..i], moved[i].id) > 0
    {
      assert moved[..i] == cs[..i];
    }
    assert cs[..|cs|] == cs;
  }

  lemma NestedPrefix(cs: seq<Context>, n: nat)
    requires Nested(cs) && n <= |cs|
    ensures Nested(cs[..n])
  {
    forall i | 0 <= i < n ensures cs[..n][..i] == cs[..i] {}
  }

  lemma MoveKeepsNesting(s: System, t: Thread, pc: Pc, state: LockState)
    requires NestingOk(s) && t in s.threads && Contexts(s, t) != [] && FitsMove(s, t, pc, state)
    ensures NestingOk(Move(s, t, pc, state))
  {
    var cs := Contexts(s, t);
    var n := |cs| - 1;
    NestedPrefix(cs, n);
    NestedMove(cs[..n], cs[n].(pc := pc));
  }

  /** How a move changes the flocks: not at all, by taking or by giving up its own. */
  ghost predicate FlockMove(s: System, t: Thread, pc: Pc, flocks: map<Path, (Thread, nat)>)
    requires t in s.threads && Contexts(s, t) != []
  {
    var n := |Contexts(s, t)| - 1;
    var top := Contexts(s, t)[n];
    if InFlock(pc) == InFlock(top.pc) then flocks == s.flocks
    else if InFlock(pc) then top.path !in s.flocks && flocks == s.flocks[top.path := (t, n)]
    else flocks == s.flocks - {top.path}
  }

  lemma MoveKeepsHolders(s: System, t: Thread, pc: Pc, flocks: map<Path, (Thread, nat)>, u: Thread)
    requires FlocksOk(s) && t in s.threads && Contexts(s, t) != [] && FlockMove(s, t, pc, flocks) && u in s.threads
    ensures HoldsFlocks(flocks, u, Contexts(To(s, t, pc), u))
  {
    assert HoldsFlocks(s.flocks, t, Contexts(s, t));
    assert HoldsFlocks(s.flocks, u, Contexts(s, u));
  }

  lemma MoveKeepsHeld(s: System, t: Thread, pc: Pc, flocks: map<Path, (Thread, nat)>, path: Path)
    requires FlocksOk(s) && t in s.threads && Contexts(s, t) != [] && FlockMove(s, t, pc, flocks) && path in flocks
    ensures FlockHeld(To(s, t, pc), path, flocks[path])
  {
    var n := |Contexts(s, t)| - 1;
    assert path in s.flocks ==> FlockHeld(s, path, s.flocks[path]);
    if InFlock(Contexts(s, t)[n].pc) {
      assert HoldsFlocks(s.flocks, t, Contexts(s, t));
    }
  }

  lemma MoveKeepsFlocks(s: System, t: Thread, pc: Pc, s': System)
    requires FlocksOk(s) && t in s.threads && Contexts(s, t) != [] && FlockMove(s, t, pc, s'.flocks)
    requires s'.threads == To(s, t, pc).threads
    ensures FlocksOk(s')
  {
    forall u | u in s'.threads ensures HoldsFlocks(s'.flocks, u, Contexts(s', u)) {
      MoveKeepsHolders(s, t, pc, s'.flocks, u);
    }
    forall p | p in s'.flocks ensures FlockHeld(s', p, s'.flocks[p]) {
      MoveKeepsHeld(s, t, pc, s'.flocks, p);
    }
  }

  lemma MoveKeepsRegistry(s: System, t: Thread, pc: Pc, state: LockState)
    requires RegistryOk(s) && t in s.threads && Contexts(s, t) != [] && FitsMove(s, t, pc, state)
    ensures RegistryOk(Move(s, t, pc, state))
  {
  }

  lemma MoveKeepsTable(s: System, t: Thread, pc: Pc, state: LockState)
    requires Inv(s) && t in s.threads && Contexts(s, t) != [] && FitsMove(s, t, pc, state)
    ensures var m := Move(s, t, pc, state);
            RegistryOk(m) && ContextsOk(m) && RefCountsOk(m) && OwnersOk(m) && NestingOk(m)
  {
    MoveKeepsRegistry(s, t, pc, state);
    MoveKeepsRefCounts(s, t, pc, state);
    MoveKeepsContexts(s, t, pc, state);
    MoveKeepsOwners(s, t, pc, state);
    MoveKeepsNesting(s, t, pc, state);
  }

  /** The parts of the invariant that do not look at the flocks and the files. */
  lemma MovedOnlyFlocks(m: System, s: System)
    requires RegistryOk(m) && ContextsOk(m) && RefCountsOk(m) && OwnersOk(m) && NestingOk(m)
    requires s == m.(flocks := s.flocks, files := s.files)
    ensures RegistryOk(s) && ContextsOk(s) && RefCountsOk(s) && OwnersOk(s) && NestingOk(s)
  {
    forall id | id in s.table.states
      ensures s.table.states[id].refCount == |Users(s, id)| && Owned(s, id, s.table.states[id])
    {
      assert Users(s, id) == Users(m, id);
      assert Owned(m, id, m.table.states[id]);
    }
    forall t | t in s.threads ensures Owns(s.table.states, t, Contexts(s, t)) {
      assert Owns(m.table.states, t, Contexts(m, t));
    }
  }

  /** A move that fits keeps the invariant. */
  lemma MoveKeepsInv(s: System, t: Thread, pc: Pc, state: LockState, s': System)
    requires Inv(s) && t in s.threads && Contexts(s, t) != []
    requires FitsMove(s, t, pc, state) && FlockMove(s, t, pc, s'.flocks)
    requires s' == Move(s, t, pc, state).(flocks := s'.flocks, files := s'.files)
    ensures Inv(s')
  {
    MoveKeepsTable(s, t, pc, state);
    MovedOnlyFlocks(Move(s, t, pc, state), s');
    MoveKeepsFlocks(s, t, pc, s');
  }

  // ---------- Entering and dropping ----------

  /** The registry entry of an entered path is in use, and no other state has changed users. */
  lemma EnterUsers(s: System, t: Thread, c: Context, s': System, id: StateId)
    requires t in s.threads && s'.threads == WithContexts(s, t, Contexts(s, t) + [c]).threads
    ensures |Users(s', id)| == |Users(s, id)| + if c.id == id then 1 else 0
  {
    var here := (t, |Contexts(s, t)|);
    forall u, i
      ensures (u, i) in Users(s', id) <==> (u, i) in Users(s, id) || (c.id == id && (u, i) == here)
    {
    }
    assert Users(s', id) == Users(s, id) + (if c.id == id then {here} else {});
    assert here !in Users(s, id);
  }

  lemma DropUsers(s: System, t: Thread, s': System, id: StateId)
    requires t in s.threads && Contexts(s, t) != []
    requires s'.threads == WithContexts(s, t, Contexts(s, t)[..|Contexts(s, t)| - 1]).threads
    ensures var n := |Contexts(s, t)| - 1;
            && Users(s', id) == Users(s, id) - {(t, n)}
            && ((t, n) in Users(s, id) <==> Contexts(s, t)[n].id == id)
  {
    forall u, i
      ensures (u, i) in Users(s', id) <==> (u, i) in Users(s, id) && (u, i) != (t, |Contexts(s, t)| - 1)
    {
    }
  }

  lemma NoUsersOfNewState(s: System)
    requires RegistryOk(s) && ContextsOk(s)
    ensures Users(s, s.table.next) == {}
  {
    forall t, i | t in s.threads && 0 <= i < |s.threads[t].contexts|
      ensures s.threads[t].contexts[i].id < s.table.next
    {
      assert Registered(s.table.registry, ProcessOf(s, t), Contexts(s, t));
      assert Key(ProcessOf(s, t), Contexts(s, t)[i].path) in s.table.registry;
    }
  }

  /** What the two ends of a context, where it holds nothing, leave as it was. */
  lemma QuietKeepsOwners(s: System, t: Thread, s': System)
    requires OwnersOk(s) && t in s.threads && s'.threads.Keys == s.threads.Keys
    requires forall u :: u in s.threads && u != t ==> s'.threads[u] == s.threads[u]
    requires forall id :: Holds(Contexts(s', t), id) == Holds(Contexts(s, t), id)
    requires forall id :: Depth(Contexts(s', t), id) == Depth(Contexts(s, t), id)
    requires forall id :: id in s.table.states ==>
               id in s'.table.states && s'.table.states[id].(refCount := 0) == s.table.states[id].(refCount := 0)
    requires forall id :: id in s'.table.states && id !in s.table.states ==>
               s'.table.states[id].owner == None && s'.table.states[id].held == 0 && s'.table.states[id].depth == 0
    ensures OwnersOk(s')
  {
    forall id | id in s'.table.states ensures Owned(s', id, s'.table.states[id]) {
      if id in s.table.states { assert Owned(s, id, s.table.states[id]); }
    }
    forall u | u in s'.threads ensures Owns(s'.table.states, u, Contexts(s', u)) {
      assert Owns(s.table.states, u, Contexts(s, u));
    }
  }

  ghost predicate CanEnter(s: System, t: Thread) {
    t in s.threads && (Contexts(s, t) == [] || InBody(Contexts(s, t)[|Contexts(s, t)| - 1].pc))
  }

  lemma EnterCounts(s: System, t: Thread, path: Path, id: StateId)
    requires RegistryOk(s) && ContextsOk(s) && RefCountsOk(s) && CanEnter(s, t)
    requires id in OnEnter(s, t, path).table.states
    ensures OnEnter(s, t, path).table.states[id].refCount == |Users(OnEnter(s, t, path), id)|
  {
    var s' := OnEnter(s, t, path);
    var c := Contexts(s', t)[|Contexts(s, t)|];
    EnterUsers(s, t, c, s', id);
    if Key(ProcessOf(s, t), path) !in s.table.registry { NoUsersOfNewState(s); }
  }

  lemma EnterKeepsCounts(s: System, t: Thread, path: Path)
    requires RegistryOk(s) && ContextsOk(s) && RefCountsOk(s) && CanEnter(s, t)
    ensures RefCountsOk(OnEnter(s, t, path))
  {
    var s' := OnEnter(s, t, path);
    forall id | id in s'.table.states ensures s'.table.states[id].refCount == |Users(s', id)| {
      EnterCounts(s, t, path, id);
    }
  }

  lemma EnterKeepsRegistry(s: System, t: Thread, path: Path)
    requires RegistryOk(s) && ContextsOk(s) && CanEnter(s, t)
    ensures RegistryOk(OnEnter(s, t, path)) && ContextsOk(OnEnter(s, t, path))
  {
    var s' := OnEnter(s, t, path);
    forall u | u in s'.threads ensures Registered(s'.table.registry, ProcessOf(s', u), Contexts(s', u)) {
      assert Registered(s.table.registry, ProcessOf(s, u), Contexts(s, u));
    }
  }

  lemma EnterKeepsOwners(s: System, t: Thread, path: Path)
    requires OwnersOk(s) && RegistryOk(s) && CanEnter(s, t)
    ensures OwnersOk(OnEnter(s, t, path))
  {
    var s', cs := OnEnter(s, t, path), Contexts(s, t);
    var c := Contexts(s', t)[|cs|];
    assert Contexts(s', t) == cs + [c];
    forall id
      ensures Holds(Contexts(s', t), id) == Holds(cs, id) && Depth(Contexts(s', t), id) == Depth(cs, id)
    {
      CountsOfPush(cs, c, id);
    }
    QuietKeepsOwners(s, t, s');
  }

  lemma EnterKeepsRest(s: System, t: Thread, path: Path)
    requires NestingOk(s) && FlocksOk(s) && CanEnter(s, t)
    ensures NestingOk(OnEnter(s, t, path)) && FlocksOk(OnEnter(s, t, path))
  {
    var s', cs := OnEnter(s, t, path), Contexts(s, t);
    var c := Contexts(s', t)[|cs|];
    NestedMove(cs, c);
    PushKeepsFlocks(s, t, c, s');
  }

  lemma EnterKeepsInv(s: System, t: Thread, path: Path)
    requires Inv(s) && CanEnter(s, t)
    ensures Inv(OnEnter(s, t, path))
  {
    EnterKeepsRegistry(s, t, path);
    EnterKeepsCounts(s, t, path);
    EnterKeepsOwners(s, t, path);
    EnterKeepsRest(s, t, path);
  }

  lemma PushKeepsFlocks(s: System, t: Thread, c: Context, s': System)
    requires FlocksOk(s) && t in s.threads && !InFlock(c.pc)
    requires s'.threads == WithContexts(s, t, Contexts(s, t) + [c]).threads && s'.flocks == s.flocks
    ensures FlocksOk(s')
  {
    forall u | u in s'.threads ensures HoldsFlocks(s'.flocks, u, Contexts(s', u)) {
      assert HoldsFlocks(s.flocks, u, Contexts(s, u));
    }
    forall p | p in s'.flocks ensures FlockHeld(s', p, s'.flocks[p]) {
      assert FlockHeld(s, p, s.flocks[p]);
    }
  }

  lemma PopKeepsFlocks(s: System, t: Thread, s': System)
    requires FlocksOk(s) && t in s.threads && Contexts(s, t) != []
    requires !InFlock(Contexts(s, t)[|Contexts(s, t)| - 1].pc)
    requires s'.threads == WithContexts(s, t, Contexts(s, t)[..|Contexts(s, t)| - 1]).threads && s'.flocks == s.flocks
    ensures FlocksOk(s')
  {
    forall u | u in s'.threads ensures HoldsFlocks(s'.flocks, u, Contexts(s', u)) {
      assert HoldsFlocks(s.flocks, u, Contexts(s, u));
    }
    forall p | p in s'.flocks ensures FlockHeld(s', p, s'.flocks[p]) {
      assert FlockHeld(s, p, s.flocks[p]);
    }
  }

  ghost predicate Drops(s: System, t: Thread) {
    t in s.threads && Contexts(s, t) != [] && Contexts(s, t)[|Contexts(s, t)| - 1].pc == Dropping
  }

  /** The last user of a state deletes the entry, and only the last one does. */
  lemma DropDeletesUnused(s: System, t: Thread)
    requires RegistryOk(s) && ContextsOk(s) && RefCountsOk(s) && Drops(s, t)
    ensures var top := Contexts(s, t)[|Contexts(s, t)| - 1]; var key := Key(ProcessOf(s, t), top.path);
            var s' := OnGo(s, t);
            && top.id in s.table.states && key in s.table.registry && s.table.registry[key] == top.id
            && (key !in s'.table.registry <==> Users(s', top.id) == {})
            && s'.table.registry == (if Users(s', top.id) == {} then s.table.registry - {key} else s.table.registry)
            && s'.table.states[top.id].refCount == |Users(s', top.id)|
  {
    var top := Contexts(s, t)[|Contexts(s, t)| - 1];
    assert Registered(s.table.registry, ProcessOf(s, t), Contexts(s, t));
    var users, left := Users(s, top.id), Users(OnGo(s, t), top.id);
    DropUsers(s, t, OnGo(s, t), top.id);
    assert |left| == |users| - 1 == s.table.states[top.id].refCount - 1;
    assert left == {} <==> |left| == 0;
  }

  lemma DropCount(s: System, t: Thread, id: StateId)
    requires RefCountsOk(s) && Drops(s, t) && id in s.table.states
    requires Contexts(s, t)[|Contexts(s, t)| - 1].id in s.table.states && Contexts(s, t)[|Contexts(s, t)| - 1].id != id
    ensures OnGo(s, t).table.states[id].refCount == |Users(OnGo(s, t), id)|
  {
    var left := Users(OnGo(s, t), id);
    DropUsers(s, t, OnGo(s, t), id);
    assert left == Users(s, id);
  }

  lemma DropKeepsCounts(s: System, t: Thread)
    requires RegistryOk(s) && ContextsOk(s) && RefCountsOk(s) && Drops(s, t)
    ensures RefCountsOk(OnGo(s, t))
  {
    var s' := OnGo(s, t);
    DropDeletesUnused(s, t);
    forall id | id in s'.table.states ensures s'.table.states[id].refCount == |Users(s', id)| {
      if id != Contexts(s, t)[|Contexts(s, t)| - 1].id { DropCount(s, t, id); }
    }
  }

  lemma DropKeepsRegistry(s: System, t: Thread)
    requires RegistryOk(s) && ContextsOk(s) && RefCountsOk(s) && Drops(s, t)
    ensures RegistryOk(OnGo(s, t))
  {
    DropDeletesUnused(s, t);
  }

  lemma UserKeepsEntry(s: System, t: Thread, u: Thread, i: nat)
    requires RegistryOk(s) && ContextsOk(s) && RefCountsOk(s) && Drops(s, t) && u in s.threads
    requires u in OnGo(s, t).threads && i < |Contexts(OnGo(s, t), u)|
    ensures var c := Contexts(OnGo(s, t), u)[i]; var key := Key(ProcessOf(s, u), c.path);
            key in OnGo(s, t).table.registry && OnGo(s, t).table.registry[key] == c.id
  {
    DropDeletesUnused(s, t);
    var c := Contexts(OnGo(s, t), u)[i];
    assert Registered(s.table.registry, ProcessOf(s, u), Contexts(s, u));
    assert c == Contexts(s, u)[i];
    assert (u, i) in Users(OnGo(s, t), c.id);
  }

  lemma RegisteredAfterDrop(s: System, t: Thread, u: Thread)
    requires RegistryOk(s) && ContextsOk(s) && RefCountsOk(s) && Drops(s, t) && u in s.threads
    requires u in OnGo(s, t).threads && ProcessOf(OnGo(s, t), u) == ProcessOf(s, u)
    requires Contexts(OnGo(s, t), u) <= Contexts(s, u)
    ensures var s' := OnGo(s, t); Registered(s'.table.registry, ProcessOf(s', u), Contexts(s', u))
  {
    assert Registered(s.table.registry, ProcessOf(s, u), Contexts(s, u));
    forall i: nat | i < |Contexts(OnGo(s, t), u)|
      ensures var c := Contexts(OnGo(s, t), u)[i]; var key := Key(ProcessOf(s, u), c.path);
              key in OnGo(s, t).table.registry && OnGo(s, t).table.registry[key] == c.id
    {
      UserKeepsEntry(s, t, u, i);
    }
  }

  lemma DropShrinks(s: System, t: Thread, u: Thread)
    requires Drops(s, t) && u in s.threads && Contexts(s, t)[|Contexts(s, t)| - 1].id in s.table.states
    ensures u in OnGo(s, t).threads && ProcessOf(OnGo(s, t), u) == ProcessOf(s, u)
    ensures Contexts(OnGo(s, t), u) <= Contexts(s, u)
  {
  }

  lemma DropKeepsContexts(s: System, t: Thread, u: Thread)
    requires RegistryOk(s) && ContextsOk(s) && RefCountsOk(s) && Drops(s, t) && u in s.threads
    requires Contexts(s, t)[|Contexts(s, t)| - 1].id in s.table.states
    ensures u in OnGo(s, t).threads
    ensures var s' := OnGo(s, t); Registered(s'.table.registry, ProcessOf(s', u), Contexts(s', u))
  {
    DropShrinks(s, t, u);
    RegisteredAfterDrop(s, t, u);
  }

  lemma DropKeepsOwners(s: System, t: Thread)
    requires OwnersOk(s) && Drops(s, t) && Contexts(s, t)[|Contexts(s, t)| - 1].id in s.table.states
    ensures OwnersOk(OnGo(s, t))
  {
    QuietKeepsOwners(s, t, OnGo(s, t));
  }

  lemma DropKeepsRest(s: System, t: Thread)
    requires NestingOk(s) && FlocksOk(s) && Drops(s, t) && Contexts(s, t)[|Contexts(s, t)| - 1].id in s.table.states
    ensures NestingOk(OnGo(s, t)) && FlocksOk(OnGo(s, t))
  {
    NestedPrefix(Contexts(s, t), |Contexts(s, t)| - 1);
    PopKeepsFlocks(s, t, OnGo(s, t));
  }

  lemma DropKeepsAllContexts(s: System, t: Thread)
    requires RegistryOk(s) && ContextsOk(s) && RefCountsOk(s) && Drops(s, t)
    requires Contexts(s, t)[|Contexts(s, t)| - 1].id in s.table.states
    ensures ContextsOk(OnGo(s, t))
  {
    var s' := OnGo(s, t);
    assert s'.threads.Keys == s.threads.Keys;
    forall u | u in s.threads ensures u in s'.threads && Registered(s'.table.registry, ProcessOf(s', u), Contexts(s', u)) {
      DropKeepsContexts(s, t, u);
    }
  }

  lemma DropKeepsInv(s: System, t: Thread)
    requires Inv(s) && Drops(s, t)
    ensures Inv(OnGo(s, t))
  {
    var s' := OnGo(s, t);
    DropDeletesUnused(s, t);
    DropKeepsCounts(s, t);
    DropKeepsRegistry(s, t);
    DropKeepsAllContexts(s, t);
    DropKeepsOwners(s, t);
    DropKeepsRest(s, t);
  }

  // ---------- Every step, and every run ----------

  /** What a thread that has the RLock, or may take it, finds in the state. */
  ghost predicate TopOk(s: System, t: Thread)
    requires t in s.threads && Contexts(s, t) != []
  {
    var cs := Contexts(s, t);
    var top, below := cs[|cs| - 1], cs[..|cs| - 1];
    && top.id in s.table.states
    && (Holding(top.pc) ==> s.table.states[top.id].owner == Some(t))
    && (CanAcquire(s.table.states[top.id], t) ==>
          && s.table.states[top.id].held == Holds(cs, top.id) && s.table.states[top.id].depth == Depth(cs, top.id)
          && (s.table.states[top.id].owner == if Holds(cs, top.id) > 0 then Some(t) else None))
    && (Outer(top.pc) ==> Depth(below, top.id) == 0)
    && (top.pc.NestedBody? ==> Depth(below, top.id) > 0)
    && Depth(below, top.id) <= Holds(below, top.id)
  }

  lemma TopState(s: System, t: Thread)
    requires RegistryOk(s) && ContextsOk(s) && OwnersOk(s) && NestingOk(s) && t in s.threads && Contexts(s, t) != []
    ensures TopOk(s, t)
  {
    var cs := Contexts(s, t);
    var top := cs[|cs| - 1];
    assert Registered(s.table.registry, ProcessOf(s, t), cs);
    assert Key(ProcessOf(s, t), top.path) in s.table.registry;
    assert Owned(s, top.id, s.table.states[top.id]);
    assert Owns(s.table.states, t, cs);
    assert Nested(cs);
    DepthIsHeld(cs, top.id);
    DepthIsHeld(cs[..|cs| - 1], top.id);
  }

  lemma SameState(s: System, t: Thread, pc: Pc)
    requires t in s.threads && Contexts(s, t) != [] && Contexts(s, t)[|Contexts(s, t)| - 1].id in s.table.states
    ensures Move(s, t, pc, s.table.states[Contexts(s, t)[|Contexts(s, t)| - 1].id]) == To(s, t, pc)
  {
    var id := Contexts(s, t)[|Contexts(s, t)| - 1].id;
    assert s.table.states[id := s.table.states[id]] == s.table.states;
  }

  lemma OuterFits(s: System, t: Thread, pc: Pc)
    requires t in s.threads && Contexts(s, t) != [] && TopOk(s, t)
    requires Outer(Contexts(s, t)[|Contexts(s, t)| - 1].pc) && Outer(pc)
    ensures FitsMove(s, t, pc, s.table.states[Contexts(s, t)[|Contexts(s, t)| - 1].id])
  {
  }

  /** A step that leaves the memory of the process alone. */
  lemma FileMove(s: System, t: Thread, pc: Pc, s': System)
    requires Inv(s) && t in s.threads && Contexts(s, t) != []
    requires Outer(Contexts(s, t)[|Contexts(s, t)| - 1].pc) && Outer(pc) && FlockMove(s, t, pc, s'.flocks)
    requires s' == To(s, t, pc).(flocks := s'.flocks, files := s'.files)
    ensures Inv(s')
  {
    TopState(s, t);
    OuterFits(s, t, pc);
    SameState(s, t, pc);
    MoveKeepsInv(s, t, pc, s.table.states[Contexts(s, t)[|Contexts(s, t)| - 1].id], s');
  }

  /** Where a file step of a thread leads. */
  function AfterFile(s: System, t: Thread): Pc
    requires t in s.threads && Contexts(s, t) != []
  {
    var top := Contexts(s, t)[|Contexts(s, t)| - 1];
    match top.pc
    case Opening => if top.path in s.files then Reopening else Opened(true)
    case Reopening => if top.path in s.files then Opened(false) else Opening
    case Opened(created) => if top.path in s.flocks then top.pc else if created then Flocked else OuterBody
    case Flocked => OuterBody
    case _ => Unflocked
  }

  lemma FileStep(s: System, t: Thread)
    requires t in s.threads && Contexts(s, t) != [] && Contexts(s, t)[|Contexts(s, t)| - 1].id in s.table.states
    requires var pc := Contexts(s, t)[|Contexts(s, t)| - 1].pc; Outer(pc) && !pc.Unflocked?
    ensures var s' := OnGo(s, t); var pc := AfterFile(s, t);
            Outer(pc) && FlockMove(s, t, pc, s'.flocks) && s' == To(s, t, pc).(flocks := s'.flocks, files := s'.files)
  {
    var cs := Contexts(s, t);
    var top := cs[|cs| - 1];
    if top.pc.Opened? && top.path in s.flocks {
      assert cs[..|cs| - 1] + [top.(pc := top.pc)] == cs;
      assert s.threads[t := s.threads[t]] == s.threads;
    }
  }

  lemma FailStep(s: System, t: Thread)
    requires t in s.threads && CanFail(s, t)
    ensures var s' := OnFail(s, t);
            FlockMove(s, t, Unflocked, s'.flocks) && s' == To(s, t, Unflocked).(flocks := s'.flocks)
  {
  }

  lemma FileStepKeepsInv(s: System, t: Thread)
    requires Inv(s) && t in s.threads && Contexts(s, t) != []
    requires var pc := Contexts(s, t)[|Contexts(s, t)| - 1].pc; Outer(pc) && !pc.Unflocked?
    ensures Inv(OnGo(s, t))
  {
    TopState(s, t);
    FileStep(s, t);
    FileMove(s, t, AfterFile(s, t), OnGo(s, t));
  }

  predicate CanFail(s: System, t: Thread)
    requires t in s.threads
  {
    Contexts(s, t) != [] &&
    var pc := Contexts(s, t)[|Contexts(s, t)| - 1].pc;
    pc.Opening? || pc.Reopening? || pc.Opened? || pc.Flocked?
  }

  lemma FailKeepsInv(s: System, t: Thread)
    requires Inv(s) && t in s.threads && CanFail(s, t)
    ensures Inv(OnFail(s, t))
  {
    FailStep(s, t);
    FileMove(s, t, Unflocked, OnFail(s, t));
  }

  lemma MemoryFits(s: System, t: Thread)
    requires t in s.threads && Contexts(s, t) != [] && TopOk(s, t)
    requires var top := Contexts(s, t)[|Contexts(s, t)| - 1];
             InMemory(top.pc) && CanAcquire(s.table.states[top.id], t)
    ensures var top := Contexts(s, t)[|Contexts(s, t)| - 1];
            var after := AfterMemory(s.table.states[top.id], t, top.pc);
            FitsMove(s, t, after.0, after.1) && !InFlock(after.0) && OnGo(s, t) == Move(s, t, after.0, after.1)
  {
  }

  lemma MemoryMove(s: System, t: Thread, pc: Pc, state: LockState)
    requires Inv(s) && t in s.threads && Contexts(s, t) != [] && FitsMove(s, t, pc, state)
    requires !InFlock(pc) && !InFlock(Contexts(s, t)[|Contexts(s, t)| - 1].pc)
    ensures Inv(Move(s, t, pc, state))
  {
    MoveKeepsInv(s, t, pc, state, Move(s, t, pc, state));
  }

  lemma MemoryStepKeepsInv(s: System, t: Thread)
    requires Inv(s) && t in s.threads && Contexts(s, t) != []
    requires InMemory(Contexts(s, t)[|Contexts(s, t)| - 1].pc)
    ensures Inv(OnGo(s, t))
  {
    TopState(s, t);
    var top := Contexts(s, t)[|Contexts(s, t)| - 1];
    if CanAcquire(s.table.states[top.id], t) {
      MemoryFits(s, t);
      var after := AfterMemory(s.table.states[top.id], t, top.pc);
      MemoryMove(s, t, after.0, after.1);
    } else {
      assert OnGo(s, t) == s;
    }
  }

  lemma GoKeepsInv(s: System, t: Thread)
    requires Inv(s) && t in s.threads && Contexts(s, t) != []
    ensures Inv(OnGo(s, t))
  {
    var pc := Contexts(s, t)[|Contexts(s, t)| - 1].pc;
    if pc.Dropping? { DropKeepsInv(s, t); }
    else if InMemory(pc) { MemoryStepKeepsInv(s, t); }
    else { FileStepKeepsInv(s, t); }
  }

  /** An action that is not enabled changes nothing. */
  lemma DisabledStutters(s: System, a: Action)
    requires a.thread in s.threads
    ensures a.Enter? && !CanEnter(s, a.thread) ==> Do(s, a) == s
    ensures a.Fail? && !CanFail(s, a.thread) ==> Do(s, a) == s
    ensures a.Go? && Contexts(s, a.thread) == [] ==> Do(s, a) == s
  {
  }

  lemma StepKeepsInv(s: System, a: Action)
    requires Inv(s)
    ensures Inv(Do(s, a))
  {
    if a.thread in s.threads {
      DisabledStutters(s, a);
      match a {
        case Enter(t, path) => if CanEnter(s, t) { EnterKeepsInv(s, t, path); }
        case Fail(t) => if CanFail(s, t) { FailKeepsInv(s, t); }
        case Go(t) => if Contexts(s, t) != [] { GoKeepsInv(s, t); }
      }
    }
  }

  lemma {:induction false} RunKeepsInv(s: System, actions: seq<Action>)
    requires Inv(s)
    ensures Inv(After(s, actions))
    decreases |actions|
  {
    if actions != [] {
      StepKeepsInv(s, actions[0]);
      RunKeepsInv(Do(s, actions[0]), actions[1..]);
    }
  }

  lemma InitialInv(s: System)
    requires Initial(s)
    ensures Inv(s)
  {
  }

  // ---------- The promises ----------

  /** Below a nested body there is the body of the outermost context for the same state. */
  lemma {:induction false} OuterBelow(cs: seq<Context>, id: StateId) returns (j: nat)
    requires Depth(cs, id) > 0 && Nested(cs)
    requires forall i | 0 <= i < |cs| :: InBody(cs[i].pc)
    ensures j < |cs| && cs[j].id == id && cs[j].pc == OuterBody
  {
    var n := |cs| - 1;
    if cs[n].id == id && cs[n].pc == OuterBody {
      j := n;
    } else {
      NestedPrefix(cs, n);
      j := OuterBelow(cs[..n], id);
    }
  }

  /** A nested body is inside the body of an outermost context for the same path. */
  lemma EnclosingBody(s: System, t: Thread, i: nat) returns (j: nat)
    requires RegistryOk(s) && ContextsOk(s) && NestingOk(s)
    requires t in s.threads && i < |Contexts(s, t)| && Contexts(s, t)[i].pc.NestedBody?
    ensures j < i && Contexts(s, t)[j].pc == OuterBody && Contexts(s, t)[j].path == Contexts(s, t)[i].path
  {
    var cs := Contexts(s, t);
    assert Registered(s.table.registry, ProcessOf(s, t), cs) && Nested(cs);
    NestedPrefix(cs, i);
    j := OuterBelow(cs[..i], cs[i].id);
    assert cs[..i][j] == cs[j];
    assert Key(ProcessOf(s, t), cs[j].path) == Key(ProcessOf(s, t), cs[i].path);
  }

  /** A thread in a body has the flock of the path, in the same or an enclosing context. */
  lemma BodyHasFlock(s: System, t: Thread, i: nat)
    requires RegistryOk(s) && ContextsOk(s) && NestingOk(s) && FlocksOk(s)
    requires t in s.threads && i < |Contexts(s, t)| && InBody(Contexts(s, t)[i].pc)
    ensures var path := Contexts(s, t)[i].path;
            path in s.flocks && s.flocks[path].0 == t && s.flocks[path].1 <= i
            && (Contexts(s, t)[i].pc.NestedBody? ==> s.flocks[path].1 < i)
  {
    var j := i;
    if Contexts(s, t)[i].pc.NestedBody? { j := EnclosingBody(s, t, i); }
    assert HoldsFlocks(s.flocks, t, Contexts(s, t));
    assert InFlock(Contexts(s, t)[j].pc);
  }

  /** In every interleaving of any number of threads in any number of processes, with any nesting
      and with failures: at most one thread is inside a body for a path. */
  lemma MutualExclusion(s0: System, actions: seq<Action>, t: Thread, i: nat, u: Thread, j: nat)
    requires Initial(s0)
    ensures var s := After(s0, actions);
            t in s.threads && u in s.threads && i < |Contexts(s, t)| && j < |Contexts(s, u)| &&
            InBody(Contexts(s, t)[i].pc) && InBody(Contexts(s, u)[j].pc) && Contexts(s, t)[i].path == Contexts(s, u)[j].path
            ==> t == u
  {
    var s := After(s0, actions);
    InitialInv(s0);
    RunKeepsInv(s0, actions);
    if t in s.threads && u in s.threads && i < |Contexts(s, t)| && j < |Contexts(s, u)| &&
       InBody(Contexts(s, t)[i].pc) && InBody(Contexts(s, u)[j].pc) {
      BodyHasFlock(s, t, i);
      BodyHasFlock(s, u, j);
    }
  }

  /** Nested entries take no second flock: a path has one context with it. */
  lemma OneFlockForAPath(s0: System, actions: seq<Action>, t: Thread, i: nat, u: Thread, j: nat)
    requires Initial(s0)
    ensures var s := After(s0, actions);
            t in s.threads && u in s.threads && i < |Contexts(s, t)| && j < |Contexts(s, u)| &&
            InFlock(Contexts(s, t)[i].pc) && InFlock(Contexts(s, u)[j].pc) && Contexts(s, t)[i].path == Contexts(s, u)[j].path
            ==> t == u && i == j
  {
    var s := After(s0, actions);
    InitialInv(s0);
    RunKeepsInv(s0, actions);
    if t in s.threads && u in s.threads {
      assert HoldsFlocks(s.flocks, t, Contexts(s, t)) && HoldsFlocks(s.flocks, u, Contexts(s, u));
    }
  }

  lemma {:induction false} DeepCounts(cs: seq<Context>, i: nat, id: StateId)
    requires i < |cs| && cs[i].id == id && Deep(cs[i].pc)
    ensures Depth(cs, id) > 0
  {
    var n := |cs| - 1;
    if i < n {
      assert cs[..n][i] == cs[i];
      DeepCounts(cs[..n], i, id);
    }
  }

  /** The innermost context of `t` is inside an enclosing one for the same path. */
  predicate Reenters(s: System, t: Thread, i: nat) {
    t in s.threads && i < |Contexts(s, t)| - 1 && Contexts(s, t)[i].path == Contexts(s, t)[|Contexts(s, t)| - 1].path
  }

  /** The thread owns the RLock for its innermost context, and is inside a body under it. */
  predicate OwnsTop(s: System, t: Thread)
    requires t in s.threads && Contexts(s, t) != []
  {
    var top := Contexts(s, t)[|Contexts(s, t)| - 1];
    top.id in s.table.states && s.table.states[top.id].owner == Some(t) && s.table.states[top.id].depth > 0 && !Outer(top.pc)
  }

  lemma NestedTop(s: System, t: Thread, i: nat)
    requires Inv(s) && Reenters(s, t, i)
    ensures OwnsTop(s, t)
  {
    var cs := Contexts(s, t);
    var n := |cs| - 1;
    TopState(s, t);
    assert Registered(s.table.registry, ProcessOf(s, t), cs);
    assert cs[i].id == cs[n].id;
    assert cs[..n][i] == cs[i];
    DeepCounts(cs[..n], i, cs[n].id);
    DeepCounts(cs, i, cs[n].id);
    DepthIsHeld(cs, cs[n].id);
    assert Owns(s.table.states, t, cs);
  }

  /** The next step of `t` moves its innermost context on, and takes no flock. */
  predicate MovesOnTo(s: System, t: Thread, pc: Pc)
    requires t in s.threads && Contexts(s, t) != []
  {
    OnGo(s, t).threads == To(s, t, pc).threads && OnGo(s, t).flocks == s.flocks
  }

  lemma ReentryOwns(s0: System, actions: seq<Action>, t: Thread, i: nat)
    requires Initial(s0) && Reenters(After(s0, actions), t, i)
    ensures OwnsTop(After(s0, actions), t)
  {
    InitialInv(s0);
    RunKeepsInv(s0, actions);
    NestedTop(After(s0, actions), t, i);
  }

  lemma ReentryStep(s: System, t: Thread)
    requires t in s.threads && Contexts(s, t) != [] && OwnsTop(s, t)
    ensures var pc := Contexts(s, t)[|Contexts(s, t)| - 1].pc;
            (pc.Got? ==> MovesOnTo(s, t, Locked)) && (pc.Locked? ==> MovesOnTo(s, t, NestedBody)) && !Outer(pc)
  {
  }

  /** A thread inside a body for a path enters it again without waiting for anyone: its two steps
      into the nested body are always enabled, and it never goes near the file. */
  lemma ReentryNeverWaits(s0: System, actions: seq<Action>, t: Thread, i: nat)
    requires Initial(s0) && Reenters(After(s0, actions), t, i)
    ensures var s := After(s0, actions); var pc := Contexts(s, t)[|Contexts(s, t)| - 1].pc;
            (pc.Got? ==> MovesOnTo(s, t, Locked)) && (pc.Locked? ==> MovesOnTo(s, t, NestedBody)) && !Outer(pc)
  {
    ReentryOwns(s0, actions, t, i);
    ReentryStep(After(s0, actions), t);
  }

  /** The registry in every reachable state: an entry's `ref_count` is the number of contexts that
      use it and is positive, all contexts of a process for a path share the entry, a path
      without contexts has none, and a positive depth means that the RLock is owned and counts the
      owner's nesting. */
  lemma RegistryIsSound(s0: System, actions: seq<Action>)
    requires Initial(s0)
    ensures var s := After(s0, actions);
            && (forall k :: k in s.table.registry ==>
                  var id := s.table.registry[k];
                  id in s.table.states && s.table.states[id].refCount == |Users(s, id)| > 0)
            && (forall t, i :: t in s.threads && 0 <= i < |Contexts(s, t)| ==>
                  var k := Key(ProcessOf(s, t), Contexts(s, t)[i].path);
                  k in s.table.registry && s.table.registry[k] == Contexts(s, t)[i].id)
            && (forall id :: id in s.table.states && s.table.states[id].depth > 0 ==>
                  var owner := s.table.states[id].owner;
                  owner.Some? && owner.value in s.threads && s.table.states[id].depth == Depth(Contexts(s, owner.value), id))
  {
    var s := After(s0, actions);
    InitialInv(s0);
    RunKeepsInv(s0, actions);
    forall t, i | t in s.threads && 0 <= i < |Contexts(s, t)|
      ensures var k := Key(ProcessOf(s, t), Contexts(s, t)[i].path);
              k in s.table.registry && s.table.registry[k] == Contexts(s, t)[i].id
    {
      assert Registered(s.table.registry, ProcessOf(s, t), Contexts(s, t));
    }
    forall id | id in s.table.states && s.table.states[id].depth > 0
      ensures var owner := s.table.states[id].owner;
              owner.Some? && owner.value in s.threads && s.table.states[id].depth == Depth(Contexts(s, owner.value), id)
    {
      assert Owned(s, id, s.table.states[id]);
    }
  }

  ghost predicate Quiescent(s: System) {
    forall t :: t in s.threads ==> Contexts(s, t) == []
  }

  lemma EntryHasUser(s: System, key: Key)
    requires RegistryOk(s) && RefCountsOk(s) && key in s.table.registry
    ensures !Quiescent(s)
  {
    var users := Users(s, s.table.registry[key]);
    assert |users| > 0;
    var user :| user in users;
    assert Contexts(s, user.0) != [];
  }

  /** When no thread is in a context the registry is empty. */
  lemma QuiescentRegistryIsEmpty(s0: System, actions: seq<Action>)
    requires Initial(s0)
    ensures Quiescent(After(s0, actions)) ==> After(s0, actions).table.registry == map[]
  {
    var s := After(s0, actions);
    InitialInv(s0);
    RunKeepsInv(s0, actions);
    if s.table.registry != map[] {
      var key :| key in s.table.registry;
      EntryHasUser(s, key);
    }
  }

  // ---------- Going on: who waits, and for whom ----------

  /** Only two steps can fail to move, and what stands in their way. */
  lemma GoMovesOn(s: System, t: Thread)
    requires t in s.threads && Contexts(s, t) != [] && Contexts(s, t)[|Contexts(s, t)| - 1].id in s.table.states
    requires OnGo(s, t) == s
    ensures var top := Contexts(s, t)[|Contexts(s, t)| - 1];
            || (top.pc.Got? && s.table.states[top.id].owner.Some? && s.table.states[top.id].owner != Some(t))
            || (top.pc.Opened? && top.path in s.flocks)
  {
    assert Contexts(OnGo(s, t), t) == Contexts(s, t);
  }

  lemma FlockElsewhere(s: System, t: Thread)
    requires FlocksOk(s) && t in s.threads && Contexts(s, t) != []
    requires var top := Contexts(s, t)[|Contexts(s, t)| - 1]; top.pc.Opened? && top.path in s.flocks
    requires forall i: nat :: !Reenters(s, t, i)
    ensures var holder := s.flocks[Contexts(s, t)[|Contexts(s, t)| - 1].path].0; holder in s.threads && holder != t
  {
    var path := Contexts(s, t)[|Contexts(s, t)| - 1].path;
    assert FlockHeld(s, path, s.flocks[path]);
    assert !Reenters(s, t, s.flocks[path].1);
  }

  lemma OpenedIsOutermost(s: System, t: Thread, i: nat)
    requires Inv(s) && t in s.threads && Contexts(s, t) != [] && Contexts(s, t)[|Contexts(s, t)| - 1].pc.Opened?
    ensures !Reenters(s, t, i)
  {
    if Reenters(s, t, i) {
      NestedTop(s, t, i);
      assert false;
    }
  }

  /** The flock of a path that a thread is about to take is not its own already. */
  lemma FlockOfAnother(s: System, t: Thread)
    requires Inv(s) && t in s.threads && Contexts(s, t) != []
    requires var top := Contexts(s, t)[|Contexts(s, t)| - 1]; top.pc.Opened? && top.path in s.flocks
    ensures var holder := s.flocks[Contexts(s, t)[|Contexts(s, t)| - 1].path].0; holder in s.threads && holder != t
  {
    forall i: nat ensures !Reenters(s, t, i) { OpenedIsOutermost(s, t, i); }
    FlockElsewhere(s, t);
  }

  lemma OwnerIsThread(s: System, t: Thread)
    requires Inv(s) && t in s.threads && Contexts(s, t) != []
    ensures var id := Contexts(s, t)[|Contexts(s, t)| - 1].id;
            id in s.table.states && (s.table.states[id].owner.Some? ==> s.table.states[id].owner.value in s.threads)
  {
    TopState(s, t);
    var id := Contexts(s, t)[|Contexts(s, t)| - 1].id;
    assert Owned(s, id, s.table.states[id]);
  }

  /** In every reachable state a thread whose next step does not move it waits for another thread:
      at the RLock for its owner, or at the file for the thread that has its flock. */
  lemma BlockedByAnother(s0: System, actions: seq<Action>, t: Thread)
    requires Initial(s0)
    requires var s := After(s0, actions); t in s.threads && Contexts(s, t) != [] && OnGo(s, t) == s
    ensures var s := After(s0, actions); var top := Contexts(s, t)[|Contexts(s, t)| - 1];
            || (top.pc.Got? && top.id in s.table.states && s.table.states[top.id].owner.Some?
                && s.table.states[top.id].owner.value in s.threads && s.table.states[top.id].owner.value != t)
            || (top.pc.Opened? && top.path in s.flocks
                && s.flocks[top.path].0 in s.threads && s.flocks[top.path].0 != t)
  {
    var s := After(s0, actions);
    InitialInv(s0);
    RunKeepsInv(s0, actions);
    OwnerIsThread(s, t);
    GoMovesOn(s, t);
    var top := Contexts(s, t)[|Contexts(s, t)| - 1];
    if top.pc.Opened? { FlockOfAnother(s, t); }
  }

  // ---------- Undisturbed entry and exit ----------

  /** The next `n` steps of a thread. */
  function Turn(s: System, t: Thread, n: nat): System
    decreases n, t
  {
    if n == 0 then s else Turn(Do(s, Go(t)), t, n - 1)
  }

  lemma TurnStep(s: System, next: System, t: Thread, n: nat)
    requires Do(s, Go(t)) == next
    ensures Turn(s, t, n + 1) == Turn(next, t, n)
  {
  }

  ghost predicate Innermost(s: System, t: Thread, cs: seq<Context>, c: Context) {
    t in s.threads && Contexts(s, t) == cs + [c] && c.id in s.table.states
  }

  function Placed(s: System, t: Thread, cs: seq<Context>, c: Context, pc: Pc): System
    requires t in s.threads
  {
    WithContexts(s, t, cs + [c.(pc := pc)])
  }

  lemma TakesFreeLock(s: System, t: Thread, cs: seq<Context>, c: Context)
    requires Innermost(s, t, cs, c) && c.pc == Got && s.table.states[c.id].owner == None
    ensures var state := s.table.states[c.id];
            Do(s, Go(t)) == Placed(WithState(s, c.id, state.(owner := Some(t), held := state.held + 1)), t, cs, c, Locked)
  {
  }

  lemma CountsFirstDepth(s: System, t: Thread, cs: seq<Context>, c: Context)
    requires Innermost(s, t, cs, c) && c.pc == Locked && s.table.states[c.id].depth == 0
    ensures Do(s, Go(t)) == Placed(WithState(s, c.id, s.table.states[c.id].(depth := 1)), t, cs, c, Opening)
  {
  }

  lemma TriesToCreate(s: System, t: Thread, cs: seq<Context>, c: Context)
    requires Innermost(s, t, cs, c) && c.pc == Opening
    ensures var pc := if c.path in s.files then Reopening else Opened(true);
            Do(s, Go(t)) == Placed(s, t, cs, c, pc).(files := s.files + {c.path})
  {
    assert c.path in s.files ==> s.files + {c.path} == s.files;
  }

  lemma OpensExisting(s: System, t: Thread, cs: seq<Context>, c: Context)
    requires Innermost(s, t, cs, c) && c.pc == Reopening && c.path in s.files
    ensures Do(s, Go(t)) == Placed(s, t, cs, c, Opened(false))
  {
  }

  lemma TakesFreeFlock(s: System, t: Thread, cs: seq<Context>, c: Context)
    requires Innermost(s, t, cs, c) && c.pc.Opened? && c.path !in s.flocks
    ensures var pc := if c.pc.created then Flocked else OuterBody;
            Do(s, Go(t)) == Placed(s, t, cs, c, pc).(flocks := s.flocks[c.path := (t, |cs|)])
  {
  }

  lemma DatesFile(s: System, t: Thread, cs: seq<Context>, c: Context)
    requires Innermost(s, t, cs, c) && c.pc == Flocked
    ensures Do(s, Go(t)) == Placed(s, t, cs, c, OuterBody)
  {
  }

  lemma GivesUpFlock(s: System, t: Thread, cs: seq<Context>, c: Context)
    requires Innermost(s, t, cs, c) && c.pc == OuterBody
    ensures Do(s, Go(t)) == Placed(s, t, cs, c, Unflocked).(flocks := s.flocks - {c.path})
  {
  }

  lemma ResetsDepth(s: System, t: Thread, cs: seq<Context>, c: Context)
    requires Innermost(s, t, cs, c) && c.pc == Unflocked
    ensures Do(s, Go(t)) == Placed(WithState(s, c.id, s.table.states[c.id].(depth := 0)), t, cs, c, Unwinding)
  {
  }

  lemma FreesLock(s: System, t: Thread, cs: seq<Context>, c: Context)
    requires Innermost(s, t, cs, c) && c.pc == Unwinding && s.table.states[c.id].held == 1
    ensures Do(s, Go(t)) == Placed(WithState(s, c.id, s.table.states[c.id].(owner := None, held := 0)), t, cs, c, Dropping)
  {
  }

  lemma DropsState(s: System, t: Thread, cs: seq<Context>, c: Context)
    requires Innermost(s, t, cs, c) && c.pc == Dropping
    ensures Do(s, Go(t)) == WithContexts(s.(table := ReleaseState(s.table, Key(ProcessOf(s, t), c.path), c.id)), t, cs)
  {
    assert (cs + [c])[..|cs|] == cs;
  }

  /** Opening the file, which creates it when it is not there, and locking it: three steps. */
  lemma TakesFlock(s: System, t: Thread, cs: seq<Context>, c: Context, n: nat)
    requires Innermost(s, t, cs, c) && c.pc == Opening && c.path !in s.flocks
    ensures var body := Placed(s, t, cs, c, OuterBody).(flocks := s.flocks[c.path := (t, |cs|)], files := s.files + {c.path});
            Turn(s, t, n + 3) == Turn(body, t, n)
  {
    if c.path in s.files { LocksExisting(s, t, cs, c, n); } else { LocksNew(s, t, cs, c, n); }
  }

  lemma LocksExisting(s: System, t: Thread, cs: seq<Context>, c: Context, n: nat)
    requires Innermost(s, t, cs, c) && c.pc == Opening && c.path !in s.flocks && c.path in s.files
    ensures var body := Placed(s, t, cs, c, OuterBody).(flocks := s.flocks[c.path := (t, |cs|)], files := s.files + {c.path});
            Turn(s, t, n + 3) == Turn(body, t, n)
  {
    var reopening := Placed(s, t, cs, c, Reopening).(files := s.files + {c.path});
    var waiting := Placed(reopening, t, cs, c, Opened(false));
    var body := Placed(waiting, t, cs, c, OuterBody).(flocks := s.flocks[c.path := (t, |cs|)]);
    assert body.threads == Placed(s, t, cs, c, OuterBody).threads;
    TriesToCreate(s, t, cs, c);
    TurnStep(s, reopening, t, n + 2);
    OpensExisting(reopening, t, cs, c.(pc := Reopening));
    TurnStep(reopening, waiting, t, n + 1);
    TakesFreeFlock(waiting, t, cs, c.(pc := Opened(false)));
    TurnStep(waiting, body, t, n);
  }

  lemma LocksNew(s: System, t: Thread, cs: seq<Context>, c: Context, n: nat)
    requires Innermost(s, t, cs, c) && c.pc == Opening && c.path !in s.flocks && c.path !in s.files
    ensures var body := Placed(s, t, cs, c, OuterBody).(flocks := s.flocks[c.path := (t, |cs|)], files := s.files + {c.path});
            Turn(s, t, n + 3) == Turn(body, t, n)
  {
    var waiting := Placed(s, t, cs, c, Opened(true)).(files := s.files + {c.path});
    var flocked := Placed(waiting, t, cs, c, Flocked).(flocks := s.flocks[c.path := (t, |cs|)]);
    var body := Placed(flocked, t, cs, c, OuterBody);
    assert body.threads == Placed(s, t, cs, c, OuterBody).threads;
    TriesToCreate(s, t, cs, c);
    TurnStep(s, waiting, t, n + 2);
    TakesFreeFlock(waiting, t, cs, c.(pc := Opened(true)));
    TurnStep(waiting, flocked, t, n + 1);
    DatesFile(flocked, t, cs, c.(pc := Flocked));
    TurnStep(flocked, body, t, n);
  }

  /** The table after the last exit of its owner from a state. */
  function Freed(table: Table, key: Key, id: StateId): Table
    requires id in table.states
  {
    ReleaseState(table.(states := table.states[id := table.states[id].(depth := 0, owner := None, held := 0)]), key, id)
  }

  /** The way out of an outermost context, after the flock: three steps, which free the RLock. */
  lemma Unwinds(s: System, t: Thread, cs: seq<Context>, c: Context, n: nat)
    requires Innermost(s, t, cs, c) && c.pc == Unflocked && s.table.states[c.id].held == 1
    ensures Turn(s, t, n + 3) ==
            Turn(WithContexts(s.(table := Freed(s.table, Key(ProcessOf(s, t), c.path), c.id)), t, cs), t, n)
  {
    var state := s.table.states[c.id];
    var s1 := Placed(WithState(s, c.id, state.(depth := 0)), t, cs, c, Unwinding);
    var s2 := Placed(WithState(s1, c.id, state.(depth := 0, owner := None, held := 0)), t, cs, c, Dropping);
    ResetsDepth(s, t, cs, c);
    TurnStep(s, s1, t, n + 2);
    FreesLock(s1, t, cs, c.(pc := Unwinding));
    TurnStep(s1, s2, t, n + 1);
    DropsFreed(s, s2, t, cs, c, n);
  }

  lemma DropsFreed(s: System, dropping: System, t: Thread, cs: seq<Context>, c: Context, n: nat)
    requires Innermost(s, t, cs, c)
    requires var free := s.table.states[c.id].(depth := 0, owner := None, held := 0);
             dropping == s.(table := s.table.(states := s.table.states[c.id := free]),
                            threads := s.threads[t := s.threads[t].(contexts := cs + [c.(pc := Dropping)])])
    ensures Turn(dropping, t, n + 1) ==
            Turn(WithContexts(s.(table := Freed(s.table, Key(ProcessOf(s, t), c.path), c.id)), t, cs), t, n)
  {
    DropsState(dropping, t, cs, c.(pc := Dropping));
    var gone := WithContexts(s.(table := Freed(s.table, Key(ProcessOf(s, t), c.path), c.id)), t, cs);
    assert Do(dropping, Go(t)).threads == gone.threads;
    TurnStep(dropping, gone, t, n);
  }

  /** A free path: no RLock of the process for it is held, and no process has its flock. */
  predicate Free(s: System, process: Process, path: Path) {
    && path !in s.flocks
    && (Key(process, path) in s.table.registry ==>
          var id := s.table.registry[Key(process, path)];
          id in s.table.states && s.table.states[id].owner == None)
  }

  /** The threads of `s`, with `cs` as the contexts of `t`. */
  ghost predicate With(s': System, s: System, t: Thread, cs: seq<Context>)
    requires t in s.threads
  {
    s'.threads == s.threads[t := s.threads[t].(contexts := cs)]
  }

  predicate Unheld(state: LockState) { state.owner == None && state.held == 0 && state.depth == 0 }

  /** The table while `t` is inside: as on entry, but the state is its own. */
  function Held(entered: Table, id: StateId, t: Thread): Table
    requires id in entered.states
  {
    entered.(states := entered.states[id := entered.states[id].(owner := Some(t), held := 1, depth := 1)])
  }

  function Body(e: System, t: Thread, cs: seq<Context>, c: Context): System
    requires t in e.threads && c.id in e.table.states
  {
    WithContexts(e.(table := Held(e.table, c.id, t)), t, cs + [c.(pc := OuterBody)])
    .(flocks := e.flocks[c.path := (t, |cs|)], files := e.files + {c.path})
  }

  lemma EntryTakesLock(e: System, t: Thread, cs: seq<Context>, c: Context, n: nat)
    requires Innermost(e, t, cs, c) && c.pc == Got && Unheld(e.table.states[c.id])
    ensures Turn(e, t, n + 2) == Turn(Placed(e.(table := Held(e.table, c.id, t)), t, cs, c, Opening), t, n)
  {
    var state := e.table.states[c.id];
    var locked := Placed(WithState(e, c.id, state.(owner := Some(t), held := 1)), t, cs, c, Locked);
    TakesFreeLock(e, t, cs, c);
    TurnStep(e, locked, t, n + 1);
    CountsFirstDepth(locked, t, cs, c.(pc := Locked));
    TurnStep(locked, Placed(e.(table := Held(e.table, c.id, t)), t, cs, c, Opening), t, n);
  }

  lemma EntryReachesBody(e: System, t: Thread, cs: seq<Context>, c: Context, n: nat)
    requires Innermost(e, t, cs, c) && c.pc == Got && Unheld(e.table.states[c.id]) && c.path !in e.flocks
    ensures Turn(e, t, n + 5) == Turn(Body(e, t, cs, c), t, n)
  {
    EntryTakesLock(e, t, cs, c, n + 3);
    var opening := Placed(e.(table := Held(e.table, c.id, t)), t, cs, c, Opening);
    TakesFlock(opening, t, cs, c.(pc := Opening), n);
    assert Placed(opening, t, cs, c, OuterBody).threads == Body(e, t, cs, c).threads;
  }

  lemma ExitFrees(b: System, t: Thread, cs: seq<Context>, c: Context, n: nat)
    requires Innermost(b, t, cs, c) && c.pc == OuterBody && b.table.states[c.id].held == 1
    ensures Turn(b, t, n + 4) ==
            Turn(WithContexts(b.(table := Freed(b.table, Key(ProcessOf(b, t), c.path), c.id), flocks := b.flocks - {c.path}), t, cs), t, n)
  {
    var out := Placed(b, t, cs, c, Unflocked).(flocks := b.flocks - {c.path});
    GivesUpFlock(b, t, cs, c);
    TurnStep(b, out, t, n + 3);
    Unwinds(out, t, cs, c.(pc := Unflocked), n);
    assert WithContexts(out, t, cs).threads == WithContexts(b, t, cs).threads;
  }

  /** What an entry finds: the state of its path, in use or new. */
  ghost predicate Finds(s: System, e: System, t: Thread, path: Path, c: Context)
    requires t in s.threads
  {
    var key := Key(ProcessOf(s, t), path);
    && Innermost(e, t, Contexts(s, t), c) && c.path == path && c.pc == Got && Unheld(e.table.states[c.id])
    && e.flocks == s.flocks && e.files == s.files && With(e, s, t, Contexts(s, t) + [c])
    && e.table.registry == (if key in s.table.registry then s.table.registry else s.table.registry[key := c.id])
    && (e.table.states[c.id].refCount == 1 <==> key !in s.table.registry)
  }

  lemma EnterFinds(s: System, t: Thread, path: Path) returns (c: Context)
    requires RegistryOk(s) && OwnersOk(s) && CanEnter(s, t) && Free(s, ProcessOf(s, t), path)
    ensures Finds(s, OnEnter(s, t, path), t, path, c)
  {
    var key := Key(ProcessOf(s, t), path);
    var (table, id) := GetState(s.table, key);
    c := Context(path, id, Got);
    if key in s.table.registry { assert Owned(s, id, s.table.states[id]); }
  }

  lemma ExitRestores(s: System, e: System, t: Thread, path: Path, c: Context)
    requires t in s.threads && Finds(s, e, t, path, c) && path !in s.flocks
    ensures var left := Turn(Body(e, t, Contexts(s, t), c), t, 4);
            left.threads == s.threads && left.flocks == s.flocks && left.table.registry == s.table.registry
  {
    var cs := Contexts(s, t);
    var body := Body(e, t, cs, c);
    ExitFrees(body, t, cs, c.(pc := OuterBody), 0);
    assert body.flocks - {path} == s.flocks;
    assert WithContexts(body, t, cs).threads == s.threads;
    EntryIsDeleted(s.table, e.table, Key(ProcessOf(s, t), path), c.id, t);
  }

  /** The exit deletes the entry that the visit made, and no other. */
  lemma EntryIsDeleted(before: Table, entered: Table, key: Key, id: StateId, t: Thread)
    requires id in entered.states
    requires entered.registry == (if key in before.registry then before.registry else before.registry[key := id])
    requires entered.states[id].refCount == 1 <==> key !in before.registry
    ensures Freed(Held(entered, id, t), key, id).registry == before.registry
  {
  }

  /** In the body after five steps, with the flock, whether or not the file was there; after four more
      the thread has left, and the threads, the flocks and the registry are as they were. */
  ghost predicate VisitIs(s: System, entered: System, t: Thread, path: Path, id: StateId)
    requires t in s.threads
  {
    var body := Turn(entered, t, 5);
    var left := Turn(body, t, 4);
    && With(body, s, t, Contexts(s, t) + [Context(path, id, OuterBody)])
    && body.flocks == s.flocks[path := (t, |Contexts(s, t)|)] && body.files == s.files + {path}
    && left.threads == s.threads && left.flocks == s.flocks && left.table.registry == s.table.registry
  }

  lemma VisitFrom(s: System, e: System, t: Thread, path: Path, c: Context)
    requires t in s.threads && Finds(s, e, t, path, c) && path !in s.flocks
    ensures VisitIs(s, e, t, path, c.id)
  {
    EntryReachesBody(e, t, Contexts(s, t), c, 0);
    assert With(Body(e, t, Contexts(s, t), c), s, t, Contexts(s, t) + [Context(path, c.id, OuterBody)]);
    ExitRestores(s, e, t, path, c);
  }

  lemma ReachedFinds(s0: System, actions: seq<Action>, t: Thread, path: Path) returns (c: Context)
    requires Initial(s0)
    requires var s := After(s0, actions); CanEnter(s, t) && Free(s, ProcessOf(s, t), path)
    ensures Finds(After(s0, actions), OnEnter(After(s0, actions), t, path), t, path, c)
  {
    InitialInv(s0);
    RunKeepsInv(s0, actions);
    c := EnterFinds(After(s0, actions), t, path);
  }

  /** From every reachable state, a thread that may enter a free path gets into the body undisturbed,
      and leaves nothing behind. */
  lemma UndisturbedVisit(s0: System, actions: seq<Action>, t: Thread, path: Path) returns (id: StateId)
    requires Initial(s0)
    requires var s := After(s0, actions); CanEnter(s, t) && Free(s, ProcessOf(s, t), path)
    ensures var s := After(s0, actions); VisitIs(s, Do(s, Enter(t, path)), t, path, id)
  {
    var s := After(s0, actions);
    var c := ReachedFinds(s0, actions, t, path);
    id := c.id;
    VisitFrom(s, OnEnter(s, t, path), t, path, c);
  }

  // ---------- Undisturbed nested entry and exit ----------

  /** The thread owns the RLock that the registry has for the path, inside a body for it. */
  ghost predicate OwnsPath(s: System, t: Thread, path: Path) {
    && t in s.threads && Key(ProcessOf(s, t), path) in s.table.registry
    && var id := s.table.registry[Key(ProcessOf(s, t), path)];
    && id in s.table.states && s.table.states[id].owner == Some(t)
    && s.table.states[id].depth > 0 && s.table.states[id].held > 0 && s.table.states[id].refCount > 0
  }

  lemma BodyOwnsPath(s: System, t: Thread, i: nat)
    requires Inv(s) && t in s.threads && i < |Contexts(s, t)| && InBody(Contexts(s, t)[i].pc)
    ensures OwnsPath(s, t, Contexts(s, t)[i].path)
  {
    var cs := Contexts(s, t);
    assert Registered(s.table.registry, ProcessOf(s, t), cs);
    DeepCounts(cs, i, cs[i].id);
    DepthIsHeld(cs, cs[i].id);
    assert Owns(s.table.states, t, cs);
    assert Owned(s, cs[i].id, s.table.states[cs[i].id]);
  }

  /** The state after a memory step of an undisturbed thread. */
  lemma MemoryTurn(s: System, t: Thread, cs: seq<Context>, c: Context, state: LockState, pc: Pc)
    requires Innermost(s, t, cs, c) && InMemory(c.pc) && s.table.states[c.id].owner == Some(t)
    requires AfterMemory(s.table.states[c.id], t, c.pc) == (pc, state)
    ensures Do(s, Go(t)) == Placed(WithState(s, c.id, state), t, cs, c, pc)
  {
  }

  /** The thread with a nested context on top, and with that state behind it. */
  function NestedAt(s: System, t: Thread, path: Path, id: StateId, state: LockState, pc: Pc): System
    requires t in s.threads
  {
    WithContexts(WithState(s, id, state), t, Contexts(s, t) + [Context(path, id, pc)])
  }

  lemma NestedTurn(s: System, t: Thread, path: Path, id: StateId, state: LockState, pc: Pc, state': LockState, pc': Pc, n: nat)
    requires t in s.threads && InMemory(pc) && state.owner == Some(t) && AfterMemory(state, t, pc) == (pc', state')
    ensures Turn(NestedAt(s, t, path, id, state, pc), t, n + 1) == Turn(NestedAt(s, t, path, id, state', pc'), t, n)
  {
    var from, to := NestedAt(s, t, path, id, state, pc), NestedAt(s, t, path, id, state', pc');
    MemoryTurn(from, t, Contexts(s, t), Context(path, id, pc), state', pc');
    assert Placed(WithState(from, id, state'), t, Contexts(s, t), Context(path, id, pc), pc').threads == to.threads;
    assert WithState(from, id, state').table.states == to.table.states;
    TurnStep(from, to, t, n);
  }

  lemma NestedDrop(s: System, t: Thread, path: Path, n: nat)
    requires OwnsPath(s, t, path)
    ensures var id := s.table.registry[Key(ProcessOf(s, t), path)]; var state := s.table.states[id];
            Turn(NestedAt(s, t, path, id, state.(refCount := state.refCount + 1), Dropping), t, n + 1) == Turn(s, t, n)
  {
    var id := s.table.registry[Key(ProcessOf(s, t), path)];
    var state := s.table.states[id];
    var from := NestedAt(s, t, path, id, state.(refCount := state.refCount + 1), Dropping);
    DropsState(from, t, Contexts(s, t), Context(path, id, Dropping));
    assert Do(from, Go(t)).threads == s.threads;
    assert Do(from, Go(t)).table.states == s.table.states;
    TurnStep(from, s, t, n);
  }

  /** Inside a body for the path: two steps lead to the nested body, with every flock as it was, and three
      more back to exactly the state before. */
  ghost predicate NestedVisitIs(s: System, t: Thread, path: Path, id: StateId)
    requires t in s.threads
  {
    var entered := Do(s, Enter(t, path));
    var body := Turn(entered, t, 2);
    && With(body, s, t, Contexts(s, t) + [Context(path, id, NestedBody)])
    && body.flocks == s.flocks && body.files == s.files
    && Turn(body, t, 3) == s
  }

  lemma NestedVisitFrom(s: System, t: Thread, path: Path)
    requires CanEnter(s, t) && OwnsPath(s, t, path)
    ensures NestedVisitIs(s, t, path, s.table.registry[Key(ProcessOf(s, t), path)])
  {
    var id := s.table.registry[Key(ProcessOf(s, t), path)];
    var s0 := s.table.states[id].(refCount := s.table.states[id].refCount + 1);
    var s1 := s0.(held := s0.held + 1);
    var s2 := s1.(depth := s1.depth + 1);
    assert Do(s, Enter(t, path)) == NestedAt(s, t, path, id, s0, Got);
    NestedTurn(s, t, path, id, s0, Got, s1, Locked, 1);
    NestedTurn(s, t, path, id, s1, Locked, s2, NestedBody, 0);
    NestedTurn(s, t, path, id, s2, NestedBody, s1, Unwinding, 2);
    NestedTurn(s, t, path, id, s1, Unwinding, s0, Dropping, 1);
    NestedDrop(s, t, path, 0);
  }

  /** From every reachable state, a thread that is inside a body for a path gets into a nested one and out
      of it again undisturbed, and nothing at all has changed. */
  lemma UndisturbedNestedVisit(s0: System, actions: seq<Action>, t: Thread, i: nat) returns (id: StateId)
    requires Initial(s0)
    requires var s := After(s0, actions); CanEnter(s, t) && i < |Contexts(s, t)|
    ensures var s := After(s0, actions); NestedVisitIs(s, t, Contexts(s, t)[i].path, id)
  {
    var s := After(s0, actions);
    ReachedOwnsPath(s0, actions, t, i);
    id := s.table.registry[Key(ProcessOf(s, t), Contexts(s, t)[i].path)];
    NestedVisitFrom(s, t, Contexts(s, t)[i].path);
  }

  lemma ReachedOwnsPath(s0: System, actions: seq<Action>, t: Thread, i: nat)
    requires Initial(s0)
    requires var s := After(s0, actions); CanEnter(s, t) && i < |Contexts(s, t)|
    ensures var s := After(s0, actions); OwnsPath(s, t, Contexts(s, t)[i].path)
  {
    var s := After(s0, actions);
    InitialInv(s0);
    RunKeepsInv(s0, actions);
    EnterFromBodies(s, t, i);
    BodyOwnsPath(s, t, i);
  }

  lemma EnterFromBodies(s: System, t: Thread, i: nat)
    requires ContextsOk(s) && CanEnter(s, t) && i < |Contexts(s, t)|
    ensures InBody(Contexts(s, t)[i].pc)
  {
    assert Registered(s.table.registry, ProcessOf(s, t), Contexts(s, t));
  }

  // ---------- Errors on the way in ----------

  lemma {:induction false} BodiesHoldTheirDepth(cs: seq<Context>, id: StateId)
    requires forall i | 0 <= i < |cs| :: InBody(cs[i].pc)
    ensures Holds(cs, id) == Depth(cs, id)
  {
    if cs != [] { BodiesHoldTheirDepth(cs[..|cs| - 1], id); }
  }

  ghost predicate HeldOnce(s: System, t: Thread)
    requires t in s.threads && Contexts(s, t) != []
  {
    var id := Contexts(s, t)[|Contexts(s, t)| - 1].id;
    id in s.table.states && s.table.states[id].owner == Some(t) && s.table.states[id].held == 1
  }

  lemma OutermostHoldsOnce(s: System, t: Thread)
    requires t in s.threads && CanFail(s, t) && TopOk(s, t)
    requires forall i | 0 <= i < |Contexts(s, t)| - 1 :: InBody(Contexts(s, t)[i].pc)
    ensures HeldOnce(s, t)
  {
    var cs := Contexts(s, t);
    BodiesHoldTheirDepth(cs[..|cs| - 1], cs[|cs| - 1].id);
  }

  lemma ReachedHoldsOnce(s0: System, actions: seq<Action>, t: Thread)
    requires Initial(s0)
    requires var s := After(s0, actions); t in s.threads && CanFail(s, t)
    ensures HeldOnce(After(s0, actions), t)
  {
    var s := After(s0, actions);
    InitialInv(s0);
    RunKeepsInv(s0, actions);
    TopState(s, t);
    assert Registered(s.table.registry, ProcessOf(s, t), Contexts(s, t));
    OutermostHoldsOnce(s, t);
  }

  /** The thread is where it was before it entered, the RLock is free, and its flock is given up. */
  ghost predicate FailureIs(s: System, t: Thread)
    requires t in s.threads && CanFail(s, t)
  {
    var cs := Contexts(s, t);
    var top := cs[|cs| - 1];
    var left := Turn(Do(s, Fail(t)), t, 3);
    && With(left, s, t, cs[..|cs| - 1])
    && top.id in left.table.states && left.table.states[top.id].owner == None
    && left.flocks == (if top.pc.Flocked? then s.flocks - {top.path} else s.flocks)
  }

  lemma FailedUnwinds(s: System, t: Thread)
    requires t in s.threads && CanFail(s, t) && HeldOnce(s, t)
    ensures FailureIs(s, t)
  {
    var cs := Contexts(s, t);
    var n := |cs| - 1;
    Unwinds(OnFail(s, t), t, cs[..n], cs[n].(pc := Unflocked), 0);
  }

  /** From every reachable state, an error in opening, locking or dating the file unwinds the context
      in three undisturbed steps. */
  lemma FailureUnwinds(s0: System, actions: seq<Action>, t: Thread)
    requires Initial(s0)
    requires var s := After(s0, actions); t in s.threads && CanFail(s, t)
    ensures FailureIs(After(s0, actions), t)
  {
    ReachedHoldsOnce(s0, actions, t);
    FailedUnwinds(After(s0, actions), t);
  }
}
