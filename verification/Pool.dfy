/** The stdio session pool of src/sources/mcp_stdio.rs: every interleaving of the atomic
    actions that open, resume, evict and close sessions. */
module Pool {
  import opened Prelude

  const MAX_SESSIONS := 8

  /** `pending` counts requests waiting for a reply. */
  datatype Session = Session(pending: nat, lastUsed: int)

  datatype Goal = New | Resume(id: string)

  /** What the caller of `close` goes on to do. */
  datatype Then = Retry(goal: Goal) | Release | Nothing

  /** Where a task is, between two atomic actions. */
  datatype Task =
    | Looking(id: string)                 // `find`: not live; waiting for the resuming lock
    | Locked(id: string)                  // has the lock; looks again
    | Loading(goal: Goal)                 // `reserve`: about to load the counter
    | Swapping(goal: Goal, count: nat)    // about to compare and exchange
    | Full(goal: Goal)                    // about to pick a session to evict
    | Reserved(goal: Goal)                // about to start the process
    | Spawned(goal: Goal, id: string)     // about to insert the session
    | Initializing(id: string)            // resumed; waiting for the handshake
    | Closing(id: string, next: Then)     // about to remove the session
    | GivingBack(removed: bool, next: Then) // process terminated; about to give the slot back
    | Over

  /** `saved` are the sessions the store can resume, `inserted` every id ever inserted, `drawn`
      every id ever used, and `leaked` counts the slots that nobody will give back. */
  datatype State = State(
    sessions: map<string, Session>, live: int, resuming: Option<nat>, tasks: map<nat, Task>,
    saved: set<string>, inserted: set<string>, drawn: set<string>, leaked: nat)

  function Go(p: State, t: nat, task: Task): State {
    p.(tasks := p.tasks[t := task])
  }

  /** `open` failed or the resume is done: a resume gives its lock back. */
  function Finish(p: State, t: nat, goal: Goal): State {
    var q := Go(p, t, Over);
    if goal.Resume? then q.(resuming := None) else q
  }

  datatype Action =
    | Opens(t: nat)                         // a client starts a session
    | Finds(t: nat, id: string)             // a client names a session
    | Closes(t: nat, id: string)            // a sweep, a deletion, a process exit, a shutdown
    | Acts(t: nat, ok: bool, id: string)    // task `t` takes its next action
    | Drops(t: nat)                         // the request that task `t` runs in is abandoned while it waits
    | Saves(id: string)                     // an inserted session is written to the store
    | Forgets(id: string)                   // a saved session expires, is pruned or is removed
    | Traffic(id: string, session: Session) // requests come and go

  /** The next action of a task. `ok` is the outcome of what it waits for, `id` its choice. */
  ghost predicate Acted(p: State, t: nat, ok: bool, id: string, q: State)
    requires t in p.tasks
  {
    match p.tasks[t]
    case Looking(name) => p.resuming.None? && q == Go(p, t, Locked(name)).(resuming := Some(t))
    case Locked(name) =>
      if name in p.sessions || name !in p.saved then q == Go(p, t, Over).(resuming := None)
      else q == Go(p, t, Loading(Resume(name)))
    case Loading(goal) =>
      q == Go(p, t, if 0 <= p.live < MAX_SESSIONS then Swapping(goal, p.live) else Full(goal))
    case Swapping(goal, count) =>
      // A weak exchange may also fail when the counter has not changed.
      if ok && p.live == count then q == Go(p, t, Reserved(goal)).(live := p.live + 1)
      else q == Go(p, t, if 0 <= p.live < MAX_SESSIONS then Swapping(goal, p.live) else Full(goal))
    case Full(goal) =>
      // The choice is made from a list taken earlier: the session may be busy or gone by now.
      q == if ok then Go(p, t, Closing(id, Retry(goal))) else Finish(p, t, goal)
    case Reserved(goal) =>
      if !ok then q == Finish(p, t, goal).(live := p.live - 1)
      else if goal.Resume? then q == Go(p, t, Spawned(goal, goal.id))
      else id !in p.drawn && q == Go(p, t, Spawned(goal, id)).(drawn := p.drawn + {id})
    case Spawned(goal, name) =>
      && name in q.sessions
      && q == Go(p, t, if goal.Resume? then Initializing(name) else Over)
              .(sessions := p.sessions[name := q.sessions[name]], inserted := p.inserted + {name})
    case Initializing(name) =>
      q == if ok then Finish(p, t, Resume(name)) else Go(p, t, Closing(name, Release))
    case Closing(name, next) =>
      q == Go(p, t, GivingBack(name in p.sessions, next)).(sessions := p.sessions - {name})
    case GivingBack(removed, next) =>
      var back := p.(live := if removed then p.live - 1 else p.live);
      q == (match next
            case Retry(goal) => Go(back, t, Loading(goal))
            case Release => Go(back, t, Over).(resuming := None)
            case Nothing => Go(back, t, Over))
    case Over => q == p
  }

  /** A task that can be dropped is waiting: for the resuming lock, for a handshake, or for a
      process to end. */
  predicate Waits(task: Task) {
    task.Looking? || task.Initializing? || task.GivingBack?
  }

  /** The slot of a closer that is dropped after it removed its session. */
  predicate Leaks(task: Task) {
    task.GivingBack? && task.removed
  }

  /** A dropped task frees the resuming lock if it has it, and does nothing else any more. */
  function Dropped(p: State, t: nat): State
    requires t in p.tasks
  {
    Go(p, t, Over).(
      resuming := if HoldsLock(p.tasks[t]) then None else p.resuming,
      leaked := p.leaked + if Leaks(p.tasks[t]) then 1 else 0)
  }

  ghost predicate Does(p: State, action: Action, q: State) {
    match action
    case Opens(t) => t !in p.tasks && q == Go(p, t, Loading(New))
    case Finds(t, id) => t !in p.tasks && q == Go(p, t, if id in p.sessions then Over else Looking(id))
    case Closes(t, id) => t !in p.tasks && q == Go(p, t, Closing(id, Nothing))
    case Acts(t, ok, id) => t in p.tasks && Acted(p, t, ok, id, q)
    case Drops(t) => t in p.tasks && Waits(p.tasks[t]) && q == Dropped(p, t)
    case Saves(id) => id in p.inserted && q == p.(saved := p.saved + {id})
    case Forgets(id) => q == p.(saved := p.saved - {id})
    case Traffic(id, session) => id in p.sessions && q == p.(sessions := p.sessions[id := session])
  }

  ghost predicate Next(p: State, q: State) {
    exists action :: Does(p, action, q)
  }

  /** The daemon starts with no session; the store may remember some. */
  ghost predicate Starts(p: State) {
    && p.sessions == map[] && p.live == 0 && p.resuming.None? && p.tasks == map[] && p.leaked == 0
    && p.saved <= p.inserted <= p.drawn
  }

  ghost predicate Run(trace: seq<State>) {
    && trace != [] && Starts(trace[0])
    && forall i :: 0 <= i < |trace| - 1 ==> Next(trace[i], trace[i + 1])
  }

  // ----- what every action keeps

  /** A task that holds a slot: an opener between reserving and inserting, or a closer between
      removing a session and giving its slot back. */
  predicate HoldsSlot(task: Task) {
    task.Reserved? || task.Spawned? || (task.GivingBack? && task.removed)
  }

  function Slots(tasks: map<nat, Task>): set<nat> {
    set t | t in tasks && HoldsSlot(tasks[t])
  }

  predicate HoldsLock(task: Task) {
    match task
    case Locked(_) => true
    case Initializing(_) => true
    case Loading(goal) => goal.Resume?
    case Swapping(goal, _) => goal.Resume?
    case Full(goal) => goal.Resume?
    case Reserved(goal) => goal.Resume?
    case Spawned(goal, _) => goal.Resume?
    case Closing(_, next) => next.Release? || (next.Retry? && next.goal.Resume?)
    case GivingBack(_, next) => next.Release? || (next.Retry? && next.goal.Resume?)
    case _ => false
  }

  /** The session a task is resuming, from its second look until it inserts it. */
  function Resumes(task: Task): Option<string> {
    match task
    case Loading(Resume(id)) => Some(id)
    case Swapping(Resume(id), _) => Some(id)
    case Full(Resume(id)) => Some(id)
    case Reserved(Resume(id)) => Some(id)
    case Spawned(Resume(id), _) => Some(id)
    case Closing(_, Retry(Resume(id))) => Some(id)
    case GivingBack(_, Retry(Resume(id))) => Some(id)
    case _ => None
  }

  /** The counter is the number of sessions, of slots that tasks hold and of slots leaked. */
  ghost predicate Counted(p: State) {
    p.live == |p.sessions| + |Slots(p.tasks)| + p.leaked && p.live <= MAX_SESSIONS
  }

  ghost predicate LockSound(p: State) {
    && (forall t :: t in p.tasks && HoldsLock(p.tasks[t]) ==> p.resuming == Some(t))
    && (p.resuming.Some? ==> p.resuming.value in p.tasks && HoldsLock(p.tasks[p.resuming.value]))
  }

  /** What is being resumed is not in the map, and neither is a new session before it is
      inserted; no two tasks are about to insert the same id. */
  ghost predicate TaskSound(p: State, t: nat, task: Task) {
    && (task.Swapping? ==> task.count < MAX_SESSIONS)
    && (Resumes(task).Some? ==> Resumes(task).value !in p.sessions && Resumes(task).value in p.inserted)
    && (task.Spawned? ==>
          && task.id in p.drawn
          && (if task.goal.Resume? then task.id == task.goal.id else task.id !in p.inserted)
          && forall u :: u in p.tasks && u != t && p.tasks[u].Spawned? ==> p.tasks[u].id != task.id)
  }

  ghost predicate KeysSound(p: State) {
    && p.sessions.Keys <= p.inserted && p.saved <= p.inserted <= p.drawn
    && forall t :: t in p.tasks ==> TaskSound(p, t, p.tasks[t])
  }

  ghost predicate Inv(p: State) {
    Counted(p) && LockSound(p) && KeysSound(p)
  }

  lemma {:induction false} SlotsMove(tasks: map<nat, Task>, t: nat, task: Task)
    ensures var was := t in tasks && HoldsSlot(tasks[t]);
            |Slots(tasks[t := task])| ==
              |Slots(tasks)| + (if HoldsSlot(task) then 1 else 0) - (if was then 1 else 0)
  {
    var more := Slots(tasks) + {t};
    var less := Slots(tasks) - {t};
    assert Slots(tasks[t := task]) == if HoldsSlot(task) then more else less;
  }

  function SlotOf(p: State, t: nat): int {
    if t in p.tasks && HoldsSlot(p.tasks[t]) then 1 else 0
  }

  /** The lock after task `t` becomes `task`. */
  function LockAfter(p: State, t: nat, task: Task): Option<nat> {
    if HoldsLock(task) then Some(t) else if p.resuming == Some(t) then None else p.resuming
  }

  /** A task moves on without touching the sessions. */
  lemma {:induction false} MoveKeeps(p: State, t: nat, q: State)
    requires Inv(p) && Moves(p, t, q)
    ensures Inv(q)
  {
    SlotsMove(p.tasks, t, q.tasks[t]);
    forall u | u in q.tasks ensures TaskSound(q, u, q.tasks[u]) {
      if u != t {
        assert TaskSound(p, u, p.tasks[u]);
      }
    }
  }

  lemma {:induction false} SpawnedAbsent(p: State, t: nat)
    requires KeysSound(p) && t in p.tasks && p.tasks[t].Spawned?
    ensures p.tasks[t].id !in p.sessions
  {
    assert TaskSound(p, t, p.tasks[t]);
    assert p.tasks[t].goal.Resume? ==> Resumes(p.tasks[t]) == Some(p.tasks[t].goal.id);
  }

  lemma {:induction false} InsertCounted(p: State, t: nat, id: string, session: Session, q: State)
    requires Counted(p) && KeysSound(p) && t in p.tasks && p.tasks[t].Spawned? && p.tasks[t].id == id
    requires t in q.tasks && !HoldsSlot(q.tasks[t]) && q.tasks == p.tasks[t := q.tasks[t]]
    requires q.sessions == p.sessions[id := session] && q.live == p.live && q.leaked == p.leaked
    ensures Counted(q)
  {
    SpawnedAbsent(p, t);
    SlotsMove(p.tasks, t, q.tasks[t]);
    assert q.sessions.Keys == p.sessions.Keys + {id};
    assert |q.sessions.Keys| == |p.sessions.Keys| + 1;
  }

  /** The new session goes in at an absent key, and the slot it takes is the one reserved for it. */
  lemma {:induction false} InsertKeeps(p: State, t: nat, session: Session, q: State)
    requires Inv(p) && t in p.tasks && p.tasks[t].Spawned?
    requires var task := p.tasks[t];
             q == Go(p, t, if task.goal.Resume? then Initializing(task.id) else Over)
                  .(sessions := p.sessions[task.id := session], inserted := p.inserted + {task.id})
    ensures Inv(q)
  {
    hide Slots, Counted;
    InsertCounted(p, t, p.tasks[t].id, session, q);
    assert TaskSound(p, t, p.tasks[t]);
    forall u | u in q.tasks ensures TaskSound(q, u, q.tasks[u]) {
      if u != t {
        assert TaskSound(p, u, p.tasks[u]);
        ResumedElsewhere(p, t, u);
      }
    }
  }

  /** Thanks to the lock, nobody else resumes what `t` is about to insert. */
  lemma {:induction false} ResumedElsewhere(p: State, t: nat, u: nat)
    requires Inv(p) && t in p.tasks && u in p.tasks && u != t && p.tasks[t].Spawned?
    ensures Resumes(p.tasks[u]) != Some(p.tasks[t].id)
  {
    assert TaskSound(p, t, p.tasks[t]) && TaskSound(p, u, p.tasks[u]);

    if p.tasks[t].goal.Resume? {
      assert p.resuming == Some(t);
      assert Resumes(p.tasks[u]).Some? ==> HoldsLock(p.tasks[u]);
    }
  }

  lemma {:induction false} RemoveCounted(p: State, t: nat, id: string, q: State)
    requires Counted(p) && t in p.tasks && p.tasks[t].Closing?
    requires t in q.tasks && q.tasks == p.tasks[t := q.tasks[t]]
    requires HoldsSlot(q.tasks[t]) <==> id in p.sessions
    requires q.sessions == p.sessions - {id} && q.live == p.live && q.leaked == p.leaked
    ensures Counted(q)
  {
    SlotsMove(p.tasks, t, q.tasks[t]);
    assert q.sessions.Keys == p.sessions.Keys - {id};
  }

  lemma {:induction false} RemoveKeeps(p: State, t: nat, q: State)
    requires Inv(p) && t in p.tasks && p.tasks[t].Closing?
    requires var task := p.tasks[t];
             q == Go(p, t, GivingBack(task.id in p.sessions, task.next)).(sessions := p.sessions - {task.id})
    ensures Inv(q)
  {
    hide Slots, Counted;
    RemoveCounted(p, t, p.tasks[t].id, q);
    forall u | u in q.tasks ensures TaskSound(q, u, q.tasks[u]) {
      assert TaskSound(p, u, p.tasks[u]);
    }
  }

  lemma {:induction false} ActedKeeps(p: State, t: nat, ok: bool, id: string, q: State)
    requires Inv(p) && t in p.tasks && Acted(p, t, ok, id, q)
    ensures Inv(q)
  {
    var task := p.tasks[t];
    assert TaskSound(p, t, task);

    if task.Spawned? {
      InsertKeeps(p, t, q.sessions[task.id], q);
    } else if task.Closing? {
      RemoveKeeps(p, t, q);
    } else {
      if task.Loading? || task.Swapping? || task.Full? {
        ReserveMoves(p, t, ok, id, q);
      } else if task.Reserved? {
        SpawnMoves(p, t, ok, id, q);
      } else if task.GivingBack? {
        GiveBackMoves(p, t, ok, id, q);
      } else {
        FindMoves(p, t, ok, id, q);
      }

      MoveKeeps(p, t, q);
    }
  }

  /** The action only moves task `t`, in a way that MoveKeeps covers. */
  ghost predicate Moves(p: State, t: nat, q: State) {
    && t in q.tasks && p.drawn <= q.drawn
    && var task := q.tasks[t];
       && q == Go(p, t, task).(live := q.live, resuming := LockAfter(p, t, task), drawn := q.drawn)
       && (HoldsLock(task) ==> p.resuming.None? || p.resuming == Some(t))
       && q.live == p.live + (if HoldsSlot(task) then 1 else 0) - SlotOf(p, t) && q.live <= MAX_SESSIONS
       && TaskSound(q, t, task)
       && (task.Spawned? ==> forall u :: u in p.tasks && u != t && p.tasks[u].Spawned? ==> p.tasks[u].id != task.id)
  }

  lemma {:induction false} FindMoves(p: State, t: nat, ok: bool, id: string, q: State)
    requires Inv(p) && t in p.tasks && Acted(p, t, ok, id, q)
    requires p.tasks[t].Looking? || p.tasks[t].Locked? || p.tasks[t].Initializing? || p.tasks[t].Over?
    ensures Moves(p, t, q)
  {
    assert TaskSound(p, t, p.tasks[t]);
  }

  lemma {:induction false} ReserveMoves(p: State, t: nat, ok: bool, id: string, q: State)
    requires Inv(p) && t in p.tasks && Acted(p, t, ok, id, q)
    requires p.tasks[t].Loading? || p.tasks[t].Swapping? || p.tasks[t].Full?
    ensures Moves(p, t, q)
  {
    assert TaskSound(p, t, p.tasks[t]);
  }

  lemma {:induction false} SpawnMoves(p: State, t: nat, ok: bool, id: string, q: State)
    requires Inv(p) && t in p.tasks && Acted(p, t, ok, id, q) && p.tasks[t].Reserved?
    ensures Moves(p, t, q)
  {
    assert TaskSound(p, t, p.tasks[t]);
    forall u | u in p.tasks && u != t && p.tasks[u].Spawned?
      ensures TaskSound(p, u, p.tasks[u]) && (q.tasks[t].Spawned? ==> p.tasks[u].id != q.tasks[t].id)
    {
      assert TaskSound(p, u, p.tasks[u]);

      if p.tasks[t].goal.Resume? {
        assert HoldsLock(p.tasks[t]) && p.resuming == Some(t);
        assert !HoldsLock(p.tasks[u]);
      }
    }
  }

  lemma {:induction false} GiveBackMoves(p: State, t: nat, ok: bool, id: string, q: State)
    requires Inv(p) && t in p.tasks && Acted(p, t, ok, id, q) && p.tasks[t].GivingBack?
    ensures Moves(p, t, q)
  {
    assert TaskSound(p, t, p.tasks[t]);
  }

  lemma {:induction false} DropKeeps(p: State, t: nat)
    requires Inv(p) && t in p.tasks && Waits(p.tasks[t])
    ensures Inv(Dropped(p, t))
  {
    var q := Dropped(p, t);
    SlotsMove(p.tasks, t, Over);
    forall u | u in q.tasks ensures TaskSound(q, u, q.tasks[u]) {
      if u != t {
        assert TaskSound(p, u, p.tasks[u]);
      }
    }
  }

  lemma {:induction false} NextKeeps(p: State, q: State)
    requires Inv(p) && Next(p, q)
    ensures Inv(q)
  {
    hide Slots, Acted, Dropped;
    var action :| Does(p, action, q);

    match action {
      case Acts(t, ok, id) => ActedKeeps(p, t, ok, id, q);
      case Opens(t) => MoveKeeps(p, t, q);
      case Finds(t, _) => MoveKeeps(p, t, q);
      case Drops(t) => DropKeeps(p, t);
      case Closes(t, _) => MoveKeeps(p, t, q);
      case Saves(_) => SameTasks(p, q);
      case Forgets(_) => SameTasks(p, q);
      case Traffic(id, _) =>
        assert q.sessions.Keys == p.sessions.Keys;
        SameTasks(p, q);
    }
  }

  lemma {:induction false} SameTasks(p: State, q: State)
    requires Inv(p) && q == p.(sessions := q.sessions, saved := q.saved)
    requires q.sessions.Keys == p.sessions.Keys && q.saved <= p.inserted
    ensures Inv(q)
  {
    forall t | t in q.tasks ensures TaskSound(q, t, q.tasks[t]) {
      assert TaskSound(p, t, p.tasks[t]);
    }
    assert |q.sessions.Keys| == |p.sessions.Keys|;
  }

  lemma {:induction false} RunInv(trace: seq<State>, i: nat)
    requires Run(trace) && i < |trace|
    ensures Inv(trace[i])
  {
    if i > 0 {
      RunInv(trace, i - 1);
      NextKeeps(trace[i - 1], trace[i]);
    }
  }

  /** In every interleaving the counter is the number of sessions plus the slots tasks hold plus
      the slots leaked, there are never more than MAX_SESSIONS sessions, a slot that is given back
      was counted, and a session is only inserted at an absent key. */
  lemma {:induction false} PoolBounded(trace: seq<State>, i: nat)
    requires Run(trace) && i < |trace|
    ensures var p := trace[i];
            && p.live == |p.sessions| + |Slots(p.tasks)| + p.leaked
            && |p.sessions| <= p.live <= MAX_SESSIONS
            && (forall t :: t in p.tasks && HoldsSlot(p.tasks[t]) ==> p.live >= 1)
            && (forall t :: t in p.tasks && p.tasks[t].Spawned? ==> p.tasks[t].id !in p.sessions)
  {
    RunInv(trace, i);
    var p := trace[i];
    forall t | t in p.tasks && HoldsSlot(p.tasks[t]) ensures p.live >= 1 {
      assert t in Slots(p.tasks);
    }
    forall t | t in p.tasks && p.tasks[t].Spawned? ensures p.tasks[t].id !in p.sessions {
      SpawnedAbsent(p, t);
    }
  }

  // ----- leaks

  /** This step dropped a closer between its removal and its give-back. */
  ghost predicate LeakStep(p: State, q: State) {
    exists t :: t in p.tasks && Leaks(p.tasks[t]) && Does(p, Drops(t), q)
  }

  lemma {:induction false} LeakedStep(p: State, q: State)
    requires Next(p, q)
    ensures q.leaked == p.leaked + if LeakStep(p, q) then 1 else 0
  {
    var action :| Does(p, action, q);

    if action.Drops? {
      assert Leaks(p.tasks[action.t]) ==> LeakStep(p, q);
    }
  }

  lemma {:induction false} LeakedExactly(trace: seq<State>, i: nat)
    requires Run(trace) && i < |trace|
    ensures trace[i].leaked == 0 <==> forall k :: 0 <= k < i ==> !LeakStep(trace[k], trace[k + 1])
  {
    if i > 0 {
      LeakedExactly(trace, i - 1);
      LeakedStep(trace[i - 1], trace[i]);
    }
  }

  /** The counter is exactly the sessions and the slots tasks hold if and only if no request was
      abandoned while its closer waited for the process to end. */
  lemma {:induction false} CountExactly(trace: seq<State>, i: nat)
    requires Run(trace) && i < |trace|
    ensures trace[i].live == |trace[i].sessions| + |Slots(trace[i].tasks)| <==>
            forall k :: 0 <= k < i ==> !LeakStep(trace[k], trace[k + 1])
  {
    PoolBounded(trace, i);
    LeakedExactly(trace, i);
  }

  lemma {:induction false} LeakedStays(trace: seq<State>, i: nat, j: nat)
    requires Run(trace) && i <= j < |trace|
    ensures trace[i].leaked <= trace[j].leaked
    decreases j
  {
    if i < j {
      LeakedStays(trace, i, j - 1);
      LeakedStep(trace[j - 1], trace[j]);
    }
  }

  /** After MAX_SESSIONS leaks the pool is shut for good: no session is ever held again. */
  lemma {:induction false} LeaksExhaust(trace: seq<State>, i: nat, j: nat)
    requires Run(trace) && i <= j < |trace| && trace[i].leaked >= MAX_SESSIONS
    ensures trace[j].sessions == map[] && trace[j].live == MAX_SESSIONS
    ensures forall t :: t in trace[j].tasks ==> !HoldsSlot(trace[j].tasks[t])
  {
    LeakedStays(trace, i, j);
    PoolBounded(trace, j);
    var slots := Slots(trace[j].tasks);
    assert |slots| == 0 && slots == {};
    forall t | t in trace[j].tasks ensures !HoldsSlot(trace[j].tasks[t]) {
      assert t !in slots;
    }
  }

  function Tasks(first: Task, second: Option<Task>): map<nat, Task> {
    if second.None? then map[0 := first] else map[0 := first, 1 := second.value]
  }

  /** One session is opened, and then closed by a second task. */
  function Example(sessions: map<string, Session>, live: int, first: Task, second: Option<Task>,
                   drawn: set<string>): State {
    State(sessions, live, None, Tasks(first, second), {}, if second.Some? || first.Over? then drawn else {}, drawn, 0)
  }

  function Opening(): seq<State> {
    [State(map[], 0, None, map[], {}, {}, {}, 0),
     Example(map[], 0, Loading(New), None, {}),
     Example(map[], 0, Swapping(New, 0), None, {}),
     Example(map[], 1, Reserved(New), None, {}),
     Example(map[], 1, Spawned(New, "s"), None, {"s"}),
     Example(map["s" := Session(0, 0)], 1, Over, None, {"s"})]
  }

  function Leaving(): seq<State> {
    [Example(map["s" := Session(0, 0)], 1, Over, Some(Closing("s", Nothing)), {"s"}),
     Example(map[], 1, Over, Some(GivingBack(true, Nothing)), {"s"}),
     Example(map[], 1, Over, Some(Over), {"s"}).(leaked := 1)]
  }

  lemma {:induction false} OpeningRuns()
    ensures var s := Opening(); Next(s[0], s[1]) && Next(s[1], s[2]) && Next(s[2], s[3])
  {
    var s := Opening();
    assert s[1].tasks == s[0].tasks[0 := Loading(New)] && Does(s[0], Opens(0), s[1]);
    assert s[2].tasks == s[1].tasks[0 := Swapping(New, 0)] && Does(s[1], Acts(0, true, ""), s[2]);
    assert s[3].tasks == s[2].tasks[0 := Reserved(New)] && Does(s[2], Acts(0, true, ""), s[3]);
  }

  lemma {:induction false} InsertingRuns()
    ensures var s := Opening(); Next(s[3], s[4]) && Next(s[4], s[5])
  {
    var s := Opening();
    assert s[4].tasks == s[3].tasks[0 := Spawned(New, "s")] && s[4].drawn == s[3].drawn + {"s"};
    assert Does(s[3], Acts(0, true, "s"), s[4]);
    assert s[5].tasks == s[4].tasks[0 := Over] && s[5].inserted == s[4].inserted + {"s"};
    assert s[5].sessions == s[4].sessions["s" := Session(0, 0)];
    assert Does(s[4], Acts(0, true, ""), s[5]);
  }

  lemma {:induction false} LeavingRuns()
    ensures var s := Leaving();
            Next(Opening()[5], s[0]) && Next(s[0], s[1]) && Next(s[1], s[2]) && LeakStep(s[1], s[2])
  {
    var before, s := Opening()[5], Leaving();
    assert s[0].tasks == before.tasks[1 := Closing("s", Nothing)] && Does(before, Closes(1, "s"), s[0]);
    assert s[1].tasks == s[0].tasks[1 := GivingBack(true, Nothing)] && s[1].sessions == s[0].sessions - {"s"};
    assert Does(s[0], Acts(1, true, ""), s[1]);
    assert s[2].tasks == s[1].tasks[1 := Over] && Does(s[1], Drops(1), s[2]);
  }

  /** A run of eight actions that leaks: a session is opened, and the request that deletes it is
      abandoned while the process ends. Nothing is left, but the counter stays at one. */
  lemma {:induction false} LeakExample()
    ensures Run(Opening() + Leaving())
    ensures LeakStep(Leaving()[1], Leaving()[2])
    ensures Leaving()[2].live == 1 && Leaving()[2].sessions == map[] && Slots(Leaving()[2].tasks) == {}
  {
    hide Next, LeakStep;
    OpeningRuns();
    InsertingRuns();
    LeavingRuns();
    var trace := Opening() + Leaving();
    forall i | 0 <= i < |trace| - 1 ensures Next(trace[i], trace[i + 1]) {
      assert i < 5 ==> trace[i] == Opening()[i] && trace[i + 1] == Opening()[i + 1];
      assert i > 5 ==> trace[i] == Leaving()[i - 6] && trace[i + 1] == Leaving()[i - 5];
    }
  }

  // ----- what gets done when nobody else is busy

  /** Consecutive states of one run. */
  ghost predicate Goes(trace: seq<State>, p: State, q: State) {
    && trace != [] && trace[0] == p && trace[|trace| - 1] == q
    && forall i :: 0 <= i < |trace| - 1 ==> Next(trace[i], trace[i + 1])
  }

  lemma {:induction false} GoesThen(first: seq<State>, p: State, q: State, second: seq<State>, r: State)
    requires Goes(first, p, q) && Goes(second, q, r)
    ensures Goes(first + second[1..], p, r)
  {
    hide Next;
    var all := first + second[1..];
    forall i | 0 <= i < |all| - 1 ensures Next(all[i], all[i + 1]) {
      assert i >= |first| - 1 ==> all[i] == second[i - (|first| - 1)] && all[i + 1] == second[i + 1 - (|first| - 1)];
    }
  }

  lemma {:induction false} OneAction(p: State, action: Action, q: State)
    requires Does(p, action, q)
    ensures Goes([p, q], p, q)
  {
  }

  /** With room a task that reserves gets a slot and starts its process. */
  lemma {:induction false} SpawnAlone(p: State, t: nat, goal: Goal, id: string) returns (trace: seq<State>)
    requires t in p.tasks && p.tasks[t] == Loading(goal) && 0 <= p.live < MAX_SESSIONS
    requires if goal.Resume? then id == goal.id else id !in p.drawn
    ensures Goes(trace, p, Go(p, t, Spawned(goal, id)).(
                             live := p.live + 1, drawn := if goal.Resume? then p.drawn else p.drawn + {id}))
  {
    var one := Go(p, t, Swapping(goal, p.live));
    var two := Go(one, t, Reserved(goal)).(live := p.live + 1);
    var three := Go(two, t, Spawned(goal, id)).(drawn := if goal.Resume? then p.drawn else p.drawn + {id});
    assert three == Go(p, t, Spawned(goal, id)).(live := p.live + 1, drawn := three.drawn);
    trace := [p, one, two, three];
    assert Does(p, Acts(t, true, ""), one);
    assert Does(one, Acts(t, true, ""), two);
    assert Does(two, Acts(t, true, id), three);
  }

  /** A client that starts a session while there is room gets it. */
  lemma {:induction false} OpenAlone(p: State, t: nat, id: string, session: Session)
    returns (trace: seq<State>, q: State)
    requires t !in p.tasks && 0 <= p.live < MAX_SESSIONS && id !in p.drawn
    ensures Goes(trace, p, q)
    ensures q == Go(p, t, Over).(sessions := p.sessions[id := session], live := p.live + 1,
                                 inserted := p.inserted + {id}, drawn := p.drawn + {id})
  {
    hide Goes;
    var one := Go(p, t, Loading(New));
    OneAction(p, Opens(t), one);
    trace, q := InsertNew(one, t, id, session);
    GoesThen([p, one], p, one, trace, q);
    trace := [p, one] + trace[1..];
    assert q.tasks == p.tasks[t := Over];
  }

  lemma {:induction false} InsertNew(p: State, t: nat, id: string, session: Session)
    returns (trace: seq<State>, q: State)
    requires t in p.tasks && p.tasks[t] == Loading(New) && 0 <= p.live < MAX_SESSIONS && id !in p.drawn
    ensures trace != [] && Goes(trace, p, q)
    ensures q == Go(p, t, Over).(sessions := p.sessions[id := session], live := p.live + 1,
                                 inserted := p.inserted + {id}, drawn := p.drawn + {id})
  {
    hide Goes;
    trace := SpawnAlone(p, t, New, id);
    var spawned := Go(p, t, Spawned(New, id)).(live := p.live + 1, drawn := p.drawn + {id});
    q := Go(spawned, t, Over).(sessions := p.sessions[id := session], inserted := p.inserted + {id});
    assert q.sessions[id] == session && Does(spawned, Acts(t, true, ""), q);
    OneAction(spawned, Acts(t, true, ""), q);
    GoesThen(trace, p, spawned, [spawned, q], q);
    trace := trace + [spawned, q][1..];
    assert q.tasks == p.tasks[t := Over];
  }

  /** A process that doesn't start gives its slot back. */
  lemma {:induction false} StartFails(p: State, t: nat) returns (trace: seq<State>, q: State)
    requires t !in p.tasks && 0 <= p.live < MAX_SESSIONS
    ensures Goes(trace, p, q) && q == Go(p, t, Over)
  {
    var one := Go(p, t, Loading(New));
    var two := Go(one, t, Swapping(New, p.live));
    var three := Go(two, t, Reserved(New)).(live := p.live + 1);
    q := Finish(three, t, New).(live := p.live);
    trace := [p, one, two, three, q];
    assert Does(p, Opens(t), one);
    assert Does(one, Acts(t, true, ""), two);
    assert Does(two, Acts(t, true, ""), three);
    assert Does(three, Acts(t, false, ""), q);
    assert q.tasks == p.tasks[t := Over];
  }

  /** Closing a session removes it and gives its slot back; closing it again does nothing. */
  lemma {:induction false} CloseAlone(p: State, t: nat, id: string) returns (trace: seq<State>, q: State)
    requires t !in p.tasks
    ensures Goes(trace, p, q)
    ensures q == Go(p, t, Over).(sessions := p.sessions - {id}, live := p.live - if id in p.sessions then 1 else 0)
  {
    var one := Go(p, t, Closing(id, Nothing));
    var two := Go(one, t, GivingBack(id in p.sessions, Nothing)).(sessions := p.sessions - {id});
    q := Go(two, t, Over).(live := if id in p.sessions then p.live - 1 else p.live);
    trace := [p, one, two, q];
    assert Does(p, Closes(t, id), one);
    assert Does(one, Acts(t, true, ""), two);
    assert Does(two, Acts(t, true, ""), q);
    assert q.tasks == p.tasks[t := Over];
  }

  /** At the limit a client that starts a session takes the place of the one that is evicted. */
  lemma {:induction false} EvictAlone(p: State, t: nat, idle: string, id: string, session: Session)
    returns (trace: seq<State>, q: State)
    requires t !in p.tasks && p.live == MAX_SESSIONS && idle in p.sessions && id !in p.drawn
    ensures Goes(trace, p, q)
    ensures q == Go(p, t, Over).(sessions := (p.sessions - {idle})[id := session],
                                 inserted := p.inserted + {id}, drawn := p.drawn + {id})
  {
    hide Goes;
    var one := Go(p, t, Loading(New));
    var two := Go(one, t, Full(New));
    var three := Go(two, t, Closing(idle, Retry(New)));
    var four := Go(three, t, GivingBack(true, Retry(New))).(sessions := p.sessions - {idle});
    var five := Go(four, t, Loading(New)).(live := p.live - 1);
    var first := [p, one, two, three, four, five];
    assert Does(p, Opens(t), one);
    assert Does(one, Acts(t, true, ""), two);
    assert Does(two, Acts(t, true, idle), three);
    assert Does(three, Acts(t, true, ""), four);
    assert Does(four, Acts(t, true, ""), five);
    FiveActions(first);
    trace, q := InsertNew(five, t, id, session);
    GoesThen(first, p, five, trace, q);
    trace := first + trace[1..];
    assert q.tasks == p.tasks[t := Over];
  }

  lemma {:induction false} FiveActions(trace: seq<State>)
    requires |trace| == 6 && Next(trace[0], trace[1]) && Next(trace[1], trace[2]) && Next(trace[2], trace[3])
    requires Next(trace[3], trace[4]) && Next(trace[4], trace[5])
    ensures Goes(trace, trace[0], trace[5])
  {
    hide Next;
  }

  /** A saved session that a client names is resumed under its own id, if the handshake succeeds; if not
      it leaves nothing behind. Either way the resuming lock is free again. */
  lemma {:induction false} ResumeAlone(p: State, t: nat, id: string, session: Session, ok: bool)
    returns (trace: seq<State>, q: State)
    requires t !in p.tasks && p.resuming.None? && 0 <= p.live < MAX_SESSIONS
    requires id in p.saved && id !in p.sessions
    ensures Goes(trace, p, q) && q.resuming.None?
    ensures if ok then q.sessions == p.sessions[id := session] && q.live == p.live + 1
            else q.sessions == p.sessions && q.live == p.live
  {
    hide Goes;
    var one := Go(p, t, Looking(id));
    var two := Go(one, t, Locked(id)).(resuming := Some(t));
    var three := Go(two, t, Loading(Resume(id)));
    assert Does(p, Finds(t, id), one);
    assert Does(one, Acts(t, true, ""), two);
    assert Does(two, Acts(t, true, ""), three);
    OneAction(p, Finds(t, id), one);
    OneAction(one, Acts(t, true, ""), two);
    OneAction(two, Acts(t, true, ""), three);
    GoesThen([p, one], p, one, [one, two], two);
    GoesThen([p, one] + [one, two][1..], p, two, [two, three], three);
    var found := [p, one] + [one, two][1..] + [two, three][1..];
    var spawned := Go(three, t, Spawned(Resume(id), id)).(live := p.live + 1);
    var started := SpawnAlone(three, t, Resume(id), id);
    GoesThen(found, p, three, started, spawned);
    var rest;
    rest, q := HandshakeAlone(spawned, t, id, session, ok);
    GoesThen(found + started[1..], p, spawned, rest, q);
    trace := found + started[1..] + rest[1..];
    assert !ok ==> q.sessions == p.sessions;
  }

  lemma {:induction false} HandshakeAlone(p: State, t: nat, id: string, session: Session, ok: bool)
    returns (trace: seq<State>, q: State)
    requires t in p.tasks && p.tasks[t] == Spawned(Resume(id), id)
    ensures Goes(trace, p, q) && q.resuming.None?
    ensures q.sessions == if ok then p.sessions[id := session] else p.sessions - {id}
    ensures q.live == if ok then p.live else p.live - 1
  {
    var one := Go(p, t, Initializing(id)).(sessions := p.sessions[id := session], inserted := p.inserted + {id});
    assert one.sessions[id] == session && Does(p, Acts(t, true, ""), one);

    if ok {
      q := Finish(one, t, Resume(id));
      trace := [p, one, q];
      assert Does(one, Acts(t, true, ""), q);
    } else {
      var two := Go(one, t, Closing(id, Release));
      var three := Go(two, t, GivingBack(true, Release)).(sessions := p.sessions - {id});
      q := Go(three, t, Over).(live := p.live - 1, resuming := None);
      trace := [p, one, two, three, q];
      assert Does(one, Acts(t, false, ""), two);
      assert two.sessions - {id} == p.sessions - {id};
      assert Does(two, Acts(t, true, ""), three);
      assert Does(three, Acts(t, true, ""), q);
    }
  }
}
