/**
 Any number of threads calling `async`, `sync` and `join` on a queue of their own
 thread, step by step through the mutex of the channel and the mutex and
 condition variable of each synchronous job, in any interleaving.
 */
module DispatchProtocol {
  import opened Bytes

  type Tid = nat
  type Job = nat

  /** `breaks`: the job's function calls `loopbreak`. */
  datatype Kind = Kind(synced: bool, breaks: bool)

  datatype Phase = Wanting | Holding | Pushed

  /** What follows a push: the call returns, waits, joins the runner, or goes on with the job that made it. */
  datatype After = Return | Wait | Join | Resume(of: Job)

  /** Where a thread is; from `Asleep` on, only the runner. */
  datatype Pc =
    | Ready
    | Locking(j: Job)
    | Pushing(j: Job, phase: Phase, after: After)
    | ToWait(j: Job)
    | Waiting(j: Job)
    | Woken(j: Job)
    | Returning(j: Job)
    | Joining
    | Asleep
    | WantPop
    | HoldPop
    | Running(j: Job)
    | WantJob(j: Job)
    | InJob(j: Job)
    | OutJob(j: Job)
    | Releasing(j: Job)
    | Checking
    | Exited

  /** `pushed`, `executed`, `dropped`, `deleted`, `notified` and `returned` record the run. */
  datatype World = World(
    runner: Tid, pc: map<Tid, Pc>, chanLock: Option<Tid>, jobLocks: map<Job, Tid>,
    kinds: map<Job, Kind>, queue: seq<Job>,
    loopbreak: bool, joined: bool, joinDone: bool, destroyed: bool,
    pushed: seq<Job>, executed: seq<Job>, dropped: seq<Job>, deleted: seq<Job>,
    notified: set<Job>, returned: set<Job>)

  datatype Action =
    | CallAsync(t: Tid, j: Job, breaks: bool)
    | CallSync(t: Tid, j: Job, breaks: bool)
    | CallJoin(t: Tid, j: Job)
    | Advance(t: Tid)
    | Destroy(t: Tid)

  // ---- Steps ----

  /** Only mutexes, the condition variable and `pthread_join` ever make a thread wait. */
  predicate CanAdvance(w: World, t: Tid) {
    t in w.pc &&
    match w.pc[t]
    case Ready => false
    case Locking(j) => j !in w.jobLocks
    case Pushing(_, phase, _) => phase.Wanting? ==> w.chanLock == None
    case Waiting(_) => false
    case Woken(j) => j !in w.jobLocks
    case Joining => w.runner in w.pc && w.pc[w.runner].Exited?
    case WantPop => w.chanLock == None
    case WantJob(j) => j !in w.jobLocks
    case Exited => false
    case _ => true
  }

  predicate Enabled(w: World, a: Action) {
    a.t in w.pc && !w.destroyed &&
    match a
    case CallAsync(t, j, _) => (w.pc[t].Ready? || w.pc[t].Running?) && j !in w.kinds
    case CallSync(t, j, _) => w.pc[t].Ready? && j !in w.kinds
    case CallJoin(t, j) => w.pc[t].Ready? && j !in w.kinds && !w.joined
    case Advance(t) => CanAdvance(w, t)
    case Destroy(t) => w.joinDone && forall u <- w.pc | u != w.runner :: w.pc[u].Ready?
  }

  function Goto(w: World, t: Tid, pc: Pc): World {
    w.(pc := w.pc[t := pc])
  }

  function Breaks(kinds: map<Job, Kind>, j: Job): bool { j in kinds && kinds[j].breaks }

  function Synced(kinds: map<Job, Kind>, j: Job): bool { j in kinds && kinds[j].synced }

  function Next(j: Job, after: After): Pc {
    match after
    case Return => Ready
    case Wait => ToWait(j)
    case Join => Joining
    case Resume(k) => Running(k)
  }

  /** `pthread_cond_broadcast` on the job's condition variable. */
  function Broadcast(pc: map<Tid, Pc>, j: Job): map<Tid, Pc> {
    map t | t in pc :: if pc[t] == Waiting(j) then Woken(j) else pc[t]
  }

  function Step(w: World, t: Tid): World
    requires CanAdvance(w, t)
  {
    match w.pc[t]
    case Ready => w
    case Locking(j) => Goto(w, t, Pushing(j, Wanting, Wait)).(jobLocks := w.jobLocks[j := t])
    case Pushing(j, phase, after) => StepPush(w, t, j, phase, after)
    case ToWait(j) => Goto(w, t, Waiting(j)).(jobLocks := w.jobLocks - {j})
    case Waiting(_) => w
    case Woken(j) => Goto(w, t, Returning(j)).(jobLocks := w.jobLocks[j := t])
    case Returning(j) => Goto(w, t, Ready).(jobLocks := w.jobLocks - {j}, returned := w.returned + {j})
    case Joining => Goto(w, t, Ready).(joinDone := true)
    case Asleep => Goto(w, t, WantPop)
    case WantPop => Goto(w, t, HoldPop).(chanLock := Some(t))
    case HoldPop =>
      if w.queue == [] then Goto(w, t, if w.loopbreak then Exited else Asleep).(chanLock := None)
      else Goto(w, t, Running(w.queue[0])).(chanLock := None, queue := w.queue[1..])
    case Running(j) =>
      Goto(w, t, if Synced(w.kinds, j) then WantJob(j) else Releasing(j))
      .(executed := w.executed + [j], loopbreak := w.loopbreak || Breaks(w.kinds, j))
    case WantJob(j) => Goto(w, t, InJob(j)).(jobLocks := w.jobLocks[j := t])
    case InJob(j) => w.(pc := Broadcast(w.pc, j)[t := OutJob(j)], notified := w.notified + {j})
    case OutJob(j) => Goto(w, t, Releasing(j)).(jobLocks := w.jobLocks - {j})
    case Releasing(j) => Goto(w, t, Checking).(deleted := w.deleted + [j])
    case Checking => Goto(w, t, if w.loopbreak then Exited else WantPop)
    case Exited => w
  }

  function StepPush(w: World, t: Tid, j: Job, phase: Phase, after: After): World {
    match phase
    case Wanting => Goto(w, t, Pushing(j, Holding, after)).(chanLock := Some(t))
    case Holding => Goto(w, t, Pushing(j, Pushed, after)).(queue := w.queue + [j], pushed := w.pushed + [j])
    case Pushed => Goto(w, t, Next(j, after)).(chanLock := None)
  }

  function Apply(w: World, a: Action): World
    requires Enabled(w, a)
  {
    match a
    case CallAsync(t, j, breaks) =>
      var after := if w.pc[t].Running? then Resume(w.pc[t].j) else Return;
      Goto(w, t, Pushing(j, Wanting, after)).(kinds := w.kinds[j := Kind(false, breaks)])
    case CallSync(t, j, breaks) => Goto(w, t, Locking(j)).(kinds := w.kinds[j := Kind(true, breaks)])
    case CallJoin(t, j) =>
      Goto(w, t, Pushing(j, Wanting, Join)).(kinds := w.kinds[j := Kind(false, true)], joined := true)
    case Advance(t) => Step(w, t)
    case Destroy(t) =>
      w.(destroyed := true, queue := [], dropped := w.queue, deleted := w.deleted + w.queue)
  }

  // ---- The invariant ----

  predicate OfRunner(pc: Pc) {
    match pc
    case Asleep | WantPop | HoldPop | Running(_) | WantJob(_) | InJob(_) | OutJob(_) | Releasing(_) | Checking | Exited => true
    case Pushing(_, _, after) => after.Resume?
    case _ => false
  }

  predicate Roles(w: World) {
    w.runner in w.pc && forall t <- w.pc :: t == w.runner <==> OfRunner(w.pc[t])
  }

  predicate HoldsChan(pc: Pc) { pc.HoldPop? || (pc.Pushing? && !pc.phase.Wanting?) }

  predicate HoldsJob(pc: Pc, j: Job) {
    (pc.ToWait? || pc.Returning? || pc.InJob? || pc.OutJob? || (pc.Pushing? && pc.after.Wait?)) && pc.j == j
  }

  ghost predicate Locks(w: World) {
    && (forall t <- w.pc :: HoldsChan(w.pc[t]) <==> w.chanLock == Some(t))
    && (forall t <- w.pc, j :: HoldsJob(w.pc[t], j) <==> j in w.jobLocks && w.jobLocks[j] == t)
    && (w.chanLock.Some? ==> w.chanLock.value in w.pc) && (forall j <- w.jobLocks :: w.jobLocks[j] in w.pc)
  }

  /** The job taken from the channel whose function has not returned. */
  function Current(pc: Pc): seq<Job> {
    if pc.Running? then [pc.j] else if pc.Pushing? && pc.after.Resume? then [pc.after.of] else []
  }

  /** The job whose function has returned and that is not deleted. */
  function Finishing(pc: Pc): seq<Job> {
    if pc.WantJob? || pc.InJob? || pc.OutJob? || pc.Releasing? then [pc.j] else []
  }

  /** Only the last job of `s` may break. */
  predicate BreaksLast(kinds: map<Job, Kind>, s: seq<Job>) {
    forall i | 0 <= i < |s| - 1 :: !Breaks(kinds, s[i])
  }

  /** What was pushed is what has run, runs, and waits, in that order; a break ends it. */
  predicate Order(w: World)
    requires w.runner in w.pc
  {
    var pc := w.pc[w.runner];
    && w.pushed == w.executed + Current(pc) + (w.dropped + w.queue)
    && w.executed + w.dropped == w.deleted + Finishing(pc)
    && BreaksLast(w.kinds, w.executed)
    && w.loopbreak == (w.executed != [] && Breaks(w.kinds, w.executed[|w.executed| - 1]))
    && (w.loopbreak ==> pc.Exited? || pc.Checking? || Finishing(pc) != [])
    && (pc.Exited? ==> w.loopbreak) && (w.joinDone ==> pc.Exited?)
    && (if w.destroyed then w.queue == [] && pc.Exited? else w.dropped == [])
  }

  predicate NoDup<T(==)>(s: seq<T>) {
    forall i, j | 0 <= i < j < |s| :: s[i] != s[j]
  }

  /** The thread has a job that is not in the channel yet. */
  predicate Carries(pc: Pc, j: Job) {
    (pc.Locking? || (pc.Pushing? && !pc.phase.Pushed?)) && pc.j == j
  }

  ghost predicate Jobs(w: World) {
    && NoDup(w.pushed) && (forall j <- w.pushed :: j in w.kinds)
    && (forall t <- w.pc, j | Carries(w.pc[t], j) :: j in w.kinds && j !in w.pushed)
    && (forall t <- w.pc, j | Carries(w.pc[t], j) :: w.kinds[j].synced <==> w.pc[t].Locking? || w.pc[t].after.Wait?)
    && (forall t <- w.pc, u <- w.pc, j | Carries(w.pc[t], j) && Carries(w.pc[u], j) :: t == u)
  }

  /** A call of `sync` whose job is in the channel, and that no broadcast has reached. */
  predicate Awaits(pc: Pc, j: Job) {
    (pc.ToWait? || pc.Waiting? || (pc.Pushing? && pc.phase.Pushed? && pc.after.Wait?)) && pc.j == j
  }

  predicate Served(pc: Pc, j: Job) {
    (pc.Woken? || pc.Returning?) && pc.j == j
  }

  /** The runner is on its way to the broadcast for `j`. */
  predicate Notifies(pc: Pc, j: Job) {
    (pc.WantJob? || pc.InJob?) && pc.j == j
  }

  /** Every synchronous job is awaited until it is notified, and notified only once it has run. */
  ghost predicate Syncs(w: World)
    requires w.runner in w.pc
  {
    && (forall t <- w.pc, j | Awaits(w.pc[t], j) :: j in w.pushed && Synced(w.kinds, j) && j !in w.notified)
    && (forall t <- w.pc, j | Served(w.pc[t], j) :: j in w.notified)
    && (forall j <- w.notified :: j in w.executed)
    && (forall j <- w.executed | Synced(w.kinds, j) :: j in w.notified || Notifies(w.pc[w.runner], j))
    && (forall j | Notifies(w.pc[w.runner], j) :: j in w.executed && Synced(w.kinds, j) && j !in w.notified)
    && (forall j <- w.pushed | Synced(w.kinds, j) && j !in w.notified :: exists t :: t in w.pc && Awaits(w.pc[t], j))
    && w.returned <= w.notified
  }

  ghost predicate Inv(w: World) {
    Roles(w) && Locks(w) && Order(w) && Jobs(w) && Syncs(w)
  }

  // ---- Moves of one thread ----

  /** Only `t` moves, and it stays what it is. */
  predicate Moves(w: World, t: Tid, w': World) {
    && t in w.pc && t in w'.pc && w'.pc == w.pc[t := w'.pc[t]] && w'.runner == w.runner
    && OfRunner(w'.pc[t]) == OfRunner(w.pc[t])
  }

  lemma RolesMove(w: World, t: Tid, w': World)
    requires Roles(w) && Moves(w, t, w')
    ensures Roles(w')
  {
  }

  lemma LocksMove(w: World, t: Tid, w': World)
    requires Locks(w) && Moves(w, t, w')
    requires w'.chanLock == w.chanLock || (w.chanLock == None && w'.chanLock == Some(t)) ||
             (w.chanLock == Some(t) && w'.chanLock == None)
    requires HoldsChan(w'.pc[t]) <==> w'.chanLock == Some(t)
    requires forall j <- w.jobLocks | w.jobLocks[j] != t :: j in w'.jobLocks && w'.jobLocks[j] == w.jobLocks[j]
    requires forall j <- w'.jobLocks | w'.jobLocks[j] != t :: j in w.jobLocks && w'.jobLocks[j] == w.jobLocks[j]
    requires forall j :: HoldsJob(w'.pc[t], j) <==> j in w'.jobLocks && w'.jobLocks[j] == t
    ensures Locks(w')
  {
    hide HoldsChan, HoldsJob;
  }

  /** Nothing that the order is about changes. */
  lemma OrderSame(w: World, t: Tid, w': World)
    requires Roles(w) && Order(w) && Moves(w, t, w')
    requires Current(w'.pc[t]) == Current(w.pc[t]) && Finishing(w'.pc[t]) == Finishing(w.pc[t])
    requires t == w.runner ==> !w.pc[t].Exited? && !w.pc[t].Checking? && !w'.pc[t].Exited?
    requires w'.queue == w.queue && w'.loopbreak == w.loopbreak && w'.destroyed == w.destroyed
    requires w'.pushed == w.pushed && w'.executed == w.executed && w'.dropped == w.dropped && w'.deleted == w.deleted
    requires w'.joinDone ==> w.joinDone || w.pc[w.runner].Exited?
    requires forall j <- w.executed :: Breaks(w'.kinds, j) == Breaks(w.kinds, j)
    ensures Order(w')
  {
    assert w'.pc[w.runner] == w.pc[w.runner] || w.runner == t;
  }

  lemma JobsSame(w: World, t: Tid, w': World)
    requires Jobs(w) && Moves(w, t, w') && w'.kinds == w.kinds && w'.pushed == w.pushed
    requires forall j | Carries(w'.pc[t], j) ::
               Carries(w.pc[t], j) && (w'.pc[t].Locking? || w'.pc[t].after.Wait? <==> w.pc[t].Locking? || w.pc[t].after.Wait?)
    ensures Jobs(w')
  {
    hide NoDup, Carries;
  }

  lemma SyncsSame(w: World, t: Tid, w': World)
    requires Roles(w) && Syncs(w) && Moves(w, t, w')
    requires w'.pushed == w.pushed && w'.executed == w.executed && w'.notified == w.notified
    requires w.returned <= w'.returned <= w.notified
    requires forall j <- w.pushed :: j in w'.kinds && j in w.kinds && w'.kinds[j] == w.kinds[j]
    requires forall j <- w.executed :: j in w'.kinds && j in w.kinds && w'.kinds[j] == w.kinds[j]
    requires forall j :: Awaits(w'.pc[t], j) == Awaits(w.pc[t], j)
    requires forall j | Served(w'.pc[t], j) :: Served(w.pc[t], j)
    requires forall j :: Notifies(w'.pc[t], j) == Notifies(w.pc[t], j)
    ensures Syncs(w')
  {
    assert forall j <- w.pushed :: Synced(w'.kinds, j) == Synced(w.kinds, j);
    assert forall j <- w.executed :: Synced(w'.kinds, j) == Synced(w.kinds, j);
    hide Awaits, Served, Notifies, Synced;
    assert forall u <- w.pc, j :: Awaits(w'.pc[u], j) == Awaits(w.pc[u], j);
    forall u <- w'.pc, j | Awaits(w'.pc[u], j) ensures j in w'.pushed && Synced(w'.kinds, j) && j !in w'.notified {
      assert Awaits(w.pc[u], j);
    }
    assert forall u <- w.pc, j | Served(w'.pc[u], j) :: Served(w.pc[u], j);
    assert forall j :: Notifies(w'.pc[w.runner], j) == Notifies(w.pc[w.runner], j);
    forall j <- w'.pushed | Synced(w'.kinds, j) && j !in w'.notified
      ensures exists u :: u in w'.pc && Awaits(w'.pc[u], j)
    {
      assert Synced(w.kinds, j);
      var u :| u in w.pc && Awaits(w.pc[u], j);
      assert Awaits(w'.pc[u], j);
    }
  }

  // ---- What a thread's place says ----

  lemma Place(w: World, t: Tid)
    requires Inv(w) && t in w.pc
    ensures w.runner in w.pc && (t == w.runner <==> OfRunner(w.pc[t]))
    ensures HoldsChan(w.pc[t]) <==> w.chanLock == Some(t)
    ensures forall j :: HoldsJob(w.pc[t], j) <==> j in w.jobLocks && w.jobLocks[j] == t
  {
    hide HoldsChan, HoldsJob, Order, Jobs, Syncs, OfRunner;
  }

  lemma KnownJobs(w: World)
    requires Inv(w)
    ensures forall j <- w.pushed :: j in w.kinds
    ensures forall j <- w.executed :: j in w.pushed && j in w.kinds
  {
    assert w.runner in w.pc;
    hide Locks, Roles, Syncs;
    forall j <- w.executed ensures j in w.pushed {
      assert w.pushed == w.executed + (Current(w.pc[w.runner]) + (w.dropped + w.queue));
    }
  }

  lemma ReturnedNotified(w: World, t: Tid, returned: set<Job>)
    requires Inv(w) && t in w.pc && forall j <- returned :: j in w.returned || Served(w.pc[t], j)
    ensures returned <= w.notified
  {
    hide Roles, Locks, Order, Jobs, Awaits, Notifies, Served;
  }

  /** What `LocksMove` says, from the whole invariant. */
  lemma LocksAfter(w: World, t: Tid, w': World)
    requires Inv(w) && Moves(w, t, w')
    requires w'.chanLock == w.chanLock || (w.chanLock == None && w'.chanLock == Some(t)) ||
             (w.chanLock == Some(t) && w'.chanLock == None)
    requires HoldsChan(w'.pc[t]) <==> w'.chanLock == Some(t)
    requires forall j <- w.jobLocks | w.jobLocks[j] != t :: j in w'.jobLocks && w'.jobLocks[j] == w.jobLocks[j]
    requires forall j <- w'.jobLocks | w'.jobLocks[j] != t :: j in w.jobLocks && w'.jobLocks[j] == w.jobLocks[j]
    requires forall j :: HoldsJob(w'.pc[t], j) <==> j in w'.jobLocks && w'.jobLocks[j] == t
    ensures Locks(w')
  {
    hide Roles, Locks, Order, Jobs, Syncs, HoldsChan, HoldsJob, Moves;
    LocksMove(w, t, w');
  }

  /** A step that concerns only locks. */
  lemma PlainStep(w: World, t: Tid, w': World)
    requires Inv(w) && Moves(w, t, w') && Locks(w')
    requires Current(w'.pc[t]) == Current(w.pc[t]) && Finishing(w'.pc[t]) == Finishing(w.pc[t])
    requires t == w.runner ==> !w.pc[t].Exited? && !w.pc[t].Checking? && !w'.pc[t].Exited?
    requires w'.queue == w.queue && w'.loopbreak == w.loopbreak && w'.destroyed == w.destroyed && w'.kinds == w.kinds
    requires w'.pushed == w.pushed && w'.executed == w.executed && w'.dropped == w.dropped && w'.deleted == w.deleted
    requires w'.joinDone ==> w.joinDone || (w.runner in w.pc && w.pc[w.runner].Exited?)
    requires w'.notified == w.notified && w.returned <= w'.returned
    requires forall j <- w'.returned :: j in w.returned || Served(w.pc[t], j)
    requires forall j | Carries(w'.pc[t], j) ::
               Carries(w.pc[t], j) && (w'.pc[t].Locking? || w'.pc[t].after.Wait? <==> w.pc[t].Locking? || w.pc[t].after.Wait?)
    requires forall j :: Awaits(w'.pc[t], j) == Awaits(w.pc[t], j)
    requires forall j | Served(w'.pc[t], j) :: Served(w.pc[t], j)
    requires forall j :: Notifies(w'.pc[t], j) == Notifies(w.pc[t], j)
    ensures Inv(w')
  {
    KnownJobs(w);
    ReturnedNotified(w, t, w'.returned);
    hide Roles, Locks, Order, Jobs, Syncs, Moves, Carries, Awaits, Served, Notifies, Current, Finishing;
    RolesMove(w, t, w');
    OrderSame(w, t, w');
    JobsSame(w, t, w');
    SyncsSame(w, t, w');
  }

  // ---- Calls ----

  lemma AsyncKeeps(w: World, a: Action)
    requires a.CallAsync? && Enabled(w, a) && Inv(w)
    ensures Inv(Apply(w, a))
  {
    var w' := Apply(w, a);
    Place(w, a.t);
    CallLocks(w, a.t, w');
    hide Locks;
    CallKeeps(w, a.t, a.j, w');
  }

  lemma SyncKeeps(w: World, a: Action)
    requires a.CallSync? && Enabled(w, a) && Inv(w)
    ensures Inv(Apply(w, a))
  {
    var w' := Apply(w, a);
    Place(w, a.t);
    CallLocks(w, a.t, w');
    hide Locks;
    CallKeeps(w, a.t, a.j, w');
  }

  lemma JoinKeeps(w: World, a: Action)
    requires a.CallJoin? && Enabled(w, a) && Inv(w)
    ensures Inv(Apply(w, a))
  {
    var w' := Apply(w, a);
    Place(w, a.t);
    CallLocks(w, a.t, w');
    hide Locks;
    CallKeeps(w, a.t, a.j, w');
  }

  lemma CallLocks(w: World, t: Tid, w': World)
    requires Inv(w) && Moves(w, t, w') && (w.pc[t].Ready? || w.pc[t].Running?)
    requires w'.pc[t].Locking? || (w'.pc[t].Pushing? && w'.pc[t].phase.Wanting? && !w'.pc[t].after.Wait?)
    requires w'.chanLock == w.chanLock && w'.jobLocks == w.jobLocks
    ensures Locks(w')
  {
    Place(w, t);
    hide Roles, Order, Jobs, Syncs;
    LocksMove(w, t, w');
  }

  /** A new job is carried by its caller. */
  lemma CallKeeps(w: World, t: Tid, j: Job, w': World)
    requires Inv(w) && Moves(w, t, w') && Locks(w') && j !in w.kinds && (w.pc[t].Ready? || w.pc[t].Running?)
    requires w'.pc[t].Locking? ==> w'.pc[t].j == j
    requires w'.pc[t].Locking? || (w'.pc[t].Pushing? && w'.pc[t].j == j && w'.pc[t].phase.Wanting? && !w'.pc[t].after.Wait?)
    requires Current(w'.pc[t]) == Current(w.pc[t])
    requires w' == w.(pc := w'.pc, kinds := w'.kinds, joined := w'.joined)
    requires j in w'.kinds && w'.kinds == w.kinds[j := w'.kinds[j]] && (w'.kinds[j].synced <==> w'.pc[t].Locking?)
    ensures Inv(w')
  {
    hide Current;
    KnownJobs(w);
    assert j !in w.pushed && j !in w.executed;
    NotAwaiting(w.pc[t]);
    NotAwaiting(w'.pc[t]);
    CallJobs(w, t, j, w');
    hide Locks, Jobs, Syncs, Awaits, Served, Notifies, Order;
    RolesMove(w, t, w');
    OrderSame(w, t, w');
    SyncsSame(w, t, w');
  }

  lemma NotAwaiting(pc: Pc)
    requires pc.Ready? || pc.Running? || pc.Locking? || (pc.Pushing? && !pc.phase.Pushed?)
    ensures forall x :: !Awaits(pc, x) && !Served(pc, x) && !Notifies(pc, x)
  {
  }

  lemma CallJobs(w: World, t: Tid, j: Job, w': World)
    requires Inv(w) && Moves(w, t, w') && j !in w.kinds && (w.pc[t].Ready? || w.pc[t].Running?)
    requires w'.pc[t].Locking? ==> w'.pc[t].j == j
    requires w'.pc[t].Locking? || (w'.pc[t].Pushing? && w'.pc[t].j == j && w'.pc[t].phase.Wanting? && !w'.pc[t].after.Wait?)
    requires w'.pushed == w.pushed
    requires j in w'.kinds && w'.kinds == w.kinds[j := w'.kinds[j]] && (w'.kinds[j].synced <==> w'.pc[t].Locking?)
    ensures Jobs(w')
  {
    assert forall x :: Carries(w'.pc[t], x) <==> x == j;
    assert forall x :: !Carries(w.pc[t], x);
    hide Carries, NoDup, Locks, Order, Syncs, Roles;
  }

  // ---- Steps of the program ----

  lemma LockingKeeps(w: World, t: Tid)
    requires Inv(w) && CanAdvance(w, t) && w.pc[t].Locking?
    ensures Inv(Step(w, t))
  {
    hide Inv, Locks, Roles, Order, Jobs, Syncs;
    var w' := Step(w, t);
    Place(w, t);
    LocksAfter(w, t, w');
    PlainStep(w, t, w');
  }

  lemma PushWantingKeeps(w: World, t: Tid)
    requires Inv(w) && CanAdvance(w, t) && w.pc[t].Pushing? && w.pc[t].phase.Wanting?
    ensures Inv(Step(w, t))
  {
    hide Inv, Locks, Roles, Order, Jobs, Syncs;
    var w' := Step(w, t);
    Place(w, t);
    LocksAfter(w, t, w');
    PlainStep(w, t, w');
  }

  lemma PushedKeeps(w: World, t: Tid)
    requires Inv(w) && CanAdvance(w, t) && w.pc[t].Pushing? && w.pc[t].phase.Pushed?
    ensures Inv(Step(w, t))
  {
    hide Inv, Locks, Roles, Order, Jobs, Syncs;
    var w' := Step(w, t);
    Place(w, t);
    LocksAfter(w, t, w');
    PlainStep(w, t, w');
  }

  lemma ToWaitKeeps(w: World, t: Tid)
    requires Inv(w) && CanAdvance(w, t) && w.pc[t].ToWait?
    ensures Inv(Step(w, t))
  {
    hide Inv, Locks, Roles, Order, Jobs, Syncs;
    var w' := Step(w, t);
    Place(w, t);
    LocksAfter(w, t, w');
    PlainStep(w, t, w');
  }

  lemma WokenKeeps(w: World, t: Tid)
    requires Inv(w) && CanAdvance(w, t) && w.pc[t].Woken?
    ensures Inv(Step(w, t))
  {
    hide Inv, Locks, Roles, Order, Jobs, Syncs;
    var w' := Step(w, t);
    Place(w, t);
    LocksAfter(w, t, w');
    PlainStep(w, t, w');
  }

  lemma ReturningKeeps(w: World, t: Tid)
    requires Inv(w) && CanAdvance(w, t) && w.pc[t].Returning?
    ensures Inv(Step(w, t))
  {
    hide Inv, Locks, Roles, Order, Jobs, Syncs;
    var w' := Step(w, t);
    Place(w, t);
    LocksAfter(w, t, w');
    PlainStep(w, t, w');
  }

  lemma JoiningKeeps(w: World, t: Tid)
    requires Inv(w) && CanAdvance(w, t) && w.pc[t].Joining?
    ensures Inv(Step(w, t))
  {
    hide Inv, Locks, Roles, Order, Jobs, Syncs;
    var w' := Step(w, t);
    Place(w, t);
    LocksAfter(w, t, w');
    PlainStep(w, t, w');
  }

  lemma AsleepKeeps(w: World, t: Tid)
    requires Inv(w) && CanAdvance(w, t) && (w.pc[t].Asleep? || w.pc[t].WantPop?)
    ensures Inv(Step(w, t))
  {
    hide Inv, Locks, Roles, Order, Jobs, Syncs;
    var w' := Step(w, t);
    Place(w, t);
    LocksAfter(w, t, w');
    PlainStep(w, t, w');
  }

  lemma WantJobKeeps(w: World, t: Tid)
    requires Inv(w) && CanAdvance(w, t) && w.pc[t].WantJob?
    ensures Inv(Step(w, t))
  {
    hide Inv, Locks, Roles, Order, Jobs, Syncs;
    var w' := Step(w, t);
    Place(w, t);
    LocksAfter(w, t, w');
    PlainStep(w, t, w');
  }

  lemma OutJobKeeps(w: World, t: Tid)
    requires Inv(w) && CanAdvance(w, t) && w.pc[t].OutJob?
    ensures Inv(Step(w, t))
  {
    hide Inv, Locks, Roles, Order, Jobs, Syncs;
    var w' := Step(w, t);
    Place(w, t);
    LocksAfter(w, t, w');
    PlainStep(w, t, w');
  }

  // ---- A job enters the channel ----

  lemma PushKeeps(w: World, t: Tid)
    requires Inv(w) && CanAdvance(w, t) && w.pc[t].Pushing? && w.pc[t].phase.Holding? && !w.destroyed
    ensures Inv(Step(w, t))
  {
    hide Locks, Roles, Order, Jobs, Syncs;
    var w' := Step(w, t);
    Place(w, t);
    PushOrder(w, t, w');
    PushJobs(w, t, w');
    PushSyncs(w, t, w');
    LocksAfter(w, t, w');
    RolesMove(w, t, w');
  }

  lemma PushOrder(w: World, t: Tid, w': World)
    requires Roles(w) && Order(w) && CanAdvance(w, t) && w.pc[t].Pushing? && w.pc[t].phase.Holding? && !w.destroyed
    requires w' == Step(w, t)
    ensures w'.runner in w'.pc && Order(w')
  {
    var j := w.pc[t].j;
    assert Current(w'.pc[w.runner]) == Current(w.pc[w.runner]) && Finishing(w'.pc[w.runner]) == Finishing(w.pc[w.runner]);
    hide Current, Finishing;
    Reassociate(w.executed + Current(w.pc[w.runner]), w.dropped, w.queue, j);
  }

  lemma Reassociate(a: seq<Job>, b: seq<Job>, c: seq<Job>, j: Job)
    ensures a + (b + (c + [j])) == a + (b + c) + [j]
  {
  }

  lemma PushJobs(w: World, t: Tid, w': World)
    requires Jobs(w) && CanAdvance(w, t) && w.pc[t].Pushing? && w.pc[t].phase.Holding?
    requires w' == Step(w, t)
    ensures Jobs(w')
  {
    var j := w.pc[t].j;
    assert Carries(w.pc[t], j);
    assert forall x :: !Carries(w'.pc[t], x);
    assert w'.pushed == w.pushed + [j] && w'.kinds == w.kinds && w'.pc == w.pc[t := w'.pc[t]];
    hide Carries, NoDup, Step, CanAdvance;
    OneMore(w.pushed, j);
    forall u <- w'.pc, x | Carries(w'.pc[u], x)
      ensures u != t && w'.pc[u] == w.pc[u] && Carries(w.pc[u], x) && x != j
    {
    }
  }

  lemma OneMore(s: seq<Job>, j: Job)
    requires NoDup(s) && j !in s
    ensures NoDup(s + [j])
  {
  }

  /** What is carried into the channel is new to it. */
  lemma CarriedIsNew(w: World, t: Tid, j: Job)
    requires Inv(w) && t in w.pc && Carries(w.pc[t], j)
    ensures w.runner in w.pc && j !in w.pushed && j !in w.executed && j !in w.notified
    ensures Synced(w.kinds, j) <==> w.pc[t].Locking? || w.pc[t].after.Wait?
  {
    KnownJobs(w);
    hide Locks, Order, NoDup, Awaits, Served, Notifies;
  }

  lemma PushSyncs(w: World, t: Tid, w': World)
    requires Inv(w) && CanAdvance(w, t) && w.pc[t].Pushing? && w.pc[t].phase.Holding?
    requires w' == Step(w, t)
    ensures w'.runner in w'.pc && Syncs(w')
  {
    hide Inv, Locks, Roles, Order, Jobs, Syncs;
    var j := w.pc[t].j;
    CarriedIsNew(w, t, j);
    assert forall x :: Awaits(w'.pc[t], x) <==> x == j && w.pc[t].after.Wait?;
    assert forall x :: !Awaits(w.pc[t], x) && !Served(w'.pc[t], x);
    assert forall x :: Notifies(w'.pc[w.runner], x) == Notifies(w.pc[w.runner], x);
    assert w' == w.(pc := w.pc[t := w'.pc[t]], queue := w'.queue, pushed := w.pushed + [j]);
    PushedSyncs(w, t, j, w');
  }

  lemma PushedSyncs(w: World, t: Tid, j: Job, w': World)
    requires Inv(w) && t in w.pc && t in w'.pc && j !in w.notified && j !in w.executed
    requires w.runner in w.pc && w.runner in w'.pc
    requires w' == w.(pc := w.pc[t := w'.pc[t]], queue := w'.queue, pushed := w.pushed + [j])
    requires forall x :: Awaits(w'.pc[t], x) <==> x == j && Synced(w.kinds, j)
    requires forall x :: !Awaits(w.pc[t], x) && !Served(w'.pc[t], x)
    requires forall x :: Notifies(w'.pc[w.runner], x) == Notifies(w.pc[w.runner], x)
    ensures Syncs(w')
  {
    hide Locks, Roles, Order, Jobs, Awaits, Served, Notifies, Synced;
    forall x <- w'.pushed | Synced(w'.kinds, x) && x !in w'.notified
      ensures exists u :: u in w'.pc && Awaits(w'.pc[u], x)
    {
      if x == j {
        assert Awaits(w'.pc[t], x);
      } else {
        var u :| u in w.pc && Awaits(w.pc[u], x);
        assert Awaits(w'.pc[u], x);
      }
    }
  }

  // ---- The runner takes a job, runs it, and lets it go ----

  lemma PopEmptyKeeps(w: World, t: Tid)
    requires Inv(w) && CanAdvance(w, t) && w.pc[t].HoldPop? && w.queue == []
    ensures Inv(Step(w, t)) && !w.loopbreak
  {
    hide Inv, Locks, Roles, Order, Jobs, Syncs;
    var w' := Step(w, t);
    Place(w, t);
    NoBreakYet(w, t);
    LocksAfter(w, t, w');
    PlainStep(w, t, w');
  }

  lemma NoBreakYet(w: World, t: Tid)
    requires Inv(w) && t in w.pc && w.pc[t].HoldPop?
    ensures !w.loopbreak
  {
    Place(w, t);
    hide Locks, Roles, Jobs, Syncs;
  }

  lemma PopKeeps(w: World, t: Tid)
    requires Inv(w) && CanAdvance(w, t) && w.pc[t].HoldPop? && w.queue != []
    ensures Inv(Step(w, t))
  {
    hide Locks, Roles, Order, Jobs, Syncs, NoDup;
    var w' := Step(w, t);
    Place(w, t);
    KnownJobs(w);
    PopOrder(w, t, w');
    ReturnedNotified(w, t, w.returned);
    LocksAfter(w, t, w');
    RolesMove(w, t, w');
    JobsSame(w, t, w');
    SyncsSame(w, t, w');
  }

  lemma PopOrder(w: World, t: Tid, w': World)
    requires Roles(w) && Order(w) && CanAdvance(w, t) && w.pc[t].HoldPop? && w.queue != []
    requires w' == Step(w, t)
    ensures w'.runner in w'.pc && Order(w')
  {
    assert t == w.runner && w.dropped == [] && !w.loopbreak;
    assert Current(w.pc[t]) == [] && Finishing(w.pc[t]) == [] && Finishing(w'.pc[t]) == [];
    assert Current(w'.pc[t]) == [w.queue[0]];
    hide Roles, Current, Finishing, BreaksLast, OfRunner;
    HeadTaken(w.executed, w.queue);
  }

  lemma HeadTaken(a: seq<Job>, q: seq<Job>)
    requires q != []
    ensures a + [] + ([] + q) == a + [q[0]] + ([] + q[1..])
  {
    assert q == [q[0]] + q[1..];
  }

  lemma RunKeeps(w: World, t: Tid)
    requires Inv(w) && CanAdvance(w, t) && w.pc[t].Running?
    ensures Inv(Step(w, t))
  {
    hide Locks, Roles, Order, Jobs, Syncs, NoDup;
    var w' := Step(w, t);
    Place(w, t);
    RunOrder(w, t, w');
    RunSyncs(w, t, w');
    LocksAfter(w, t, w');
    RolesMove(w, t, w');
    JobsSame(w, t, w');
  }

  lemma RunOrder(w: World, t: Tid, w': World)
    requires Roles(w) && Order(w) && CanAdvance(w, t) && w.pc[t].Running?
    requires w' == Step(w, t)
    ensures w'.runner in w'.pc && Order(w')
  {
    var j := w.pc[t].j;
    assert t == w.runner && w.dropped == [] && !w.loopbreak;
    assert w'.executed + [] == w'.executed;
    assert w.deleted + [] == w.deleted && w.executed + [] == w.executed;
    assert Finishing(w'.pc[t]) == [j];
  }

  /** The job running has not been notified, nor run before. */
  lemma RunningIsNew(w: World, t: Tid)
    requires Inv(w) && t in w.pc && w.pc[t].Running?
    ensures t == w.runner && w.pc[t].j in w.pushed && w.pc[t].j !in w.executed && w.pc[t].j !in w.notified
  {
    var j := w.pc[t].j;
    Place(w, t);
    assert w.pushed == w.executed + ([j] + (w.dropped + w.queue));
    assert w.pushed[|w.executed|] == j;
    hide Locks, Roles;
    forall i | 0 <= i < |w.executed| ensures w.executed[i] != j {
      assert w.pushed[i] == w.executed[i];
    }
  }

  lemma RunSyncs(w: World, t: Tid, w': World)
    requires Inv(w) && CanAdvance(w, t) && w.pc[t].Running?
    requires w' == Step(w, t)
    ensures w'.runner in w'.pc && Syncs(w')
  {
    hide Inv, Locks, Roles, Order, Jobs, Syncs;
    var j := w.pc[t].j;
    RunningIsNew(w, t);
    assert forall x :: Notifies(w'.pc[t], x) <==> x == j && Synced(w.kinds, j);
    assert forall x :: !Notifies(w.pc[t], x) && !Awaits(w.pc[t], x) && !Served(w.pc[t], x);
    assert forall x :: !Awaits(w'.pc[t], x) && !Served(w'.pc[t], x);
    ExecutedSyncs(w, t, j, w');
  }

  lemma ExecutedSyncs(w: World, t: Tid, j: Job, w': World)
    requires Inv(w) && t in w.pc && t in w'.pc && t == w.runner && j !in w.notified && j !in w.executed
    requires w' == w.(pc := w.pc[t := w'.pc[t]], executed := w.executed + [j], loopbreak := w'.loopbreak)
    requires forall x :: Notifies(w'.pc[t], x) <==> x == j && Synced(w.kinds, j)
    requires forall x :: !Notifies(w.pc[t], x) && !Awaits(w.pc[t], x) && !Served(w.pc[t], x)
    requires forall x :: !Awaits(w'.pc[t], x) && !Served(w'.pc[t], x)
    ensures Syncs(w')
  {
    hide Locks, Roles, Order, Jobs, Awaits, Served, Notifies, Synced;
    forall x <- w'.pushed | Synced(w'.kinds, x) && x !in w'.notified
      ensures exists u :: u in w'.pc && Awaits(w'.pc[u], x)
    {
      var u :| u in w.pc && Awaits(w.pc[u], x);
      assert Awaits(w'.pc[u], x);
    }
  }

  lemma ReleasingKeeps(w: World, t: Tid)
    requires Inv(w) && CanAdvance(w, t) && w.pc[t].Releasing?
    ensures Inv(Step(w, t))
  {
    hide Locks, Roles, Order, Jobs, Syncs, NoDup;
    var w' := Step(w, t);
    Place(w, t);
    KnownJobs(w);
    ReleasingOrder(w, t, w');
    ReturnedNotified(w, t, w.returned);
    LocksAfter(w, t, w');
    RolesMove(w, t, w');
    JobsSame(w, t, w');
    SyncsSame(w, t, w');
  }

  lemma ReleasingOrder(w: World, t: Tid, w': World)
    requires Roles(w) && Order(w) && CanAdvance(w, t) && w.pc[t].Releasing?
    requires w' == Step(w, t)
    ensures w'.runner in w'.pc && Order(w')
  {
    assert t == w.runner;
    assert w'.deleted + [] == w'.deleted;
  }

  lemma CheckingKeeps(w: World, t: Tid)
    requires Inv(w) && CanAdvance(w, t) && w.pc[t].Checking?
    ensures Inv(Step(w, t))
  {
    hide Locks, Roles, Order, Jobs, Syncs, NoDup;
    var w' := Step(w, t);
    Place(w, t);
    KnownJobs(w);
    CheckingOrder(w, t);
    ReturnedNotified(w, t, w.returned);
    LocksAfter(w, t, w');
    RolesMove(w, t, w');
    JobsSame(w, t, w');
    SyncsSame(w, t, w');
  }

  lemma CheckingOrder(w: World, t: Tid)
    requires Roles(w) && Order(w) && CanAdvance(w, t) && w.pc[t].Checking?
    ensures Step(w, t).runner in Step(w, t).pc && Order(Step(w, t))
  {
    assert t == w.runner;
  }

  // ---- The broadcast ----

  /** Whoever awaits the job whose mutex the runner holds is waiting on its condition variable: no wakeup is lost. */
  lemma AwaitedIsWaiting(w: World, t: Tid, u: Tid)
    requires Inv(w) && t in w.pc && w.pc[t].InJob? && u in w.pc && Awaits(w.pc[u], w.pc[t].j)
    ensures w.pc[u] == Waiting(w.pc[t].j)
  {
    var j := w.pc[t].j;
    Place(w, t);
    Place(w, u);
    hide Locks, Roles, Order, Jobs, Syncs;
    assert HoldsJob(w.pc[t], j);
    assert !HoldsJob(w.pc[u], j);
  }

  lemma InJobKeeps(w: World, t: Tid)
    requires Inv(w) && CanAdvance(w, t) && w.pc[t].InJob?
    ensures Inv(Step(w, t))
  {
    var w' := Step(w, t);
    Place(w, t);
    BroadcastRest(w, t, w');
    BroadcastLocks(w, t, w');
    BroadcastSyncs(w, t, w');
    hide Locks, Roles, Order, Jobs, Syncs;
  }

  lemma BroadcastRest(w: World, t: Tid, w': World)
    requires Inv(w) && CanAdvance(w, t) && w.pc[t].InJob? && w' == Step(w, t)
    ensures Roles(w') && Order(w') && Jobs(w')
  {
    Place(w, t);
    hide Locks, Syncs, NoDup, Roles, Order, Jobs;
    BroadcastRoles(w, t, w');
    BroadcastOrder(w, t, w');
    BroadcastJobs(w, t, w');
  }

  lemma BroadcastRoles(w: World, t: Tid, w': World)
    requires Roles(w) && CanAdvance(w, t) && w.pc[t].InJob? && w' == Step(w, t)
    ensures Roles(w')
  {
  }

  lemma BroadcastOrder(w: World, t: Tid, w': World)
    requires t == w.runner && CanAdvance(w, t) && Order(w) && w.pc[t].InJob? && w' == Step(w, t)
    ensures w'.runner in w'.pc && Order(w')
  {
  }

  lemma BroadcastJobs(w: World, t: Tid, w': World)
    requires CanAdvance(w, t) && Jobs(w) && w.pc[t].InJob? && w' == Step(w, t)
    ensures Jobs(w')
  {
    assert forall u <- w'.pc, x :: Carries(w'.pc[u], x) ==> w'.pc[u] == w.pc[u];
    hide NoDup, Carries;
  }

  lemma BroadcastLocks(w: World, t: Tid, w': World)
    requires Locks(w) && CanAdvance(w, t) && w.pc[t].InJob? && w' == Step(w, t)
    ensures Locks(w')
  {
    assert forall u <- w.pc :: HoldsChan(w'.pc[u]) == HoldsChan(w.pc[u]);
    assert forall u <- w.pc, x :: HoldsJob(w'.pc[u], x) == HoldsJob(w.pc[u], x);
    hide HoldsChan, HoldsJob;
  }

  lemma BroadcastSyncs(w: World, t: Tid, w': World)
    requires Inv(w) && CanAdvance(w, t) && w.pc[t].InJob? && w' == Step(w, t)
    ensures w'.runner in w'.pc && Syncs(w')
  {
    Place(w, t);
    BroadcastAwaits(w, t, w');
    BroadcastServes(w, t, w');
    hide Locks, Roles, Order, Jobs, Awaits, Served, Notifies, Synced;
    NotifiedSyncs(w, t, w.pc[t].j, w');
  }

  lemma BroadcastServes(w: World, t: Tid, w': World)
    requires CanAdvance(w, t) && w.pc[t].InJob? && w' == Step(w, t)
    ensures forall u <- w.pc, x | Served(w'.pc[u], x) :: x == w.pc[t].j || Served(w.pc[u], x)
    ensures forall x :: !Notifies(w'.pc[t], x)
    ensures Notifies(w.pc[t], w.pc[t].j) && forall x | Notifies(w.pc[t], x) :: x == w.pc[t].j
  {
  }

  lemma BroadcastAwaits(w: World, t: Tid, w': World)
    requires Inv(w) && CanAdvance(w, t) && w.pc[t].InJob? && w' == Step(w, t)
    ensures forall u <- w.pc, x :: Awaits(w'.pc[u], x) <==> x != w.pc[t].j && Awaits(w.pc[u], x)
  {
    var j := w.pc[t].j;
    hide Inv;
    forall u <- w.pc, x ensures Awaits(w'.pc[u], x) <==> x != j && Awaits(w.pc[u], x) {
      if Awaits(w.pc[u], j) {
        AwaitedIsWaiting(w, t, u);
      }
    }
  }

  lemma NotifiedSyncs(w: World, t: Tid, j: Job, w': World)
    requires w.runner in w.pc && Syncs(w) && t == w.runner == w'.runner && w'.pc.Keys == w.pc.Keys
    requires Notifies(w.pc[t], j) && forall x | Notifies(w.pc[t], x) :: x == j
    requires forall x :: !Notifies(w'.pc[t], x)
    requires forall u <- w.pc, x :: Awaits(w'.pc[u], x) <==> x != j && Awaits(w.pc[u], x)
    requires forall u <- w.pc, x | Served(w'.pc[u], x) :: x == j || Served(w.pc[u], x)
    requires w'.pushed == w.pushed && w'.executed == w.executed && w'.kinds == w.kinds && w'.returned == w.returned
    requires w'.notified == w.notified + {j}
    ensures Syncs(w')
  {
    hide Awaits, Served, Notifies, Synced;
    forall x <- w'.pushed | Synced(w'.kinds, x) && x !in w'.notified
      ensures exists u :: u in w'.pc && Awaits(w'.pc[u], x)
    {
      var u :| u in w.pc && Awaits(w.pc[u], x);
      assert Awaits(w'.pc[u], x);
    }
  }

  lemma DestroyKeeps(w: World, a: Action)
    requires a.Destroy? && Enabled(w, a) && Inv(w)
    ensures Inv(Apply(w, a))
  {
    var w' := Apply(w, a);
    hide Order, NoDup, Carries, Awaits, Served, Notifies, HoldsChan, HoldsJob, OfRunner;
    DestroyOrder(w, a);
    DestroyRest(w, w');
  }

  lemma DestroyRest(w: World, w': World)
    requires Roles(w) && Locks(w) && Jobs(w) && Syncs(w)
    requires w' == w.(destroyed := w'.destroyed, queue := w'.queue, dropped := w'.dropped, deleted := w'.deleted)
    ensures Roles(w') && Locks(w') && Jobs(w') && Syncs(w')
  {
    hide NoDup, Carries, Awaits, Served, Notifies, HoldsChan, HoldsJob, OfRunner;
  }

  lemma DestroyOrder(w: World, a: Action)
    requires a.Destroy? && Enabled(w, a) && w.runner in w.pc && Order(w)
    ensures Order(Apply(w, a))
  {
    var w' := Apply(w, a);
    var pc := w.pc[w.runner];
    assert pc.Exited? && Current(pc) == [] && Finishing(pc) == [];
    hide Current, Finishing, BreaksLast;
    assert w.executed + w.dropped == w.executed && w.deleted + [] == w.deleted;
    assert w.dropped + w.queue == w.queue + [];
    assert w'.deleted + [] == w'.deleted;
  }

  lemma StepKeeps(w: World, t: Tid)
    requires Inv(w) && CanAdvance(w, t) && !w.destroyed
    ensures Inv(Step(w, t))
  {
    hide Inv, Step;
    match w.pc[t]
    case Locking(_) => LockingKeeps(w, t);
    case Pushing(_, phase, _) =>
      match phase {
        case Wanting => PushWantingKeeps(w, t);
        case Holding => PushKeeps(w, t);
        case Pushed => PushedKeeps(w, t);
      }
    case ToWait(_) => ToWaitKeeps(w, t);
    case Woken(_) => WokenKeeps(w, t);
    case Returning(_) => ReturningKeeps(w, t);
    case Joining => JoiningKeeps(w, t);
    case Asleep => AsleepKeeps(w, t);
    case WantPop => AsleepKeeps(w, t);
    case HoldPop =>
      if w.queue == [] {
        PopEmptyKeeps(w, t);
      } else {
        PopKeeps(w, t);
      }
    case Running(_) => RunKeeps(w, t);
    case WantJob(_) => WantJobKeeps(w, t);
    case InJob(_) => InJobKeeps(w, t);
    case OutJob(_) => OutJobKeeps(w, t);
    case Releasing(_) => ReleasingKeeps(w, t);
    case Checking => CheckingKeeps(w, t);
    case _ =>
  }

  lemma InvKept(w: World, a: Action)
    requires Enabled(w, a) && Inv(w)
    ensures Inv(Apply(w, a))
  {
    hide Inv, Step;
    match a
    case CallAsync(_, _, _) => AsyncKeeps(w, a);
    case CallSync(_, _, _) => SyncKeeps(w, a);
    case CallJoin(_, _) => JoinKeeps(w, a);
    case Advance(t) => StepKeeps(w, t);
    case Destroy(_) => DestroyKeeps(w, a);
  }

  // ---- Runs ----

  /** The queue just made: its runner asleep, the other threads anywhere else. */
  function Start(runner: Tid, threads: set<Tid>): World {
    World(runner, map t | t in threads + {runner} :: if t == runner then Asleep else Ready, None, map[], map[], [],
          false, false, false, false, [], [], [], [], {}, {})
  }

  lemma StartHolds(runner: Tid, threads: set<Tid>)
    ensures Inv(Start(runner, threads))
  {
    hide Roles, Locks, Order, Jobs, Syncs, Start;
    StartFree(runner, threads);
    StartEmpty(runner, threads);
  }

  lemma StartFree(runner: Tid, threads: set<Tid>)
    ensures Roles(Start(runner, threads)) && Locks(Start(runner, threads))
  {
  }

  lemma StartEmpty(runner: Tid, threads: set<Tid>)
    ensures var w := Start(runner, threads);
            runner in w.pc && Order(w) && Jobs(w) && Syncs(w)
  {
  }

  ghost predicate Runs(w: World, actions: seq<Action>, w': World)
    decreases |actions|
  {
    if actions == [] then w' == w
    else Enabled(w, actions[0]) && Runs(Apply(w, actions[0]), actions[1..], w')
  }

  lemma {:induction false} RunsKeepInv(w: World, actions: seq<Action>, w': World)
    requires Inv(w) && Runs(w, actions, w')
    ensures Inv(w')
    decreases |actions|
  {
    if actions != [] {
      hide Apply, Enabled, Inv;
      InvKept(w, actions[0]);
      RunsKeepInv(Apply(w, actions[0]), actions[1..], w');
    }
  }

  /** The jobs up to and with the first that breaks. */
  function UpToBreak(kinds: map<Job, Kind>, jobs: seq<Job>): seq<Job> {
    if jobs == [] then []
    else if Breaks(kinds, jobs[0]) then [jobs[0]]
    else [jobs[0]] + UpToBreak(kinds, jobs[1..])
  }

  lemma {:induction false} PrefixUpToBreak(kinds: map<Job, Kind>, a: seq<Job>, b: seq<Job>)
    requires BreaksLast(kinds, a)
    ensures a <= UpToBreak(kinds, a + b)
    ensures a != [] && Breaks(kinds, a[|a| - 1]) ==> a == UpToBreak(kinds, a + b)
  {
    if a != [] {
      assert (a + b)[0] == a[0] && (a + b)[1..] == a[1..] + b;
      assert a == [a[0]] + a[1..];
      if |a| == 1 {
      } else {
        assert !Breaks(kinds, a[0]);
        forall i | 0 <= i < |a[1..]| - 1 ensures !Breaks(kinds, a[1..][i]) {
          assert a[1..][i] == a[i + 1];
        }
        PrefixUpToBreak(kinds, a[1..], b);
      }
    }
  }

  lemma ReachableHolds(runner: Tid, threads: set<Tid>, actions: seq<Action>, w: World)
    requires Runs(Start(runner, threads), actions, w)
    ensures Inv(w) && w.runner in w.pc
  {
    StartHolds(runner, threads);
    hide Inv, Start;
    RunsKeepInv(Start(runner, threads), actions, w);
    RunnerExists(w);
  }

  lemma RunnerExists(w: World)
    requires Inv(w)
    ensures w.runner in w.pc
  {
    hide Locks, Jobs, Order, Syncs;
  }

  /**
   In every reachable world the jobs run are a prefix of the jobs pushed, in that
   order, none after the first that breaks. When `join` has returned they are
   all of those, each once.
   */
  lemma RunInOrder(runner: Tid, threads: set<Tid>, actions: seq<Action>, w: World)
    requires Runs(Start(runner, threads), actions, w)
    ensures w.executed <= w.pushed && w.executed <= UpToBreak(w.kinds, w.pushed) && NoDup(w.executed)
    ensures w.joinDone ==> w.executed == UpToBreak(w.kinds, w.pushed)
  {
    hide Runs, Start, Inv, NoDup;
    ReachableHolds(runner, threads, actions, w);
    InOrder(w);
  }

  lemma InOrder(w: World)
    requires Inv(w) && w.runner in w.pc
    ensures w.executed <= w.pushed && w.executed <= UpToBreak(w.kinds, w.pushed) && NoDup(w.executed)
    ensures w.pc[w.runner].Exited? ==> w.executed == UpToBreak(w.kinds, w.pushed)
    ensures w.joinDone ==> w.pc[w.runner].Exited?
  {
    hide Locks, Roles, Syncs;
    var rest := Current(w.pc[w.runner]) + (w.dropped + w.queue);
    assert w.pushed == w.executed + rest;
    assert NoDup(w.executed) by {
      forall i, j | 0 <= i < j < |w.executed| ensures w.executed[i] != w.executed[j] {
        assert w.pushed[i] == w.executed[i] && w.pushed[j] == w.executed[j];
      }
    }
    hide Jobs, NoDup, Current, Finishing;
    PrefixUpToBreak(w.kinds, w.executed, rest);
  }

  /** No job object is deleted twice, none before its function has returned unless it never runs, and in the end all are. */
  lemma DeletedOnce(runner: Tid, threads: set<Tid>, actions: seq<Action>, w: World)
    requires Runs(Start(runner, threads), actions, w)
    ensures NoDup(w.deleted) && w.deleted <= w.executed + w.dropped && |w.executed + w.dropped| <= |w.deleted| + 1
    ensures w.destroyed ==> w.deleted == w.pushed == w.executed + w.dropped
  {
    hide Runs, Start, Inv;
    ReachableHolds(runner, threads, actions, w);
    DeletedPrefix(w);
    PushedOnce(w);
    forall i, j | 0 <= i < j < |w.deleted| ensures w.deleted[i] != w.deleted[j] {
      assert w.pushed[i] == w.deleted[i] && w.pushed[j] == w.deleted[j];
    }
  }

  lemma PushedOnce(w: World)
    requires Inv(w)
    ensures NoDup(w.pushed)
  {
    hide Locks, Roles, Order, Syncs;
  }

  lemma DeletedPrefix(w: World)
    requires Inv(w) && w.runner in w.pc
    ensures w.deleted <= w.pushed && w.deleted <= w.executed + w.dropped
    ensures |w.executed + w.dropped| <= |w.deleted| + 1
    ensures w.destroyed ==> w.deleted == w.pushed == w.executed + w.dropped
  {
    hide Locks, Roles, Syncs, Jobs, BreaksLast;
    var pc := w.pc[w.runner];
    assert w.pushed == w.executed + (Current(pc) + (w.dropped + w.queue));
    assert w.executed + w.dropped == w.deleted + Finishing(pc);
    if w.destroyed {
      assert w.pushed == w.executed + w.dropped;
      assert w.deleted + [] == w.deleted;
    } else {
      assert w.executed + w.dropped == w.executed;
    }
  }

  /** `sync` returns only after its function has run. */
  lemma SyncReturnsAfterRun(runner: Tid, threads: set<Tid>, actions: seq<Action>, w: World)
    requires Runs(Start(runner, threads), actions, w)
    ensures forall j <- w.returned :: j in w.executed
    ensures forall t <- w.pc, j | Served(w.pc[t], j) :: j in w.executed
  {
    hide Runs, Start, Locks, Roles, Order, Jobs;
    ReachableHolds(runner, threads, actions, w);
  }

  /**
   The broadcast for a job always finds its caller waiting, and wakes it; a caller
   still waiting belongs to a job that no broadcast has been sent for.
   */
  lemma NoLostWakeup(runner: Tid, threads: set<Tid>, actions: seq<Action>, w: World)
    requires Runs(Start(runner, threads), actions, w)
    ensures forall t <- w.pc | w.pc[t].InJob? ::
              exists u :: u in w.pc && w.pc[u] == Waiting(w.pc[t].j) && CanAdvance(w, t)
                          && u in Step(w, t).pc && Step(w, t).pc[u] == Woken(w.pc[t].j)
    ensures forall t <- w.pc | w.pc[t].Waiting? :: w.pc[t].j !in w.notified
  {
    hide Runs, Start, Inv;
    ReachableHolds(runner, threads, actions, w);
    forall t <- w.pc | w.pc[t].InJob?
      ensures exists u :: u in w.pc && w.pc[u] == Waiting(w.pc[t].j) && CanAdvance(w, t)
                          && u in Step(w, t).pc && Step(w, t).pc[u] == Woken(w.pc[t].j)
    {
      var u := WaiterOf(w, t);
    }
    forall t <- w.pc | w.pc[t].Waiting? ensures w.pc[t].j !in w.notified {
      WaitingNotNotified(w, t);
    }
  }

  lemma WaitingNotNotified(w: World, t: Tid)
    requires Inv(w) && t in w.pc && w.pc[t].Waiting?
    ensures w.pc[t].j !in w.notified
  {
    hide Locks, Roles, Order, Jobs;
    assert Awaits(w.pc[t], w.pc[t].j);
  }

  lemma WaiterOf(w: World, t: Tid) returns (u: Tid)
    requires Inv(w) && t in w.pc && w.pc[t].InJob?
    ensures u in w.pc && w.pc[u] == Waiting(w.pc[t].j) && u != t
  {
    KnownJobs(w);
    Place(w, t);
    assert Notifies(w.pc[t], w.pc[t].j);
    assert t == w.runner;
    hide Locks, Roles, Order, Jobs;
    u :| u in w.pc && Awaits(w.pc[u], w.pc[t].j);
    AwaitedIsWaiting(w, t, u);
  }

  /**
   No deadlock: if neither the runner nor any thread inside a call can step, the
   runner has left its loop, and who is inside waits in `sync` for a job queued
   behind the break.
   */
  lemma StuckOnlyBehindBreak(runner: Tid, threads: set<Tid>, actions: seq<Action>, w: World)
    requires Runs(Start(runner, threads), actions, w) && !w.destroyed
    requires forall t <- w.pc :: !CanAdvance(w, t)
    ensures w.runner in w.pc && w.pc[w.runner].Exited? && w.executed == UpToBreak(w.kinds, w.pushed)
    ensures forall t <- w.pc | t != w.runner :: w.pc[t].Ready? || (w.pc[t].Waiting? && w.pc[t].j in w.queue)
  {
    hide Runs, Start, Inv, CanAdvance;
    ReachableHolds(runner, threads, actions, w);
    LocksFree(w);
    RunnerExited(w);
    forall t <- w.pc | t != w.runner ensures w.pc[t].Ready? || (w.pc[t].Waiting? && w.pc[t].j in w.queue) {
      StuckThread(w, t);
    }
    InOrder(w);
  }

  /** Who holds a mutex can step. */
  lemma HolderAdvances(w: World, t: Tid)
    requires Inv(w) && t in w.pc
    ensures w.chanLock == Some(t) ==> CanAdvance(w, t)
    ensures w.chanLock == None && (exists j :: HoldsJob(w.pc[t], j)) ==> CanAdvance(w, t)
  {
    Place(w, t);
    hide Order, Jobs, Syncs, Locks, Roles;
  }

  lemma LocksFree(w: World)
    requires Inv(w) && forall t <- w.pc :: !CanAdvance(w, t)
    ensures w.chanLock == None && forall t <- w.pc, j :: !HoldsJob(w.pc[t], j)
  {
    if w.chanLock.Some? {
      ChanHolder(w);
    }
    forall t <- w.pc ensures w.chanLock != Some(t) {
      HolderAdvances(w, t);
    }
    hide Inv, CanAdvance, HoldsJob;
    forall t <- w.pc, j ensures !HoldsJob(w.pc[t], j) {
      HolderAdvances(w, t);
    }
  }

  lemma ChanHolder(w: World)
    requires Inv(w) && w.chanLock.Some?
    ensures w.chanLock.value in w.pc
  {
    hide Order, Jobs, Syncs, Roles;
  }

  /** With every mutex free, only what has left its loop is stuck. */
  lemma RunnerExited(w: World)
    requires Inv(w) && w.chanLock == None && forall t <- w.pc, j :: !HoldsJob(w.pc[t], j)
    requires w.runner in w.pc && !CanAdvance(w, w.runner)
    ensures w.pc[w.runner].Exited?
  {
    Place(w, w.runner);
    JobsFree(w);
    hide Order, Jobs, Syncs, Roles, Locks;
  }

  lemma JobsFree(w: World)
    requires Inv(w) && forall t <- w.pc, j :: !HoldsJob(w.pc[t], j)
    ensures forall j :: j !in w.jobLocks
  {
    hide Inv, HoldsJob;
    forall j ensures j !in w.jobLocks {
      if j in w.jobLocks {
        JobHolder(w, j);
      }
    }
  }

  lemma JobHolder(w: World, j: Job)
    requires Inv(w) && j in w.jobLocks
    ensures w.jobLocks[j] in w.pc && HoldsJob(w.pc[w.jobLocks[j]], j)
  {
    hide Order, Jobs, Syncs, Roles, HoldsJob;
  }

  lemma WaitedIsQueued(w: World, t: Tid, j: Job)
    requires Inv(w) && t in w.pc && Awaits(w.pc[t], j) && w.runner in w.pc && w.pc[w.runner].Exited? && !w.destroyed
    ensures j in w.queue
  {
    hide Locks, Roles, Jobs;
    assert w.pushed == w.executed + w.queue;
    assert j !in w.executed;
  }

  lemma StuckThread(w: World, t: Tid)
    requires Inv(w) && w.chanLock == None && forall u <- w.pc, j :: !HoldsJob(w.pc[u], j)
    requires t in w.pc && t != w.runner && !CanAdvance(w, t)
    requires w.runner in w.pc && w.pc[w.runner].Exited? && !w.destroyed
    ensures w.pc[t].Ready? || (w.pc[t].Waiting? && w.pc[t].j in w.queue)
  {
    Place(w, t);
    JobsFree(w);
    hide Inv;
    if w.pc[t].Waiting? {
      assert Awaits(w.pc[t], w.pc[t].j);
      WaitedIsQueued(w, t, w.pc[t].j);
    }
  }
}
