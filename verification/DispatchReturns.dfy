/** Which calls of `sync` return: those whose job is not queued behind the job that ends the loop. */
module DispatchReturns {
  import opened Bytes
  import opened DispatchProtocol

  // ---- Who has been notified has returned or is on its way ----

  ghost predicate NotifiedServed(w: World) {
    forall j <- w.notified :: j in w.returned || exists t :: t in w.pc && Served(w.pc[t], j)
  }

  /** One thread moves on, and leaves off being served only by returning. */
  lemma MoveServes(w: World, t: Tid, w': World)
    requires NotifiedServed(w) && t in w.pc && t in w'.pc && w'.pc == w.pc[t := w'.pc[t]]
    requires w'.notified == w.notified && w.returned <= w'.returned
    requires forall x | Served(w.pc[t], x) :: Served(w'.pc[t], x) || x in w'.returned
    ensures NotifiedServed(w')
  {
    hide Served;
    forall j <- w'.notified ensures j in w'.returned || exists u :: u in w'.pc && Served(w'.pc[u], j) {
      if j !in w.returned {
        var u :| u in w.pc && Served(w.pc[u], j);
        assert u != t ==> Served(w'.pc[u], j);
      }
    }
  }

  /** The broadcast for a job finds its caller, and wakes it. */
  lemma BroadcastServed(w: World, t: Tid)
    requires Inv(w) && NotifiedServed(w) && CanAdvance(w, t) && w.pc[t].InJob?
    ensures NotifiedServed(Step(w, t))
  {
    hide Inv;
    var w', j := Step(w, t), w.pc[t].j;
    var caller := WaiterOf(w, t);
    assert Served(w'.pc[caller], j);
    forall x <- w'.notified ensures x in w'.returned || exists u :: u in w'.pc && Served(w'.pc[u], x) {
      if x != j && x !in w.returned {
        var u :| u in w.pc && Served(w.pc[u], x);
        assert w'.pc[u] == w.pc[u];
      }
    }
  }

  lemma StepServes(w: World, t: Tid)
    requires Inv(w) && NotifiedServed(w) && CanAdvance(w, t)
    ensures NotifiedServed(Step(w, t))
  {
    hide Inv, NotifiedServed;
    if w.pc[t].InJob? {
      BroadcastServed(w, t);
    } else {
      StepFrame(w, t);
      hide Step, CanAdvance, Served;
      MoveServes(w, t, Step(w, t));
    }
  }

  /** What a step leaves alone, but for the push and the broadcast. */
  predicate Frame(w: World, t: Tid, w': World) {
    && t in w.pc && t in w'.pc && w'.pc == w.pc[t := w'.pc[t]] && w'.notified == w.notified
    && w.returned <= w'.returned && w'.kinds == w.kinds && w.pushed <= w'.pushed && w'.destroyed == w.destroyed
    && w.executed <= w'.executed
  }

  lemma PushFrame(w: World, t: Tid)
    requires CanAdvance(w, t) && w.pc[t].Pushing?
    ensures Frame(w, t, Step(w, t))
  {
    PushingStep(w, t);
    hide Step, Next;
    match w.pc[t].phase
    case Wanting =>
    case Holding =>
    case Pushed =>
  }

  lemma PushingStep(w: World, t: Tid)
    requires CanAdvance(w, t) && w.pc[t].Pushing?
    ensures Step(w, t) == StepPush(w, t, w.pc[t].j, w.pc[t].phase, w.pc[t].after)
  {
    hide StepPush;
  }

  lemma PopFrame(w: World, t: Tid)
    requires CanAdvance(w, t) && (w.pc[t].WantPop? || w.pc[t].Asleep? || w.pc[t].Checking?)
    ensures Frame(w, t, Step(w, t))
  {
    hide StepPush;
  }

  lemma PoppedFrame(w: World, t: Tid)
    requires CanAdvance(w, t) && w.pc[t].HoldPop? && w.queue != []
    ensures Frame(w, t, Step(w, t))
  {
    hide StepPush;
  }

  lemma NonePoppedFrame(w: World, t: Tid)
    requires CanAdvance(w, t) && w.pc[t].HoldPop? && w.queue == []
    ensures Frame(w, t, Step(w, t))
  {
    hide StepPush;
  }

  lemma CallerFrame(w: World, t: Tid)
    requires CanAdvance(w, t)
    requires w.pc[t].Locking? || w.pc[t].ToWait? || w.pc[t].Woken? || w.pc[t].Returning? || w.pc[t].Joining?
    ensures Frame(w, t, Step(w, t))
    ensures forall x | Served(w.pc[t], x) :: Served(Step(w, t).pc[t], x) || x in Step(w, t).returned
  {
  }

  lemma JobFrame(w: World, t: Tid)
    requires CanAdvance(w, t)
    requires w.pc[t].Running? || w.pc[t].WantJob? || w.pc[t].OutJob? || w.pc[t].Releasing?
    ensures Frame(w, t, Step(w, t))
  {
  }

  lemma StepFrame(w: World, t: Tid)
    requires CanAdvance(w, t) && !w.pc[t].InJob?
    ensures Frame(w, t, Step(w, t))
    ensures forall x | Served(w.pc[t], x) :: Served(Step(w, t).pc[t], x) || x in Step(w, t).returned
  {
    hide Step, Frame;
    match w.pc[t]
    case Pushing(_, _, _) => PushFrame(w, t);
    case HoldPop =>
      if w.queue == [] {
        NonePoppedFrame(w, t);
      } else {
        PoppedFrame(w, t);
      }
    case WantPop | Asleep | Checking => PopFrame(w, t);
    case Running(_) | WantJob(_) | OutJob(_) | Releasing(_) => JobFrame(w, t);
    case _ => CallerFrame(w, t);
  }

  lemma ApplyServes(w: World, a: Action)
    requires Inv(w) && NotifiedServed(w) && Enabled(w, a)
    ensures NotifiedServed(Apply(w, a))
  {
    hide Inv, NotifiedServed, Step, CanAdvance;
    match a
    case Advance(t) => StepServes(w, t);
    case Destroy(_) => DestroyServes(w, Apply(w, a));
    case _ => MoveServes(w, a.t, Apply(w, a));
  }

  lemma DestroyServes(w: World, w': World)
    requires NotifiedServed(w) && w'.pc == w.pc && w'.notified == w.notified && w'.returned == w.returned
    ensures NotifiedServed(w')
  {
  }

  lemma {:induction false} RunServes(w: World, actions: seq<Action>, w': World)
    requires Inv(w) && NotifiedServed(w) && Runs(w, actions, w')
    ensures NotifiedServed(w')
    decreases |actions|
  {
    if actions != [] {
      hide Apply, Enabled, Inv, NotifiedServed;
      InvKept(w, actions[0]);
      ApplyServes(w, actions[0]);
      RunServes(Apply(w, actions[0]), actions[1..], w');
    }
  }

  lemma ReachableServes(runner: Tid, threads: set<Tid>, actions: seq<Action>, w: World)
    requires Runs(Start(runner, threads), actions, w)
    ensures NotifiedServed(w)
  {
    hide Inv, Runs;
    StartHolds(runner, threads);
    RunServes(Start(runner, threads), actions, w);
  }

  // ---- Standstill ----

  /**
   Where no thread can step, a call of `sync` has returned if and only if its job is
   not behind the first that ends the loop.
   */
  lemma SyncReturnsIff(runner: Tid, threads: set<Tid>, actions: seq<Action>, w: World, j: Job)
    requires Runs(Start(runner, threads), actions, w) && !w.destroyed
    requires forall t <- w.pc :: !CanAdvance(w, t)
    requires j in w.pushed && Synced(w.kinds, j)
    ensures j in w.returned <==> j in UpToBreak(w.kinds, w.pushed)
  {
    hide Runs, Start, Inv, CanAdvance, UpToBreak, NotifiedServed, Synced;
    StuckOnlyBehindBreak(runner, threads, actions, w);
    SyncReturnsAfterRun(runner, threads, actions, w);
    if j in w.executed {
      ReachableHolds(runner, threads, actions, w);
      ExecutedIsNotified(w, j);
      ReachableServes(runner, threads, actions, w);
      NotifiedHasReturned(w, j);
    }
  }

  lemma ExecutedIsNotified(w: World, j: Job)
    requires Inv(w) && w.runner in w.pc && w.pc[w.runner].Exited? && j in w.executed && Synced(w.kinds, j)
    ensures j in w.notified
  {
    hide Roles, Locks, Order, Jobs, Synced;
  }

  lemma NotifiedHasReturned(w: World, j: Job)
    requires NotifiedServed(w) && j in w.notified && w.runner in w.pc && w.pc[w.runner].Exited?
    requires forall t <- w.pc | t != w.runner :: w.pc[t].Ready? || w.pc[t].Waiting?
    ensures j in w.returned
  {
  }

  /** Once the queue is destroyed every call of `sync` has returned. */
  lemma DestroyedAfterAllReturned(runner: Tid, threads: set<Tid>, actions: seq<Action>, w: World, j: Job)
    requires Runs(Start(runner, threads), actions, w) && w.destroyed
    requires j in w.pushed && Synced(w.kinds, j)
    ensures j in w.returned
  {
    hide Runs, Start, Inv, UpToBreak, NotifiedServed, Synced;
    ReachableHolds(runner, threads, actions, w);
    ReachableServes(runner, threads, actions, w);
    DestroyedIsReady(runner, threads, actions, w);
    NobodyAwaits(w, j);
    NotifiedHasReturned(w, j);
  }

  lemma NobodyAwaits(w: World, j: Job)
    requires Inv(w) && w.runner in w.pc && w.pc[w.runner].Exited? && j in w.pushed && Synced(w.kinds, j)
    requires forall t <- w.pc | t != w.runner :: w.pc[t].Ready?
    ensures j in w.notified
  {
    hide Roles, Locks, Order, Jobs, Synced;
  }

  ghost predicate ReadyIfDestroyed(w: World) {
    w.destroyed ==> forall t <- w.pc | t != w.runner :: w.pc[t].Ready?
  }

  lemma {:induction false} RunDestroyed(w: World, actions: seq<Action>, w': World)
    requires ReadyIfDestroyed(w) && Runs(w, actions, w')
    ensures ReadyIfDestroyed(w')
    decreases |actions|
  {
    if actions != [] {
      ApplyDestroyed(w, actions[0]);
      hide Apply, Enabled, ReadyIfDestroyed;
      RunDestroyed(Apply(w, actions[0]), actions[1..], w');
    }
  }

  lemma ApplyDestroyed(w: World, a: Action)
    requires ReadyIfDestroyed(w) && Enabled(w, a)
    ensures ReadyIfDestroyed(Apply(w, a))
  {
    hide CanAdvance, Step, ReadyIfDestroyed;
    match a
    case Advance(t) => StepNotDestroyed(w, t);
    case Destroy(_) => DestroyedNow(w, Apply(w, a));
    case _ => NotDestroyed(Apply(w, a));
  }

  lemma NotDestroyed(w: World)
    requires !w.destroyed
    ensures ReadyIfDestroyed(w)
  {
  }

  lemma DestroyedNow(w: World, w': World)
    requires w'.pc == w.pc && w'.runner == w.runner && forall t <- w.pc | t != w.runner :: w.pc[t].Ready?
    ensures ReadyIfDestroyed(w')
  {
  }

  lemma StepNotDestroyed(w: World, t: Tid)
    requires CanAdvance(w, t) && !w.destroyed
    ensures ReadyIfDestroyed(Step(w, t))
  {
    hide ReadyIfDestroyed;
    if !w.pc[t].InJob? {
      hide Step;
      StepFrame(w, t);
    }
    NotDestroyed(Step(w, t));
  }

  lemma DestroyedIsReady(runner: Tid, threads: set<Tid>, actions: seq<Action>, w: World)
    requires Runs(Start(runner, threads), actions, w) && w.destroyed
    ensures w.runner in w.pc && w.pc[w.runner].Exited? && forall t <- w.pc | t != w.runner :: w.pc[t].Ready?
  {
    hide Inv, Runs;
    RunDestroyed(Start(runner, threads), actions, w);
    hide Start, ReadyIfDestroyed;
    ReachableHolds(runner, threads, actions, w);
    RunnerGone(w);
  }

  lemma RunnerGone(w: World)
    requires Inv(w) && w.runner in w.pc && w.destroyed
    ensures w.pc[w.runner].Exited?
  {
    hide Roles, Locks, Jobs, Syncs;
  }

  // ---- For ever ----

  /** In every reachable world, no call whose job is behind the break has returned, nor has its function run. */
  lemma BehindBreakNotReturned(runner: Tid, threads: set<Tid>, actions: seq<Action>, w: World, j: Job)
    requires Runs(Start(runner, threads), actions, w) && j !in UpToBreak(w.kinds, w.pushed)
    ensures j !in w.returned && j !in w.executed
  {
    hide Runs, Start, UpToBreak;
    SyncReturnsAfterRun(runner, threads, actions, w);
    RunInOrder(runner, threads, actions, w);
    InPrefix(w.executed, UpToBreak(w.kinds, w.pushed), j);
  }

  lemma InPrefix(a: seq<Job>, b: seq<Job>, j: Job)
    requires a <= b
    ensures j in a ==> j in b
  {
    assert b == a + b[|a|..];
  }

  /** Jobs stay pushed and executed, and what they are. */
  predicate Continues(w: World, w': World) {
    && w.pushed <= w'.pushed && w.executed <= w'.executed
    && forall j <- w.kinds :: j in w'.kinds && w'.kinds[j] == w.kinds[j]
  }

  lemma ApplyContinues(w: World, a: Action)
    requires Enabled(w, a)
    ensures Continues(w, Apply(w, a))
  {
    hide CanAdvance;
    match a
    case Advance(t) => StepContinues(w, t);
    case _ =>
  }

  lemma StepContinues(w: World, t: Tid)
    requires CanAdvance(w, t)
    ensures Continues(w, Step(w, t))
  {
    if !w.pc[t].InJob? {
      hide Step;
      StepFrame(w, t);
    }
  }

  lemma {:induction false} RunContinues(w: World, actions: seq<Action>, w': World)
    requires Runs(w, actions, w')
    ensures Continues(w, w')
    decreases |actions|
  {
    if actions != [] {
      hide Apply, Enabled;
      ApplyContinues(w, actions[0]);
      RunContinues(Apply(w, actions[0]), actions[1..], w');
    }
  }

  /** What is behind the break stays behind it. */
  lemma {:induction false} StaysBehind(kinds: map<Job, Kind>, kinds': map<Job, Kind>, a: seq<Job>, b: seq<Job>, j: Job)
    requires forall x <- a :: Breaks(kinds', x) == Breaks(kinds, x)
    requires j in a && j !in UpToBreak(kinds, a)
    ensures UpToBreak(kinds', a + b) == UpToBreak(kinds, a)
  {
    hide Breaks;
    assert (a + b)[0] == a[0] && (a + b)[1..] == a[1..] + b;
    if !Breaks(kinds, a[0]) {
      assert a == [a[0]] + a[1..];
      StaysBehind(kinds, kinds', a[1..], b, j);
    }
  }

  lemma {:induction false} RunsInTurn(w: World, first: seq<Action>, w1: World, more: seq<Action>, w2: World)
    requires Runs(w, first, w1) && Runs(w1, more, w2)
    ensures Runs(w, first + more, w2)
    decreases |first|
  {
    if first == [] {
      assert first + more == more;
    } else {
      assert (first + more)[0] == first[0] && (first + more)[1..] == first[1..] + more;
      hide Apply, Enabled;
      RunsInTurn(Apply(w, first[0]), first[1..], w1, more, w2);
    }
  }

  /** A job behind the break never runs, and its call of `sync` never returns, however the run goes on. */
  lemma BehindBreakForEver(runner: Tid, threads: set<Tid>, actions: seq<Action>, w: World, more: seq<Action>, w': World,
                           j: Job)
    requires Runs(Start(runner, threads), actions, w) && Runs(w, more, w')
    requires j in w.pushed && j !in UpToBreak(w.kinds, w.pushed)
    ensures j !in w'.returned && j !in w'.executed
  {
    hide Runs, Start, Inv, UpToBreak, Breaks;
    ReachableHolds(runner, threads, actions, w);
    PushedAreKnown(w);
    RunContinues(w, more, w');
    assert w'.pushed == w.pushed + w'.pushed[|w.pushed|..];
    SameBreaks(w, w');
    StaysBehind(w.kinds, w'.kinds, w.pushed, w'.pushed[|w.pushed|..], j);
    RunsInTurn(Start(runner, threads), actions, w, more, w');
    BehindBreakNotReturned(runner, threads, actions + more, w', j);
  }

  lemma PushedAreKnown(w: World)
    requires Inv(w)
    ensures forall j <- w.pushed :: j in w.kinds
  {
    hide Roles, Locks, Order, Syncs;
  }

  lemma SameBreaks(w: World, w': World)
    requires Continues(w, w') && forall j <- w.pushed :: j in w.kinds
    ensures forall j <- w.pushed :: Breaks(w'.kinds, j) == Breaks(w.kinds, j)
  {
  }

  // ---- A call that never returns ----

  /** The runner 0 and one caller 1, of a queue that is neither joined nor destroyed. */
  function Pair(runner: Pc, caller: Pc, chanLock: Option<Tid>, jobLocks: map<Job, Tid>, kinds: map<Job, Kind>,
                queue: seq<Job>, loopbreak: bool, pushed: seq<Job>, executed: seq<Job>, deleted: seq<Job>): World
  {
    World(0, map[0 := runner, 1 := caller], chanLock, jobLocks, kinds, queue, loopbreak, false, false, false,
          pushed, executed, [], deleted, {}, {})
  }

  /** One action more. */
  lemma Then(w: World, actions: seq<Action>, w1: World, a: Action, w2: World) returns (more: seq<Action>)
    requires Runs(w, actions, w1) && Leads(w1, a, w2)
    ensures Runs(w, more, w2) && more == actions + [a]
  {
    hide Enabled, Apply;
    assert [a][1..] == [];
    assert Runs(w2, [], w2);
    assert Runs(w1, [a], w2);
    RunsInTurn(w, actions, w1, [a], w2);
    more := actions + [a];
  }

  const BREAKING := map[5 := Kind(false, true)]
  const BOTH := map[5 := Kind(false, true), 6 := Kind(true, false)]

  lemma RunsNone(w: World)
    ensures Runs(w, [], w)
  {
  }

  predicate Leads(w: World, a: Action, w': World) {
    Enabled(w, a) && Apply(w, a) == w'
  }

  lemma CallerTakesChan(j: Job, after: After, jobLocks: map<Job, Tid>, kinds: map<Job, Kind>, jobs: seq<Job>)
    ensures Leads(Pair(Asleep, Pushing(j, Wanting, after), None, jobLocks, kinds, jobs, false, jobs, [], []), Advance(1),
                  Pair(Asleep, Pushing(j, Holding, after), Some(1), jobLocks, kinds, jobs, false, jobs, [], []))
  {
  }

  lemma CallerPushes(j: Job, after: After, jobLocks: map<Job, Tid>, kinds: map<Job, Kind>, jobs: seq<Job>)
    ensures Leads(Pair(Asleep, Pushing(j, Holding, after), Some(1), jobLocks, kinds, jobs, false, jobs, [], []), Advance(1),
                  Pair(Asleep, Pushing(j, Pushed, after), Some(1), jobLocks, kinds, jobs + [j], false, jobs + [j], [], []))
  {
  }

  lemma CallerLeavesChan(j: Job, after: After, jobLocks: map<Job, Tid>, kinds: map<Job, Kind>, jobs: seq<Job>)
    ensures Leads(Pair(Asleep, Pushing(j, Pushed, after), Some(1), jobLocks, kinds, jobs, false, jobs, [], []), Advance(1),
                  Pair(Asleep, Next(j, after), None, jobLocks, kinds, jobs, false, jobs, [], []))
  {
    hide Next;
  }

  /** A push by the caller, through the mutex of the channel. */
  lemma CallerPush(j: Job, after: After, jobLocks: map<Job, Tid>, kinds: map<Job, Kind>, jobs: seq<Job>,
                   start: World, actions: seq<Action>) returns (more: seq<Action>)
    requires Runs(start, actions,
                  Pair(Asleep, Pushing(j, Wanting, after), None, jobLocks, kinds, jobs, false, jobs, [], []))
    ensures Runs(start, more,
                 Pair(Asleep, Next(j, after), None, jobLocks, kinds, jobs + [j], false, jobs + [j], [], []))
  {
    hide Runs, Pair, Enabled, Apply;
    CallerTakesChan(j, after, jobLocks, kinds, jobs);
    CallerPushes(j, after, jobLocks, kinds, jobs);
    CallerLeavesChan(j, after, jobLocks, kinds, jobs + [j]);
    more := Then(start, actions, Pair(Asleep, Pushing(j, Wanting, after), None, jobLocks, kinds, jobs, false, jobs, [], []),
                 Advance(1),
                 Pair(Asleep, Pushing(j, Holding, after), Some(1), jobLocks, kinds, jobs, false, jobs, [], []));
    more := Then(start, more, Pair(Asleep, Pushing(j, Holding, after), Some(1), jobLocks, kinds, jobs, false, jobs, [], []),
                 Advance(1),
                 Pair(Asleep, Pushing(j, Pushed, after), Some(1), jobLocks, kinds, jobs + [j], false, jobs + [j], [], []));
    more := Then(start, more,
                 Pair(Asleep, Pushing(j, Pushed, after), Some(1), jobLocks, kinds, jobs + [j], false, jobs + [j], [], []),
                 Advance(1), Pair(Asleep, Next(j, after), None, jobLocks, kinds, jobs + [j], false, jobs + [j], [], []));
  }

  lemma CallsAsync()
    ensures Start(0, {1}) == Pair(Asleep, Ready, None, map[], map[], [], false, [], [], [])
    ensures Leads(Start(0, {1}), CallAsync(1, 5, true),
                  Pair(Asleep, Pushing(5, Wanting, Return), None, map[], BREAKING, [], false, [], [], []))
  {
  }

  lemma CallsSync()
    ensures Leads(Pair(Asleep, Ready, None, map[], BREAKING, [5], false, [5], [], []), CallSync(1, 6, false),
                  Pair(Asleep, Locking(6), None, map[], BOTH, [5], false, [5], [], []))
  {
  }

  lemma LocksJob()
    ensures Leads(Pair(Asleep, Locking(6), None, map[], BOTH, [5], false, [5], [], []), Advance(1),
                  Pair(Asleep, Pushing(6, Wanting, Wait), None, map[6 := 1], BOTH, [5], false, [5], [], []))
  {
  }

  lemma Waits()
    ensures Leads(Pair(Asleep, ToWait(6), None, map[6 := 1], BOTH, [5, 6], false, [5, 6], [], []), Advance(1),
                  Pair(Asleep, Waiting(6), None, map[], BOTH, [5, 6], false, [5, 6], [], []))
  {
  }

  /** Job 5, which breaks, goes into the channel; then `sync` pushes job 6 and waits. */
  lemma CallerWaits() returns (actions: seq<Action>)
    ensures Runs(Start(0, {1}), actions, Pair(Asleep, Waiting(6), None, map[], BOTH, [5, 6], false, [5, 6], [], []))
  {
    hide Runs, Start, Pair, Enabled, Apply;
    var w := Start(0, {1});
    RunsNone(w);
    CallsAsync();
    actions := Then(w, [], w, CallAsync(1, 5, true),
                    Pair(Asleep, Pushing(5, Wanting, Return), None, map[], BREAKING, [], false, [], [], []));
    actions := CallerPush(5, Return, map[], BREAKING, [], w, actions);
    assert [] + [5] == [5] && [5] + [6] == [5, 6];
    CallsSync();
    actions := Then(w, actions, Pair(Asleep, Ready, None, map[], BREAKING, [5], false, [5], [], []), CallSync(1, 6, false),
                    Pair(Asleep, Locking(6), None, map[], BOTH, [5], false, [5], [], []));
    LocksJob();
    actions := Then(w, actions, Pair(Asleep, Locking(6), None, map[], BOTH, [5], false, [5], [], []), Advance(1),
                    Pair(Asleep, Pushing(6, Wanting, Wait), None, map[6 := 1], BOTH, [5], false, [5], [], []));
    actions := CallerPush(6, Wait, map[6 := 1], BOTH, [5], w, actions);
    Waits();
    actions := Then(w, actions, Pair(Asleep, ToWait(6), None, map[6 := 1], BOTH, [5, 6], false, [5, 6], [], []), Advance(1),
                    Pair(Asleep, Waiting(6), None, map[], BOTH, [5, 6], false, [5, 6], [], []));
  }

  /** The runner on its way to job 5 and out of the loop. */
  function RunnerAt(k: nat): World {
    if k == 0 then Pair(Asleep, Waiting(6), None, map[], BOTH, [5, 6], false, [5, 6], [], [])
    else if k == 1 then Pair(WantPop, Waiting(6), None, map[], BOTH, [5, 6], false, [5, 6], [], [])
    else if k == 2 then Pair(HoldPop, Waiting(6), Some(0), map[], BOTH, [5, 6], false, [5, 6], [], [])
    else if k == 3 then Pair(Running(5), Waiting(6), None, map[], BOTH, [6], false, [5, 6], [], [])
    else if k == 4 then Pair(Releasing(5), Waiting(6), None, map[], BOTH, [6], true, [5, 6], [5], [])
    else if k == 5 then Pair(Checking, Waiting(6), None, map[], BOTH, [6], true, [5, 6], [5], [5])
    else Pair(Exited, Waiting(6), None, map[], BOTH, [6], true, [5, 6], [5], [5])
  }

  lemma RunnerWakes(k: nat)
    requires k < 2
    ensures Leads(RunnerAt(k), Advance(0), RunnerAt(k + 1))
  {
    hide Broadcast, StepPush, Next;
  }

  lemma RunnerPops(k: nat)
    requires k == 2
    ensures Leads(RunnerAt(k), Advance(0), RunnerAt(k + 1))
  {
    hide Broadcast, StepPush, Next;
  }

  lemma RunnerRuns(k: nat)
    requires k == 3
    ensures Leads(RunnerAt(k), Advance(0), RunnerAt(k + 1))
  {
    hide Broadcast, StepPush, Next;
  }

  lemma RunnerEnds(k: nat)
    requires 4 <= k < 6
    ensures Leads(RunnerAt(k), Advance(0), RunnerAt(k + 1))
  {
    hide Broadcast, StepPush, Next;
  }

  lemma {:induction false} RunnerLeaves(k: nat, start: World, actions: seq<Action>) returns (more: seq<Action>)
    requires k <= 6 && Runs(start, actions, RunnerAt(k))
    ensures Runs(start, more, RunnerAt(6))
    decreases 6 - k
  {
    hide Runs, RunnerAt, Enabled, Apply;
    more := actions;
    if k < 6 {
      if k < 2 {
        RunnerWakes(k);
      } else if k == 2 {
        RunnerPops(k);
      } else if k == 3 {
        RunnerRuns(k);
      } else {
        RunnerEnds(k);
      }
      more := Then(start, more, RunnerAt(k), Advance(0), RunnerAt(k + 1));
      more := RunnerLeaves(k + 1, start, more);
    }
  }

  /** Job 5 ends the loop with job 6 of a `sync` behind it: nobody can step, and the caller waits. */
  lemma SyncBehindBreak()
    ensures exists actions, w ::
              && Runs(Start(0, {1}), actions, w) && !w.destroyed && (forall t <- w.pc :: !CanAdvance(w, t))
              && 6 in w.pushed && Synced(w.kinds, 6) && 6 !in w.returned && 1 in w.pc && w.pc[1] == Waiting(6)
  {
    hide Runs, Start;
    var actions := CallerWaits();
    actions := RunnerLeaves(0, Start(0, {1}), actions);
    var w := RunnerAt(6);
  }
}
