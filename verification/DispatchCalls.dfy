/** What the calls of a run say of its jobs, and runs in which `join` and `sync` return. */
module DispatchCalls {
  import opened Bytes
  import opened DispatchProtocol
  import opened DispatchReturns

  // ---- Jobs are what their calls made them ----

  /** The call makes job `j`, with a caller that waits for it or not and a function that breaks or not. */
  predicate Makes(a: Action, j: Job, synced: bool, breaks: bool) {
    match a
    case CallAsync(_, i, b) => i == j && !synced && breaks == b
    case CallSync(_, i, b) => i == j && synced && breaks == b
    case CallJoin(_, i) => i == j && !synced && breaks
    case _ => false
  }

  lemma CallMakes(w: World, a: Action, j: Job, synced: bool, breaks: bool)
    requires Enabled(w, a) && Makes(a, j, synced, breaks)
    ensures var w' := Apply(w, a); j in w'.kinds && w'.kinds[j] == Kind(synced, breaks)
  {
  }

  lemma {:induction false} MadeInRun(w: World, actions: seq<Action>, w': World, a: Action, j: Job, synced: bool,
                                     breaks: bool)
    requires Runs(w, actions, w') && a in actions && Makes(a, j, synced, breaks)
    ensures j in w'.kinds && w'.kinds[j] == Kind(synced, breaks)
    decreases |actions|
  {
    hide Apply, Enabled, Makes;
    if a == actions[0] {
      CallMakes(w, a, j, synced, breaks);
      RunContinues(Apply(w, a), actions[1..], w');
    } else {
      MadeInRun(Apply(w, actions[0]), actions[1..], w', a, j, synced, breaks);
    }
  }

  /** Each call's job is recorded as the call has it: `join` pushes one that breaks. */
  lemma JobsAreAsCalled(runner: Tid, threads: set<Tid>, actions: seq<Action>, w: World, t: Tid, j: Job, b: bool)
    requires Runs(Start(runner, threads), actions, w)
    ensures CallAsync(t, j, b) in actions ==> j in w.kinds && w.kinds[j] == Kind(false, b)
    ensures CallSync(t, j, b) in actions ==> j in w.kinds && w.kinds[j] == Kind(true, b)
    ensures CallJoin(t, j) in actions ==> j in w.kinds && w.kinds[j] == Kind(false, true)
  {
    hide Runs, Start;
    if CallAsync(t, j, b) in actions {
      MadeInRun(Start(runner, threads), actions, w, CallAsync(t, j, b), j, false, b);
    }
    if CallSync(t, j, b) in actions {
      MadeInRun(Start(runner, threads), actions, w, CallSync(t, j, b), j, true, b);
    }
    if CallJoin(t, j) in actions {
      MadeInRun(Start(runner, threads), actions, w, CallJoin(t, j), j, false, true);
    }
  }

  /** No job is there without its call. */
  lemma {:induction false} JobsHaveCalls(w: World, actions: seq<Action>, w': World, j: Job)
    requires Runs(w, actions, w') && j in w'.kinds && j !in w.kinds
    ensures exists a <- actions :: Makes(a, j, w'.kinds[j].synced, w'.kinds[j].breaks)
    decreases |actions|
  {
    if actions != [] {
      var w1 := Apply(w, actions[0]);
      if j in w1.kinds {
        NewJob(w, actions[0], j);
        hide Apply, Enabled, Makes;
        RunContinues(w1, actions[1..], w');
        assert actions[0] in actions;
      } else {
        hide Apply, Enabled, Makes;
        JobsHaveCalls(w1, actions[1..], w', j);
      }
    }
  }

  lemma NewJob(w: World, a: Action, j: Job)
    requires Enabled(w, a) && j in Apply(w, a).kinds && j !in w.kinds
    ensures var k := Apply(w, a).kinds[j]; Makes(a, j, k.synced, k.breaks)
  {
    hide CanAdvance;
    match a
    case Advance(t) => StepContinuesKinds(w, t);
    case _ =>
  }

  lemma StepContinuesKinds(w: World, t: Tid)
    requires CanAdvance(w, t)
    ensures Step(w, t).kinds == w.kinds
  {
    if !w.pc[t].InJob? {
      hide Step;
      StepFrame(w, t);
    }
  }

  // ---- A job that breaks is the last ----

  /**
   The function of a call that breaks, `join`'s among them, is the last to run: once
   it has, the loop is broken and no continuation runs another.
   */
  lemma BreakingCallIsLast(runner: Tid, threads: set<Tid>, actions: seq<Action>, w: World, a: Action, j: Job, synced: bool)
    requires Runs(Start(runner, threads), actions, w)
    requires a in actions && Makes(a, j, synced, true) && j in w.executed
    ensures w.executed[|w.executed| - 1] == j && w.loopbreak
    ensures forall more, w' | Runs(w, more, w') :: w'.executed == w.executed
  {
    hide Runs, Start, Inv, Makes;
    MadeInRun(Start(runner, threads), actions, w, a, j, synced, true);
    ReachableHolds(runner, threads, actions, w);
    LastBreaks(w, j);
    forall more, w' | Runs(w, more, w') ensures w'.executed == w.executed {
      RunsInTurn(Start(runner, threads), actions, w, more, w');
      ReachableHolds(runner, threads, actions + more, w');
      RunContinues(w, more, w');
      LastBreaks(w', j);
      RunInOrder(runner, threads, actions + more, w');
      SameLast(w.executed, w'.executed, j);
    }
  }

  lemma LastBreaks(w: World, j: Job)
    requires Inv(w) && w.runner in w.pc && j in w.executed && Breaks(w.kinds, j)
    ensures w.executed[|w.executed| - 1] == j && w.loopbreak
  {
    hide Roles, Locks, Jobs, Syncs, Current, Finishing;
    var i :| 0 <= i < |w.executed| && w.executed[i] == j;
    assert i == |w.executed| - 1;
  }

  lemma SameLast(a: seq<Job>, b: seq<Job>, j: Job)
    requires a <= b && NoDup(b) && a != [] && a[|a| - 1] == j == b[|b| - 1]
    ensures a == b
  {
    assert b[|a| - 1] == j;
    assert |a| - 1 == |b| - 1;
  }

  // ---- A run in which `join` returns ----

  const STOP := map[5 := Kind(false, true)]

  /** The caller joins; the runner takes the job that breaks, leaves its loop, and the caller goes on. */
  function JoinAt(k: nat): World {
    if k == 0 then Pair(Asleep, Pushing(5, Wanting, Join), None, map[], STOP, [], false, [], [], []).(joined := true)
    else if k == 1 then Pair(Asleep, Pushing(5, Holding, Join), Some(1), map[], STOP, [], false, [], [], []).(joined := true)
    else if k == 2 then Pair(Asleep, Pushing(5, Pushed, Join), Some(1), map[], STOP, [5], false, [5], [], []).(joined := true)
    else if k == 3 then Pair(Asleep, Joining, None, map[], STOP, [5], false, [5], [], []).(joined := true)
    else if k == 4 then Pair(WantPop, Joining, None, map[], STOP, [5], false, [5], [], []).(joined := true)
    else if k == 5 then Pair(HoldPop, Joining, Some(0), map[], STOP, [5], false, [5], [], []).(joined := true)
    else if k == 6 then Pair(Running(5), Joining, None, map[], STOP, [], false, [5], [], []).(joined := true)
    else if k == 7 then Pair(Releasing(5), Joining, None, map[], STOP, [], true, [5], [5], []).(joined := true)
    else if k == 8 then Pair(Checking, Joining, None, map[], STOP, [], true, [5], [5], [5]).(joined := true)
    else if k == 9 then Pair(Exited, Joining, None, map[], STOP, [], true, [5], [5], [5]).(joined := true)
    else Pair(Exited, Ready, None, map[], STOP, [], true, [5], [5], [5]).(joined := true, joinDone := true)
  }

  function JoinStep(k: nat): Action {
    Advance(if k < 3 || k == 9 then 1 else 0)
  }

  lemma CallsJoin()
    ensures Leads(Start(0, {1}), CallJoin(1, 5), JoinAt(0))
  {
    assert Start(0, {1}).pc == map[0 := Asleep, 1 := Ready];
  }

  lemma JoinPushes(k: nat)
    requires k < 3
    ensures Leads(JoinAt(k), JoinStep(k), JoinAt(k + 1))
  {
    hide Broadcast;
  }

  lemma JoinWakes(k: nat)
    requires 3 <= k < 5
    ensures Leads(JoinAt(k), JoinStep(k), JoinAt(k + 1))
  {
    hide Broadcast, StepPush, Next;
  }

  lemma JoinPops(k: nat)
    requires k == 5
    ensures Leads(JoinAt(k), JoinStep(k), JoinAt(k + 1))
  {
    hide Broadcast, StepPush, Next;
  }

  lemma JoinRuns(k: nat)
    requires 6 <= k < 8
    ensures Leads(JoinAt(k), JoinStep(k), JoinAt(k + 1))
  {
    hide Broadcast, StepPush, Next;
  }

  lemma JoinLeaves(k: nat)
    requires 8 <= k < 10
    ensures Leads(JoinAt(k), JoinStep(k), JoinAt(k + 1))
  {
    hide Broadcast, StepPush, Next;
  }

  lemma {:induction false} JoinGoesOn(k: nat, actions: seq<Action>) returns (more: seq<Action>)
    requires k <= 10 && Runs(Start(0, {1}), actions, JoinAt(k)) && CallJoin(1, 5) in actions
    ensures Runs(Start(0, {1}), more, JoinAt(10)) && CallJoin(1, 5) in more
    decreases 10 - k
  {
    hide Runs, Start, JoinAt, JoinStep, Enabled, Apply;
    more := actions;
    if k < 10 {
      if k < 3 {
        JoinPushes(k);
      } else if k < 5 {
        JoinWakes(k);
      } else if k == 5 {
        JoinPops(k);
      } else if k < 8 {
        JoinRuns(k);
      } else {
        JoinLeaves(k);
      }
      more := Then(Start(0, {1}), more, JoinAt(k), JoinStep(k), JoinAt(k + 1));
      more := JoinGoesOn(k + 1, more);
    }
  }

  /** A run that joins, and in which join returns with its job run and deleted. */
  lemma JoinReturns()
    ensures exists actions, w ::
              && Runs(Start(0, {1}), actions, w) && CallJoin(1, 5) in actions
              && w.joinDone && w.executed == [5] && w.deleted == [5] && 1 in w.pc && w.pc[1].Ready?
  {
    hide Runs, Start;
    RunsNone(Start(0, {1}));
    CallsJoin();
    var actions := Then(Start(0, {1}), [], Start(0, {1}), CallJoin(1, 5), JoinAt(0));
    actions := JoinGoesOn(0, actions);
    var w := JoinAt(10);
  }

  // ---- The jobs that run ----

  /** A job of the queue runs if and only if none before it breaks. */
  lemma {:induction false} RunsUpToBreak(kinds: map<Job, Kind>, jobs: seq<Job>, i: nat)
    requires i < |jobs|
    ensures |UpToBreak(kinds, jobs)| <= |jobs| && UpToBreak(kinds, jobs) <= jobs
    ensures i < |UpToBreak(kinds, jobs)| <==> forall k | 0 <= k < i :: jobs[k] !in kinds || !kinds[jobs[k]].breaks
    decreases |jobs|
  {
    assert jobs == [jobs[0]] + jobs[1..];
    if jobs[1..] != [] && (jobs[0] !in kinds || !kinds[jobs[0]].breaks) {
      RunsUpToBreak(kinds, jobs[1..], if i > 0 then i - 1 else 0);
      forall k | 0 < k < i ensures jobs[1..][k - 1] == jobs[k] {
      }
      if i > 0 && forall k | 0 <= k < i - 1 :: jobs[1..][k] !in kinds || !kinds[jobs[1..][k]].breaks {
        forall k | 0 <= k < i ensures jobs[k] !in kinds || !kinds[jobs[k]].breaks {
          if k > 0 {
            assert jobs[1..][k - 1] == jobs[k];
          }
        }
      }
    }
  }
}
