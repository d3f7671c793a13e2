/** What each retain, release and delete comes to, and the whole life of one object. */
module DeleteRuns {
  import opened Bytes
  import opened DeleteProtocol

  // ---- Counts and references, step by step ----

  /** A retain of what is held adds one to its count and one reference, the thread's; of what is not, nothing. */
  lemma RetainAddsOne(w: World, t: Tid, o: Obj, r: RefId)
    requires t in w.pc && w.pc[t] == Inside(Retain(o)) && r !in w.refs
    ensures var w', held := Step(w, t, r), o in w.counts && w.counts[o] > 0;
            && w'.counts == (if held then w.counts[o := w.counts[o] + 1] else w.counts)
            && w'.refs == (if held then w.refs[r := Ref(ByThread(t), o)] else w.refs)
            && w'.queue == w.queue && w'.deleted == w.deleted && w'.pc == w.pc[t := Unlocking]
  {
  }

  /** The first retain of a new object gives it the count one and the thread its reference. */
  lemma FirstIsOne(w: World, t: Tid, o: Obj, r: RefId)
    requires Inv(w) && t in w.pc && w.pc[t] == Inside(First(o)) && r !in w.refs
    ensures var w' := Step(w, t, r);
            && w'.counts == w.counts[o := 1] && w'.refs == w.refs[r := Ref(ByThread(t), o)]
            && w'.floats == w.floats - {o} && w'.queue == w.queue && w'.pc == w.pc[t := Unlocking]
  {
    hide LocksAgree, PlacesAgree, HistoryAgrees, DrainAgrees;
  }

  /** A release takes one from the count and the reference away; only the last has the object queued. */
  lemma ReleaseTakesOne(w: World, t: Tid, x: RefId, r: RefId)
    requires Inv(w) && t in w.pc && w.pc[t] == Inside(Release(x)) && r !in w.refs
    ensures x in w.refs && w.refs[x].holder == ByThread(t) && w.refs[x].target in w.counts
    ensures var w', o := Step(w, t, r), w.refs[x].target;
            && w.counts[o] >= 1 && w'.counts == w.counts[o := w.counts[o] - 1] && w'.refs == w.refs - {x}
            && w'.queue == w.queue && w'.deleted == w.deleted
            && w'.pc == w.pc[t := if w.counts[o] == 1 then Adding(o) else Unlocking]
  {
    hide LocksAgree, PlacesAgree, HistoryAgrees, DrainAgrees;
    assert x in RefsTo(w.refs, w.refs[x].target);
  }

  /** A delete takes the object away, and its members' references become the deleting thread's to release. */
  lemma DeleteInherits(w: World, t: Tid, o: Obj, r: RefId)
    requires Inv(w) && t in w.pc && w.pc[t] == Checking(o) && r !in w.refs
    ensures var w' := Step(w, t, r);
            && w'.counts == w.counts - {o} && w'.deleted == w.deleted + [o] && w'.refs.Keys == w.refs.Keys
            && forall x <- w.refs ::
                 w'.refs[x] == if w.refs[x].holder == ByObject(o) then Ref(ByThread(t), w.refs[x].target) else w.refs[x]
  {
    hide LocksAgree, CountsAgree, HistoryAgrees, DrainAgrees, OpsAgree;
    CheckingDoomed(w, t);
  }

  // ---- The life of one object ----

  /** One thread: its place and the destructors it is in, the object's count and reference, and the queue's record. */
  function Alone(pc: Pc, depth: nat, lock: bool, objectLock: bool, counts: map<Obj, nat>, refs: map<RefId, Ref>,
                 floats: map<Obj, Tid>, queue: seq<Obj>, queued: seq<Obj>, deleted: seq<Obj>): World
  {
    World(if lock then Some(1) else None, if objectLock then Some(1) else None, map[1 := pc], map[1 := depth],
          counts, refs, floats, queue, queued, deleted)
  }

  const NEW := map[7 := 0]
  const HELD := map[7 := 1]
  const HOLD := map[0 := Ref(ByThread(1), 7)]

  /** Object 7 is made and retained. */
  function Born(k: nat): World {
    if k == 0 then Alone(Idle, 0, false, false, map[], map[], map[], [], [], [])
    else if k == 1 then Alone(Idle, 0, false, false, NEW, map[], map[7 := 1], [], [], [])
    else if k == 2 then Alone(Wanting(First(7)), 0, false, false, NEW, map[], map[7 := 1], [], [], [])
    else if k == 3 then Alone(Inside(First(7)), 0, true, false, NEW, map[], map[7 := 1], [], [], [])
    else if k == 4 then Alone(Unlocking, 0, true, false, HELD, HOLD, map[], [], [], [])
    else if k == 5 then Alone(Draining, 0, false, false, HELD, HOLD, map[], [], [], [])
    else if k == 6 then Alone(Popping, 0, false, true, HELD, HOLD, map[], [], [], [])
    else Alone(Idle, 0, false, false, HELD, HOLD, map[], [], [], [])
  }

  /** It is released, queued, deleted, and the destructor ends. */
  function Dead(k: nat): World {
    if k == 0 then Born(7)
    else if k == 1 then Alone(Wanting(Release(0)), 0, false, false, HELD, HOLD, map[], [], [], [])
    else if k == 2 then Alone(Inside(Release(0)), 0, true, false, HELD, HOLD, map[], [], [], [])
    else if k == 3 then Alone(Adding(7), 0, true, false, NEW, map[], map[], [], [], [])
    else if k == 4 then Alone(Pushing(7), 0, true, true, NEW, map[], map[], [], [], [])
    else if k == 5 then Alone(Unlocking, 0, true, false, NEW, map[], map[], [7], [7], [])
    else if k == 6 then Alone(Draining, 0, false, false, NEW, map[], map[], [7], [7], [])
    else if k == 7 then Alone(Popping, 0, false, true, NEW, map[], map[], [7], [7], [])
    else if k == 8 then Alone(Checking(7), 0, false, false, NEW, map[], map[], [], [7], [])
    else if k == 9 then Alone(Idle, 1, false, false, map[], map[], map[], [], [7], [7])
    else if k == 10 then Alone(Draining, 0, false, false, map[], map[], map[], [], [7], [7])
    else if k == 11 then Alone(Popping, 0, false, true, map[], map[], map[], [], [7], [7])
    else Alone(Idle, 0, false, false, map[], map[], map[], [], [7], [7])
  }

  function BornBy(k: nat): Action {
    if k == 0 then New(1, 7) else if k == 1 then Begin(1, First(7)) else Advance(1, if k < 4 then 0 else 1)
  }

  function DeadBy(k: nat): Action {
    if k == 0 then Begin(1, Release(0)) else if k == 9 then EndDestructor(1) else Advance(1, 1)
  }

  predicate Leads(w: World, a: Action, w': World) {
    Enabled(w, a) && Apply(w, a) == w'
  }

  lemma BornFirst(k: nat)
    requires k < 3
    ensures Leads(Born(k), BornBy(k), Born(k + 1))
  {
    hide Inherit;
  }

  lemma BornCounted(k: nat)
    requires k == 3
    ensures Leads(Born(k), BornBy(k), Born(k + 1))
  {
    hide Inherit;
    assert map[7 := 1] - {7} == map[];
    assert map[][0 := Ref(ByThread(1), 7)] == HOLD;
  }

  lemma BornUnlocks(k: nat)
    requires k == 4
    ensures Leads(Born(k), BornBy(k), Born(k + 1))
  {
    hide Inherit;
  }

  lemma BornLeaves(k: nat)
    requires 5 <= k < 7
    ensures Leads(Born(k), BornBy(k), Born(k + 1))
  {
    hide Inherit;
  }

  lemma DeadFirst(k: nat)
    requires k < 2
    ensures Leads(Dead(k), DeadBy(k), Dead(k + 1))
  {
    hide Inherit;
  }

  lemma DeadCounted(k: nat)
    requires k == 2
    ensures Leads(Dead(k), DeadBy(k), Dead(k + 1))
  {
    hide Inherit;
    assert HOLD - {0} == map[];
  }

  lemma DeadQueued(k: nat)
    requires 3 <= k < 5
    ensures Leads(Dead(k), DeadBy(k), Dead(k + 1))
  {
    hide Inherit;
  }

  lemma DeadUnlocked(k: nat)
    requires 5 <= k < 7
    ensures Leads(Dead(k), DeadBy(k), Dead(k + 1))
  {
    hide Inherit;
  }

  lemma DeadPopped(k: nat)
    requires k == 7
    ensures Leads(Dead(k), DeadBy(k), Dead(k + 1))
  {
    hide Inherit;
  }

  lemma DeadDeleted(k: nat)
    requires k == 8
    ensures Leads(Dead(k), DeadBy(k), Dead(k + 1))
  {
    assert NEW - {7} == map[];
    assert Inherit(map[], 7, 1) == map[];
  }

  lemma DeadEnds(k: nat)
    requires k == 9
    ensures Leads(Dead(k), DeadBy(k), Dead(k + 1))
  {
    hide Inherit;
  }

  lemma DeadLeaves(k: nat)
    requires 10 <= k < 12
    ensures Leads(Dead(k), DeadBy(k), Dead(k + 1))
  {
    hide Inherit;
  }

  lemma BornSteps(k: nat)
    requires k < 7
    ensures Leads(Born(k), BornBy(k), Born(k + 1))
  {
    hide Leads, Born, BornBy;
    if k < 3 {
      BornFirst(k);
    } else if k == 3 {
      BornCounted(k);
    } else if k == 4 {
      BornUnlocks(k);
    } else {
      BornLeaves(k);
    }
  }

  lemma DeadSteps(k: nat)
    requires k < 12
    ensures Leads(Dead(k), DeadBy(k), Dead(k + 1))
  {
    hide Leads, Dead, DeadBy;
    if k < 2 {
      DeadFirst(k);
    } else if k == 2 {
      DeadCounted(k);
    } else if k < 5 {
      DeadQueued(k);
    } else if k < 7 {
      DeadUnlocked(k);
    } else if k == 7 {
      DeadPopped(k);
    } else if k == 8 {
      DeadDeleted(k);
    } else if k == 9 {
      DeadEnds(k);
    } else {
      DeadLeaves(k);
    }
  }

  lemma {:induction false} Then(w: World, actions: seq<Action>, w1: World, a: Action, w2: World)
    requires Runs(w, actions, w1) && Leads(w1, a, w2)
    ensures Runs(w, actions + [a], w2)
    decreases |actions|
  {
    if actions == [] {
      assert [] + [a] == [a] && [a][1..] == [] && Runs(w2, [], w2);
    } else {
      hide Apply, Enabled;
      assert (actions + [a])[0] == actions[0] && (actions + [a])[1..] == actions[1..] + [a];
      Then(Apply(w, actions[0]), actions[1..], w1, a, w2);
    }
  }

  lemma {:induction false} BornRun(k: nat) returns (actions: seq<Action>)
    requires k <= 7
    ensures Runs(Start({1}), actions, Born(k))
  {
    if k == 0 {
      actions := [];
      assert Start({1}) == Born(0);
    } else {
      hide Born, BornBy, Enabled, Apply;
      actions := BornRun(k - 1);
      BornSteps(k - 1);
      Then(Start({1}), actions, Born(k - 1), BornBy(k - 1), Born(k));
      actions := actions + [BornBy(k - 1)];
    }
  }

  lemma {:induction false} DeadRun(k: nat) returns (actions: seq<Action>)
    requires k <= 12
    ensures Runs(Start({1}), actions, Dead(k))
  {
    if k == 0 {
      actions := BornRun(7);
    } else {
      hide Dead, DeadBy, Enabled, Apply;
      actions := DeadRun(k - 1);
      DeadSteps(k - 1);
      Then(Start({1}), actions, Dead(k - 1), DeadBy(k - 1), Dead(k));
      actions := actions + [DeadBy(k - 1)];
    }
  }

  /** A run in which a new object is retained, released and deleted, and all is quiet again. */
  lemma RetainedReleasedDeleted()
    ensures exists actions, w ::
              && Runs(Start({1}), actions, w) && Quiet(w) && w.deleted == [7] && 7 !in w.counts && w.queue == []
  {
    hide Runs, Start;
    var actions := DeadRun(12);
    var w := Dead(12);
  }
}
