/**
 Who deletes what: the steps that threads take through `retain`, `release` and
 the two mutexes of `MutexAtomic`, in any interleaving.
 */
module DeleteProtocol {
  import opened Bytes

  type Tid = nat
  type Obj = nat
  type RefId = nat

  datatype Holder = ByThread(t: Tid) | ByObject(o: Obj)

  /** A reference that has been retained and not yet released. */
  datatype Ref = Ref(holder: Holder, target: Obj)

  /** Retain an object that is held, retain a new object for the first time, release, or lock for anything else. */
  datatype Op = Retain(o: Obj) | First(o: Obj) | Release(r: RefId) | Touch

  /** Where a thread is. Only `Inside` to `Unlocking` hold `_lock`; only `Pushing` and `Popping` hold `_objectLock`. */
  datatype Pc =
    | Idle
    | Wanting(op: Op)
    | Inside(op: Op)
    | Adding(o: Obj)
    | Pushing(o: Obj)
    | Unlocking
    | Draining
    | Popping
    | Checking(o: Obj)

  /** `depth` counts the destructors a thread is in; `queued` and `deleted` record the run. */
  datatype World = World(
    lock: Option<Tid>, objectLock: Option<Tid>,
    pc: map<Tid, Pc>, depth: map<Tid, nat>,
    counts: map<Obj, nat>, refs: map<RefId, Ref>, floats: map<Obj, Tid>,
    queue: seq<Obj>, queued: seq<Obj>, deleted: seq<Obj>)

  datatype Action =
    | New(t: Tid, o: Obj)
    | Begin(t: Tid, op: Op)
    | Hand(t: Tid, r: RefId, to: Holder)
    | Take(t: Tid, via: RefId, r: RefId)
    | EndDestructor(t: Tid)
    | Advance(t: Tid, r: RefId)

  predicate HoldsLock(pc: Pc) { pc.Inside? || pc.Adding? || pc.Pushing? || pc.Unlocking? }

  predicate HoldsObjectLock(pc: Pc) { pc.Pushing? || pc.Popping? }

  /** The reference `r` is the thread's own. */
  predicate Mine(w: World, t: Tid, r: RefId) {
    r in w.refs && w.refs[r].holder == ByThread(t)
  }

  function Count(w: World, o: Obj): nat {
    if o in w.counts then w.counts[o] else 0
  }

  /**
   Threads retain what anything still holds, or what they have just made, and
   release only what they hold.
   */
  predicate Disciplined(w: World, t: Tid, op: Op) {
    match op
    case Retain(o) => Count(w, o) > 0
    case First(o) => o in w.floats && w.floats[o] == t
    case Release(r) => Mine(w, t, r)
    case Touch => true
  }

  /** A step of the program can be taken: only the two mutexes ever make it wait. */
  predicate CanAdvance(w: World, t: Tid) {
    t in w.pc &&
    match w.pc[t]
    case Idle => false
    case Wanting(op) => w.lock == None
    case Adding(o) => w.objectLock == None
    case Draining => w.objectLock == None
    case _ => true
  }

  predicate Enabled(w: World, a: Action) {
    a.t in w.pc &&
    match a
    case New(t, o) => w.pc[t] == Idle && o !in w.counts && o !in w.deleted
    case Begin(t, op) => w.pc[t] == Idle && Disciplined(w, t, op)
    case Hand(t, r, to) =>
      w.pc[t] == Idle && Mine(w, t, r) && (if to.ByThread? then to.t in w.pc else to.o in w.counts && !Doomed(w, to.o))
    case Take(t, via, r) =>
      w.pc[t] == Idle && Mine(w, t, via) && r in w.refs && w.refs[r].holder == ByObject(w.refs[via].target)
    case EndDestructor(t) => w.pc[t] == Idle && t in w.depth && w.depth[t] > 0
    case Advance(t, r) => CanAdvance(w, t) && r !in w.refs
  }

  function Goto(w: World, t: Tid, pc: Pc): World {
    w.(pc := w.pc[t := pc])
  }

  function Depth(w: World, t: Tid): nat {
    if t in w.depth then w.depth[t] else 0
  }

  /** The count is changed under `_lock`; at zero the object is to be queued. */
  function ChangeCount(w: World, t: Tid, op: Op, r: RefId): World
    requires op.Retain? || Disciplined(w, t, op)
  {
    match op
    case Retain(o) =>
      Goto(w.(counts := w.counts[o := Count(w, o) + 1], refs := w.refs[r := Ref(ByThread(t), o)]), t, Unlocking)
    case First(o) =>
      Goto(w.(counts := w.counts[o := Count(w, o) + 1], refs := w.refs[r := Ref(ByThread(t), o)],
              floats := w.floats - {o}), t, Unlocking)
    case Release(x) =>
      var o := w.refs[x].target;
      var n := if Count(w, o) > 0 then Count(w, o) - 1 else 0;
      Goto(w.(counts := w.counts[o := n], refs := w.refs - {x}), t, if n == 0 then Adding(o) else Unlocking)
    case Touch => Goto(w, t, Unlocking)
  }

  /** The destructor starts: what the object held is now the thread's to release. */
  function Inherit(refs: map<RefId, Ref>, o: Obj, t: Tid): map<RefId, Ref> {
    map r | r in refs :: if refs[r].holder == ByObject(o) then refs[r].(holder := ByThread(t)) else refs[r]
  }

  /**
   One step of the program text. A retain counts only if the object is still held
   when `_lock` is taken; what else was allowed when it began still is.
   */
  function Step(w: World, t: Tid, r: RefId): World
    requires CanAdvance(w, t)
  {
    match w.pc[t]
    case Wanting(op) => Goto(w, t, Inside(op)).(lock := Some(t))
    case Inside(op) => if Disciplined(w, t, op) then ChangeCount(w, t, op, r) else Goto(w, t, Unlocking)
    case Adding(o) => Goto(w, t, Pushing(o)).(objectLock := Some(t))
    case Pushing(o) =>
      Goto(w, t, Unlocking).(queue := w.queue + [o], queued := w.queued + [o], objectLock := None)
    case Unlocking => Goto(w, t, Draining).(lock := None)
    case Draining => Goto(w, t, Popping).(objectLock := Some(t))
    case Popping =>
      if w.queue == [] then Goto(w, t, Idle).(objectLock := None)
      else Goto(w, t, Checking(w.queue[0])).(queue := w.queue[1..], objectLock := None)
    case Checking(o) =>
      if o in w.counts && w.counts[o] == 0 then
        Goto(w, t, Idle).(counts := w.counts - {o}, refs := Inherit(w.refs, o, t), deleted := w.deleted + [o],
                          depth := w.depth[t := Depth(w, t) + 1])
      else Goto(w, t, Draining)
    case Idle => w
  }

  function Apply(w: World, a: Action): World
    requires Enabled(w, a)
  {
    match a
    case New(t, o) => w.(counts := w.counts[o := 0], floats := w.floats[o := t])
    case Begin(t, op) => Goto(w, t, Wanting(op))
    case Hand(t, r, to) => w.(refs := w.refs[r := w.refs[r].(holder := to)])
    case Take(t, via, r) => w.(refs := w.refs[r := w.refs[r].(holder := ByThread(t))])
    case EndDestructor(t) => Goto(w, t, Draining).(depth := w.depth[t := w.depth[t] - 1])
    case Advance(t, r) => Step(w, t, r)
  }

  // ---- The invariant ----

  predicate LocksAgree(w: World) {
    && w.depth.Keys == w.pc.Keys
    && (forall t <- w.pc :: HoldsLock(w.pc[t]) <==> w.lock == Some(t))
    && (forall t <- w.pc :: HoldsObjectLock(w.pc[t]) <==> w.objectLock == Some(t))
    && (w.lock.Some? ==> w.lock.value in w.pc) && (w.objectLock.Some? ==> w.objectLock.value in w.pc)
  }

  function RefsTo(refs: map<RefId, Ref>, o: Obj): set<RefId> {
    set r | r in refs && refs[r].target == o
  }

  /** A count is the number of references; references join living things. */
  predicate CountsAgree(w: World) {
    && (forall o <- w.counts :: w.counts[o] == |RefsTo(w.refs, o)|)
    && (forall r <- w.refs :: w.refs[r].target in w.counts)
    && (forall r <- w.refs | w.refs[r].holder.ByObject? :: w.refs[r].holder.o in w.counts)
    && (forall o <- w.floats :: o in w.counts && w.counts[o] == 0)
  }

  /** What a thread has begun it may still do, but for a retain: others may give the object up first. */
  predicate OpsAgree(w: World) {
    forall t <- w.pc | (w.pc[t].Wanting? || w.pc[t].Inside?) && !w.pc[t].op.Retain? :: Disciplined(w, t, w.pc[t].op)
  }

  /** The object a thread carries towards the queue or away from it. */
  predicate Carries(pc: Pc, o: Obj) {
    (pc.Adding? || pc.Pushing? || pc.Checking?) && pc.o == o
  }

  predicate Doomed(w: World, o: Obj) {
    o in w.counts && w.counts[o] == 0 && o !in w.floats
  }

  predicate NoDup<T(==)>(s: seq<T>) {
    forall i, j | 0 <= i < j < |s| :: s[i] != s[j]
  }

  /** Each object whose count has reached zero is in one place: carried by one thread, or once in the queue. */
  ghost predicate PlacesAgree(w: World) {
    && NoDup(w.queue)
    && (forall o <- w.queue :: Doomed(w, o) && forall t <- w.pc :: !Carries(w.pc[t], o))
    && (forall t <- w.pc, o | Carries(w.pc[t], o) :: Doomed(w, o))
    && (forall t <- w.pc, u <- w.pc, o | Carries(w.pc[t], o) && Carries(w.pc[u], o) :: t == u)
    && (forall o | Doomed(w, o) :: o in w.queue || exists t :: t in w.pc && Carries(w.pc[t], o))
  }

  /** Once in the queue's history, once deleted. */
  ghost predicate HistoryAgrees(w: World) {
    && NoDup(w.queued) && NoDup(w.deleted)
    && (forall o <- w.deleted :: o !in w.counts && o in w.queued)
    && (forall o <- w.queued :: o in w.deleted || o in w.queue || exists t :: t in w.pc && w.pc[t] == Checking(o))
    && (forall o <- w.queue :: o in w.queued)
    && (forall t <- w.pc | w.pc[t].Checking? :: w.pc[t].o in w.queued)
    && (forall t <- w.pc | w.pc[t].Adding? || w.pc[t].Pushing? :: w.pc[t].o !in w.queued)
    && (forall o <- w.counts | w.counts[o] > 0 || o in w.floats :: o !in w.queued)
  }

  /** A thread on its way through the drain loop. */
  predicate WillDrain(w: World, t: Tid) {
    t in w.pc && (w.pc[t].Unlocking? || w.pc[t].Draining? || w.pc[t].Popping? || w.pc[t].Checking? ||
                  (t in w.depth && w.depth[t] > 0))
  }

  ghost predicate DrainAgrees(w: World) {
    w.queue != [] ==> exists t :: WillDrain(w, t)
  }

  ghost predicate Inv(w: World) {
    LocksAgree(w) && CountsAgree(w) && OpsAgree(w) && PlacesAgree(w) && HistoryAgrees(w) && DrainAgrees(w)
  }

  // ---- Every step keeps it ----

  lemma WantingStep(w: World, t: Tid, r: RefId)
    requires Enabled(w, Advance(t, r)) && Inv(w) && w.pc[t].Wanting?
    ensures Step(w, t, r) == Goto(w, t, Inside(w.pc[t].op)).(lock := Some(t)) && w.lock == None
  {
    hide Inv, ChangeCount, Inherit, Goto;
  }

  lemma InsideStep(w: World, t: Tid, r: RefId)
    requires Enabled(w, Advance(t, r)) && Inv(w) && w.pc[t].Inside?
    ensures CountsAgree(w) && r !in w.refs
    ensures Disciplined(w, t, w.pc[t].op) ==> Step(w, t, r) == ChangeCount(w, t, w.pc[t].op, r)
    ensures !Disciplined(w, t, w.pc[t].op) ==> w.pc[t].op.Retain? && Step(w, t, r) == Goto(w, t, Unlocking)
  {
    hide LocksAgree, PlacesAgree, HistoryAgrees, DrainAgrees, ChangeCount, Inherit, Goto, RefsTo, Mine;
  }

  lemma AddingStep(w: World, t: Tid, r: RefId)
    requires Enabled(w, Advance(t, r)) && Inv(w) && w.pc[t].Adding?
    ensures Step(w, t, r) == Goto(w, t, Pushing(w.pc[t].o)).(objectLock := Some(t)) && w.objectLock == None
  {
    hide Inv, ChangeCount, Inherit, Goto;
  }

  lemma PushingStep(w: World, t: Tid, r: RefId)
    requires Enabled(w, Advance(t, r)) && Inv(w) && w.pc[t].Pushing?
    ensures var o := w.pc[t].o;
            Step(w, t, r) ==
            Goto(w, t, Unlocking).(queue := w.queue + [o], queued := w.queued + [o], objectLock := None)
  {
    hide Inv, ChangeCount, Inherit, Goto;
  }

  lemma UnlockingStep(w: World, t: Tid, r: RefId)
    requires Enabled(w, Advance(t, r)) && Inv(w) && w.pc[t].Unlocking?
    ensures Step(w, t, r) == Goto(w, t, Draining).(lock := None)
  {
    hide Inv, ChangeCount, Inherit, Goto;
  }

  lemma DrainingStep(w: World, t: Tid, r: RefId)
    requires Enabled(w, Advance(t, r)) && Inv(w) && w.pc[t].Draining?
    ensures Step(w, t, r) == Goto(w, t, Popping).(objectLock := Some(t)) && w.objectLock == None
  {
    hide Inv, ChangeCount, Inherit, Goto;
  }

  lemma PoppingStep(w: World, t: Tid, r: RefId)
    requires Enabled(w, Advance(t, r)) && Inv(w) && w.pc[t].Popping?
    ensures Step(w, t, r) ==
            if w.queue == [] then Goto(w, t, Idle).(objectLock := None)
            else Goto(w, t, Checking(w.queue[0])).(queue := w.queue[1..], objectLock := None)
  {
    hide Inv, ChangeCount, Inherit, Goto;
  }

  /** What is popped is still at zero, so it is deleted. */
  lemma CheckingStep(w: World, t: Tid, r: RefId)
    requires Enabled(w, Advance(t, r)) && Inv(w) && w.pc[t].Checking?
    ensures var o := w.pc[t].o;
            Doomed(w, o) && t in w.depth &&
            Step(w, t, r) ==
            Goto(w, t, Idle).(counts := w.counts - {o}, refs := Inherit(w.refs, o, t), deleted := w.deleted + [o],
                              depth := w.depth[t := w.depth[t] + 1])
  {
    hide LocksAgree, PlacesAgree, HistoryAgrees, DrainAgrees, CountsAgree, OpsAgree, ChangeCount, Inherit, Goto;
    CheckingDoomed(w, t);
    DepthKeys(w);
  }

  lemma CheckingDoomed(w: World, t: Tid)
    requires PlacesAgree(w) && t in w.pc && w.pc[t].Checking?
    ensures Doomed(w, w.pc[t].o)
  {
    assert Carries(w.pc[t], w.pc[t].o);
  }

  /** A thread moves on; it may take a free mutex or give back its own. */
  lemma MoveKeepsLocks(w: World, t: Tid, w': World)
    requires LocksAgree(w) && t in w.pc && w'.pc.Keys == w.pc.Keys && w'.depth.Keys == w.depth.Keys
    requires forall u <- w.pc | u != t :: w'.pc[u] == w.pc[u]
    requires w'.lock == w.lock || (w.lock == None && w'.lock == Some(t)) || (w.lock == Some(t) && w'.lock == None)
    requires w'.objectLock == w.objectLock || (w.objectLock == None && w'.objectLock == Some(t)) ||
             (w.objectLock == Some(t) && w'.objectLock == None)
    requires HoldsLock(w'.pc[t]) <==> w'.lock == Some(t)
    requires HoldsObjectLock(w'.pc[t]) <==> w'.objectLock == Some(t)
    ensures LocksAgree(w')
  {
    hide HoldsLock, HoldsObjectLock;
  }

  lemma SameLocks(w: World, w': World)
    requires LocksAgree(w) && w'.pc == w.pc && w'.depth == w.depth && w'.lock == w.lock && w'.objectLock == w.objectLock
    ensures LocksAgree(w')
  {
  }

  lemma IdleHoldsNothing(w: World, t: Tid)
    requires LocksAgree(w) && t in w.pc
    ensures t in w.depth
    ensures HoldsLock(w.pc[t]) <==> w.lock == Some(t)
    ensures HoldsObjectLock(w.pc[t]) <==> w.objectLock == Some(t)
  {
  }

  /** A change of count moves only its own thread, and touches neither mutex nor queue. */
  lemma ChangeCountMoves(w: World, t: Tid, op: Op, r: RefId)
    requires t in w.pc && r !in w.refs && CountsAgree(w) && Disciplined(w, t, op)
    ensures var w' := ChangeCount(w, t, op, r);
            w'.pc == w.pc[t := w'.pc[t]] && (w'.pc[t].Unlocking? || w'.pc[t].Adding?) &&
            w'.lock == w.lock && w'.objectLock == w.objectLock && w'.depth == w.depth &&
            w'.queue == w.queue && w'.queued == w.queued && w'.deleted == w.deleted
  {
  }

  lemma RefAdded(refs: map<RefId, Ref>, r: RefId, ref: Ref, o: Obj)
    requires r !in refs
    ensures |RefsTo(refs[r := ref], o)| == |RefsTo(refs, o)| + if ref.target == o then 1 else 0
  {
    if ref.target == o {
      assert RefsTo(refs[r := ref], o) == RefsTo(refs, o) + {r};
    } else {
      assert RefsTo(refs[r := ref], o) == RefsTo(refs, o);
    }
  }

  lemma RefRemoved(refs: map<RefId, Ref>, r: RefId, o: Obj)
    requires r in refs
    ensures |RefsTo(refs - {r}, o)| == |RefsTo(refs, o)| - if refs[r].target == o then 1 else 0
  {
    if refs[r].target == o {
      assert RefsTo(refs, o) == RefsTo(refs - {r}, o) + {r};
    } else {
      assert RefsTo(refs - {r}, o) == RefsTo(refs, o);
    }
  }

  /** Changing holders changes no count. */
  lemma HoldersDoNotCount(refs: map<RefId, Ref>, refs': map<RefId, Ref>, o: Obj)
    requires refs.Keys == refs'.Keys && forall r <- refs :: refs'[r].target == refs[r].target
    ensures RefsTo(refs', o) == RefsTo(refs, o)
  {
  }

  lemma NoRefsTo(w: World, o: Obj)
    requires CountsAgree(w) && o in w.counts && w.counts[o] == 0
    ensures forall r <- w.refs :: w.refs[r].target != o
  {
    assert RefsTo(w.refs, o) == {};
    forall r <- w.refs ensures w.refs[r].target != o {
      assert r !in RefsTo(w.refs, o);
    }
  }

  lemma AddKeepsCounts(w: World, o: Obj, r: RefId, t: Tid, w': World)
    requires CountsAgree(w) && o in w.counts && r !in w.refs
    requires w'.counts == w.counts[o := w.counts[o] + 1] && w'.refs == w.refs[r := Ref(ByThread(t), o)]
    requires w'.floats == w.floats - {o}
    ensures CountsAgree(w')
  {
    hide RefsTo;
    forall x <- w'.counts ensures w'.counts[x] == |RefsTo(w'.refs, x)| {
      RefAdded(w.refs, r, w'.refs[r], x);
    }
  }

  lemma RemoveKeepsCounts(w: World, r: RefId, w': World)
    requires CountsAgree(w) && r in w.refs && w.counts[w.refs[r].target] > 0
    requires w'.counts == w.counts[w.refs[r].target := w.counts[w.refs[r].target] - 1]
    requires w'.refs == w.refs - {r} && w'.floats == w.floats
    ensures CountsAgree(w')
  {
    hide RefsTo;
    forall x <- w'.counts ensures w'.counts[x] == |RefsTo(w'.refs, x)| {
      RefRemoved(w.refs, r, x);
    }
  }

  lemma HeldIsCounted(w: World, r: RefId)
    requires CountsAgree(w) && r in w.refs
    ensures w.refs[r].target in w.counts && w.counts[w.refs[r].target] > 0 && w.refs[r].target !in w.floats
  {
    if w.counts[w.refs[r].target] == 0 {
      NoRefsTo(w, w.refs[r].target);
    }
  }

  lemma CountChanged(w: World, t: Tid, op: Op, r: RefId)
    requires t in w.pc && r !in w.refs && CountsAgree(w) && Disciplined(w, t, op)
    ensures CountsAgree(ChangeCount(w, t, op, r))
  {
    var w' := ChangeCount(w, t, op, r);
    match op
    case Retain(o) =>
      assert w.floats - {o} == w.floats;
      AddKeepsCounts(w, o, r, t, w');
    case First(x) => AddKeepsCounts(w, x, r, t, w');
    case Release(x) =>
      HeldIsCounted(w, x);
      RemoveKeepsCounts(w, x, w');
    case Touch => SameCounts(w, w');
  }

  lemma HoldersKeepCounts(w: World, w': World)
    requires CountsAgree(w) && w'.counts == w.counts && w'.floats == w.floats
    requires w'.refs.Keys == w.refs.Keys && forall r <- w.refs :: w'.refs[r].target == w.refs[r].target
    requires forall r <- w'.refs | w'.refs[r].holder.ByObject? :: w'.refs[r].holder.o in w.counts
    ensures CountsAgree(w')
  {
    hide RefsTo;
    forall o <- w'.counts ensures w'.counts[o] == |RefsTo(w'.refs, o)| {
      HoldersDoNotCount(w.refs, w'.refs, o);
    }
  }

  lemma NewKeepsCounts(w: World, o: Obj, t: Tid)
    requires CountsAgree(w) && o !in w.counts
    ensures CountsAgree(w.(counts := w.counts[o := 0], floats := w.floats[o := t]))
  {
    assert RefsTo(w.refs, o) == {};
    hide RefsTo;
  }

  lemma SameCounts(w: World, w': World)
    requires CountsAgree(w) && w'.counts == w.counts && w'.refs == w.refs && w'.floats == w.floats
    ensures CountsAgree(w')
  {
  }

  lemma DeleteCounts(w: World, t: Tid, o: Obj, w': World)
    requires CountsAgree(w) && o in w.counts && o !in w.floats && forall r <- w.refs :: w.refs[r].target != o
    requires w'.counts == w.counts - {o} && w'.refs == Inherit(w.refs, o, t) && w'.floats == w.floats
    ensures CountsAgree(w')
  {
    hide RefsTo;
    forall x <- w'.counts ensures w'.counts[x] == |RefsTo(w'.refs, x)| {
      HoldersDoNotCount(w.refs, w'.refs, x);
    }
  }

  // ---- Operations begun ----

  lemma OpsStable(w: World, t: Tid, w': World)
    requires OpsAgree(w) && w'.pc.Keys == w.pc.Keys && t in w.pc && forall u <- w.pc | u != t :: w'.pc[u] == w.pc[u]
    requires forall u, r | u != t && Mine(w, u, r) :: Mine(w', u, r)
    requires forall o <- w.floats | w.floats[o] != t :: o in w'.floats && w'.floats[o] == w.floats[o]
    requires (w'.pc[t].Wanting? || w'.pc[t].Inside?) && !w'.pc[t].op.Retain? ==> Disciplined(w', t, w'.pc[t].op)
    ensures OpsAgree(w')
  {
    forall u <- w'.pc | (w'.pc[u].Wanting? || w'.pc[u].Inside?) && !w'.pc[u].op.Retain?
      ensures Disciplined(w', u, w'.pc[u].op) {
      if u != t {
        assert Disciplined(w, u, w.pc[u].op);
      }
    }
  }

  lemma InsideOps(w: World, t: Tid, op: Op, r: RefId, w': World)
    requires OpsAgree(w) && CountsAgree(w) && t in w.pc && r !in w.refs && Disciplined(w, t, op)
    requires w' == ChangeCount(w, t, op, r)
    ensures OpsAgree(w')
  {
    hide OpsAgree;
    OpsStable(w, t, w');
  }

  // ---- One place for each object at zero ----

  lemma PlacesSame(w: World, w': World)
    requires PlacesAgree(w) && w'.pc.Keys == w.pc.Keys && w'.queue == w.queue
    requires forall o :: Doomed(w', o) == Doomed(w, o)
    requires forall t <- w.pc, o :: Carries(w'.pc[t], o) == Carries(w.pc[t], o)
    ensures PlacesAgree(w')
  {
    hide Doomed, Carries;
    forall o | Doomed(w', o) ensures o in w'.queue || exists t :: t in w'.pc && Carries(w'.pc[t], o) {
      if o !in w.queue {
        var t :| t in w.pc && Carries(w.pc[t], o);
        assert Carries(w'.pc[t], o);
      }
    }
  }

  /** The count of `o` reaches zero: its thread carries it. */
  lemma PlacesZero(w: World, w': World, t: Tid, o: Obj)
    requires PlacesAgree(w) && t in w.pc && w'.queue == w.queue && w'.pc == w.pc[t := Adding(o)]
    requires forall x :: !Carries(w.pc[t], x)
    requires !Doomed(w, o) && Doomed(w', o) && forall x | x != o :: Doomed(w', x) == Doomed(w, x)
    ensures PlacesAgree(w')
  {
    hide Doomed;
    forall x | Doomed(w', x) ensures x in w'.queue || exists u :: u in w'.pc && Carries(w'.pc[u], x) {
      if x == o {
        assert Carries(w'.pc[t], x);
      } else if x !in w.queue {
        var u :| u in w.pc && Carries(w.pc[u], x);
        assert Carries(w'.pc[u], x);
      }
    }
  }

  lemma PlacesPush(w: World, w': World, t: Tid, o: Obj)
    requires PlacesAgree(w) && t in w.pc && w.pc[t] == Pushing(o)
    requires w'.queue == w.queue + [o] && w'.pc == w.pc[t := Unlocking]
    requires w'.counts == w.counts && w'.floats == w.floats
    ensures PlacesAgree(w')
  {
    assert Carries(w.pc[t], o);
    assert forall x :: Doomed(w', x) == Doomed(w, x);
    hide Doomed;
    assert o !in w.queue;
    forall x | Doomed(w', x) ensures x in w'.queue || exists u :: u in w'.pc && Carries(w'.pc[u], x) {
      if x !in w.queue && x != o {
        var u :| u in w.pc && Carries(w.pc[u], x);
        assert Carries(w'.pc[u], x);
      }
    }
  }

  lemma PlacesPop(w: World, w': World, t: Tid)
    requires PlacesAgree(w) && t in w.pc && w.pc[t] == Popping && w.queue != []
    requires w'.queue == w.queue[1..] && w'.pc == w.pc[t := Checking(w.queue[0])]
    requires w'.counts == w.counts && w'.floats == w.floats
    ensures PlacesAgree(w')
  {
    assert forall x :: Doomed(w', x) == Doomed(w, x);
    var head := w.queue[0];
    assert forall u <- w'.pc, o :: Carries(w'.pc[u], o) <==> if u == t then o == head else Carries(w.pc[u], o);
    hide Doomed, Carries;
    assert head in w.queue;
    HeadAndTail(w.queue);
    forall x | Doomed(w', x) ensures x in w'.queue || exists u :: u in w'.pc && Carries(w'.pc[u], x) {
      if x == head {
        assert Carries(w'.pc[t], x);
      } else if x !in w.queue {
        var u :| u in w.pc && Carries(w.pc[u], x);
        assert Carries(w'.pc[u], x);
      }
    }
  }

  lemma HeadAndTail<T>(s: seq<T>)
    requires s != [] && NoDup(s)
    ensures s[0] !in s[1..] && NoDup(s[1..]) && forall x <- s :: x == s[0] || x in s[1..]
    ensures forall x <- s[1..] :: x in s
  {
    assert s == [s[0]] + s[1..];
  }

  lemma PlacesDelete(w: World, w': World, t: Tid, o: Obj)
    requires PlacesAgree(w) && t in w.pc && w.pc[t] == Checking(o)
    requires w'.queue == w.queue && w'.pc == w.pc[t := Idle]
    requires w'.counts == w.counts - {o} && w'.floats == w.floats
    ensures PlacesAgree(w')
  {
    assert Carries(w.pc[t], o);
    assert forall x | x != o :: Doomed(w', x) == Doomed(w, x);
    assert !Doomed(w', o);
    hide Doomed;
    forall x | Doomed(w', x) ensures x in w'.queue || exists u :: u in w'.pc && Carries(w'.pc[u], x) {
      if x !in w.queue {
        var u :| u in w.pc && Carries(w.pc[u], x);
        assert Carries(w'.pc[u], x);
      }
    }
  }

  lemma InsidePlaces(w: World, t: Tid, op: Op, r: RefId)
    requires PlacesAgree(w) && CountsAgree(w) && t in w.pc && w.pc[t].Inside? && r !in w.refs && Disciplined(w, t, op)
    ensures PlacesAgree(ChangeCount(w, t, op, r))
  {
    hide RefsTo, PlacesAgree;
    var w' := ChangeCount(w, t, op, r);
    match op
    case Retain(o) => PlacesSame(w, w');
    case First(o) => PlacesSame(w, w');
    case Release(x) =>
      HeldIsCounted(w, x);
      if w'.counts[w.refs[x].target] == 0 {
        PlacesZero(w, w', t, w.refs[x].target);
      } else {
        PlacesSame(w, w');
      }
    case Touch => PlacesSame(w, w');
  }

  // ---- History ----

  /** A thread moves on without touching the queue or the graveyard. */
  lemma HistorySame(w: World, w': World, t: Tid)
    requires HistoryAgrees(w) && t in w.pc && t in w'.pc && w'.pc == w.pc[t := w'.pc[t]]
    requires w'.queue == w.queue && w'.queued == w.queued && w'.deleted == w.deleted
    requires !w.pc[t].Checking? && !w'.pc[t].Checking?
    requires w'.pc[t].Adding? || w'.pc[t].Pushing? ==> w'.pc[t].o !in w.queued
    requires forall o <- w'.counts :: o !in w.deleted
    requires forall o <- w'.counts | w'.counts[o] > 0 || o in w'.floats :: o !in w.queued
    ensures HistoryAgrees(w')
  {
    forall o <- w'.queued
      ensures o in w'.deleted || o in w'.queue || exists u :: u in w'.pc && w'.pc[u] == Checking(o)
    {
      if o !in w.deleted && o !in w.queue {
        var u :| u in w.pc && w.pc[u] == Checking(o);
        assert w'.pc[u] == Checking(o);
      }
    }
  }

  lemma HistoryPush(w: World, w': World, t: Tid, o: Obj)
    requires HistoryAgrees(w) && PlacesAgree(w) && t in w.pc && w.pc[t] == Pushing(o)
    requires w'.queue == w.queue + [o] && w'.queued == w.queued + [o] && w'.deleted == w.deleted
    requires w'.pc == w.pc[t := Unlocking] && w'.counts == w.counts && w'.floats == w.floats
    ensures HistoryAgrees(w')
  {
    assert Carries(w.pc[t], o) && Doomed(w, o);
    forall u <- w'.pc | w'.pc[u].Adding? || w'.pc[u].Pushing? ensures w'.pc[u].o !in w'.queued {
      assert Carries(w.pc[u], w.pc[u].o);
    }
    forall x <- w'.queued
      ensures x in w'.deleted || x in w'.queue || exists u :: u in w'.pc && w'.pc[u] == Checking(x)
    {
      if x != o && x !in w.deleted && x !in w.queue {
        var u :| u in w.pc && w.pc[u] == Checking(x);
        assert w'.pc[u] == Checking(x);
      }
    }
  }

  lemma HistoryPop(w: World, w': World, t: Tid)
    requires HistoryAgrees(w) && t in w.pc && w.pc[t] == Popping && w.queue != []
    requires w'.queue == w.queue[1..] && w'.queued == w.queued && w'.deleted == w.deleted
    requires w'.pc == w.pc[t := Checking(w.queue[0])] && w'.counts == w.counts && w'.floats == w.floats
    ensures HistoryAgrees(w')
  {
    assert w.queue == [w.queue[0]] + w'.queue && w.queue[0] in w.queue;
    assert forall o <- w'.queue :: o in w.queue;
    forall x <- w'.queued
      ensures x in w'.deleted || x in w'.queue || exists u :: u in w'.pc && w'.pc[u] == Checking(x)
    {
      if x == w.queue[0] {
        assert w'.pc[t] == Checking(x);
      } else if x !in w.deleted && x !in w.queue {
        var u :| u in w.pc && w.pc[u] == Checking(x);
        assert w'.pc[u] == Checking(x);
      }
    }
  }

  lemma HistoryDelete(w: World, w': World, t: Tid, o: Obj)
    requires HistoryAgrees(w) && t in w.pc && w.pc[t] == Checking(o) && o in w.counts
    requires w'.queue == w.queue && w'.queued == w.queued && w'.deleted == w.deleted + [o]
    requires w'.pc == w.pc[t := Idle] && w'.counts == w.counts - {o} && w'.floats == w.floats
    ensures HistoryAgrees(w')
  {
    forall x <- w'.queued
      ensures x in w'.deleted || x in w'.queue || exists u :: u in w'.pc && w'.pc[u] == Checking(x)
    {
      if x != o && x !in w.deleted && x !in w.queue {
        var u :| u in w.pc && w.pc[u] == Checking(x);
        assert w'.pc[u] == Checking(x);
      }
    }
  }

  /** What has been queued and not deleted is at zero. */
  lemma QueuedIsGone(w: World, o: Obj)
    requires HistoryAgrees(w) && PlacesAgree(w) && o in w.queued && o !in w.deleted
    ensures Doomed(w, o)
  {
    if o !in w.queue {
      var u :| u in w.pc && w.pc[u] == Checking(o);
      assert Carries(w.pc[u], o);
    }
  }

  lemma InsideHistory(w: World, t: Tid, op: Op, r: RefId)
    requires HistoryAgrees(w) && PlacesAgree(w) && CountsAgree(w)
    requires t in w.pc && w.pc[t].Inside? && r !in w.refs && Disciplined(w, t, op)
    ensures HistoryAgrees(ChangeCount(w, t, op, r))
  {
    assert forall o <- w.counts | w.counts[o] > 0 || o in w.floats :: o !in w.queued;
    assert forall o <- w.counts :: o !in w.deleted;
    hide RefsTo, PlacesAgree, HistoryAgrees;
    var w' := ChangeCount(w, t, op, r);
    match op
    case Retain(o) => HistorySame(w, w', t);
    case First(o) => HistorySame(w, w', t);
    case Release(x) =>
      HeldIsCounted(w, x);
      HistorySame(w, w', t);
    case Touch => HistorySame(w, w', t);
  }

  // ---- The queue is always on its way to being drained ----

  lemma DrainMoves(w: World, w': World, t: Tid)
    requires DrainAgrees(w) && t in w.pc && t in w'.pc && w'.pc == w.pc[t := w'.pc[t]]
    requires forall u | u != t :: u in w.depth ==> u in w'.depth && w'.depth[u] == w.depth[u]
    requires w'.queue == [] || WillDrain(w', t) || (w.queue != [] && !WillDrain(w, t))
    ensures DrainAgrees(w')
  {
    if w'.queue != [] && !WillDrain(w', t) {
      var u :| WillDrain(w, u);
      assert WillDrain(w', u);
    }
  }

  // ---- Every action keeps the invariant ----

  /** A thread moves on, taking or giving back mutexes; nothing else changes. */
  lemma PlainMove(w: World, t: Tid, w': World)
    requires Inv(w) && t in w.pc && t in w'.pc && w'.pc == w.pc[t := w'.pc[t]]
    requires w'.depth.Keys == w.depth.Keys && forall u <- w.depth | u != t :: w'.depth[u] == w.depth[u]
    requires w'.counts == w.counts && w'.refs == w.refs && w'.floats == w.floats
    requires w'.queue == w.queue && w'.queued == w.queued && w'.deleted == w.deleted
    requires w'.lock == w.lock || (w.lock == None && w'.lock == Some(t)) || (w.lock == Some(t) && w'.lock == None)
    requires w'.objectLock == w.objectLock || (w.objectLock == None && w'.objectLock == Some(t)) ||
             (w.objectLock == Some(t) && w'.objectLock == None)
    requires HoldsLock(w'.pc[t]) <==> w'.lock == Some(t)
    requires HoldsObjectLock(w'.pc[t]) <==> w'.objectLock == Some(t)
    requires (w'.pc[t].Wanting? || w'.pc[t].Inside?) && !w'.pc[t].op.Retain? ==> Disciplined(w, t, w'.pc[t].op)
    requires !w.pc[t].Checking? && !w'.pc[t].Checking? && !w.pc[t].Pushing? && !w'.pc[t].Adding?
    requires if w'.pc[t].Pushing? then w.pc[t] == Adding(w'.pc[t].o) else !w.pc[t].Adding?
    requires WillDrain(w', t) || !WillDrain(w, t) || w.queue == []
    ensures Inv(w')
  {
    KeptHistoryFacts(w);
    assert forall u <- w.pc, o :: Carries(w'.pc[u], o) == Carries(w.pc[u], o);
    assert forall o :: Doomed(w', o) == Doomed(w, o);
    hide LocksAgree, CountsAgree, OpsAgree, PlacesAgree, HistoryAgrees, DrainAgrees, Doomed, Carries, RefsTo,
         HoldsLock, HoldsObjectLock;
    MoveKeepsLocks(w, t, w');
    SameCounts(w, w');
    OpsStable(w, t, w');
    PlacesSame(w, w');
    hide Disciplined, Mine;
    HistorySame(w, w', t);
    DepthKeys(w);
    if w.queue == [] || WillDrain(w', t) || !WillDrain(w, t) {
      PlainDrains(w, t, w');
    }
  }

  lemma DepthKeys(w: World)
    requires LocksAgree(w)
    ensures w.depth.Keys == w.pc.Keys
  {
  }

  lemma PlainDrains(w: World, t: Tid, w': World)
    requires DrainAgrees(w) && t in w.pc && t in w'.pc && w'.pc == w.pc[t := w'.pc[t]] && w'.queue == w.queue
    requires w'.depth.Keys == w.depth.Keys && forall u <- w.depth | u != t :: w'.depth[u] == w.depth[u]
    requires WillDrain(w', t) || !WillDrain(w, t) || w.queue == []
    ensures DrainAgrees(w')
  {
    if w.queue != [] && !WillDrain(w', t) {
      var u :| WillDrain(w, u);
      assert WillDrain(w', u);
    }
  }

  lemma KeptHistoryFacts(w: World)
    requires HistoryAgrees(w)
    ensures forall o <- w.counts :: o !in w.deleted
    ensures forall o <- w.counts | w.counts[o] > 0 || o in w.floats :: o !in w.queued
    ensures forall t <- w.pc | w.pc[t].Adding? || w.pc[t].Pushing? :: w.pc[t].o !in w.queued
  {
  }

  lemma WantingKeeps(w: World, t: Tid, r: RefId)
    requires Enabled(w, Advance(t, r)) && Inv(w) && w.pc[t].Wanting?
    ensures Inv(Step(w, t, r))
  {
    WantingStep(w, t, r);
    hide Step, LocksAgree, CountsAgree, PlacesAgree, HistoryAgrees, DrainAgrees;
    assert !w.pc[t].op.Retain? ==> Disciplined(w, t, w.pc[t].op);
    hide Disciplined, OpsAgree, Inv;
    IdleHoldsNothing(w, t);
    PlainMove(w, t, Step(w, t, r));
  }

  lemma AddingKeeps(w: World, t: Tid, r: RefId)
    requires Enabled(w, Advance(t, r)) && Inv(w) && w.pc[t].Adding?
    ensures Inv(Step(w, t, r))
  {
    AddingStep(w, t, r);
    hide Step, LocksAgree, CountsAgree, PlacesAgree, HistoryAgrees, DrainAgrees, OpsAgree;
    IdleHoldsNothing(w, t);
    hide Inv;
    PlainMove(w, t, Step(w, t, r));
  }

  lemma UnlockingKeeps(w: World, t: Tid, r: RefId)
    requires Enabled(w, Advance(t, r)) && Inv(w) && w.pc[t].Unlocking?
    ensures Inv(Step(w, t, r))
  {
    UnlockingStep(w, t, r);
    hide Step, LocksAgree, CountsAgree, PlacesAgree, HistoryAgrees, DrainAgrees, OpsAgree;
    IdleHoldsNothing(w, t);
    hide Inv;
    PlainMove(w, t, Step(w, t, r));
  }

  lemma DrainingKeeps(w: World, t: Tid, r: RefId)
    requires Enabled(w, Advance(t, r)) && Inv(w) && w.pc[t].Draining?
    ensures Inv(Step(w, t, r))
  {
    DrainingStep(w, t, r);
    hide Step, LocksAgree, CountsAgree, PlacesAgree, HistoryAgrees, DrainAgrees, OpsAgree;
    IdleHoldsNothing(w, t);
    hide Inv;
    PlainMove(w, t, Step(w, t, r));
  }

  lemma PoppingKeeps(w: World, t: Tid, r: RefId)
    requires Enabled(w, Advance(t, r)) && Inv(w) && w.pc[t].Popping?
    ensures Inv(Step(w, t, r))
  {
    hide Step, LocksAgree, CountsAgree, PlacesAgree, HistoryAgrees, DrainAgrees, OpsAgree, RefsTo;
    PoppingStep(w, t, r);
    var w' := Step(w, t, r);
    IdleHoldsNothing(w, t);
    if w.queue == [] {
      hide Inv;
      PlainMove(w, t, w');
    } else {
      hide Doomed, Disciplined;
      MoveKeepsLocks(w, t, w');
      SameCounts(w, w');
      SameRefsOps(w, t, w');
      PlacesPop(w, w', t);
      HistoryPop(w, w', t);
      assert WillDrain(w', t);
      DrainMoves(w, w', t);
    }
  }

  lemma SameRefsOps(w: World, t: Tid, w': World)
    requires OpsAgree(w) && t in w.pc && t in w'.pc && w'.pc == w.pc[t := w'.pc[t]]
    requires w'.refs == w.refs && w'.floats == w.floats && !w'.pc[t].Wanting? && !w'.pc[t].Inside?
    ensures OpsAgree(w')
  {
    OpsStable(w, t, w');
  }

  lemma PushingKeeps(w: World, t: Tid, r: RefId)
    requires Enabled(w, Advance(t, r)) && Inv(w) && w.pc[t].Pushing?
    ensures Inv(Step(w, t, r))
  {
    PushingStep(w, t, r);
    hide Step, LocksAgree, CountsAgree, PlacesAgree, HistoryAgrees, DrainAgrees, OpsAgree, Doomed, Disciplined;
    var w' := Step(w, t, r);
    IdleHoldsNothing(w, t);
    MoveKeepsLocks(w, t, w');
    SameCounts(w, w');
    SameRefsOps(w, t, w');
    PlacesPush(w, w', t, w.pc[t].o);
    HistoryPush(w, w', t, w.pc[t].o);
    assert WillDrain(w', t);
    DrainMoves(w, w', t);
  }

  lemma CheckingKeeps(w: World, t: Tid, r: RefId)
    requires Enabled(w, Advance(t, r)) && Inv(w) && w.pc[t].Checking?
    ensures Inv(Step(w, t, r))
  {
    hide Step, LocksAgree, CountsAgree, PlacesAgree, HistoryAgrees, DrainAgrees, OpsAgree, RefsTo;
    CheckingStep(w, t, r);
    var w', o := Step(w, t, r), w.pc[t].o;
    IdleHoldsNothing(w, t);
    MoveKeepsLocks(w, t, w');
    NoRefsTo(w, o);
    DeleteCounts(w, t, o, w');
    OpsStable(w, t, w');
    hide Inherit;
    PlacesDelete(w, w', t, o);
    HistoryDelete(w, w', t, o);
    assert WillDrain(w', t);
    DrainMoves(w, w', t);
  }

  lemma InsideKeeps(w: World, t: Tid, r: RefId)
    requires Enabled(w, Advance(t, r)) && Inv(w) && w.pc[t].Inside?
    ensures Inv(Step(w, t, r))
  {
    InsideStep(w, t, r);
    hide Step, LocksAgree, CountsAgree, PlacesAgree, HistoryAgrees, DrainAgrees, OpsAgree, ChangeCount, Disciplined;
    var w', op := Step(w, t, r), w.pc[t].op;
    IdleHoldsNothing(w, t);
    if Disciplined(w, t, op) {
      ChangeCountMoves(w, t, op, r);
      MoveKeepsLocks(w, t, w');
      CountChanged(w, t, op, r);
      InsideOps(w, t, op, r, w');
      InsidePlaces(w, t, op, r);
      InsideHistory(w, t, op, r);
      InsideDrains(w, t, w');
    } else {
      hide Inv;
      PlainMove(w, t, w');
    }
  }

  lemma InsideDrains(w: World, t: Tid, w': World)
    requires DrainAgrees(w) && t in w.pc && w.pc[t].Inside? && t in w'.pc && w'.pc == w.pc[t := w'.pc[t]]
    requires w'.queue == w.queue && w'.depth == w.depth
    ensures DrainAgrees(w')
  {
    PlainDrains(w, t, w');
  }

  lemma StepKeeps(w: World, t: Tid, r: RefId)
    requires Enabled(w, Advance(t, r)) && Inv(w)
    ensures Inv(Step(w, t, r))
  {
    hide Inv, Step;
    match w.pc[t]
    case Wanting(op) => WantingKeeps(w, t, r);
    case Inside(op) => InsideKeeps(w, t, r);
    case Adding(o) => AddingKeeps(w, t, r);
    case Pushing(o) => PushingKeeps(w, t, r);
    case Unlocking => UnlockingKeeps(w, t, r);
    case Draining => DrainingKeeps(w, t, r);
    case Popping => PoppingKeeps(w, t, r);
    case Checking(o) => CheckingKeeps(w, t, r);
    case Idle =>
  }

  lemma NewKeeps(w: World, t: Tid, o: Obj)
    requires Enabled(w, New(t, o)) && Inv(w)
    ensures Inv(Apply(w, New(t, o)))
  {
    hide Step, LocksAgree, CountsAgree, PlacesAgree, HistoryAgrees, DrainAgrees, OpsAgree;
    var w' := Apply(w, New(t, o));
    if o in w.queued {
      QueuedIsGone(w, o);
    }
    KeptHistoryFacts(w);
    FloatsNotNew(w, o);
    hide Apply, Enabled, Inv;
    SameLocks(w, w');
    NewKeepsCounts(w, o, t);
    NewOps(w, t, o, w');
    NewPlaces(w, t, o, w');
    HistorySame(w, w', t);
    PlainDrains(w, t, w');
    AllAgree(w');
  }

  lemma AllAgree(w: World)
    requires LocksAgree(w) && CountsAgree(w) && OpsAgree(w) && PlacesAgree(w) && HistoryAgrees(w) && DrainAgrees(w)
    ensures Inv(w)
  {
  }

  lemma NewOps(w: World, t: Tid, o: Obj, w': World)
    requires OpsAgree(w) && t in w.pc && w.pc[t] == Idle && o !in w.floats
    requires w'.pc == w.pc && w'.refs == w.refs && w'.floats == w.floats[o := t]
    ensures OpsAgree(w')
  {
    OpsStable(w, t, w');
  }

  lemma NewPlaces(w: World, t: Tid, o: Obj, w': World)
    requires PlacesAgree(w) && o !in w.counts && o !in w.floats
    requires w'.pc == w.pc && w'.queue == w.queue && w'.counts == w.counts[o := 0] && w'.floats == w.floats[o := t]
    ensures PlacesAgree(w')
  {
    hide PlacesAgree;
    PlacesSame(w, w');
  }

  lemma FloatsNotNew(w: World, o: Obj)
    requires CountsAgree(w) && o !in w.counts
    ensures o !in w.floats
  {
  }

  /** A reference changes hands: from an idle thread, or from an object to one. */
  lemma HandoverKeeps(w: World, t: Tid, r: RefId, w': World)
    requires Inv(w) && t in w.pc && w.pc[t] == Idle && r in w.refs && r in w'.refs
    requires w' == w.(refs := w.refs[r := w'.refs[r]]) && w'.refs[r].target == w.refs[r].target
    requires w.refs[r].holder == ByThread(t) || w.refs[r].holder.ByObject?
    requires w'.refs[r].holder.ByObject? ==> w'.refs[r].holder.o in w.counts
    ensures Inv(w')
  {
    hide LocksAgree, CountsAgree, PlacesAgree, HistoryAgrees, DrainAgrees, OpsAgree;
    KeptHistoryFacts(w);
    SameLocks(w, w');
    HandoverCounts(w, r, w');
    HandoverOps(w, t, r, w');
    hide Inv;
    PlacesSame(w, w');
    HistorySame(w, w', t);
    PlainDrains(w, t, w');
    AllAgree(w');
  }

  lemma HandoverCounts(w: World, r: RefId, w': World)
    requires CountsAgree(w) && r in w.refs && r in w'.refs
    requires w' == w.(refs := w.refs[r := w'.refs[r]]) && w'.refs[r].target == w.refs[r].target
    requires w'.refs[r].holder.ByObject? ==> w'.refs[r].holder.o in w.counts
    ensures CountsAgree(w')
  {
    hide RefsTo;
    HoldersKeepCounts(w, w');
  }

  lemma HandoverOps(w: World, t: Tid, r: RefId, w': World)
    requires OpsAgree(w) && t in w.pc && w.pc[t] == Idle && r in w.refs && r in w'.refs
    requires w' == w.(refs := w.refs[r := w'.refs[r]])
    requires w.refs[r].holder == ByThread(t) || w.refs[r].holder.ByObject?
    ensures OpsAgree(w')
  {
    hide OpsAgree;
    OpsStable(w, t, w');
  }

  lemma InvKept(w: World, a: Action)
    requires Enabled(w, a) && Inv(w)
    ensures Inv(Apply(w, a))
  {
    hide Inv, Step;
    match a
    case New(t, o) => NewKeeps(w, t, o);
    case Begin(t, op) => BeginKeeps(w, t, op);
    case Hand(t, r, to) => HandoverKeeps(w, t, r, Apply(w, a));
    case Take(t, via, r) => TakeKeeps(w, t, via, r);
    case EndDestructor(t) => EndKeeps(w, t);
    case Advance(t, r) => StepKeeps(w, t, r);
  }

  lemma TakeKeeps(w: World, t: Tid, via: RefId, r: RefId)
    requires Enabled(w, Take(t, via, r)) && Inv(w)
    ensures Inv(Apply(w, Take(t, via, r)))
  {
    hide Inv, Step;
    HandoverKeeps(w, t, r, Apply(w, Take(t, via, r)));
  }

  lemma BeginKeeps(w: World, t: Tid, op: Op)
    requires Enabled(w, Begin(t, op)) && Inv(w)
    ensures Inv(Apply(w, Begin(t, op)))
  {
    hide LocksAgree, CountsAgree, PlacesAgree, HistoryAgrees, DrainAgrees, OpsAgree, Disciplined, Step;
    IdleHoldsNothing(w, t);
    hide Inv;
    PlainMove(w, t, Apply(w, Begin(t, op)));
  }

  lemma EndKeeps(w: World, t: Tid)
    requires Enabled(w, EndDestructor(t)) && Inv(w)
    ensures Inv(Apply(w, EndDestructor(t)))
  {
    hide LocksAgree, CountsAgree, PlacesAgree, HistoryAgrees, DrainAgrees, OpsAgree, Disciplined, Step;
    IdleHoldsNothing(w, t);
    hide Inv;
    PlainMove(w, t, Apply(w, EndDestructor(t)));
  }

  // ---- Runs ----

  /** Threads, none of them anywhere, and no objects. */
  function Start(threads: set<Tid>): World {
    World(None, None, map t | t in threads :: Idle, map t | t in threads :: 0, map[], map[], map[], [], [], [])
  }

  lemma StartHolds(threads: set<Tid>)
    ensures Inv(Start(threads))
  {
  }

  /** A run from `w`, taking the actions in turn. */
  ghost predicate Runs(w: World, actions: seq<Action>, w': World)
    decreases |actions|
  {
    if actions == [] then w' == w
    else Enabled(w, actions[0]) && Runs(Apply(w, actions[0]), actions[1..], w')
  }

  /** The invariant holds after any actions of any threads in any order. */
  lemma {:induction false} RunsKeepInv(w: World, actions: seq<Action>, w': World)
    requires Inv(w) && Runs(w, actions, w')
    ensures Inv(w')
    decreases |actions|
  {
    if actions != [] {
      hide Apply, Enabled, Inv;
      InvKept(w, actions[0]);
      RunsKeepInv(Apply(w, actions[0]), actions[1..], w');
    }
  }

  lemma ReachableHolds(threads: set<Tid>, actions: seq<Action>, w: World)
    requires Runs(Start(threads), actions, w)
    ensures Inv(w)
  {
    hide Inv, Start;
    StartHolds(threads);
    RunsKeepInv(Start(threads), actions, w);
  }

  /**
   In every reachable world: an object is queued and deleted at most once, only
   after all its references are gone; a thread about to delete finds the count
   still zero and holds neither mutex.
   */
  lemma ExactlyOnce(threads: set<Tid>, actions: seq<Action>, w: World)
    requires Runs(Start(threads), actions, w)
    ensures NoDup(w.queued) && NoDup(w.deleted) && forall o <- w.deleted :: o in w.queued && o !in w.counts
    ensures forall r <- w.refs :: w.refs[r].target !in w.queued
    ensures forall t <- w.pc | w.pc[t].Checking? ::
              w.pc[t].o in w.counts && w.counts[w.pc[t].o] == 0 && w.lock != Some(t) && w.objectLock != Some(t)
  {
    hide Runs, Start, LocksAgree, CountsAgree, OpsAgree, DrainAgrees, PlacesAgree;
    ReachableHolds(threads, actions, w);
    forall r <- w.refs ensures w.refs[r].target !in w.queued {
      HeldIsCounted(w, r);
    }
    forall t <- w.pc | w.pc[t].Checking?
      ensures w.pc[t].o in w.counts && w.counts[w.pc[t].o] == 0 && w.lock != Some(t) && w.objectLock != Some(t)
    {
      CheckingDoomed(w, t);
      IdleHoldsNothing(w, t);
    }
  }

  /**
   When every thread is outside, the queue is empty, everything queued has been
   deleted, and what is left is counted or has never been retained.
   */
  lemma QuietIsClean(threads: set<Tid>, actions: seq<Action>, w: World)
    requires Runs(Start(threads), actions, w)
    requires Quiet(w)
    ensures w.queue == [] && forall o <- w.queued :: o in w.deleted
    ensures forall o <- w.counts | w.counts[o] == 0 :: o in w.floats
    ensures forall o <- w.counts :: w.counts[o] == |RefsTo(w.refs, o)|
  {
    hide Runs, Start, LocksAgree, OpsAgree, HistoryAgrees, DrainAgrees, PlacesAgree;
    ReachableHolds(threads, actions, w);
    QuietQueue(w);
  }

  /** Every thread is outside `lock`, the drain loop and destructors. */
  predicate Quiet(w: World) {
    forall t <- w.pc :: w.pc[t] == Idle && (t in w.depth ==> w.depth[t] == 0)
  }

  lemma QuietQueue(w: World)
    requires Inv(w) && Quiet(w)
    ensures w.queue == [] && forall o <- w.queued :: o in w.deleted
    ensures forall o <- w.counts | w.counts[o] == 0 :: o in w.floats
  {
    hide RefsTo, LocksAgree, CountsAgree, OpsAgree;
    forall t | WillDrain(w, t) ensures false {
    }
    forall o | Doomed(w, o) ensures false {
    }
  }

  /** While some thread is inside, some thread inside can take its next step: the two mutexes cannot deadlock. */
  lemma NoDeadlock(threads: set<Tid>, actions: seq<Action>, w: World, t: Tid)
    requires Runs(Start(threads), actions, w)
    requires t in w.pc && w.pc[t] != Idle
    ensures exists u :: u in w.pc && w.pc[u] != Idle && CanAdvance(w, u)
  {
    hide Runs, Start, CountsAgree, OpsAgree, HistoryAgrees, DrainAgrees, PlacesAgree;
    ReachableHolds(threads, actions, w);
    var u := if w.objectLock.Some? then w.objectLock.value else if w.lock.Some? then w.lock.value else t;
    IdleHoldsNothing(w, u);
    assert u in w.pc && w.pc[u] != Idle && CanAdvance(w, u);
  }

  /**
   Why a retain must find the object still held: counted on an object already in the
   queue, it makes its release queue the object a second time.
   */
  lemma UnheldRetainQueuesAgain(w: World, t: Tid, o: Obj, r: RefId, r': RefId)
    requires Inv(w) && t in w.pc && w.pc[t] == Inside(Retain(o)) && o in w.queue && r !in w.refs
    ensures !Disciplined(w, t, Retain(o))
    ensures var kept := ChangeCount(w, t, Retain(o), r);
            && Disciplined(kept, t, Release(r))
            && ChangeCount(kept, t, Release(r), r').pc[t] == Adding(o)
            && o in ChangeCount(kept, t, Release(r), r').queue
  {
    hide LocksAgree, CountsAgree, OpsAgree, HistoryAgrees, DrainAgrees, RefsTo;
    assert Doomed(w, o);
  }
}
