/** The runtime's objects, handles, autorelease scopes and deferred deletes, on one thread. */
module Ownership {
  import opened Bytes
  import opened OwnershipSpec
  import opened OwnershipLaws
  import opened OwnershipOps
  import opened OwnershipEffects

  /** No handle that is being reassigned belongs to one of `e`. */
  predicate StaleOutside(h: Heap, e: set<Obj>) {
    forall s <- h.stale :: s in h.strong && OwnerOutside(h, s, e)
  }

  lemma DueCounts(h: Heap, o: Obj)
    requires Valid(h) && o in h.due
    ensures o in h.counts && h.counts[o] >= 1
  {
    hide InScopes, StrongTo;
    assert h.counts[o] == References(h, o);
  }

  lemma GoneFrame(h: Heap, h': Heap, gone: set<Obj>)
    requires Gone(h, h', gone)
    ensures gone <= h.counts.Keys && h'.counts.Keys == h.counts.Keys - gone && h'.dying == h.dying
    ensures h'.scopes == h.scopes && h'.explicit == h.explicit && h'.retained == h.retained
    ensures h'.stale == h.stale * h'.strong.Keys
    ensures h'.strong == StrongWithout(h.strong, gone) && h'.weak == WeakWithout(h.weak, gone)
  {
  }

  lemma GoneWithin(h: Heap, h': Heap, gone: set<Obj>, e: set<Obj>)
    requires Gone(h, h', gone) && Closed(h, e) && StaleOutside(h, e)
    ensures gone <= e && Closed(h', e) && StaleOutside(h', e)
    ensures h'.stale == h.stale
    ensures forall s <- h.stale :: s in h.strong && s in h'.strong && h'.strong[s] == h.strong[s]
  {
    hide Closed;
    forall s <- h.stale ensures s in h'.strong && h'.strong[s] == h.strong[s] {
    }
  }

  /** `h` without the handles `lost`. */
  function Less(h: Heap, lost: set<Slot>): Heap {
    h.(strong := h.strong - lost)
  }

  lemma LessNone(h: Heap)
    ensures Less(h, {}) == h
  {
    assert h.strong - {} == h.strong;
  }

  lemma LessMore(h: Heap, lost: set<Slot>, s: Slot)
    requires lost !! h.stale && h.stale <= h.strong.Keys
    ensures var k := Less(h, lost);
            && k.stale == h.stale && k.stale <= k.strong.Keys && k.counts == h.counts
            && Less(h, lost + {s}) == k.(strong := k.strong - {s})
            && (s in k.strong ==> s in h.strong && k.strong[s] == h.strong[s])
  {
    assert h.strong - (lost + {s}) == h.strong - lost - {s};
  }

  lemma LessIs(h: Heap, o: Obj, lost: set<Slot>)
    ensures Less(Begin(h, o), lost) == Begin(h, o).(strong := h.strong - lost)
  {
  }

  lemma BeginParts(h: Heap, o: Obj)
    ensures var b := Begin(h, o);
            && b.strong == h.strong && b.stale == h.stale && o in b.dying && o !in b.counts
            && b.due == h.due - multiset{o} && b.counts.Keys == h.counts.Keys - {o}
  {
  }

  lemma BeginOutside(h: Heap, o: Obj, e: set<Obj>)
    requires StaleOutside(h, e) && o in e
    ensures StaleOutside(Begin(h, o), e)
  {
  }

  lemma StaleHandles(h: Heap)
    requires Valid(h)
    ensures h.stale <= h.strong.Keys
  {
  }

  /** A member of a dying object among `e` is not being reassigned, and keeps nothing from outside. */
  lemma MemberFacts(h: Heap, s: Slot, o: Obj, e: set<Obj>)
    requires Valid(h) && Closed(h, e) && StaleOutside(h, e)
    requires s in h.strong && h.strong[s].owner == Some(o) && o in h.dying && o in e
    ensures s !in h.stale && o !in h.counts
    ensures Closed(LoseStrong(h, s), e) && StaleOutside(LoseStrong(h, s), e)
  {
    assert o !in h.counts;
    LoseStrongClosed(h, s, e);
  }

  lemma MemberKept(hk: Heap, h: Heap, gone: set<Obj>, s: Slot)
    requires Gone(hk, h, gone) && s in h.strong
    ensures s in hk.strong && hk.strong[s] == h.strong[s]
  {
    hide Closed;
  }

  /** With the member `s`, only what is not `o`'s has gone. */
  lemma MembersLeft(h: Heap, s: Slot, o: Obj, k: Heap, gone: set<Obj>)
    requires s in h.strong && o !in h.counts && Gone(LoseStrong(h, s), k, gone)
    ensures forall u :: u in k.strong && k.strong[u].owner == Some(o) <==>
                        u != s && u in h.strong && h.strong[u].owner == Some(o)
  {
    hide Closed;
    forall u ensures u in k.strong && k.strong[u].owner == Some(o) <==>
                     u != s && u in h.strong && h.strong[u].owner == Some(o) {
      if u in LoseStrong(h, s).strong {
        assert LoseStrong(h, s).strong[u] == h.strong[u];
      }
    }
  }

  /** From `h` to `h'` exactly `gone` is destroyed: the least set outside of which everything is kept. */
  ghost predicate LeastGone(h: Heap, h': Heap, gone: set<Obj>) {
    && Gone(h, h', gone) && Closed(h, gone)
    && forall e: set<Obj> | Closed(h, e) :: gone <= e
  }

  /** With everything allowed to go, anything may be released. */
  lemma EverythingCloses(h: Heap)
    requires h.stale == {}
    ensures Closed(h, h.counts.Keys) && StaleOutside(h, h.counts.Keys)
  {
  }

  lemma PendingParts(h: Heap, s: Slot, o: Option<Obj>, e: set<Obj>)
    requires s in h.strong && (o.Some? ==> o.value in h.counts) && OwnerOutside(h, s, e) && h.stale == {}
    ensures var p := Pending(h, s, o); var t := h.strong[s].target;
            && p.due == (if t.Some? then h.due + multiset{t.value} else h.due)
            && p.stale == {s} && p.dying == h.dying && p.strong == h.strong
            && (o.Some? ==> o.value in p.explicit) && StaleOutside(p, e)
  {
  }

  lemma SettledIs(h: Heap, s: Slot, o: Option<Obj>)
    requires s in h.strong
    ensures var m := h.strong[s := Handle(h.strong[s].owner, o)];
            var x := if o.Some? then h.explicit - multiset{o.value} else h.explicit;
            Settled(h, s, o) ==
            Heap(h.counts, h.weaks, m, h.weak, h.scopes, x, h.due, h.stale - {s}, h.dying, h.retained)
  {
  }

  lemma SettledParts(h: Heap, s: Slot, o: Option<Obj>)
    requires s in h.strong && h.stale == {s}
    ensures var k := Settled(h, s, o);
            && k.due == h.due && k.stale == {} && k.dying == h.dying
            && k.strong == h.strong[s := Handle(h.strong[s].owner, o)]
  {
  }

  lemma AssignedParts(h: Heap, s: Slot, o: Option<Obj>)
    requires s in h.strong && (o.Some? ==> o.value in h.counts) && h.stale == {}
    ensures Assigned(h, s, o).stale == {}
  {
  }

  lemma CountedKnown(h: Heap)
    requires Valid(h)
    ensures h.counts.Keys <= h.weaks.Keys
  {
  }

  lemma MemberDestroyed(hk: Heap, h: Heap, before: set<Obj>, s: Slot, o: Obj, k: Heap, gone: set<Obj>, e: set<Obj>)
    requires Valid(h) && Closed(h, e) && StaleOutside(h, e)
    requires s in h.strong && h.strong[s].owner == Some(o) && o in h.dying && o in e && o !in hk.counts
    requires Gone(hk, h, before) && hk.stale == h.stale && hk.stale <= hk.strong.Keys
    requires Gone(LoseStrong(h, s), k, gone)
    ensures k.stale == h.stale && k.dying == h.dying && k.counts.Keys <= h.counts.Keys
    ensures s !in k.stale && s in hk.strong && hk.strong[s].owner == Some(o)
    ensures Closed(k, e) && StaleOutside(k, e)
    ensures Gone(hk.(strong := hk.strong - {s}), k, before + gone)
    ensures forall u :: u in k.strong && k.strong[u].owner == Some(o) <==>
                        u != s && u in h.strong && h.strong[u].owner == Some(o)
  {
    MemberFacts(h, s, o, e);
    hide Valid, Closed, StaleOutside, InScopes, Gone, StrongWithout, WeakWithout;
    MemberLost(hk, h, before, s, o);
    MemberKept(hk, h, before, s);
    var l := LoseStrong(h, s);
    MembersLeft(h, s, o, k, gone);
    GoneFrame(l, k, gone);
    GoneWithin(l, k, gone, e);
    GoneTwice(hk.(strong := hk.strong - {s}), l, k, before, gone);
  }

  /** The weak handles an object knows of are those that hold it. */
  lemma WatchersOf(h: Heap, o: Obj)
    requires Valid(h) && o in h.dying
    ensures o in h.weaks && h.weaks[o] <= h.weak.Keys
    ensures forall s <- h.weak :: s in h.weaks[o] <==> h.weak[s].target == Some(o)
  {
  }

  // ---- When an assignment is safe ----

  /** What must go whatever is closed: nothing outside it needs it. */
  ghost function Doomed(h: Heap): set<Obj> {
    set x | x in h.counts && forall e: set<Obj> | Closed(h, e) :: x in e
  }

  lemma DoomedIsLeast(h: Heap)
    ensures Closed(h, Doomed(h)) && forall e: set<Obj> | Closed(h, e) :: Doomed(h) <= e
  {
    hide InScopes;
    forall x <- h.counts | x !in Doomed(h) ensures KeptFromOutside(h, Doomed(h), x) {
      var e: set<Obj> :| Closed(h, e) && x !in e;
      assert Doomed(h) <= e;
      KeptFromLess(h, e, Doomed(h), x);
    }
  }

  lemma KeptFromLess(h: Heap, e: set<Obj>, d: set<Obj>, x: Obj)
    requires KeptFromOutside(h, e, x) && d <= e
    ensures KeptFromOutside(h, d, x)
  {
    hide InScopes;
    if !(x !in h.retained || h.explicit[x] > 0 || InScopes(h.scopes)[x] > 0) {
      var u :| u in h.strong && OutsideSlot(h, e, u) && h.strong[u].target == Some(x);
      assert OutsideSlot(h, d, u);
    }
  }

  /** The object that the handle is a member of does not go with the old target. */
  ghost predicate HandleSurvives(h: Heap, s: Slot, o: Option<Obj>)
    requires s in h.strong && (o.Some? ==> o.value in h.counts)
  {
    OwnerOutside(h, s, Doomed(Assigned(h, s, o)))
  }

  /**
   However the release of the old target ends, the handle is still there to be
   assigned if and only if its owner is not among what the assignment dooms.
   */
  lemma HandleSurvivesIff(h: Heap, s: Slot, o: Option<Obj>, cur: Heap, gone: set<Obj>)
    requires Quiet(h) && s in h.strong && (o.Some? ==> o.value in h.counts)
    requires Gone(Pending(h, s, o), cur, gone) && Valid(cur) && cur.due == multiset{} && cur.dying == {}
    ensures s in cur.strong <==> HandleSurvives(h, s, o)
  {
    hide Valid, Closed, InScopes, Assigned, Settled, Gone, Doomed;
    var d := Doomed(Assigned(h, s, o));
    DoomedIsLeast(Assigned(h, s, o));
    AssignedClosed(h, s, o, d);
    OwnerCounted(h, s);
    PendingParts(h, s, o, {});
    GoneFrame(Pending(h, s, o), cur, gone);
    GoneLeast(Pending(h, s, o), cur, gone, d);
    if s in cur.strong {
      SettledKeeps(cur, s, o);
      SettledIsAssigned(h, s, o, cur, gone);
      SettledParts(cur, s, o);
      AssignedParts(h, s, o);
      LeastDestroyed(Assigned(h, s, o), Settled(cur, s, o), gone);
    }
  }

  lemma OwnerCounted(h: Heap, s: Slot)
    requires Quiet(h) && s in h.strong
    ensures h.stale == {} && OwnerOutside(h, s, {})
  {
  }

  lemma GoneLeast(h: Heap, h': Heap, gone: set<Obj>, e: set<Obj>)
    requires Gone(h, h', gone) && Closed(h, e)
    ensures gone <= e
  {
  }

  /** An object that only its own member keeps: the member cannot be assigned. */
  lemma SelfReferenceIsDoomed(h: Heap, s: Slot, x: Obj)
    requires Quiet(h) && s in h.strong && h.strong[s] == Handle(Some(x), Some(x)) && h.counts[x] == 1
    ensures !HandleSurvives(h, s, None)
  {
    var a := Assigned(h, s, None);
    OnlyMemberKeeps(h, s, x);
    hide InScopes, Valid, Assigned;
    forall e: set<Obj> | Closed(a, e) ensures x in e {
      assert !KeptFromOutside(a, e, x);
    }
    assert x in Doomed(a);
  }

  lemma OnlyMemberKeeps(h: Heap, s: Slot, x: Obj)
    requires Quiet(h) && s in h.strong && h.strong[s] == Handle(Some(x), Some(x)) && h.counts[x] == 1
    ensures var a := Assigned(h, s, None);
            && x in a.counts && x in a.retained && a.explicit[x] == 0 && InScopes(a.scopes)[x] == 0
            && forall u <- a.strong :: a.strong[u].target != Some(x)
  {
    hide InScopes;
    assert s in StrongTo(h, x) && h.counts[x] == References(h, x);
    assert StrongTo(h, x) == {s} by {
      OneElement(StrongTo(h, x), s);
    }
    forall u <- h.strong | u != s ensures h.strong[u].target != Some(x) {
      assert u !in StrongTo(h, x);
    }
  }

  lemma OneElement(slots: set<Slot>, s: Slot)
    requires s in slots && |slots| <= 1
    ensures slots == {s}
  {
    assert |slots - {s}| == 0;
  }

  const LOOP := Heap(map[0 := 1], map[0 := {}], map[0 := Handle(Some(0), Some(0))], map[], [],
                     multiset{}, multiset{}, {}, {}, {0})

  /** Object 0, kept by its member 0 alone; setting the member to null would release it while it dies of that. */
  lemma SelfReferenceExample()
    ensures Quiet(LOOP) && !HandleSurvives(LOOP, 0, None)
  {
    hide Conserved, OwnersExist, Watched, ZeroIsNew, HandleSurvives;
    LoopConserved();
    LoopRest();
    SelfReferenceIsDoomed(LOOP, 0, 0);
  }

  lemma LoopConserved()
    ensures Conserved(LOOP)
  {
    hide StrongTo;
    assert StrongTo(LOOP, 0) == {0} by {
      LoopSlot();
    }
  }

  lemma LoopSlot()
    ensures StrongTo(LOOP, 0) == {0}
  {
  }

  lemma LoopRest()
    ensures OwnersExist(LOOP) && Watched(LOOP) && ZeroIsNew(LOOP)
  {
  }

  // ---- What the operations come to ----

  lemma GivenUpOne(h: Heap, o: Obj, h': Heap, gone: set<Obj>)
    requires Quiet(h) && o in h.explicit && LeastGone(GivenUp(h, o), h', gone) && Quiet(h')
    ensures o in h.counts && OneLess(h.counts, o, h'.counts, gone)
    ensures h'.explicit == h.explicit - multiset{o} && h'.scopes == h.scopes
  {
    GivenUpKeeps(h, o);
    assert GivenUp(h, o).due == multiset{o};
    GoneFrame(GivenUp(h, o), h', gone);
    hide Closed, Gone, StrongWithout, WeakWithout;
    GivesUpOne(GivenUp(h, o), h', gone, o);
  }

  /** The old target gives up one reference, the new one has one more. */
  ghost predicate Reassigned(counts: map<Obj, int>, t: Option<Obj>, o: Option<Obj>, counts': map<Obj, int>, gone: set<Obj>)
  {
    (o.Some? ==> o.value in counts) && (t.Some? ==> t.value in counts) &&
    var more := if o.Some? then counts[o.value := counts[o.value] + 1] else counts;
    if t.None? then gone == {} && counts' == more else OneLess(more, t.value, counts', gone)
  }

  lemma AssignedEffect(h: Heap, s: Slot, o: Option<Obj>, h': Heap, gone: set<Obj>)
    requires Quiet(h) && s in h.strong && (o.Some? ==> o.value in h.counts)
    requires LeastGone(Assigned(h, s, o), h', gone) && Quiet(h')
    ensures Reassigned(h.counts, h.strong[s].target, o, h'.counts, gone)
    ensures h'.explicit == h.explicit && h'.scopes == h.scopes
    ensures gone == {} ==> h'.strong == h.strong[s := Handle(h.strong[s].owner, o)]
  {
    hide Assigned, Closed, OneLess, Valid, Gone, GivingUp, StrongWithout, WeakWithout;
    var a, t := Assigned(h, s, o), h.strong[s].target;
    AssignedFrame(h, s, o);
    AssignedKeeps(h, s, o);
    TargetCounted(h, s);
    GoneFrame(a, h', gone);
    NoneWithout(a.strong);
    if t.Some? {
      assert a.due == multiset{t.value};
      GivesUpOne(a, h', gone, t.value);
    } else {
      GivesUpNone(a, h', gone);
    }
  }

  lemma TargetCounted(h: Heap, s: Slot)
    requires Quiet(h) && s in h.strong
    ensures h.strong[s].target.Some? ==> h.strong[s].target.value in h.counts
  {
  }

  lemma TargetKnows(h: Heap, s: Slot)
    requires Valid(h) && s in h.weak && h.weak[s].target.Some?
    ensures var x := h.weak[s].target.value; x in h.weaks && s in h.weaks[x] && h.weaks[x] + {s} == h.weaks[x]
  {
    hide Conserved, OwnersExist, ZeroIsNew;
  }

  lemma NoneWithout(m: map<Slot, Handle>)
    ensures StrongWithout(m, {}) == m
  {
  }

  lemma LostEffect(h: Heap, s: Slot, h': Heap, gone: set<Obj>)
    requires Quiet(h) && s in h.strong && LeastGone(LoseStrong(h, s), h', gone) && Quiet(h')
    ensures h'.explicit == h.explicit && h'.scopes == h.scopes
    ensures var t := h.strong[s].target;
            if t.None? then gone == {} && h'.counts == h.counts
            else t.value in h.counts && OneLess(h.counts, t.value, h'.counts, gone)
    ensures gone == {} ==> h'.strong == h.strong - {s}
  {
    var a, t := LoseStrong(h, s), h.strong[s].target;
    LoseStrongKeeps(h, s);
    TargetCounted(h, s);
    assert a.stale == {} && a.counts == h.counts && a.strong == h.strong - {s};
    hide Closed, OneLess, Valid;
    GoneFrame(a, h', gone);
    hide Gone;
    NoneWithout(a.strong);
    hide StrongWithout;
    if t.Some? {
      assert a.due == multiset{t.value};
      hide LoseStrong;
      GivesUpOne(a, h', gone, t.value);
    } else {
      hide LoseStrong;
      GivesUpNone(a, h', gone);
    }
  }

  lemma ClosedEffect(h: Heap, h': Heap, gone: set<Obj>)
    requires Quiet(h) && Quiet(h') && h.scopes != []
    requires LeastGone(h.(scopes := h.scopes[..|h.scopes| - 1]), h', gone)
    ensures h'.explicit == h.explicit && (gone == {} ==> h'.strong == h.strong)
    ensures forall x <- h.counts ::
              var n := multiset(h.scopes[|h.scopes| - 1])[x];
              && (n > 0 && h.counts[x] == n ==> x in gone)
              && (gone == {} ==> x in h'.counts && h'.counts[x] == h.counts[x] - n)
  {
    hide Closed, Valid;
    var k := h.(scopes := h.scopes[..|h.scopes| - 1]);
    GoneFrame(k, h', gone);
    hide Gone;
    NoneWithout(h.strong);
    forall x <- h.counts
      ensures var n := multiset(h.scopes[|h.scopes| - 1])[x];
              && (n > 0 && h.counts[x] == n ==> x in gone)
              && (gone == {} ==> x in h'.counts && h'.counts[x] == h.counts[x] - n)
    {
      ScopeClosed(h, h', gone, x);
    }
  }

  class Runtime {
    var counts: map<Obj, int>
    var weaks: map<Obj, set<Slot>>
    var strong: map<Slot, Handle>
    var weak: map<Slot, Handle>
    var scopes: seq<seq<Obj>>
    var drain: seq<Obj>
    ghost var explicit: multiset<Obj>
    ghost var due: multiset<Obj>
    ghost var stale: set<Slot>
    ghost var dying: set<Obj>
    ghost var retained: set<Obj>

    ghost function Snapshot(): Heap
      reads this
    {
      Heap(counts, weaks, strong, weak, scopes, explicit, due, stale, dying, retained)
    }

    ghost predicate Ready()
      reads this
    {
      Quiet(Snapshot()) && drain == []
    }

    constructor ()
      ensures Ready() && counts == map[] && strong == map[] && weak == map[] && scopes == []
    {
      counts, weaks, strong, weak, scopes, drain := map[], map[], map[], map[], [], [];
      explicit, due, stale, dying, retained := multiset{}, multiset{}, {}, {}, {};
    }

    // ---- Releasing and destroying ----

    /** `release`: the count goes down; at zero the object is queued, and unlocking drains the queue. */
    method Release(o: Obj, ghost e: set<Obj>) returns (ghost gone: set<Obj>)
      requires Valid(Snapshot()) && drain == [] && o in due
      requires Closed(Snapshot(), e) && StaleOutside(Snapshot(), e)
      modifies this
      ensures Valid(Snapshot()) && drain == [] && due == old(due) - multiset{o}
      ensures Gone(old(Snapshot()), Snapshot(), gone)
      decreases counts.Keys, 1
    {
      hide Valid, Closed, Gone, StaleOutside;
      ghost var h := Snapshot();
      DueCounts(h, o);
      counts := counts[o := counts[o] - 1];
      due := due - multiset{o};
      gone := {};
      assert Snapshot() == Drop(h, o);
      if counts[o] == 0 {
        drain := drain + [o];
      } else {
        DropKeeps(h, o);
      }
      while drain != []
        invariant drain == [] || (drain == [o] && h.counts[o] == 1 && Snapshot() == Drop(h, o))
        invariant drain == [] ==> Valid(Snapshot()) && due == h.due - multiset{o} && Gone(h, Snapshot(), gone)
        decreases |drain|
      {
        var v := drain[0];
        drain := drain[1..];
        if counts[v] == 0 {
          gone := Delete(v, h, e);
        }
      }
    }

    /** `delete`: the members go first, then the weak handles that hold the object become null. */
    method Delete(o: Obj, ghost h: Heap, ghost e: set<Obj>) returns (ghost gone: set<Obj>)
      requires Valid(h) && o in h.due && o in h.counts && h.counts[o] == 1
      requires Closed(h, e) && StaleOutside(h, e)
      requires Snapshot() == Drop(h, o) && drain == []
      modifies this
      ensures Valid(Snapshot()) && drain == [] && due == h.due - multiset{o}
      ensures Gone(h, Snapshot(), gone)
      decreases counts.Keys, 0
    {
      hide Valid, Closed, StaleOutside, InScopes, Gone;
      counts := counts - {o};
      dying := dying + {o};
      assert Snapshot() == Begin(h, o);
      ghost var lost: set<Slot>, cur: Heap;
      lost, gone := DestroyStrongs(o, h, e);
      cur := Snapshot();
      ghost var lostWeak := FinishObject(o);
      Destroyed(h, o, lost, lostWeak, cur, gone, Snapshot());
      gone := {o} + gone;
    }

    method DestroyStrongs(o: Obj, ghost h: Heap, ghost e: set<Obj>)
      returns (ghost lost: set<Slot>, ghost gone: set<Obj>)
      requires Valid(h) && o in h.due && o in h.counts && h.counts[o] == 1
      requires Closed(h, e) && StaleOutside(h, e)
      requires Snapshot() == Begin(h, o) && drain == []
      modifies this
      ensures Valid(Snapshot()) && drain == [] && due == h.due - multiset{o} && o in dying
      ensures lost !! h.stale && forall s <- lost :: s in h.strong && h.strong[s].owner == Some(o)
      ensures Gone(Begin(h, o).(strong := h.strong - lost), Snapshot(), gone)
      ensures forall s <- strong :: strong[s].owner != Some(o)
      decreases counts.Keys, 4
    {
      hide Valid, Closed, StaleOutside, Gone, Less, Begin;
      BeginKeeps(h, o);
      BeginClosed(h, o, e);
      BeginOutside(h, o, e);
      ghost var hb := Begin(h, o);
      BeginParts(h, o);
      StaleHandles(hb);
      NothingGone(hb, hb);
      lost, gone := {}, {};
      LessNone(hb);
      var members := set s | s in strong && strong[s].owner == Some(o);
      while members != {}
        invariant Valid(Snapshot()) && drain == [] && due == hb.due && counts.Keys <= hb.counts.Keys
        invariant stale == hb.stale && Closed(Snapshot(), e) && StaleOutside(Snapshot(), e) && dying == hb.dying
        invariant forall s :: s in members <==> s in strong && strong[s].owner == Some(o)
        invariant lost !! hb.stale && forall s <- lost :: s in hb.strong && hb.strong[s].owner == Some(o)
        invariant Gone(Less(hb, lost), Snapshot(), gone)
        decreases |members|
      {
        var s :| s in members;
        members := members - {s};
        LessMore(hb, lost, s);
        ghost var next: set<Obj>;
        next := DestroyMember(s, o, Less(hb, lost), gone, e);
        lost, gone := lost + {s}, gone + next;
      }
      LessIs(h, o, lost);
    }

    /** `~Strong` of a member of the object `o` being destroyed. */
    method DestroyMember(s: Slot, o: Obj, ghost hk: Heap, ghost before: set<Obj>, ghost e: set<Obj>)
      returns (ghost gone: set<Obj>)
      requires Valid(Snapshot()) && drain == [] && Closed(Snapshot(), e) && StaleOutside(Snapshot(), e)
      requires s in strong && strong[s].owner == Some(o) && o in dying && o in e && o !in hk.counts
      requires Gone(hk, Snapshot(), before) && hk.stale == stale && hk.stale <= hk.strong.Keys
      modifies this
      ensures Valid(Snapshot()) && drain == [] && due == old(due) && stale == old(stale)
      ensures s !in stale && s in hk.strong && hk.strong[s].owner == Some(o)
      ensures Closed(Snapshot(), e) && StaleOutside(Snapshot(), e)
      ensures Gone(hk.(strong := hk.strong - {s}), Snapshot(), before + gone)
      ensures dying == old(dying) && counts.Keys <= old(counts.Keys)
      ensures forall u :: u in strong && strong[u].owner == Some(o) <==>
                          u != s && u in old(strong) && old(strong)[u].owner == Some(o)
      decreases counts.Keys, 3
    {
      hide Valid, Closed, StaleOutside, Gone, LoseStrong;
      ghost var h := Snapshot();
      MemberFacts(h, s, o, e);
      gone := DestroyStrong(s, e);
      MemberDestroyed(hk, h, before, s, o, Snapshot(), gone, e);
    }

    /** `~Strong`. */
    method DestroyStrong(s: Slot, ghost e: set<Obj>) returns (ghost gone: set<Obj>)
      requires Valid(Snapshot()) && drain == [] && s in strong && s !in stale
      requires Closed(LoseStrong(Snapshot(), s), e) && StaleOutside(LoseStrong(Snapshot(), s), e)
      modifies this
      ensures Valid(Snapshot()) && drain == [] && due == old(due)
      ensures Gone(LoseStrong(old(Snapshot()), s), Snapshot(), gone)
      decreases counts.Keys, 2
    {
      ghost var h := Snapshot();
      hide Valid, Closed, StaleOutside, Gone, InScopes;
      LoseStrongKeeps(h, s);
      var t := strong[s].target;
      strong := strong - {s};
      if t.Some? {
        due := due + multiset{t.value};
        assert stale - {s} == stale;
        assert Snapshot() == LoseStrong(h, s);
        gone := Release(t.value, e);
        assert h.due + multiset{t.value} - multiset{t.value} == h.due;
      } else {
        gone := {};
        assert stale - {s} == stale;
        assert Snapshot() == LoseStrong(h, s);
        StaleHandles(Snapshot());
        NothingGone(Snapshot(), Snapshot());
      }
    }

    /** The weak members go, and the object forgets and is forgotten. */
    method FinishObject(o: Obj) returns (ghost lost: set<Slot>)
      requires Valid(Snapshot()) && o in dying && forall s <- strong :: strong[s].owner != Some(o)
      modifies `weak, `weaks, `dying
      ensures Valid(Snapshot()) && dying == old(dying) - {o}
      ensures forall s :: s in lost <==> s in old(weak) && old(weak)[s].owner == Some(o)
      ensures weak == map s | s in old(weak) && s !in lost :: Forget(old(weak)[s], {o})
    {
      ghost var w := weak;
      hide Valid, Forget;
      lost := DestroyWeaks(o);
      ghost var k := Snapshot();
      EndObject(o);
      assert weak == map s | s in w && s !in lost :: Forget(w[s], {o});
    }

    /** `~Weak` of every weak member of `o`: the objects watched forget them. */
    method DestroyWeaks(o: Obj) returns (ghost lost: set<Slot>)
      requires Valid(Snapshot())
      modifies `weak, `weaks
      ensures Valid(Snapshot())
      ensures forall s :: s in lost <==> s in old(weak) && old(weak)[s].owner == Some(o)
      ensures weak == old(weak) - lost
    {
      hide Valid, LoseWeak;
      var members := set s | s in weak && weak[s].owner == Some(o);
      ghost var w := weak;
      lost := {};
      while members != {}
        invariant Valid(Snapshot()) && weak == w - lost && members !! lost
        invariant forall s :: s in members || s in lost <==> s in w && w[s].owner == Some(o)
        decreases |members|
      {
        var s :| s in members;
        members := members - {s};
        DestroyWeak(s);
        lost := lost + {s};
      }
    }

    /** `~Weak`. */
    method DestroyWeak(s: Slot)
      requires Valid(Snapshot()) && s in weak
      modifies `weak, `weaks
      ensures Valid(Snapshot()) && Snapshot() == LoseWeak(old(Snapshot()), s) && weak == old(weak) - {s}
    {
      ghost var h := Snapshot();
      hide Valid, InScopes;
      LoseWeakKeeps(h, s);
      var t := weak[s].target;
      if t.Some? && t.value in weaks {
        weaks := weaks[t.value := weaks[t.value] - {s}];
      }
      weak := weak - {s};
    }

    /** `~Object`: every weak handle that holds `o` is nulled. */
    method EndObject(o: Obj)
      requires Valid(Snapshot()) && o in dying
      requires forall s <- strong :: strong[s].owner != Some(o)
      requires forall s <- weak :: weak[s].owner != Some(o)
      modifies `weak, `weaks, `dying
      ensures Valid(Snapshot()) && Snapshot() == End(old(Snapshot()), o)
    {
      hide Valid;
      ghost var h := Snapshot();
      EndKeeps(h, o);
      WatchersOf(h, o);
      NullWatchers(o);
      assert weak == End(h, o).weak;
      weaks := weaks - {o};
      dying := dying - {o};
    }

    method NullWatchers(o: Obj)
      requires o in weaks && weaks[o] <= weak.Keys
      requires forall s <- weak :: s in weaks[o] <==> weak[s].target == Some(o)
      modifies `weak
      ensures weak == map s | s in old(weak) :: Forget(old(weak)[s], {o})
    {
      ghost var w := weak;
      var watching := weaks[o];
      while watching != {}
        invariant watching <= weaks[o] && weak.Keys == w.Keys
        invariant forall s <- w :: weak[s] == if s in watching then w[s] else Forget(w[s], {o})
        decreases |watching|
      {
        var s :| s in watching;
        watching := watching - {s};
        weak := weak[s := weak[s].(target := None)];
      }
    }

    // ---- What owners do ----

    method Create(o: Obj)
      requires Ready() && o !in counts && o !in retained
      modifies this
      ensures Ready() && counts == old(counts)[o := 0] && weaks == old(weaks)[o := {}]
      ensures strong == old(strong) && weak == old(weak) && scopes == old(scopes)
      ensures explicit == old(explicit) && retained == old(retained)
    {
      ghost var h := Snapshot();
      hide Valid;
      CreatedKeeps(h, o);
      counts := counts[o := 0];
      weaks := weaks[o := {}];
    }

    method Retain(o: Obj)
      requires Ready() && o in counts
      modifies this
      ensures Ready() && counts == old(counts)[o := old(counts)[o] + 1] && explicit == old(explicit) + multiset{o}
      ensures retained == old(retained) + {o}
      ensures strong == old(strong) && weak == old(weak) && weaks == old(weaks) && scopes == old(scopes)
    {
      ghost var h := Snapshot();
      hide Valid;
      RetainedKeeps(h, o);
      counts := counts[o := counts[o] + 1];
      explicit := explicit + multiset{o};
      retained := retained + {o};
    }

    /** `release` by whoever retained by hand: the least set that nothing keeps is destroyed. */
    method ReleaseByHand(o: Obj) returns (ghost gone: set<Obj>)
      requires Ready() && o in explicit
      modifies this
      ensures Ready() && LeastGone(GivenUp(old(Snapshot()), o), Snapshot(), gone)
      ensures explicit == old(explicit) - multiset{o} && scopes == old(scopes)
      ensures o in old(counts) && OneLess(old(counts), o, counts, gone)
    {
      ghost var h := Snapshot();
      hide Valid, Gone, InScopes, StrongTo, References;
      GivenUpKeeps(h, o);
      explicit := explicit - multiset{o};
      due := due + multiset{o};
      EverythingCloses(Snapshot());
      gone := Release(o, counts.Keys);
      GoneFrame(GivenUp(h, o), Snapshot(), gone);
      assert due == multiset{};
      LeastDestroyed(GivenUp(h, o), Snapshot(), gone);
      hide OneLess, GivenUp;
      GivenUpOne(h, o, Snapshot(), gone);
    }

    method NewStrong(s: Slot, owner: Option<Obj>)
      requires Ready() && s !in strong && (owner.Some? ==> owner.value in counts)
      modifies `strong
      ensures Ready() && strong == old(strong)[s := Handle(owner, None)]
    {
      ghost var h := Snapshot();
      hide Valid;
      NewHandleKeeps(h, s, owner);
      strong := strong[s := Handle(owner, None)];
    }

    /**
     `Strong::set`: the new target is retained, the old one released, and only then the slot assigned.
     The handle must outlive the release; `HandleSurvivesIff` says that there is no other way to it.
     */
    method SetStrong(s: Slot, o: Option<Obj>) returns (ghost gone: set<Obj>)
      requires Ready() && s in strong && (o.Some? ==> o.value in counts)
      requires strong[s].target != o ==> HandleSurvives(Snapshot(), s, o)
      modifies this
      ensures Ready() && s in strong && strong[s] == Handle(old(strong)[s].owner, o)
      ensures old(strong)[s].target != o ==> LeastGone(Assigned(old(Snapshot()), s, o), Snapshot(), gone)
      ensures old(strong)[s].target == o ==> Snapshot() == old(Snapshot()) && gone == {}
      ensures explicit == old(explicit) && scopes == old(scopes)
      ensures old(strong)[s].target != o ==> Reassigned(old(counts), old(strong)[s].target, o, counts, gone)
      ensures gone == {} ==> strong == old(strong)[s := Handle(old(strong)[s].owner, o)]
    {
      hide Quiet, LeastGone, Assigned, HandleSurvives, Reassigned;
      gone := {};
      if strong[s].target != o {
        gone := Reassign(s, o);
      }
    }

    method Reassign(s: Slot, o: Option<Obj>) returns (ghost gone: set<Obj>)
      requires Ready() && s in strong && (o.Some? ==> o.value in counts) && strong[s].target != o
      requires HandleSurvives(Snapshot(), s, o)
      modifies this
      ensures Ready() && s in strong && strong[s] == Handle(old(strong)[s].owner, o)
      ensures LeastGone(Assigned(old(Snapshot()), s, o), Snapshot(), gone)
      ensures explicit == old(explicit) && scopes == old(scopes)
      ensures Reassigned(old(counts), old(strong)[s].target, o, counts, gone)
      ensures gone == {} ==> strong == old(strong)[s := Handle(old(strong)[s].owner, o)]
    {
      ghost var h := Snapshot();
      hide Valid, Gone, Closed, Assigned, Pending, Settled, HandleSurvives, Reassigned;
      gone := RetainThenRelease(s, o);
      ghost var cur := Snapshot();
      SettledKeeps(cur, s, o);
      SettledIsAssigned(h, s, o, cur, gone);
      SettledParts(cur, s, o);
      AssignedParts(h, s, o);
      Settle(s, o);
      SettledIs(cur, s, o);
      LeastDestroyed(Assigned(h, s, o), Snapshot(), gone);
      AssignedEffect(h, s, o, Snapshot(), gone);
    }

    /** `Strong::set` up to the assignment. */
    method RetainThenRelease(s: Slot, o: Option<Obj>) returns (ghost gone: set<Obj>)
      requires Ready() && s in strong && (o.Some? ==> o.value in counts) && strong[s].target != o
      requires HandleSurvives(Snapshot(), s, o)
      modifies this
      ensures Valid(Snapshot()) && drain == [] && due == multiset{} && stale == {s} && dying == {}
      ensures s in strong && strong[s].owner == old(strong)[s].owner && (o.Some? ==> o.value in explicit)
      ensures Gone(Pending(old(Snapshot()), s, o), Snapshot(), gone)
    {
      ghost var h := Snapshot();
      hide Valid, Gone, Closed, InScopes, Assigned, Pending, StaleOutside, Doomed;
      ghost var e := Doomed(Assigned(h, s, o));
      DoomedIsLeast(Assigned(h, s, o));
      PendingKeeps(h, s, o);
      PendingParts(h, s, o, e);
      AssignedClosed(h, s, o, e);
      var t := strong[s].target;
      MarkPending(s, o);
      gone := {};
      if t.Some? {
        gone := Release(t.value, e);
      } else {
        NothingGone(Snapshot(), Snapshot());
      }
      GoneFrame(Pending(h, s, o), Snapshot(), gone);
      GoneWithin(Pending(h, s, o), Snapshot(), gone, e);
    }

    method MarkPending(s: Slot, o: Option<Obj>)
      requires s in strong && (o.Some? ==> o.value in counts)
      modifies this
      ensures Snapshot() == Pending(old(Snapshot()), s, o) && drain == old(drain)
    {
      ghost var h := Snapshot();
      if o.Some? {
        counts := counts[o.value := counts[o.value] + 1];
        explicit := explicit + multiset{o.value};
        retained := retained + {o.value};
      }
      assert Snapshot() == if o.Some? then Retained(h, o.value) else h;
      hide Retained;
      stale := stale + {s};
      if strong[s].target.Some? {
        due := due + multiset{strong[s].target.value};
      }
    }

    method Settle(s: Slot, o: Option<Obj>)
      requires s in strong
      modifies `strong, `stale, `explicit
      ensures strong == old(strong)[s := Handle(old(strong)[s].owner, o)] && stale == old(stale) - {s}
      ensures explicit == if o.Some? then old(explicit) - multiset{o.value} else old(explicit)
    {
      strong := strong[s := Handle(strong[s].owner, o)];
      stale := stale - {s};
      if o.Some? {
        explicit := explicit - multiset{o.value};
      }
    }

    /** `~Strong` of a handle that is no object's member. */
    method DropStrong(s: Slot) returns (ghost gone: set<Obj>)
      requires Ready() && s in strong && strong[s].owner == None
      modifies this
      ensures Ready() && LeastGone(LoseStrong(old(Snapshot()), s), Snapshot(), gone)
      ensures explicit == old(explicit) && scopes == old(scopes)
      ensures var t := old(strong)[s].target;
              if t.None? then gone == {} && counts == old(counts)
              else t.value in old(counts) && OneLess(old(counts), t.value, counts, gone)
      ensures gone == {} ==> strong == old(strong) - {s}
    {
      ghost var h := Snapshot();
      EverythingCloses(LoseStrong(h, s));
      hide Valid, Gone, Closed, InScopes, StrongTo, References;
      gone := DestroyStrong(s, counts.Keys);
      GoneFrame(LoseStrong(h, s), Snapshot(), gone);
      LeastDestroyed(LoseStrong(h, s), Snapshot(), gone);
      hide OneLess, LoseStrong;
      LostEffect(h, s, Snapshot(), gone);
    }

    method NewWeak(s: Slot, owner: Option<Obj>)
      requires Ready() && s !in weak && (owner.Some? ==> owner.value in counts)
      modifies `weak
      ensures Ready() && weak == old(weak)[s := Handle(owner, None)]
    {
      ghost var h := Snapshot();
      hide Valid;
      NewWatchKeeps(h, s, owner);
      weak := weak[s := Handle(owner, None)];
    }

    /** `Weak::set`: the new object learns of the handle, the old one forgets it. */
    method SetWeak(s: Slot, o: Option<Obj>)
      requires Ready() && s in weak && (o.Some? ==> o.value in counts)
      modifies `weak, `weaks
      ensures Ready() && weak == old(weak)[s := Handle(old(weak)[s].owner, o)]
      ensures weaks.Keys == old(weaks.Keys)
      ensures forall x <- weaks ::
                weaks[x] == (if o == Some(x) then old(weaks)[x] + {s}
                             else if old(weak)[s].target == Some(x) then old(weaks)[x] - {s} else old(weaks)[x])
    {
      hide Valid, Watching;
      ghost var h := Snapshot();
      if weak[s].target != o {
        CountedKnown(h);
        WatchingKeeps(h, s, o);
        Rewatch(s, o);
      } else if o.Some? {
        TargetKnows(h, s);
      }
    }

    method Rewatch(s: Slot, o: Option<Obj>)
      requires s in weak && (o.Some? ==> o.value in weaks)
      requires weak[s].target.Some? ==> weak[s].target.value in weaks
      modifies `weak, `weaks
      ensures Snapshot() == Watching(old(Snapshot()), s, o)
      ensures weak == old(weak)[s := Handle(old(weak)[s].owner, o)] && weaks.Keys == old(weaks.Keys)
      ensures old(weak)[s].target != o ==> forall x <- weaks ::
                weaks[x] == (if o == Some(x) then old(weaks)[x] + {s}
                             else if old(weak)[s].target == Some(x) then old(weaks)[x] - {s} else old(weaks)[x])
    {
      var t := weak[s].target;
      if o.Some? {
        weaks := weaks[o.value := weaks[o.value] + {s}];
      }
      if t.Some? {
        weaks := weaks[t.value := weaks[t.value] - {s}];
      }
      weak := weak[s := Handle(weak[s].owner, o)];
    }

    /** `~Weak` of a handle that is no object's member. */
    method DropWeak(s: Slot)
      requires Ready() && s in weak && weak[s].owner == None
      modifies `weak, `weaks
      ensures Ready() && Snapshot() == LoseWeak(old(Snapshot()), s)
    {
      hide Valid;
      DestroyWeak(s);
    }

    method OpenScope()
      requires Ready()
      modifies `scopes
      ensures Ready() && scopes == old(scopes) + [[]]
    {
      ghost var h := Snapshot();
      EmptyScope(scopes + [[]]);
      assert (scopes + [[]])[..|scopes|] == scopes;
      ScopesChanged(h, scopes + [[]]);
      hide Valid;
      scopes := scopes + [[]];
    }

    /** `Scope::addObject` */
    method AddToScope(o: Obj)
      requires Ready() && scopes != [] && o in counts
      modifies this
      ensures Ready() && |scopes| == |old(scopes)| && scopes[..|scopes| - 1] == old(scopes)[..|old(scopes)| - 1]
      ensures scopes[|scopes| - 1] == old(scopes)[|old(scopes)| - 1] + [o]
      ensures counts == old(counts)[o := old(counts)[o] + 1] && retained == old(retained) + {o}
      ensures strong == old(strong) && weak == old(weak) && weaks == old(weaks) && explicit == old(explicit)
    {
      ghost var h := Snapshot();
      hide Valid;
      ScopeAddedKeeps(h, o);
      scopes := scopes[..|scopes| - 1] + [scopes[|scopes| - 1] + [o]];
      counts := counts[o := counts[o] + 1];
      retained := retained + {o};
    }

    /** `~Scope`: the entries are released oldest first. */
    method CloseScope() returns (ghost gone: set<Obj>)
      requires Ready() && scopes != []
      modifies this
      ensures Ready() && scopes == old(scopes)[..|old(scopes)| - 1]
      ensures LeastGone(old(Snapshot()).(scopes := scopes), Snapshot(), gone)
      ensures explicit == old(explicit) && (gone == {} ==> strong == old(strong))
      ensures forall x <- old(counts) ::
                var n := multiset(old(scopes)[|old(scopes)| - 1])[x];
                && (n > 0 && old(counts)[x] == n ==> x in gone)
                && (gone == {} ==> x in counts && counts[x] == old(counts)[x] - n)
    {
      ghost var h := Snapshot();
      hide Valid, Gone, Closed, InScopes, ScopeTaken;
      gone := {};
      NothingGone(h, h);
      while scopes[|scopes| - 1] != []
        invariant Ready() && scopes != []
        invariant |scopes| == |h.scopes| && scopes[..|scopes| - 1] == h.scopes[..|h.scopes| - 1]
        invariant Gone(h.(scopes := scopes), Snapshot(), gone)
        decreases |scopes[|scopes| - 1]|
      {
        gone := ReleaseOldest(h.(scopes := scopes), gone);
      }
      EmptyScope(scopes);
      ScopesChanged(Snapshot(), scopes[..|scopes| - 1]);
      ScopesChangedGone(h.(scopes := scopes), Snapshot(), gone, scopes[..|scopes| - 1]);
      scopes := scopes[..|scopes| - 1];
      LeastDestroyed(h.(scopes := scopes), Snapshot(), gone);
      ClosedEffect(h, Snapshot(), gone);
    }

    /** The oldest entry of the innermost scope is taken out and released. */
    method ReleaseOldest(ghost h: Heap, ghost before: set<Obj>) returns (ghost gone: set<Obj>)
      requires Ready() && scopes != [] && scopes[|scopes| - 1] != []
      requires h.scopes == scopes && h.stale == {} && Gone(h, Snapshot(), before)
      modifies this
      ensures Ready() && scopes == old(scopes)[..|old(scopes)| - 1] + [old(scopes)[|old(scopes)| - 1][1..]]
      ensures Gone(h.(scopes := scopes), Snapshot(), gone)
    {
      ghost var cur := Snapshot();
      hide Valid, Gone, Closed, InScopes, StaleOutside;
      EntryTaken(h, cur, before);
      ScopeTakenKeeps(cur);
      var v := scopes[|scopes| - 1][0];
      scopes := scopes[..|scopes| - 1] + [scopes[|scopes| - 1][1..]];
      due := due + multiset{v};
      assert Snapshot() == ScopeTaken(cur);
      ghost var taken := h.(scopes := scopes);
      hide ScopeTaken;
      EverythingCloses(Snapshot());
      gone := Release(v, counts.Keys);
      GoneFrame(ScopeTaken(cur), Snapshot(), gone);
      GoneTwice(taken, ScopeTaken(cur), Snapshot(), before, gone);
      gone := before + gone;
    }
  }

  // ---- Whole lives ----

  /** A new object retained by hand and released by hand is gone, and nothing else is. */
  method RetainedAndReleased(r: Runtime, o: Obj) returns (ghost gone: set<Obj>)
    requires r.Ready() && o !in r.counts && o !in r.retained
    modifies r
    ensures r.Ready() && o in gone && o !in r.counts && r.explicit == old(r.explicit)
  {
    hide Quiet, LeastGone;
    r.Create(o);
    r.Retain(o);
    gone := r.ReleaseByHand(o);
    assert r.explicit == old(r.explicit) + multiset{o} - multiset{o};
  }

  /** Retained twice, it takes two releases. */
  method RetainedTwice(r: Runtime, o: Obj) returns (ghost gone: set<Obj>)
    requires r.Ready() && o !in r.counts && o !in r.retained
    modifies r
    ensures r.Ready() && o in r.counts && r.counts[o] == 1 && gone == {}
  {
    hide Quiet, LeastGone;
    r.Create(o);
    r.Retain(o);
    r.Retain(o);
    gone := r.ReleaseByHand(o);
  }

  /** A new object put in a handle of no object is gone when the handle is dropped. */
  method HeldAndDropped(r: Runtime, s: Slot, o: Obj) returns (ghost gone: set<Obj>)
    requires r.Ready() && o !in r.counts && o !in r.retained && s !in r.strong
    modifies r
    ensures r.Ready() && o in gone && o !in r.counts && r.explicit == old(r.explicit)
  {
    hide Quiet, LeastGone, Doomed, Assigned;
    r.Create(o);
    r.NewStrong(s, None);
    gone := r.SetStrong(s, Some(o));
    gone := r.DropStrong(s);
  }

  /** A new object added to a scope is gone when the scope closes. */
  method ScopedAndClosed(r: Runtime, o: Obj) returns (ghost gone: set<Obj>)
    requires r.Ready() && o !in r.counts && o !in r.retained
    modifies r
    ensures r.Ready() && o in gone && o !in r.counts && r.scopes == old(r.scopes)
  {
    hide Quiet, Closed;
    r.Create(o);
    r.OpenScope();
    r.AddToScope(o);
    gone := r.CloseScope();
  }
}
