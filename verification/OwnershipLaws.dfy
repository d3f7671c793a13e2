/** Each small change to the heap keeps what must agree. */
module OwnershipLaws {
  import opened Bytes
  import opened OwnershipSpec

  // ---- A reference is released ----

  function Drop(h: Heap, o: Obj): Heap
    requires o in h.counts
  {
    h.(counts := h.counts[o := h.counts[o] - 1], due := h.due - multiset{o})
  }

  lemma DropKeeps(h: Heap, o: Obj)
    requires Valid(h) && o in h.due && h.counts[o] > 1
    ensures Valid(Drop(h, o)) && Gone(h, Drop(h, o), {})
  {
    var h' := Drop(h, o);
    DropConserves(h, o);
    SameRest(h, h');
    hide Conserved, Watched, ZeroIsNew, Gone;
    NothingGone(h, h');
  }

  /** What does not depend on the references themselves. */
  lemma SameRest(h: Heap, h': Heap)
    requires OwnersExist(h) && Watched(h) && ZeroIsNew(h)
    requires h'.counts.Keys == h.counts.Keys && h'.dying == h.dying && h'.retained == h.retained
    requires forall x <- h.counts :: h'.counts[x] == 0 <==> h.counts[x] == 0
    requires h'.strong == h.strong && h'.stale == h.stale && h'.weak == h.weak && h'.weaks == h.weaks
    ensures OwnersExist(h') && Watched(h') && ZeroIsNew(h')
  {
  }

  lemma DropConserves(h: Heap, o: Obj)
    requires Conserved(h) && o in h.due
    ensures Conserved(Drop(h, o))
  {
    var h' := Drop(h, o);
    hide InScopes, StrongTo;
    forall x <- h'.counts ensures h'.counts[x] == References(h', x) {
      SameStrongTo(h, h', x);
      DueLess(h.due, o, x);
    }
    forall x <- h'.due ensures x in h'.counts {
      DueLess(h.due, o, x);
    }
  }

  lemma SameStrongTo(h: Heap, h': Heap, x: Obj)
    requires h'.strong == h.strong && h'.stale == h.stale
    ensures StrongTo(h', x) == StrongTo(h, x)
  {
  }

  lemma DueLess(due: multiset<Obj>, o: Obj, x: Obj)
    requires o in due
    ensures (due - multiset{o})[x] == due[x] - if x == o then 1 else 0
    ensures x in due - multiset{o} ==> x in due
  {
  }

  /** With the same handles and scopes, nothing is gone. */
  lemma NothingGone(h: Heap, h': Heap)
    requires h'.counts.Keys == h.counts.Keys && h'.strong == h.strong && h'.weak == h.weak && h'.scopes == h.scopes
    requires h'.explicit == h.explicit && h'.dying == h.dying && h'.retained == h.retained && h'.stale == h.stale
    requires h.stale <= h.strong.Keys
    ensures Gone(h, h', {})
  {
    hide InScopes;
    assert StrongWithout(h.strong, {}) == h.strong;
    assert WeakWithout(h.weak, {}) == h.weak;
    forall e: set<Obj> | Closed(h, e) ensures Closed(h', e) {
      SameClosed(h, h', e);
    }
  }

  lemma SameClosed(h: Heap, h': Heap, e: set<Obj>)
    requires h'.counts.Keys == h.counts.Keys && h'.strong == h.strong && h'.scopes == h.scopes
    requires h'.explicit == h.explicit && h'.retained == h.retained && h'.stale == h.stale
    requires Closed(h, e)
    ensures Closed(h', e)
  {
    hide InScopes;
    forall x <- h'.counts | x !in e ensures KeptFromOutside(h', e, x) {
      assert KeptFromOutside(h, e, x);
    }
  }

  /** The last reference to `o` is released: its destructor begins. */
  function Begin(h: Heap, o: Obj): Heap {
    h.(counts := h.counts - {o}, due := h.due - multiset{o}, dying := h.dying + {o})
  }

  lemma LastReference(h: Heap, o: Obj)
    requires Conserved(h) && o in h.due && h.counts[o] == 1
    ensures StrongTo(h, o) == {} && h.explicit[o] == 0 && InScopes(h.scopes)[o] == 0 && h.due[o] == 1
  {
    hide InScopes;
    assert References(h, o) == 1;
  }

  lemma BeginKeeps(h: Heap, o: Obj)
    requires Valid(h) && o in h.due && h.counts[o] == 1
    ensures Valid(Begin(h, o))
  {
    BeginConserves(h, o);
    BeginRest(h, o);
  }

  lemma BeginConserves(h: Heap, o: Obj)
    requires Conserved(h) && o in h.due && h.counts[o] == 1
    ensures Conserved(Begin(h, o))
  {
    hide References, InScopes, StrongTo;
    LastReference(h, o);
    BeginTargets(h, o);
    var h' := Begin(h, o);
    forall x <- h'.counts ensures h'.counts[x] == References(h', x) {
      BeginCount(h, o, x);
    }
    forall x <- h'.due ensures x in h'.counts {
      DueLess(h.due, o, x);
    }
  }

  lemma BeginCount(h: Heap, o: Obj, x: Obj)
    requires o in h.due && x != o
    ensures References(Begin(h, o), x) == References(h, x)
  {
    hide InScopes, StrongTo;
    SameStrongTo(h, Begin(h, o), x);
    DueLess(h.due, o, x);
  }

  lemma BeginTargets(h: Heap, o: Obj)
    requires StrongTo(h, o) == {}
    ensures forall s <- h.strong | s !in h.stale :: h.strong[s].target != Some(o)
  {
    forall s <- h.strong | s !in h.stale ensures h.strong[s].target != Some(o) {
      assert s !in StrongTo(h, o);
    }
  }

  lemma BeginRest(h: Heap, o: Obj)
    requires OwnersExist(h) && Watched(h) && ZeroIsNew(h) && o in h.counts
    ensures OwnersExist(Begin(h, o)) && Watched(Begin(h, o)) && ZeroIsNew(Begin(h, o))
  {
  }

  /** Whoever could be closed without `o` cannot: nothing keeps it. */
  lemma BeginClosed(h: Heap, o: Obj, e: set<Obj>)
    requires Valid(h) && o in h.due && h.counts[o] == 1 && Closed(h, e)
    ensures o in e && Closed(Begin(h, o), e)
  {
    NothingKeeps(h, o, e);
    assert o in e;
    hide InScopes, Valid;
    var h' := Begin(h, o);
    forall x <- h'.counts | x !in e ensures KeptFromOutside(h', e, x) {
      assert KeptFromOutside(h, e, x);
      if !(x !in h.retained || h.explicit[x] > 0 || InScopes(h.scopes)[x] > 0) {
        var s :| s in h.strong && OutsideSlot(h, e, s) && h.strong[s].target == Some(x);
        assert OutsideSlot(h', e, s);
      }
    }
  }

  lemma NothingKeeps(h: Heap, o: Obj, e: set<Obj>)
    requires Conserved(h) && ZeroIsNew(h) && o in h.due && h.counts[o] == 1
    ensures !KeptFromOutside(h, e, o)
  {
    LastReference(h, o);
    hide InScopes;
    assert forall s <- h.strong :: s !in StrongTo(h, o);
  }

  // ---- A destructor runs ----

  /** A Strong member is destroyed: its reference is now due. */
  function LoseStrong(h: Heap, s: Slot): Heap
    requires s in h.strong
  {
    var t := h.strong[s].target;
    h.(strong := h.strong - {s}, stale := h.stale - {s},
       due := if s !in h.stale && t.Some? then h.due + multiset{t.value} else h.due)
  }

  lemma LoseStrongKeeps(h: Heap, s: Slot)
    requires Valid(h) && s in h.strong
    ensures Valid(LoseStrong(h, s))
  {
    LoseStrongConserves(h, s);
    LoseStrongRest(h, s);
  }

  lemma LoseStrongTo(h: Heap, s: Slot, x: Obj)
    requires s in h.strong
    ensures |StrongTo(LoseStrong(h, s), x)| ==
            |StrongTo(h, x)| - if s !in h.stale && h.strong[s].target == Some(x) then 1 else 0
  {
    var h' := LoseStrong(h, s);
    if s !in h.stale && h.strong[s].target == Some(x) {
      assert StrongTo(h, x) == StrongTo(h', x) + {s};
    } else {
      assert StrongTo(h', x) == StrongTo(h, x);
    }
  }

  lemma LoseStrongConserves(h: Heap, s: Slot)
    requires Conserved(h) && s in h.strong
    ensures Conserved(LoseStrong(h, s))
  {
    hide InScopes, StrongTo;
    var h' := LoseStrong(h, s);
    forall x <- h'.counts ensures h'.counts[x] == References(h', x) {
      LoseStrongTo(h, s, x);
    }
  }

  lemma LoseStrongRest(h: Heap, s: Slot)
    requires OwnersExist(h) && Watched(h) && ZeroIsNew(h) && s in h.strong
    ensures OwnersExist(LoseStrong(h, s)) && Watched(LoseStrong(h, s)) && ZeroIsNew(LoseStrong(h, s))
  {
  }

  /** A member of a dying object kept nothing from outside. */
  lemma LoseStrongClosed(h: Heap, s: Slot, e: set<Obj>)
    requires s in h.strong && h.strong[s].owner.Some? && h.strong[s].owner.value !in h.counts && Closed(h, e)
    ensures Closed(LoseStrong(h, s), e)
  {
    hide InScopes;
    var h' := LoseStrong(h, s);
    forall x <- h'.counts | x !in e ensures KeptFromOutside(h', e, x) {
      assert KeptFromOutside(h, e, x);
      if !(x !in h.retained || h.explicit[x] > 0 || InScopes(h.scopes)[x] > 0) {
        var u :| u in h.strong && OutsideSlot(h, e, u) && h.strong[u].target == Some(x);
        assert OutsideSlot(h', e, u);
      }
    }
  }

  /** A Weak is destroyed: the object watched forgets it. */
  function LoseWeak(h: Heap, s: Slot): Heap
    requires s in h.weak
  {
    var t := h.weak[s].target;
    h.(weak := h.weak - {s},
       weaks := if t.Some? && t.value in h.weaks then h.weaks[t.value := h.weaks[t.value] - {s}] else h.weaks)
  }

  lemma LoseWeakKeeps(h: Heap, s: Slot)
    requires Valid(h) && s in h.weak
    ensures Valid(LoseWeak(h, s))
  {
    SameConserved(h, LoseWeak(h, s));
    LoseWeakRest(h, s);
  }

  lemma LoseWeakRest(h: Heap, s: Slot)
    requires OwnersExist(h) && Watched(h) && ZeroIsNew(h) && s in h.weak
    ensures OwnersExist(LoseWeak(h, s)) && Watched(LoseWeak(h, s)) && ZeroIsNew(LoseWeak(h, s))
  {
  }

  lemma SameConserved(h: Heap, h': Heap)
    requires Conserved(h) && h'.counts == h.counts && h'.strong == h.strong && h'.scopes == h.scopes
    requires h'.explicit == h.explicit && h'.due == h.due && h'.stale == h.stale
    ensures Conserved(h')
  {
    hide InScopes;
    forall x <- h'.counts ensures h'.counts[x] == References(h', x) {
      assert StrongTo(h', x) == StrongTo(h, x);
    }
  }

  /** `~Object`: the weak handles that hold `o` become null, and `o` is gone. */
  function End(h: Heap, o: Obj): Heap {
    h.(weak := map s | s in h.weak :: Forget(h.weak[s], {o}), weaks := h.weaks - {o}, dying := h.dying - {o})
  }

  lemma EndKeeps(h: Heap, o: Obj)
    requires Valid(h) && o in h.dying
    requires forall s <- h.strong :: h.strong[s].owner != Some(o)
    requires forall s <- h.weak :: h.weak[s].owner != Some(o)
    ensures Valid(End(h, o))
  {
    SameConserved(h, End(h, o));
    EndOwners(h, o);
    EndWatched(h, o);
  }

  lemma EndOwners(h: Heap, o: Obj)
    requires OwnersExist(h) && ZeroIsNew(h) && o in h.dying
    requires forall s <- h.strong :: h.strong[s].owner != Some(o)
    requires forall s <- h.weak :: h.weak[s].owner != Some(o)
    ensures OwnersExist(End(h, o)) && ZeroIsNew(End(h, o))
  {
  }

  lemma EndWatched(h: Heap, o: Obj)
    requires OwnersExist(h) && Watched(h) && o in h.dying
    ensures Watched(End(h, o))
  {
  }

  // ---- Destruction adds up ----

  lemma WithoutTwice(m: map<Slot, Handle>, a: set<Obj>, b: set<Obj>)
    ensures StrongWithout(StrongWithout(m, a), b) == StrongWithout(m, a + b)
    ensures WeakWithout(WeakWithout(m, a), b) == WeakWithout(m, a + b)
  {
  }

  lemma GoneTwice(h: Heap, h1: Heap, h2: Heap, a: set<Obj>, b: set<Obj>)
    requires Gone(h, h1, a) && Gone(h1, h2, b) && h.stale <= h.strong.Keys
    ensures Gone(h, h2, a + b)
  {
    hide Closed;
    WithoutTwice(h.strong, a, b);
    WithoutTwice(h.weak, a, b);
    assert h2.counts.Keys == h.counts.Keys - (a + b);
    assert h2.stale == h.stale * h2.strong.Keys;
    forall e: set<Obj> | Closed(h, e) ensures a + b <= e && Closed(h2, e) {
      assert Closed(h1, e);
    }
  }

  /** A slot that keeps nothing from outside makes no difference to what is closed. */
  lemma UselessSlot(h: Heap, h': Heap, s: Slot, e: set<Obj>)
    requires s in h.strong && !OutsideSlot(h, e, s)
    requires h'.strong == h.strong - {s} && h'.stale == h.stale - {s} && h'.counts.Keys == h.counts.Keys
    requires h'.scopes == h.scopes && h'.explicit == h.explicit && h'.retained == h.retained
    ensures Closed(h', e) == Closed(h, e)
  {
    hide InScopes;
    forall x <- h.counts | x !in e ensures KeptFromOutside(h', e, x) == KeptFromOutside(h, e, x) {
      if exists u :: u in h.strong && OutsideSlot(h, e, u) && h.strong[u].target == Some(x) {
        var u :| u in h.strong && OutsideSlot(h, e, u) && h.strong[u].target == Some(x);
        assert OutsideSlot(h', e, u);
      }
      if exists u :: u in h'.strong && OutsideSlot(h', e, u) && h'.strong[u].target == Some(x) {
        var u :| u in h'.strong && OutsideSlot(h', e, u) && h'.strong[u].target == Some(x);
        assert OutsideSlot(h, e, u);
      }
    }
  }

  /** A member of the dying `o` is lost before and after what has been destroyed so far. */
  lemma MemberLost(hk: Heap, cur: Heap, gone: set<Obj>, s: Slot, o: Obj)
    requires Gone(hk, cur, gone) && hk.stale <= hk.strong.Keys
    requires s in cur.strong && cur.strong[s].owner == Some(o) && o !in hk.counts && s !in cur.stale
    ensures s in hk.strong && s !in hk.stale
    ensures Gone(hk.(strong := hk.strong - {s}), LoseStrong(cur, s), gone)
  {
    var hk', cur' := hk.(strong := hk.strong - {s}), LoseStrong(cur, s);
    assert s in hk.strong && hk.strong[s] == cur.strong[s];
    assert cur'.strong == StrongWithout(hk'.strong, gone);
    hide InScopes, Closed;
    assert cur'.stale == hk'.stale * cur'.strong.Keys;
    forall e: set<Obj> | Closed(hk', e) ensures gone <= e && Closed(cur', e) {
      UselessSlot(hk, hk', s, e);
      assert Closed(cur, e);
      UselessSlot(cur, cur', s, e);
    }
  }

  /** All the steps of destroying `o` and what it alone kept, taken together. */
  lemma Destroyed(h: Heap, o: Obj, lost: set<Slot>, lostWeak: set<Slot>, cur: Heap, gone: set<Obj>, fin: Heap)
    requires Valid(h) && o in h.due && h.counts[o] == 1
    requires forall s <- lost :: s in h.strong && h.strong[s].owner == Some(o)
    requires lost !! h.stale
    requires Gone(Begin(h, o).(strong := h.strong - lost), cur, gone)
    requires forall s <- cur.strong :: cur.strong[s].owner != Some(o)
    requires forall s <- lostWeak :: s in cur.weak && cur.weak[s].owner == Some(o)
    requires forall s <- cur.weak | cur.weak[s].owner == Some(o) :: s in lostWeak
    requires fin.weak == map s | s in cur.weak && s !in lostWeak :: Forget(cur.weak[s], {o})
    requires fin.counts == cur.counts && fin.strong == cur.strong && fin.scopes == cur.scopes
    requires fin.explicit == cur.explicit && fin.retained == cur.retained && fin.stale == cur.stale
    requires fin.dying == cur.dying - {o}
    ensures Gone(h, fin, {o} + gone)
  {
    hide InScopes, Closed, Valid;
    DueIsAlive(h, o);
    StrongDestroyed(h.strong, o, lost, gone, cur.strong);
    WeakDestroyed(h.weak, o, lostWeak, gone, cur.weak, fin.weak);
    hide StrongWithout, WeakWithout;
    assert fin.counts.Keys == h.counts.Keys - ({o} + gone);
    assert fin.dying == h.dying;
    StaleDestroyed(h, o, lost, gone, cur);
    forall e: set<Obj> | Closed(h, e) ensures {o} + gone <= e && Closed(fin, e) {
      DestroyedClosed(h, o, lost, cur, gone, fin, e);
    }
  }

  lemma DueIsAlive(h: Heap, o: Obj)
    requires Valid(h) && o in h.due
    ensures o in h.counts && o !in h.dying && h.stale <= h.strong.Keys
  {
  }

  lemma StrongDestroyed(m: map<Slot, Handle>, o: Obj, lost: set<Slot>, gone: set<Obj>, m': map<Slot, Handle>)
    requires forall s <- lost :: s in m && m[s].owner == Some(o)
    requires m' == StrongWithout(m - lost, gone) && forall s <- m' :: m'[s].owner != Some(o)
    ensures m' == StrongWithout(m, {o} + gone)
  {
    forall s ensures s in m' <==> s in StrongWithout(m, {o} + gone) {
      if s in m' {
        assert m'[s] == m[s];
      }
    }
  }

  lemma WeakDestroyed(m: map<Slot, Handle>, o: Obj, lost: set<Slot>, gone: set<Obj>, m': map<Slot, Handle>,
                      fin: map<Slot, Handle>)
    requires m' == WeakWithout(m, gone)
    requires forall s <- lost :: s in m' && m'[s].owner == Some(o)
    requires forall s <- m' | m'[s].owner == Some(o) :: s in lost
    requires fin == map s | s in m' && s !in lost :: Forget(m'[s], {o})
    ensures fin == WeakWithout(m, {o} + gone)
  {
    forall s ensures s in fin <==> s in WeakWithout(m, {o} + gone) {
      if s in m' {
        assert m'[s].owner == m[s].owner;
      }
    }
  }

  lemma StaleDestroyed(h: Heap, o: Obj, lost: set<Slot>, gone: set<Obj>, cur: Heap)
    requires lost !! h.stale && h.stale <= h.strong.Keys
    requires Gone(Begin(h, o).(strong := h.strong - lost), cur, gone)
    ensures cur.stale == h.stale * cur.strong.Keys
  {
    hide Closed, InScopes;
  }

  lemma DestroyedClosed(h: Heap, o: Obj, lost: set<Slot>, cur: Heap, gone: set<Obj>, fin: Heap, e: set<Obj>)
    requires Valid(h) && o in h.due && h.counts[o] == 1 && Closed(h, e)
    requires forall s <- lost :: s in h.strong && h.strong[s].owner == Some(o)
    requires lost !! h.stale
    requires Gone(Begin(h, o).(strong := h.strong - lost), cur, gone)
    requires fin.counts == cur.counts && fin.strong == cur.strong && fin.scopes == cur.scopes
    requires fin.explicit == cur.explicit && fin.retained == cur.retained && fin.stale == cur.stale
    ensures {o} + gone <= e && Closed(fin, e)
  {
    var hb := Begin(h, o);
    var hk := hb.(strong := h.strong - lost);
    BeginClosed(h, o, e);
    hide Closed, InScopes, Valid;
    LostClosed(hb, hk, o, lost, e);
    assert Closed(cur, e);
    SameClosed(cur, fin, e);
  }

  lemma LostClosed(hb: Heap, hk: Heap, o: Obj, lost: set<Slot>, e: set<Obj>)
    requires Closed(hb, e) && o !in hb.counts && lost !! hb.stale
    requires forall s <- lost :: s in hb.strong && hb.strong[s].owner == Some(o)
    requires hk == hb.(strong := hb.strong - lost)
    ensures Closed(hk, e)
  {
    hide InScopes;
    forall x <- hk.counts | x !in e ensures KeptFromOutside(hk, e, x) {
      assert KeptFromOutside(hb, e, x);
      if exists u :: u in hb.strong && OutsideSlot(hb, e, u) && hb.strong[u].target == Some(x) {
        var u :| u in hb.strong && OutsideSlot(hb, e, u) && hb.strong[u].target == Some(x);
        assert OutsideSlot(hk, e, u);
      }
    }
  }
}
