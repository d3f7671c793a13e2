/** What the owners of objects do to the heap between destructions. */
module OwnershipOps {
  import opened Bytes
  import opened OwnershipSpec
  import opened OwnershipLaws

  // ---- New objects and retains by hand ----

  function Created(h: Heap, o: Obj): Heap {
    h.(counts := h.counts[o := 0], weaks := h.weaks[o := {}])
  }

  lemma CreatedKeeps(h: Heap, o: Obj)
    requires Valid(h) && !Existing(h, o) && o !in h.retained
    ensures Valid(Created(h, o))
  {
    CreatedConserves(h, o);
    CreatedRest(h, o);
  }

  lemma CreatedConserves(h: Heap, o: Obj)
    requires Conserved(h) && o !in h.counts
    ensures Conserved(Created(h, o))
  {
    var h' := Created(h, o);
    NoReferences(h, o);
    hide InScopes, StrongTo;
    forall x <- h'.counts ensures h'.counts[x] == References(h', x) {
      SameStrongTo(h, h', x);
    }
  }

  lemma NoReferences(h: Heap, o: Obj)
    requires Conserved(h) && o !in h.counts
    ensures StrongTo(h, o) == {} && InScopes(h.scopes)[o] == 0 && h.explicit[o] == 0 && h.due[o] == 0
  {
    hide InScopes, References;
    assert o !in InScopes(h.scopes) && o !in h.explicit && o !in h.due;
  }

  lemma CreatedRest(h: Heap, o: Obj)
    requires OwnersExist(h) && Watched(h) && ZeroIsNew(h) && !Existing(h, o) && o !in h.retained
    ensures OwnersExist(Created(h, o)) && Watched(Created(h, o)) && ZeroIsNew(Created(h, o))
  {
  }

  function Retained(h: Heap, o: Obj): Heap
    requires o in h.counts
  {
    h.(counts := h.counts[o := h.counts[o] + 1], explicit := h.explicit + multiset{o}, retained := h.retained + {o})
  }

  lemma RetainedKeeps(h: Heap, o: Obj)
    requires Valid(h) && o in h.counts
    ensures Valid(Retained(h, o))
  {
    hide Conserved, OwnersExist, Watched, ZeroIsNew;
    RetainedConserves(h, o);
    CountNotNegative(h, o);
    RetainRest(h, Retained(h, o), o);
  }

  lemma RetainedConserves(h: Heap, o: Obj)
    requires Conserved(h) && o in h.counts
    ensures Conserved(Retained(h, o))
  {
    var h' := Retained(h, o);
    hide InScopes, StrongTo;
    forall x <- h'.counts ensures h'.counts[x] == References(h', x) {
      SameStrongTo(h, h', x);
      assert h.counts[x] == References(h, x);
      assert h'.explicit[x] == h.explicit[x] + if x == o then 1 else 0;
    }
    hide References;
  }

  lemma CountNotNegative(h: Heap, o: Obj)
    requires Conserved(h) && o in h.counts
    ensures h.counts[o] >= 0
  {
    assert h.counts[o] == References(h, o);
  }

  lemma RetainRest(h: Heap, h': Heap, o: Obj)
    requires OwnersExist(h) && Watched(h) && ZeroIsNew(h) && o in h.counts && h.counts[o] >= 0
    requires h'.counts == h.counts[o := h.counts[o] + 1] && h'.retained == h.retained + {o}
    requires h'.dying == h.dying && h'.strong == h.strong && h'.stale == h.stale
    requires h'.weak == h.weak && h'.weaks == h.weaks
    ensures OwnersExist(h') && Watched(h') && ZeroIsNew(h')
  {
  }

  /** A retain by hand is given up. */
  function GivenUp(h: Heap, o: Obj): Heap {
    h.(explicit := h.explicit - multiset{o}, due := h.due + multiset{o})
  }

  lemma GivenUpKeeps(h: Heap, o: Obj)
    requires Valid(h) && o in h.explicit
    ensures Valid(GivenUp(h, o)) && o in GivenUp(h, o).due
  {
    GivenUpConserves(h, o);
    SameRest(h, GivenUp(h, o));
  }

  lemma GivenUpConserves(h: Heap, o: Obj)
    requires Conserved(h) && o in h.explicit
    ensures Conserved(GivenUp(h, o))
  {
    var h' := GivenUp(h, o);
    hide InScopes, StrongTo;
    forall x <- h'.counts ensures h'.counts[x] == References(h', x) {
      SameStrongTo(h, h', x);
    }
    forall x <- h'.explicit ensures x in h'.counts {
      assert x in h.explicit;
    }
  }

  // ---- A Strong is given another target ----

  function NewHandle(h: Heap, s: Slot, owner: Option<Obj>): Heap {
    h.(strong := h.strong[s := Handle(owner, None)])
  }

  lemma NewHandleKeeps(h: Heap, s: Slot, owner: Option<Obj>)
    requires Valid(h) && s !in h.strong && (owner.Some? ==> owner.value in h.counts)
    ensures Valid(NewHandle(h, s, owner))
  {
    NewHandleConserves(h, s, owner);
    NewHandleRest(h, s, owner);
  }

  lemma NewHandleConserves(h: Heap, s: Slot, owner: Option<Obj>)
    requires Conserved(h) && s !in h.strong
    ensures Conserved(NewHandle(h, s, owner))
  {
    var h' := NewHandle(h, s, owner);
    forall x <- h'.counts ensures StrongTo(h', x) == StrongTo(h, x) {
    }
    hide InScopes, StrongTo;
    assert forall x <- h'.counts :: h'.counts[x] == References(h', x);
  }

  lemma NewHandleRest(h: Heap, s: Slot, owner: Option<Obj>)
    requires OwnersExist(h) && Watched(h) && ZeroIsNew(h) && (owner.Some? ==> owner.value in h.counts)
    ensures var h' := NewHandle(h, s, owner); OwnersExist(h') && Watched(h') && ZeroIsNew(h')
  {
  }

  /** The new target retained, the slot still holding the old one whose release is due. */
  function Pending(h: Heap, s: Slot, o: Option<Obj>): Heap
    requires s in h.strong && (o.Some? ==> o.value in h.counts)
  {
    MarkStale(if o.Some? then Retained(h, o.value) else h, s)
  }

  function MarkStale(h: Heap, s: Slot): Heap
    requires s in h.strong
  {
    var t := h.strong[s].target;
    h.(stale := h.stale + {s}, due := if t.Some? then h.due + multiset{t.value} else h.due)
  }

  lemma MarkStaleKeeps(h: Heap, s: Slot)
    requires Valid(h) && s in h.strong && s !in h.stale
    ensures Valid(MarkStale(h, s))
  {
    MarkStaleConserves(h, s);
    MarkStaleRest(h, s);
  }

  lemma MarkStaleTo(h: Heap, s: Slot, x: Obj)
    requires s in h.strong && s !in h.stale
    ensures |StrongTo(MarkStale(h, s), x)| == |StrongTo(h, x)| - if h.strong[s].target == Some(x) then 1 else 0
  {
    if h.strong[s].target == Some(x) {
      assert StrongTo(h, x) == StrongTo(MarkStale(h, s), x) + {s};
    } else {
      assert StrongTo(h, x) == StrongTo(MarkStale(h, s), x);
    }
  }

  lemma MarkStaleConserves(h: Heap, s: Slot)
    requires Conserved(h) && s in h.strong && s !in h.stale
    ensures Conserved(MarkStale(h, s))
  {
    var h' := MarkStale(h, s);
    hide InScopes, StrongTo;
    forall x <- h'.counts ensures h'.counts[x] == References(h', x) {
      MarkStaleTo(h, s, x);
    }
  }

  lemma MarkStaleRest(h: Heap, s: Slot)
    requires OwnersExist(h) && Watched(h) && ZeroIsNew(h) && s in h.strong
    ensures OwnersExist(MarkStale(h, s)) && Watched(MarkStale(h, s)) && ZeroIsNew(MarkStale(h, s))
  {
  }

  lemma PendingKeeps(h: Heap, s: Slot, o: Option<Obj>)
    requires Valid(h) && s in h.strong && s !in h.stale && (o.Some? ==> o.value in h.counts)
    ensures Valid(Pending(h, s, o))
  {
    hide Valid;
    if o.Some? {
      RetainedKeeps(h, o.value);
      MarkStaleKeeps(Retained(h, o.value), s);
    } else {
      MarkStaleKeeps(h, s);
    }
  }

  /** The slot takes its new target: what was retained by hand is now the slot's reference. */
  function Settled(h: Heap, s: Slot, o: Option<Obj>): Heap
    requires s in h.strong
  {
    h.(strong := h.strong[s := Handle(h.strong[s].owner, o)], stale := h.stale - {s},
       explicit := if o.Some? then h.explicit - multiset{o.value} else h.explicit)
  }

  lemma SettledKeeps(h: Heap, s: Slot, o: Option<Obj>)
    requires Valid(h) && s in h.stale && (o.Some? ==> o.value in h.explicit)
    ensures s in h.strong && Valid(Settled(h, s, o))
  {
    SettledConserves(h, s, o);
    SettledRest(h, s, o);
  }

  lemma SettledRest(h: Heap, s: Slot, o: Option<Obj>)
    requires OwnersExist(h) && Watched(h) && ZeroIsNew(h) && s in h.strong
    ensures OwnersExist(Settled(h, s, o)) && Watched(Settled(h, s, o)) && ZeroIsNew(Settled(h, s, o))
  {
  }

  lemma SettledTo(h: Heap, s: Slot, o: Option<Obj>, x: Obj)
    requires s in h.strong && s in h.stale
    ensures |StrongTo(Settled(h, s, o), x)| == |StrongTo(h, x)| + if o == Some(x) then 1 else 0
  {
    if o == Some(x) {
      assert StrongTo(Settled(h, s, o), x) == StrongTo(h, x) + {s};
    } else {
      assert StrongTo(Settled(h, s, o), x) == StrongTo(h, x);
    }
  }

  lemma SettledCount(h: Heap, s: Slot, o: Option<Obj>, x: Obj)
    requires s in h.strong && s in h.stale && (o.Some? ==> o.value in h.explicit)
    ensures References(Settled(h, s, o), x) == References(h, x)
  {
    SettledTo(h, s, o, x);
    hide InScopes, StrongTo;
  }

  lemma SettledConserves(h: Heap, s: Slot, o: Option<Obj>)
    requires Conserved(h) && s in h.strong && s in h.stale && (o.Some? ==> o.value in h.explicit)
    ensures Conserved(Settled(h, s, o))
  {
    var h' := Settled(h, s, o);
    forall x <- h'.counts ensures References(h', x) == References(h, x) {
      SettledCount(h, s, o, x);
    }
    hide References, InScopes, StrongTo;
    forall x <- h'.explicit ensures x in h'.counts {
      assert x in h.explicit;
    }
  }

  /** The slot assigned first, the old target's release still due. */
  function Assigned(h: Heap, s: Slot, o: Option<Obj>): Heap
    requires s in h.strong && (o.Some? ==> o.value in h.counts)
  {
    Settled(Pending(h, s, o), s, o)
  }

  /** The owner of the slot, if any, is not among `e`. */
  predicate OwnerOutside(h: Heap, s: Slot, e: set<Obj>)
    requires s in h.strong
  {
    h.strong[s].owner.Some? ==> h.strong[s].owner.value in h.counts && h.strong[s].owner.value !in e
  }

  lemma AssignedClosed(h: Heap, s: Slot, o: Option<Obj>, e: set<Obj>)
    requires s in h.strong && s !in h.stale && (o.Some? ==> o.value in h.counts)
    requires Closed(Assigned(h, s, o), e)
    ensures Closed(Pending(h, s, o), e)
  {
    var a, p := Assigned(h, s, o), Pending(h, s, o);
    hide InScopes;
    forall x <- p.counts | x !in e ensures KeptFromOutside(p, e, x) {
      assert KeptFromOutside(a, e, x);
      if o != Some(x) && !(x !in a.retained || a.explicit[x] > 0 || InScopes(a.scopes)[x] > 0) {
        var u :| u in a.strong && OutsideSlot(a, e, u) && a.strong[u].target == Some(x);
        assert u != s;
        assert OutsideSlot(p, e, u);
      }
    }
  }

  /** Assigning after the release ends as if the slot had been assigned before it. */
  lemma SettledIsAssigned(h: Heap, s: Slot, o: Option<Obj>, cur: Heap, gone: set<Obj>)
    requires Valid(h) && s in h.strong && s !in h.stale && (o.Some? ==> o.value in h.counts)
    requires Gone(Pending(h, s, o), cur, gone) && s in cur.strong
    ensures Gone(Assigned(h, s, o), Settled(cur, s, o), gone)
  {
    var a, fin := Assigned(h, s, o), Settled(cur, s, o);
    SettledMaps(h, s, o, cur, gone);
    hide InScopes, Closed, Valid, StrongWithout, WeakWithout;
    forall e: set<Obj> | Closed(a, e) ensures gone <= e && Closed(fin, e) {
      AssignedClosed(h, s, o, e);
      assert gone <= e;
      SettledClosed(a, fin, gone, e);
    }
  }

  lemma SettledMaps(h: Heap, s: Slot, o: Option<Obj>, cur: Heap, gone: set<Obj>)
    requires s in h.strong && s !in h.stale && (o.Some? ==> o.value in h.counts) && s in cur.strong
    requires cur.strong == StrongWithout(h.strong, gone)
    requires cur.stale == (h.stale + {s}) * cur.strong.Keys
    ensures Settled(cur, s, o).strong == StrongWithout(Assigned(h, s, o).strong, gone)
    ensures Settled(cur, s, o).stale == Assigned(h, s, o).stale * Settled(cur, s, o).strong.Keys
  {
    WithoutAssigned(h.strong, s, o, gone);
    hide StrongWithout;
  }

  lemma WithoutAssigned(m: map<Slot, Handle>, s: Slot, o: Option<Obj>, gone: set<Obj>)
    requires s in StrongWithout(m, gone)
    ensures s in m && StrongWithout(m, gone)[s] == m[s]
    ensures StrongWithout(m, gone)[s := Handle(m[s].owner, o)] == StrongWithout(m[s := Handle(m[s].owner, o)], gone)
  {
  }

  lemma SettledClosed(a: Heap, fin: Heap, gone: set<Obj>, e: set<Obj>)
    requires Closed(a, e) && gone <= e
    requires fin.counts.Keys == a.counts.Keys - gone && fin.strong == StrongWithout(a.strong, gone)
    requires fin.scopes == a.scopes && fin.explicit == a.explicit && fin.retained == a.retained
    requires fin.stale == a.stale * fin.strong.Keys
    ensures Closed(fin, e)
  {
    hide InScopes;
    forall x <- fin.counts | x !in e ensures KeptFromOutside(fin, e, x) {
      assert KeptFromOutside(a, e, x);
      if !(x !in a.retained || a.explicit[x] > 0 || InScopes(a.scopes)[x] > 0) {
        var u :| u in a.strong && OutsideSlot(a, e, u) && a.strong[u].target == Some(x);
        assert OutsideSlot(fin, e, u);
      }
    }
  }

  // ---- Weak handles ----

  function NewWatch(h: Heap, s: Slot, owner: Option<Obj>): Heap {
    h.(weak := h.weak[s := Handle(owner, None)])
  }

  lemma NewWatchKeeps(h: Heap, s: Slot, owner: Option<Obj>)
    requires Valid(h) && s !in h.weak && (owner.Some? ==> owner.value in h.counts)
    ensures Valid(NewWatch(h, s, owner))
  {
    SameConserved(h, NewWatch(h, s, owner));
    NewWatchRest(h, s, owner);
  }

  lemma NewWatchRest(h: Heap, s: Slot, owner: Option<Obj>)
    requires OwnersExist(h) && Watched(h) && ZeroIsNew(h)
    requires s !in h.weak && (owner.Some? ==> owner.value in h.counts)
    ensures var h' := NewWatch(h, s, owner); OwnersExist(h') && Watched(h') && ZeroIsNew(h')
  {
  }

  /** A weak handle moves from the object it holds to `o`, and both know. */
  function Watching(h: Heap, s: Slot, o: Option<Obj>): Heap
    requires s in h.weak && (o.Some? ==> o.value in h.weaks)
    requires h.weak[s].target.Some? ==> h.weak[s].target.value in h.weaks
  {
    var t := h.weak[s].target;
    var w := if o.Some? then h.weaks[o.value := h.weaks[o.value] + {s}] else h.weaks;
    h.(weak := h.weak[s := Handle(h.weak[s].owner, o)],
       weaks := if t.Some? then w[t.value := w[t.value] - {s}] else w)
  }

  lemma WatchingKeeps(h: Heap, s: Slot, o: Option<Obj>)
    requires Valid(h) && s in h.weak && h.weak[s].target != o && (o.Some? ==> o.value in h.weaks)
    ensures h.weak[s].target.Some? ==> h.weak[s].target.value in h.weaks
    ensures Valid(Watching(h, s, o))
  {
    SameConserved(h, Watching(h, s, o));
    WatchingRest(h, s, o);
  }

  lemma WatchingRest(h: Heap, s: Slot, o: Option<Obj>)
    requires OwnersExist(h) && Watched(h) && ZeroIsNew(h)
    requires s in h.weak && h.weak[s].target != o && (o.Some? ==> o.value in h.weaks)
    ensures var h' := Watching(h, s, o); OwnersExist(h') && Watched(h') && ZeroIsNew(h')
  {
  }

  // ---- Autorelease scopes ----

  /** The innermost scope holds `entries`. */
  function Innermost(h: Heap, entries: seq<Obj>): seq<seq<Obj>>
    requires h.scopes != []
  {
    h.scopes[..|h.scopes| - 1] + [entries]
  }

  lemma InnermostCounts(h: Heap, entries: seq<Obj>)
    requires h.scopes != []
    ensures InScopes(Innermost(h, entries)) == InScopes(h.scopes[..|h.scopes| - 1]) + multiset(entries)
    ensures InScopes(h.scopes) == InScopes(h.scopes[..|h.scopes| - 1]) + multiset(h.scopes[|h.scopes| - 1])
  {
    var scopes := Innermost(h, entries);
    assert scopes[..|scopes| - 1] == h.scopes[..|h.scopes| - 1];
  }

  function ScopeAdded(h: Heap, o: Obj): Heap
    requires o in h.counts && h.scopes != []
  {
    h.(scopes := Innermost(h, h.scopes[|h.scopes| - 1] + [o]),
       counts := h.counts[o := h.counts[o] + 1], retained := h.retained + {o})
  }

  lemma ScopeAddedCounts(h: Heap, o: Obj)
    requires o in h.counts && h.scopes != []
    ensures InScopes(ScopeAdded(h, o).scopes) == InScopes(h.scopes) + multiset{o}
  {
    InnermostCounts(h, h.scopes[|h.scopes| - 1] + [o]);
  }

  lemma ScopeAddedKeeps(h: Heap, o: Obj)
    requires Valid(h) && o in h.counts && h.scopes != []
    ensures Valid(ScopeAdded(h, o))
  {
    hide Conserved, OwnersExist, Watched, ZeroIsNew;
    ScopeAddedConserves(h, o);
    CountNotNegative(h, o);
    RetainRest(h, ScopeAdded(h, o), o);
  }

  lemma ScopeAddedConserves(h: Heap, o: Obj)
    requires Conserved(h) && o in h.counts && h.scopes != []
    ensures Conserved(ScopeAdded(h, o))
  {
    ScopeAddedCounts(h, o);
    hide Conserved, InScopes;
    OneMore(h, ScopeAdded(h, o), o);
  }

  lemma OneMore(h: Heap, h': Heap, o: Obj)
    requires Conserved(h) && o in h.counts && h'.counts == h.counts[o := h.counts[o] + 1]
    requires InScopes(h'.scopes) == InScopes(h.scopes) + multiset{o}
    requires h'.strong == h.strong && h'.stale == h.stale && h'.explicit == h.explicit && h'.due == h.due
    ensures Conserved(h')
  {
    hide InScopes, StrongTo;
    forall x <- h'.counts ensures h'.counts[x] == References(h', x) {
      SameStrongTo(h, h', x);
    }
    forall x <- InScopes(h'.scopes) ensures x in h'.counts {
      assert x in InScopes(h.scopes) || x == o;
    }
  }

  /** The oldest entry of the innermost scope is taken out, its release due. */
  function ScopeTaken(h: Heap): Heap
    requires h.scopes != [] && h.scopes[|h.scopes| - 1] != []
  {
    var entries := h.scopes[|h.scopes| - 1];
    h.(scopes := Innermost(h, entries[1..]), due := h.due + multiset{entries[0]})
  }

  lemma ScopeTakenCounts(h: Heap)
    requires h.scopes != [] && h.scopes[|h.scopes| - 1] != []
    ensures InScopes(h.scopes) == InScopes(ScopeTaken(h).scopes) + multiset{h.scopes[|h.scopes| - 1][0]}
  {
    var entries := h.scopes[|h.scopes| - 1];
    assert entries == [entries[0]] + entries[1..];
    InnermostCounts(h, entries[1..]);
  }

  lemma ScopeTakenKeeps(h: Heap)
    requires Valid(h) && h.scopes != [] && h.scopes[|h.scopes| - 1] != []
    ensures Valid(ScopeTaken(h))
  {
    ScopeTakenConserves(h);
    SameRest(h, ScopeTaken(h));
  }

  lemma ScopeTakenConserves(h: Heap)
    requires Conserved(h) && h.scopes != [] && h.scopes[|h.scopes| - 1] != []
    ensures Conserved(ScopeTaken(h))
  {
    hide Conserved, InScopes;
    ScopeTakenCounts(h);
    OneDue(h, ScopeTaken(h), h.scopes[|h.scopes| - 1][0]);
  }

  /** A scope's reference becomes a due one. */
  lemma OneDue(h: Heap, h': Heap, o: Obj)
    requires Conserved(h) && InScopes(h.scopes) == InScopes(h'.scopes) + multiset{o} && h'.due == h.due + multiset{o}
    requires h'.strong == h.strong && h'.stale == h.stale && h'.explicit == h.explicit && h'.counts == h.counts
    ensures Conserved(h')
  {
    hide InScopes, StrongTo;
    forall x <- h'.counts ensures h'.counts[x] == References(h', x) {
      SameStrongTo(h, h', x);
    }
    forall x <- InScopes(h'.scopes) ensures x in h'.counts {
      assert x in InScopes(h.scopes);
    }
    forall x <- h'.due ensures x in h'.counts {
      assert x in h.due || x in InScopes(h.scopes);
    }
  }

  /** Taking an entry out first makes no difference to what is destroyed already. */
  lemma EntryTaken(hk: Heap, cur: Heap, gone: set<Obj>)
    requires Gone(hk, cur, gone) && hk.scopes != [] && hk.scopes[|hk.scopes| - 1] != []
    ensures Gone(hk.(scopes := ScopeTaken(hk).scopes), ScopeTaken(cur), gone)
  {
    var hk', cur' := hk.(scopes := ScopeTaken(hk).scopes), ScopeTaken(cur);
    ScopeTakenCounts(hk);
    hide InScopes, Closed;
    forall e: set<Obj> | Closed(hk', e) ensures gone <= e && Closed(cur', e) {
      FewerEntries(hk', hk, e);
      assert gone <= e;
      SettledClosed(hk', cur', gone, e);
    }
  }

  /** With more scope entries no less is kept. */
  lemma FewerEntries(h: Heap, h': Heap, e: set<Obj>)
    requires Closed(h, e) && InScopes(h.scopes) <= InScopes(h'.scopes)
    requires h' == h.(scopes := h'.scopes)
    ensures Closed(h', e)
  {
    hide InScopes;
    forall x <- h'.counts | x !in e ensures KeptFromOutside(h', e, x) {
      assert KeptFromOutside(h, e, x);
      if exists u :: u in h.strong && OutsideSlot(h, e, u) && h.strong[u].target == Some(x) {
        var u :| u in h.strong && OutsideSlot(h, e, u) && h.strong[u].target == Some(x);
        assert OutsideSlot(h', e, u);
      }
    }
  }

  lemma ScopesChanged(h: Heap, scopes: seq<seq<Obj>>)
    requires Valid(h) && InScopes(scopes) == InScopes(h.scopes)
    ensures Valid(h.(scopes := scopes))
  {
    ScopesConserved(h, scopes);
    SameRest(h, h.(scopes := scopes));
  }

  lemma ScopesConserved(h: Heap, scopes: seq<seq<Obj>>)
    requires Conserved(h) && InScopes(scopes) == InScopes(h.scopes)
    ensures Conserved(h.(scopes := scopes))
  {
    var h' := h.(scopes := scopes);
    hide InScopes, StrongTo;
    forall x <- h'.counts ensures h'.counts[x] == References(h', x) {
      SameStrongTo(h, h', x);
    }
  }

  lemma EmptyScope(scopes: seq<seq<Obj>>)
    requires scopes != [] && scopes[|scopes| - 1] == []
    ensures InScopes(scopes) == InScopes(scopes[..|scopes| - 1])
  {
  }

  lemma ScopesChangedGone(h: Heap, h': Heap, gone: set<Obj>, scopes: seq<seq<Obj>>)
    requires Gone(h, h', gone) && InScopes(scopes) == InScopes(h.scopes)
    ensures Gone(h.(scopes := scopes), h'.(scopes := scopes), gone)
  {
    var k, k' := h.(scopes := scopes), h'.(scopes := scopes);
    hide InScopes, Closed;
    forall e: set<Obj> | Closed(k, e) ensures gone <= e && Closed(k', e) {
      FewerEntries(k, h, e);
      FewerEntries(h', k', e);
    }
  }

  // ---- What exactly is destroyed ----

  /**
   Once all is quiet, the objects destroyed are the least set outside of which
   everything is kept: nothing that a survivor, a scope or a retain holds, and
   nothing kept only by a cycle.
   */
  lemma LeastDestroyed(h: Heap, h': Heap, gone: set<Obj>)
    requires Gone(h, h', gone) && Quiet(h') && h.stale == {}
    ensures Closed(h, gone)
    ensures forall e: set<Obj> | Closed(h, e) :: gone <= e
  {
    forall x <- h.counts | x !in gone ensures KeptFromOutside(h, gone, x) {
      SurvivorKept(h, h', gone, x);
    }
  }

  lemma SurvivorKept(h: Heap, h': Heap, gone: set<Obj>, x: Obj)
    requires Gone(h, h', gone) && Quiet(h') && h.stale == {} && x in h.counts && x !in gone
    ensures KeptFromOutside(h, gone, x)
  {
    hide InScopes, Closed, Watched;
    assert x in h'.counts && h'.counts[x] == References(h', x);
    if x in h.retained && h.explicit[x] == 0 && InScopes(h.scopes)[x] == 0 {
      assert StrongTo(h', x) != {};
      var s :| s in StrongTo(h', x);
      assert s in h.strong && h.strong[s] == h'.strong[s];
      assert OutsideSlot(h, gone, s);
    }
  }
}
