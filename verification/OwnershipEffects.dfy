/** What the owners' operations come to, in counts and references, without the steps in between. */
module OwnershipEffects {
  import opened Bytes
  import opened OwnershipSpec
  import opened OwnershipLaws
  import opened OwnershipOps

  // ---- References given up ----

  /** `h` has given up references that are still to be released. */
  predicate GivingUp(h: Heap) {
    Valid(h) && h.stale == {} && h.dying == {}
  }

  lemma StrongAfter(h: Heap, h': Heap, gone: set<Obj>, x: Obj)
    requires h'.strong == StrongWithout(h.strong, gone) && h.stale == h'.stale == {}
    ensures StrongTo(h', x) <= StrongTo(h, x)
    ensures gone == {} ==> h'.strong == h.strong && StrongTo(h', x) == StrongTo(h, x)
  {
  }

  /** An object whose references are all given up is destroyed. */
  lemma LastGoes(h: Heap, h': Heap, gone: set<Obj>, x: Obj)
    requires GivingUp(h) && Gone(h, h', gone) && Quiet(h')
    requires x in h.counts && x in h.retained && h.due[x] == h.counts[x]
    ensures x in gone
  {
    hide InScopes, Closed, OwnersExist, Watched;
    StrongAfter(h, h', gone, x);
    hide StrongTo, StrongWithout, WeakWithout;
    assert h.counts[x] == References(h, x);
    assert x in h'.counts ==> h'.counts[x] == References(h', x) == 0;
  }

  /** Where every object has a reference that is not given up, none is destroyed. */
  lemma OthersKeep(h: Heap)
    requires GivingUp(h) && forall x <- h.counts | h.due[x] > 0 :: h.counts[x] > h.due[x]
    ensures Closed(h, {})
  {
    hide InScopes, Watched;
    forall x <- h.counts ensures KeptFromOutside(h, {}, x) {
      assert h.counts[x] == References(h, x);
      if x in h.retained && h.explicit[x] == 0 && InScopes(h.scopes)[x] == 0 {
        assert StrongTo(h, x) != {};
        var s :| s in StrongTo(h, x);
        assert OutsideSlot(h, {}, s);
      }
    }
  }

  /** If none is destroyed each count has gone down by the references given up. */
  lemma CountsAfter(h: Heap, h': Heap)
    requires GivingUp(h) && Gone(h, h', {}) && Quiet(h')
    ensures h'.counts.Keys == h.counts.Keys && forall x <- h.counts :: h'.counts[x] == h.counts[x] - h.due[x]
  {
    hide InScopes, Closed, OwnersExist, Watched, ZeroIsNew;
    forall x <- h.counts ensures h'.counts[x] == h.counts[x] - h.due[x] {
      StrongAfter(h, h', {}, x);
      hide StrongTo, StrongWithout, WeakWithout;
      assert h.counts[x] == References(h, x) && h'.counts[x] == References(h', x);
    }
  }

  /** One reference to `t` is given up: what comes of it. */
  ghost predicate OneLess(counts: map<Obj, int>, t: Obj, counts': map<Obj, int>, gone: set<Obj>)
    requires t in counts
  {
    && (counts[t] == 1 ==> t in gone)
    && (gone == {} <==> counts[t] > 1)
    && (gone == {} ==> counts' == counts[t := counts[t] - 1])
    && gone <= counts.Keys && counts'.Keys == counts.Keys - gone
  }

  lemma GivesUpOne(h: Heap, h': Heap, gone: set<Obj>, t: Obj)
    requires GivingUp(h) && h.due == multiset{t} && t in h.counts && Gone(h, h', gone) && Quiet(h')
    requires forall e: set<Obj> | Closed(h, e) :: gone <= e
    ensures OneLess(h.counts, t, h'.counts, gone)
  {
    hide Valid, Closed, Quiet, Gone, GivingUp;
    GivingUpIs(h);
    DueIsRetained(h, t);
    KeysAfter(h, h', gone);
    if h.counts[t] == 1 {
      LastGoes(h, h', gone, t);
    } else {
      OthersKeep(h);
      assert gone == {};
      CountsAfter(h, h');
    }
  }

  lemma GivingUpIs(h: Heap)
    requires GivingUp(h)
    ensures Valid(h)
  {
  }

  lemma KeysAfter(h: Heap, h': Heap, gone: set<Obj>)
    requires Gone(h, h', gone)
    ensures gone <= h.counts.Keys && h'.counts.Keys == h.counts.Keys - gone
  {
  }

  lemma DueIsRetained(h: Heap, t: Obj)
    requires Valid(h) && t in h.due && t in h.counts
    ensures t in h.retained && h.counts[t] >= 1
  {
    hide InScopes, StrongTo, OwnersExist, Watched;
    assert h.counts[t] == References(h, t);
  }

  lemma GivesUpNone(h: Heap, h': Heap, gone: set<Obj>)
    requires GivingUp(h) && h.due == multiset{} && Gone(h, h', gone) && Quiet(h')
    requires forall e: set<Obj> | Closed(h, e) :: gone <= e
    ensures gone == {} && h'.counts == h.counts
  {
    hide Valid, Closed, Quiet;
    OthersKeep(h);
    assert gone <= {};
    CountsAfter(h, h');
  }

  // ---- Assignment ----

  /** The slot holds `o`; counts, retains and scopes are as they should then be, but for the release still due. */
  lemma AssignedFrame(h: Heap, s: Slot, o: Option<Obj>)
    requires s in h.strong && h.stale == {} && (o.Some? ==> o.value in h.counts)
    ensures var a, t := Assigned(h, s, o), h.strong[s].target;
            && a.strong == h.strong[s := Handle(h.strong[s].owner, o)] && a.stale == {} && a.dying == h.dying
            && a.counts == (if o.Some? then h.counts[o.value := h.counts[o.value] + 1] else h.counts)
            && a.explicit == h.explicit && a.scopes == h.scopes && a.weak == h.weak
            && a.due == (if t.Some? then h.due + multiset{t.value} else h.due)
  {
    if o.Some? {
      assert h.explicit + multiset{o.value} - multiset{o.value} == h.explicit;
    }
  }

  lemma AssignedKeeps(h: Heap, s: Slot, o: Option<Obj>)
    requires Quiet(h) && s in h.strong && (o.Some? ==> o.value in h.counts)
    ensures GivingUp(Assigned(h, s, o))
  {
    AssignedFrame(h, s, o);
    hide Valid, Assigned;
    PendingKeeps(h, s, o);
    assert s in Pending(h, s, o).stale && Pending(h, s, o).strong == h.strong;
    assert o.Some? ==> o.value in Pending(h, s, o).explicit;
    SettledKeeps(Pending(h, s, o), s, o);
    AssignedIs(h, s, o);
  }

  lemma AssignedIs(h: Heap, s: Slot, o: Option<Obj>)
    requires s in h.strong && (o.Some? ==> o.value in h.counts)
    ensures Pending(h, s, o).strong == h.strong && Assigned(h, s, o) == Settled(Pending(h, s, o), s, o)
  {
  }

  // ---- Closing a scope ----

  /** Each entry gives up one reference; an object held by nothing else is destroyed. */
  lemma ScopeClosed(h: Heap, h': Heap, gone: set<Obj>, x: Obj)
    requires Quiet(h) && Quiet(h') && h.scopes != [] && x in h.counts
    requires Gone(h.(scopes := h.scopes[..|h.scopes| - 1]), h', gone)
    ensures var n := multiset(h.scopes[|h.scopes| - 1])[x];
            && (n > 0 && h.counts[x] == n ==> x in gone)
            && (gone == {} ==> x in h'.counts && h'.counts[x] == h.counts[x] - n)
  {
    hide InScopes, StrongTo, Closed, Gone, Valid, StrongWithout, WeakWithout;
    var outer := h.(scopes := h.scopes[..|h.scopes| - 1]);
    PartsAfter(outer, h', gone);
    StrongAfter(h, h', gone, x);
    InnermostCounts(h, h.scopes[|h.scopes| - 1]);
    CountIs(h, x);
    if x in h'.counts {
      CountIs(h', x);
    }
  }

  lemma PartsAfter(h: Heap, h': Heap, gone: set<Obj>)
    requires Gone(h, h', gone)
    ensures gone <= h.counts.Keys && h'.counts.Keys == h.counts.Keys - gone && h'.scopes == h.scopes
    ensures h'.explicit == h.explicit && h'.retained == h.retained && h'.strong == StrongWithout(h.strong, gone)
  {
  }

  lemma CountIs(h: Heap, x: Obj)
    requires Quiet(h) && x in h.counts
    ensures h.counts[x] == |StrongTo(h, x)| + InScopes(h.scopes)[x] + h.explicit[x]
    ensures h.counts[x] == 0 ==> x !in h.retained
    ensures InScopes(h.scopes)[x] > 0 ==> x in h.retained
  {
    hide InScopes, StrongTo, OwnersExist, Watched;
    assert h.counts[x] == References(h, x);
  }
}
