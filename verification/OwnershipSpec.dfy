/** Objects, the handles that own them or watch them, and what must always agree. */
module OwnershipSpec {
  import opened Bytes

  type Obj = nat
  type Slot = nat

  /** A Strong or Weak: a member of `owner`, or of no object. */
  datatype Handle = Handle(owner: Option<Obj>, target: Option<Obj>)

  /**
   `counts` are the retain counts of the objects whose destructor has not begun,
   `dying` those whose destructor is running. `explicit` are retains by hand;
   `due` are references given up whose release is still to come; the targets of
   `stale` slots are already released. `retained` have been retained at least once.
   */
  datatype Heap = Heap(
    counts: map<Obj, int>, weaks: map<Obj, set<Slot>>,
    strong: map<Slot, Handle>, weak: map<Slot, Handle>, scopes: seq<seq<Obj>>,
    explicit: multiset<Obj>, due: multiset<Obj>, stale: set<Slot>, dying: set<Obj>, retained: set<Obj>)

  function StrongTo(h: Heap, x: Obj): set<Slot> {
    set s | s in h.strong && s !in h.stale && h.strong[s].target == Some(x)
  }

  function InScopes(scopes: seq<seq<Obj>>): multiset<Obj> {
    if scopes == [] then multiset{} else InScopes(scopes[..|scopes| - 1]) + multiset(scopes[|scopes| - 1])
  }

  /** The references to `x`. */
  function References(h: Heap, x: Obj): nat {
    |StrongTo(h, x)| + InScopes(h.scopes)[x] + h.explicit[x] + h.due[x]
  }

  predicate Existing(h: Heap, x: Obj) { x in h.counts || x in h.dying }

  /** Every count is the number of references, and no reference is to an object that is gone. */
  predicate Conserved(h: Heap) {
    && (forall x <- h.counts :: h.counts[x] == References(h, x))
    && (forall s <- h.strong | s !in h.stale && h.strong[s].target.Some? :: h.strong[s].target.value in h.counts)
    && (forall x <- InScopes(h.scopes) :: x in h.counts)
    && (forall x <- h.explicit :: x in h.counts)
    && (forall x <- h.due :: x in h.counts)
  }

  predicate OwnersExist(h: Heap) {
    && h.dying !! h.counts.Keys && h.stale <= h.strong.Keys
    && (forall s <- h.strong | h.strong[s].owner.Some? :: Existing(h, h.strong[s].owner.value))
    && (forall s <- h.weak | h.weak[s].owner.Some? :: Existing(h, h.weak[s].owner.value))
  }

  /** A weak handle holds an object exactly when the object knows of it. */
  predicate Watched(h: Heap) {
    && h.weaks.Keys == h.counts.Keys + h.dying
    && (forall s <- h.weak | h.weak[s].target.Some? ::
          h.weak[s].target.value in h.weaks && s in h.weaks[h.weak[s].target.value])
    && (forall x <- h.weaks, s <- h.weaks[x] :: s in h.weak && h.weak[s].target == Some(x))
  }

  /** An object at zero has never been retained. */
  predicate ZeroIsNew(h: Heap) {
    forall x <- h.counts :: h.counts[x] == 0 <==> x !in h.retained
  }

  predicate Valid(h: Heap) {
    Conserved(h) && OwnersExist(h) && Watched(h) && ZeroIsNew(h)
  }

  /** No release or destructor is under way. */
  predicate Quiet(h: Heap) {
    Valid(h) && h.due == multiset{} && h.stale == {} && h.dying == {}
  }

  // ---- What a release destroys ----

  /** Something outside `e` keeps `x`, or nothing ever has. */
  predicate KeptFromOutside(h: Heap, e: set<Obj>, x: Obj) {
    || x !in h.retained || h.explicit[x] > 0 || InScopes(h.scopes)[x] > 0
    || exists s :: s in h.strong && OutsideSlot(h, e, s) && h.strong[s].target == Some(x)
  }

  predicate OutsideSlot(h: Heap, e: set<Obj>, s: Slot)
    requires s in h.strong
  {
    s !in h.stale &&
    (h.strong[s].owner.None? || (h.strong[s].owner.value in h.counts && h.strong[s].owner.value !in e))
  }

  /** Everything outside `e` is kept from outside `e`. */
  predicate Closed(h: Heap, e: set<Obj>) {
    forall x <- h.counts | x !in e :: KeptFromOutside(h, e, x)
  }

  function StrongWithout(m: map<Slot, Handle>, gone: set<Obj>): map<Slot, Handle> {
    map s | s in m && !OwnedIn(m[s], gone) :: m[s]
  }

  predicate OwnedIn(k: Handle, gone: set<Obj>) {
    k.owner.Some? && k.owner.value in gone
  }

  /** Handles of destroyed objects disappear; weak handles to them become null. */
  function WeakWithout(m: map<Slot, Handle>, gone: set<Obj>): map<Slot, Handle> {
    map s | s in m && !OwnedIn(m[s], gone) :: Forget(m[s], gone)
  }

  function Forget(k: Handle, gone: set<Obj>): Handle {
    if k.target.Some? && k.target.value in gone then k.(target := None) else k
  }

  /** From `h` to `h'` exactly the objects `gone` are destroyed, and they had to be. */
  ghost predicate Gone(h: Heap, h': Heap, gone: set<Obj>) {
    && gone <= h.counts.Keys && h'.counts.Keys == h.counts.Keys - gone
    && h'.strong == StrongWithout(h.strong, gone) && h'.weak == WeakWithout(h.weak, gone)
    && h'.scopes == h.scopes && h'.explicit == h.explicit && h'.dying == h.dying && h'.retained == h.retained
    && h'.stale == h.stale * h'.strong.Keys
    && forall e: set<Obj> | Closed(h, e) :: gone <= e && Closed(h', e)
  }
}
