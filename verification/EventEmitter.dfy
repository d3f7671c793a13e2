/** The emitter as the program writes it: lists and sets updated in loops, functions called that use it in turn. */
module EventEmitter {
  import opened EventIndex
  import opened EventRuns

  // ---- The emitter ----

  function KeysOf(counts: map<string, nat>): set<string> {
    set n | n in counts && !Starred(n)
  }

  function StemsOf(counts: map<string, nat>): set<string> {
    set n | n in counts && Starred(n) :: Stem(n)
  }

  lemma StemsIn(counts: map<string, nat>)
    ensures forall p :: p in StemsOf(counts) <==> p + "*" in counts
  {
    forall p ensures p in StemsOf(counts) <==> p + "*" in counts {
      if p + "*" in counts {
        assert Stem(p + "*") == p;
      }
      if p in StemsOf(counts) {
        var n :| n in counts && Starred(n) && Stem(n) == p;
        assert n == p + "*";
      }
    }
  }

  // ---- What the functions called do ----

  /** A function called does these in turn; when it emits, `handlers` are what the functions called then do. */
  datatype Reaction = Change(op: Op) | Emission(name: string, handlers: seq<Handler>)

  datatype Handler = Handler(does: seq<Reaction>)

  /** The steps that come of it after those `before`. */
  function StepsOf(before: seq<Step>, r: Reaction, freed: nat -> string): seq<Step>
    decreases r, 0
  {
    match r
    case Change(op) => [Do(op)]
    case Emission(name, handlers) =>
      var called := Callable(Reached(Ran(before, freed).reg.cbs, name));
      var inside := StepsOfCalls(before + [Enter(name)], handlers, Least(|called|, |handlers|), freed);
      [Enter(name)] + inside + [Leave]
  }

  /** What the first `n` functions called do. */
  function StepsOfCalls(before: seq<Step>, handlers: seq<Handler>, n: nat, freed: nat -> string): seq<Step>
    requires n <= |handlers|
    decreases handlers, 0, n
  {
    if n == 0 then []
    else
      var earlier := StepsOfCalls(before, handlers, n - 1, freed);
      earlier + StepsOfAll(before + earlier, handlers[n - 1].does, |handlers[n - 1].does|, freed)
  }

  function StepsOfAll(before: seq<Step>, does: seq<Reaction>, n: nat, freed: nat -> string): seq<Step>
    requires n <= |does|
    decreases does, 0, n
  {
    if n == 0 then []
    else
      var earlier := StepsOfAll(before, does, n - 1, freed);
      earlier + StepsOf(before + earlier, does[n - 1], freed)
  }

  function Least(a: nat, b: nat): nat { if a < b then a else b }

  class Emitter {
    var callbacks: seq<Callback>
    var keyCounts: map<string, nat>
    var keys: set<string>
    var prefixs: set<string>
    var next: nat
    /** The lists of the emits that are running. */
    var snapshots: seq<seq<Callback>>
    /** The callbacks read after they were freed. */
    var touched: seq<Callback>
    /** What has happened so far. */
    ghost var steps: seq<Step>
    /** What is read where the callback made `id`-th was. */
    const freed: nat -> string

    /** The sets are those of the names counted. */
    ghost predicate Indexing()
      reads this
    {
      keys == KeysOf(keyCounts) && prefixs == StemsOf(keyCounts)
    }

    ghost function Now(): Registry
      reads this
    {
      Registry(callbacks, keyCounts, next)
    }

    /** The emitter is where its steps have taken it. */
    ghost predicate Valid()
      reads this
    {
      Indexing() && State(Now(), snapshots, touched) == Ran(steps, freed)
    }

    constructor (freed: nat -> string)
      ensures Valid() && steps == [] && this.freed == freed
    {
      this.freed := freed;
      callbacks, keyCounts, keys, prefixs, next, snapshots, touched, steps := [], map[], {}, {}, 0, [], [], [];
    }

    method On(name: string, func: nat, ctx: nat)
      requires Valid()
      modifies this
      ensures Valid() && steps == old(steps) + [Do(Op.On(name, func, ctx))]
      ensures snapshots == old(snapshots) && touched == old(touched)
      ensures callbacks == old(callbacks) + [Callback(old(next), name, func, ctx)]
      ensures keyCounts == Added(old(keyCounts), name)
    {
      hide KeysOf, StemsOf, Ran, Added;
      RanMore(steps, Do(Op.On(name, func, ctx)), freed);
      callbacks := callbacks + [Callback(next, name, func, ctx)];
      next := next + 1;
      Add(name);
      steps := steps + [Do(Op.On(name, func, ctx))];
      assert touched + [] == touched;
    }

    method Add(name: string)
      requires Indexing()
      modifies `keyCounts, `keys, `prefixs
      ensures Indexing() && keyCounts == Added(old(keyCounts), name)
    {
      StemsIn(keyCounts);
      StemsIn(Added(keyCounts, name));
      hide StemsOf;
      if name !in keyCounts {
        keyCounts := keyCounts[name := 1];
        if Starred(name) {
          assert name == Stem(name) + "*";
          prefixs := prefixs + {Stem(name)};
          assert forall p :: p in prefixs <==> p + "*" in keyCounts;
        } else {
          keys := keys + {name};
        }
      } else {
        keyCounts := keyCounts[name := keyCounts[name] + 1];
      }
    }

    /** The count of a name goes only when it is one. */
    method Remove(name: string)
      requires Indexing()
      modifies `keyCounts, `keys, `prefixs
      ensures Indexing() && keyCounts == Unindexed(old(keyCounts), name)
    {
      StemsIn(keyCounts);
      StemsIn(keyCounts - {name});
      hide StemsOf;
      if name in keyCounts && keyCounts[name] <= 1 {
        keyCounts := keyCounts - {name};
        if Starred(name) {
          assert name == Stem(name) + "*";
          prefixs := prefixs - {Stem(name)};
        } else {
          keys := keys - {name};
        }
      }
    }

    /** The name of a callback taken off is read after its handle in the list is gone. */
    method Off(name: string, func: nat)
      requires Valid()
      modifies this
      ensures Valid() && steps == old(steps) + [Do(Op.Off(name, func))]
      ensures snapshots == old(snapshots) && callbacks == Kept(old(callbacks), name, func)
      ensures forall cb :: cb in callbacks <==>
                           cb in old(callbacks) && ((name != "" && cb.name != name) || (func != 0 && cb.func != func))
      ensures keyCounts == AfterOff(old(keyCounts), old(callbacks), name, func, snapshots, freed)
      ensures touched == old(touched) + FreedReads(old(callbacks), name, func, snapshots)
    {
      hide KeysOf, StemsOf, Ran, Kept, Hit, AfterOff, FreedReads, Unindexed, NameRead;
      ghost var cbs, counts := callbacks, keyCounts;
      ghost var k := 0;
      var i := 0;
      OffStart(cbs, name, func);
      OffNothing(counts, cbs, name, func, snapshots, freed);
      while i < |callbacks|
        invariant 0 <= k <= |cbs| && i == |Kept(cbs[..k], name, func)|
        invariant callbacks == Kept(cbs[..k], name, func) + cbs[k..]
        invariant Indexing() && keyCounts == AfterOff(counts, cbs[..k], name, func, snapshots, freed)
        invariant snapshots == old(snapshots) && next == old(next) && steps == old(steps)
        invariant touched == old(touched) + FreedReads(cbs[..k], name, func, snapshots)
        decreases |callbacks| - i
      {
        var cb := callbacks[i];
        OffStep(cbs, k, callbacks, i, name, func);
        OffMore(counts, cbs, k, name, func, snapshots, freed);
        if Hit(cb, name, func) {
          EraseAt(i);
        } else {
          i := i + 1;
        }
        k := k + 1;
      }
      OffEnd(cbs, k, callbacks, name, func);
      assert cbs[..k] == cbs;
      forall cb
        ensures cb in callbacks <==> cb in cbs && ((name != "" && cb.name != name) || (func != 0 && cb.func != func))
      {
        KeptInWords(cbs, name, func, cb);
      }
      RanMore(steps, Do(Op.Off(name, func)), freed);
      steps := steps + [Do(Op.Off(name, func))];
    }

    /** The handle goes, and with it the callback unless an `emit` holds it; then its name is read. */
    method EraseAt(i: nat)
      requires i < |callbacks| && Indexing()
      modifies `callbacks, `keyCounts, `keys, `prefixs, `touched
      ensures Indexing() && callbacks == old(callbacks)[..i] + old(callbacks)[i + 1..]
      ensures keyCounts == Unindexed(old(keyCounts), NameRead(old(callbacks)[i], snapshots, freed))
      ensures touched == old(touched) + if Held(snapshots, old(callbacks)[i]) then [] else [old(callbacks)[i]]
    {
      hide KeysOf, StemsOf, Unindexed;
      var cb := callbacks[i];
      callbacks := callbacks[..i] + callbacks[i + 1..];
      if Held(snapshots, cb) {
        Remove(cb.name);
      } else {
        touched := touched + [cb];
        Remove(freed(cb.id));
      }
    }

    /**
     `has`; where nothing freed has been read and no name that matches was registered
     twice at once, it says whether `emit` would reach a callback.
     */
    method Has(name: string) returns (r: bool)
      requires Valid()
      ensures r == Indexed(keyCounts, name)
      ensures touched == [] && (forall n | Matches(n, name) :: !Doubled(OpsOf(steps), n)) ==>
                (r <==> Reached(callbacks, name) != [])
    {
      hide Ran;
      if touched == [] {
        UntouchedRun(steps, freed, name);
      }
      StemsIn(keyCounts);
      if name in keys {
        assert Matches(name, name);
        return true;
      }
      var rest := prefixs;
      while rest != {}
        invariant rest <= prefixs
        invariant forall p <- prefixs | p !in rest :: !(p <= name)
        decreases |rest|
      {
        var n :| n in rest;
        rest := rest - {n};
        if n <= name {
          assert Stem(n + "*") == n;
          assert Matches(n + "*", name);
          return true;
        }
      }
      forall n <- keyCounts ensures !Matches(n, name) {
        if Starred(n) {
          assert n == Stem(n) + "*";
        }
      }
      return false;
    }

    /**
     Exactly the callbacks reached at entry are called, in order, whatever each of
     them registers, takes away or emits: `handlers` are what the calls in turn do.
     Until it returns the emit holds them.
     */
    method Emit(name: string, handlers: seq<Handler>) returns (called: seq<Callback>)
      requires Valid()
      modifies this
      ensures Valid() && called == Callable(Reached(old(callbacks), name)) && snapshots == old(snapshots)
      ensures forall cb :: cb in called <==> cb in old(callbacks) && cb.func != 0 && Matches(cb.name, name)
      ensures steps == old(steps) + StepsOf(old(steps), Emission(name, handlers), freed)
      decreases handlers, 1
    {
      hide KeysOf, StemsOf, Ran, Reached, Callable, Doubled, StepsOfCalls;
      ghost var s0 := steps;
      CallableReached(callbacks, name);
      var cbs := Select(name);
      RanMore(steps, Enter(name), freed);
      snapshots := snapshots + [cbs];
      steps := steps + [Enter(name)];
      called := CallAll(cbs, handlers);
      RanMore(steps, Leave, freed);
      snapshots := snapshots[..|snapshots| - 1];
      steps := steps + [Leave];
      EmissionSteps(s0, name, handlers, freed);
    }

    method Select(name: string) returns (cbs: seq<Callback>)
      ensures cbs == Reached(callbacks, name)
    {
      cbs := [];
      var i := 0;
      while i < |callbacks|
        invariant 0 <= i <= |callbacks| && cbs == Reached(callbacks[..i], name)
      {
        assert callbacks[..i + 1][..i] == callbacks[..i];
        if Matches(callbacks[i].name, name) {
          cbs := cbs + [callbacks[i]];
        }
        i := i + 1;
      }
      assert callbacks[..i] == callbacks;
    }

    method CallAll(cbs: seq<Callback>, handlers: seq<Handler>) returns (called: seq<Callback>)
      requires Valid()
      modifies this
      ensures Valid() && called == Callable(cbs) && snapshots == old(snapshots)
      ensures steps == old(steps) + StepsOfCalls(old(steps), handlers, Least(|called|, |handlers|), freed)
      decreases handlers, 0
    {
      hide KeysOf, StemsOf, Ran, StepsOfCalls, StepsOfAll, Callable;
      ghost var s0 := steps;
      called := [];
      var i := 0;
      CallsNone(s0, handlers, freed);
      CallableNone(cbs);
      while i < |cbs|
        invariant 0 <= i <= |cbs| && called == Callable(cbs[..i]) && Valid() && snapshots == old(snapshots)
        invariant steps == s0 + StepsOfCalls(s0, handlers, Least(|called|, |handlers|), freed)
      {
        CallableMore(cbs, i);
        if cbs[i].func != 0 {
          if |called| < |handlers| {
            CallsMore(s0, handlers, |called|, freed);
            React(handlers[|called|].does);
          }
          called := called + [cbs[i]];
        }
        i := i + 1;
      }
      assert cbs[..i] == cbs;
    }

    /** What a called function does to the emitter. */
    method React(does: seq<Reaction>)
      requires Valid()
      modifies this
      ensures Valid() && snapshots == old(snapshots)
      ensures steps == old(steps) + StepsOfAll(old(steps), does, |does|, freed)
      decreases does, 0
    {
      hide KeysOf, StemsOf, Ran, StepsOf, StepsOfAll;
      ghost var s0 := steps;
      AllNone(s0, does, freed);
      for k := 0 to |does|
        invariant Valid() && snapshots == old(snapshots)
        invariant steps == s0 + StepsOfAll(s0, does, k, freed)
      {
        AllMore(s0, does, k, freed);
        match does[k]
        case Change(op) =>
          ChangeSteps(steps, op, freed);
          match op {
            case On(name, func, ctx) => On(name, func, ctx);
            case Off(name, func) => Off(name, func);
          }
        case Emission(name, handlers) =>
          var called := Emit(name, handlers);
      }
    }
  }

  lemma CallableReached(cbs: seq<Callback>, name: string)
    ensures forall cb :: cb in Callable(Reached(cbs, name)) <==> cb in cbs && cb.func != 0 && Matches(cb.name, name)
  {
    ReachedAre(cbs, name);
    CallableAre(Reached(cbs, name));
    hide Callable, Reached;
  }

  lemma {:induction false} CallableAre(cbs: seq<Callback>)
    ensures forall cb :: cb in Callable(cbs) <==> cb in cbs && cb.func != 0
  {
    if cbs != [] {
      assert cbs == cbs[..|cbs| - 1] + [cbs[|cbs| - 1]];
      CallableAre(cbs[..|cbs| - 1]);
    }
  }

  lemma CallsNone(before: seq<Step>, handlers: seq<Handler>, freed: nat -> string)
    ensures before + StepsOfCalls(before, handlers, 0, freed) == before
  {
  }

  lemma CallsMore(before: seq<Step>, handlers: seq<Handler>, n: nat, freed: nat -> string)
    requires n < |handlers|
    ensures var now := before + StepsOfCalls(before, handlers, n, freed);
            var does := handlers[n].does;
            before + StepsOfCalls(before, handlers, n + 1, freed) == now + StepsOfAll(now, does, |does|, freed)
  {
    hide StepsOfAll;
  }

  lemma AllNone(before: seq<Step>, does: seq<Reaction>, freed: nat -> string)
    ensures before + StepsOfAll(before, does, 0, freed) == before
  {
  }

  lemma AllMore(before: seq<Step>, does: seq<Reaction>, n: nat, freed: nat -> string)
    requires n < |does|
    ensures var now := before + StepsOfAll(before, does, n, freed);
            before + StepsOfAll(before, does, n + 1, freed) == now + StepsOf(now, does[n], freed)
  {
    hide StepsOf;
  }

  lemma ChangeSteps(before: seq<Step>, op: Op, freed: nat -> string)
    ensures StepsOf(before, Change(op), freed) == [Do(op)]
  {
  }

  lemma CallableNone(cbs: seq<Callback>)
    ensures Callable(cbs[..0]) == []
  {
  }

  lemma CallableMore(cbs: seq<Callback>, i: nat)
    requires i < |cbs|
    ensures Callable(cbs[..i + 1]) == Callable(cbs[..i]) + if cbs[i].func != 0 then [cbs[i]] else []
  {
    assert cbs[..i + 1][..i] == cbs[..i];
  }

  lemma EmissionSteps(before: seq<Step>, name: string, handlers: seq<Handler>, freed: nat -> string)
    ensures var called := Callable(Reached(Ran(before, freed).reg.cbs, name));
            var inside := StepsOfCalls(before + [Enter(name)], handlers, Least(|called|, |handlers|), freed);
            before + StepsOf(before, Emission(name, handlers), freed) == before + [Enter(name)] + inside + [Leave]
  {
    var called := Callable(Reached(Ran(before, freed).reg.cbs, name));
    var inside := StepsOfCalls(before + [Enter(name)], handlers, Least(|called|, |handlers|), freed);
    hide Ran, Reached, Callable, StepsOfCalls, Least;
    Around(before, [Enter(name)], inside, [Leave]);
  }

  lemma Around(a: seq<Step>, b: seq<Step>, c: seq<Step>, d: seq<Step>)
    ensures a + (b + c + d) == a + b + c + d
  {
  }

  lemma OffNothing(counts: map<string, nat>, cbs: seq<Callback>, name: string, func: nat,
                   snapshots: seq<seq<Callback>>, freed: nat -> string)
    ensures AfterOff(counts, cbs[..0], name, func, snapshots, freed) == counts
    ensures FreedReads(cbs[..0], name, func, snapshots) == []
  {
  }

  lemma OffMore(counts: map<string, nat>, cbs: seq<Callback>, k: nat, name: string, func: nat,
                snapshots: seq<seq<Callback>>, freed: nat -> string)
    requires k < |cbs|
    ensures var before := AfterOff(counts, cbs[..k], name, func, snapshots, freed);
            AfterOff(counts, cbs[..k + 1], name, func, snapshots, freed) ==
            if Hit(cbs[k], name, func) then Unindexed(before, NameRead(cbs[k], snapshots, freed)) else before
    ensures FreedReads(cbs[..k + 1], name, func, snapshots) ==
            FreedReads(cbs[..k], name, func, snapshots) +
            if Hit(cbs[k], name, func) && !Held(snapshots, cbs[k]) then [cbs[k]] else []
  {
    assert cbs[..k + 1][..k] == cbs[..k];
  }

  /** Those with a function. */
  function Callable(cbs: seq<Callback>): seq<Callback> {
    if cbs == [] then []
    else Callable(cbs[..|cbs| - 1]) + if cbs[|cbs| - 1].func != 0 then [cbs[|cbs| - 1]] else []
  }
}
