/** Runs of an emitter in which emits begin and end, and names are read from callbacks already freed. */
module EventRuns {
  import opened EventIndex

  // ---- What `off` reads ----

  /** A running `emit` still holds the callback. */
  predicate Held(snapshots: seq<seq<Callback>>, cb: Callback) {
    exists s <- snapshots :: cb in s
  }

  /**
   The name `off` reads after it has erased the callback: its own while a running
   `emit` holds it, else whatever is then where the callback was.
   */
  function NameRead(cb: Callback, snapshots: seq<seq<Callback>>, freed: nat -> string): string {
    if Held(snapshots, cb) then cb.name else freed(cb.id)
  }

  /** The callbacks whose names `off` reads after they are freed. */
  function FreedReads(cbs: seq<Callback>, name: string, func: nat, snapshots: seq<seq<Callback>>): seq<Callback> {
    if cbs == [] then []
    else
      var last := cbs[|cbs| - 1];
      FreedReads(cbs[..|cbs| - 1], name, func, snapshots) +
      if Hit(last, name, func) && !Held(snapshots, last) then [last] else []
  }

  /** `off` reads no freed callback if and only if every callback it takes off is held by a running `emit`. */
  lemma {:induction false} NoFreedReadIffHeld(cbs: seq<Callback>, name: string, func: nat, snapshots: seq<seq<Callback>>)
    ensures FreedReads(cbs, name, func, snapshots) == [] <==>
            forall cb <- cbs | Hit(cb, name, func) :: Held(snapshots, cb)
  {
    if cbs != [] {
      var init, last := cbs[..|cbs| - 1], cbs[|cbs| - 1];
      assert cbs == init + [last];
      hide Hit, Held;
      NoFreedReadIffHeld(init, name, func, snapshots);
    }
  }

  /** Every name `off` reads is the callback's own. */
  predicate Intact(cbs: seq<Callback>, name: string, func: nat, snapshots: seq<seq<Callback>>, freed: nat -> string) {
    forall cb <- cbs | Hit(cb, name, func) :: NameRead(cb, snapshots, freed) == cb.name
  }

  /** That is so whatever freed memory holds if and only if every callback taken off is held. */
  lemma IntactIffHeld(cbs: seq<Callback>, name: string, func: nat, snapshots: seq<seq<Callback>>)
    ensures (forall freed :: Intact(cbs, name, func, snapshots, freed)) <==>
            forall cb <- cbs | Hit(cb, name, func) :: Held(snapshots, cb)
  {
    hide Hit, Held;
    if cb :| cb in cbs && Hit(cb, name, func) && !Held(snapshots, cb) {
      var other := _ => cb.name + "?";
      assert NameRead(cb, snapshots, other) != cb.name;
      assert !Intact(cbs, name, func, snapshots, other);
    }
  }

  // ---- What `off` does ----

  /** `remove`: only a count of one is taken back. */
  function Unindexed(counts: map<string, nat>, name: string): map<string, nat> {
    if name in counts && counts[name] <= 1 then counts - {name} else counts
  }

  /** The counts after `off`, by the names it reads. */
  function AfterOff(counts: map<string, nat>, cbs: seq<Callback>, name: string, func: nat,
                    snapshots: seq<seq<Callback>>, freed: nat -> string): map<string, nat>
    decreases |cbs|
  {
    if cbs == [] then counts
    else
      var last := cbs[|cbs| - 1];
      var before := AfterOff(counts, cbs[..|cbs| - 1], name, func, snapshots, freed);
      if Hit(last, name, func) then Unindexed(before, NameRead(last, snapshots, freed)) else before
  }

  /** What an operation does, whatever freed memory holds. */
  function Done(r: Registry, op: Op, snapshots: seq<seq<Callback>>, freed: nat -> string): Registry {
    match op
    case On(_, _, _) => Apply(r, op)
    case Off(name, func) =>
      r.(cbs := Kept(r.cbs, name, func), counts := AfterOff(r.counts, r.cbs, name, func, snapshots, freed))
  }

  /** With its first `k` callbacks looked at, `off` has left the survivors in the index. */
  lemma {:induction false} PrefixOff(counts: map<string, nat>, cbs: seq<Callback>, k: nat, name: string, func: nat,
                                     snapshots: seq<seq<Callback>>, freed: nat -> string)
    requires k <= |cbs| && Agree(cbs, counts) && Intact(cbs, name, func, snapshots, freed)
    ensures var now := Kept(cbs[..k], name, func) + cbs[k..];
            && AfterOff(counts, cbs[..k], name, func, snapshots, freed) == Survivors(counts, now)
            && Agree(now, Survivors(counts, now))
    decreases k
  {
    hide Agree, Survivors, NameRead, Hit;
    if k == 0 {
      assert Kept(cbs[..0], name, func) + cbs[0..] == cbs;
      SurvivorsOfAll(cbs, counts);
    } else {
      PrefixOff(counts, cbs, k - 1, name, func, snapshots, freed);
      var now := Kept(cbs[..k - 1], name, func) + cbs[k - 1..];
      OffStep(cbs, k - 1, now, |Kept(cbs[..k - 1], name, func)|, name, func);
      assert cbs[..k][..k - 1] == cbs[..k - 1];
      hide Kept;
      if Hit(cbs[k - 1], name, func) {
        OneErased(counts, now, |Kept(cbs[..k - 1], name, func)|);
      }
    }
  }

  /** When the names it reads are the callbacks' own, `off` does what it is meant to. */
  lemma OffAsMeant(r: Registry, name: string, func: nat, snapshots: seq<seq<Callback>>, freed: nat -> string)
    requires Agree(r.cbs, r.counts) && Intact(r.cbs, name, func, snapshots, freed)
    ensures Done(r, Off(name, func), snapshots, freed) == Apply(r, Off(name, func))
  {
    hide Agree, Survivors, Intact, Kept, AfterOff;
    PrefixOff(r.counts, r.cbs, |r.cbs|, name, func, snapshots, freed);
    assert r.cbs[..|r.cbs|] == r.cbs;
    assert Kept(r.cbs, name, func) + r.cbs[|r.cbs|..] == Kept(r.cbs, name, func);
  }

  // ---- Runs ----

  /** An `on` or `off`; or an `emit` collects its callbacks; or the latest that runs is over. */
  datatype Step = Do(op: Op) | Enter(name: string) | Leave

  /** `snapshots` are the lists of the running emits, `touched` the callbacks read after they were freed. */
  datatype State = State(reg: Registry, snapshots: seq<seq<Callback>>, touched: seq<Callback>)

  const IDLE := State(EMPTY, [], [])

  function Take(s: State, step: Step, freed: nat -> string): State {
    match step
    case Do(op) => State(Done(s.reg, op, s.snapshots, freed), s.snapshots, s.touched + ReadBy(s, op))
    case Enter(name) => s.(snapshots := s.snapshots + [Reached(s.reg.cbs, name)])
    case Leave => if s.snapshots == [] then s else s.(snapshots := s.snapshots[..|s.snapshots| - 1])
  }

  /** What the operation reads of freed callbacks. */
  function ReadBy(s: State, op: Op): seq<Callback> {
    if op.Off? then FreedReads(s.reg.cbs, op.name, op.func, s.snapshots) else []
  }

  function Ran(steps: seq<Step>, freed: nat -> string): State {
    if steps == [] then IDLE else Take(Ran(steps[..|steps| - 1], freed), steps[|steps| - 1], freed)
  }

  lemma RanMore(steps: seq<Step>, step: Step, freed: nat -> string)
    ensures Ran(steps + [step], freed) == Take(Ran(steps, freed), step, freed)
  {
    assert (steps + [step])[..|steps|] == steps;
    hide Take;
  }

  /** The operations of a run. */
  function OpsOf(steps: seq<Step>): seq<Op> {
    if steps == [] then []
    else
      var last := steps[|steps| - 1];
      OpsOf(steps[..|steps| - 1]) + if last.Do? then [last.op] else []
  }

  /** Every `off` of the run reads names that are the callbacks' own. */
  predicate RunIntact(steps: seq<Step>, freed: nat -> string) {
    steps == [] ||
    (var init, last := steps[..|steps| - 1], steps[|steps| - 1];
     RunIntact(init, freed) && (last.Do? ==> IntactOp(Ran(init, freed), last.op, freed)))
  }

  predicate IntactOp(s: State, op: Op, freed: nat -> string) {
    op.Off? ==> Intact(s.reg.cbs, op.name, op.func, s.snapshots, freed)
  }

  /** Such a run leaves what its operations are meant to leave. */
  lemma {:induction false} IntactRun(steps: seq<Step>, freed: nat -> string)
    requires RunIntact(steps, freed)
    ensures Ran(steps, freed).reg == After(OpsOf(steps))
  {
    if steps != [] {
      hide Done, Apply, IntactOp;
      var init, last := steps[..|steps| - 1], steps[|steps| - 1];
      IntactRun(init, freed);
      if last.Do? {
        RunAgrees(OpsOf(init));
        OneAsMeant(Ran(init, freed), last.op, freed);
        AfterMore(OpsOf(init), last.op);
      } else {
        assert OpsOf(init) + [] == OpsOf(init);
      }
    }
  }

  lemma AfterMore(ops: seq<Op>, op: Op)
    ensures After(ops + [op]) == Apply(After(ops), op)
  {
    assert (ops + [op])[..|ops|] == ops;
    hide Apply;
  }

  lemma OneAsMeant(s: State, op: Op, freed: nat -> string)
    requires Agree(s.reg.cbs, s.reg.counts) && IntactOp(s, op, freed)
    ensures Done(s.reg, op, s.snapshots, freed) == Apply(s.reg, op)
  {
    hide Intact, Agree;
    if op.Off? {
      hide Apply, Done;
      OffAsMeant(s.reg, op.name, op.func, s.snapshots, freed);
    }
  }

  // ---- Runs that read nothing freed ----

  /** Each `off`, when it is done, takes off only callbacks that a running emit holds. */
  predicate HeldThroughout(steps: seq<Step>, freed: nat -> string) {
    steps == [] ||
    (var init, last := steps[..|steps| - 1], steps[|steps| - 1];
     HeldThroughout(init, freed) && (last.Do? ==> HeldOp(Ran(init, freed), last.op)))
  }

  predicate HeldOp(s: State, op: Op) {
    op.Off? ==> forall cb <- s.reg.cbs | Hit(cb, op.name, op.func) :: Held(s.snapshots, cb)
  }

  /** A run reads no freed callback if and only if every `off` takes off only held ones. */
  lemma {:induction false} UntouchedIffHeld(steps: seq<Step>, freed: nat -> string)
    ensures Ran(steps, freed).touched == [] <==> HeldThroughout(steps, freed)
  {
    if steps != [] {
      var init, last := steps[..|steps| - 1], steps[|steps| - 1];
      UntouchedIffHeld(init, freed);
      hide Done, HeldOp, ReadBy;
      if last.Do? {
        ReadsNothingIffHeld(Ran(init, freed), last.op);
      }
    }
  }

  lemma ReadsNothingIffHeld(s: State, op: Op)
    ensures ReadBy(s, op) == [] <==> HeldOp(s, op)
  {
    hide FreedReads, Hit, Held;
    if op.Off? {
      NoFreedReadIffHeld(s.reg.cbs, op.name, op.func, s.snapshots);
    }
  }

  lemma {:induction false} HeldIsIntact(steps: seq<Step>, freed: nat -> string)
    requires HeldThroughout(steps, freed)
    ensures RunIntact(steps, freed)
  {
    if steps != [] {
      hide Ran, Hit, Held;
      HeldIsIntact(steps[..|steps| - 1], freed);
    }
  }

  /**
   A run that reads no freed callback leaves what its operations are meant to leave,
   and there `has` and `emit` agree on an event exactly as far as `EventIndex` says.
   */
  lemma UntouchedRun(steps: seq<Step>, freed: nat -> string, name: string)
    requires Ran(steps, freed).touched == []
    ensures var r, ops := Ran(steps, freed).reg, OpsOf(steps);
            && r == After(ops)
            && ((Indexed(r.counts, name) <==> Reached(r.cbs, name) != []) <==>
                Reached(r.cbs, name) != [] || forall n | Doubled(ops, n) && Matches(n, name) :: Live(r.cbs, n) > 0)
            && ((forall n | Matches(n, name) :: !Doubled(ops, n)) ==>
                (Indexed(r.counts, name) <==> Reached(r.cbs, name) != []))
  {
    hide HeldThroughout, RunIntact, Ran, After, Doubled, Matches, Live, Reached, Indexed, OpsOf;
    UntouchedIffHeld(steps, freed);
    HeldIsIntact(steps, freed);
    IntactRun(steps, freed);
    DisagreeOnlyOnDoubled(OpsOf(steps), name);
  }

  /** What freed memory holds changes nothing but counts. */
  lemma {:induction false} SameCallbacks(steps: seq<Step>, freed: nat -> string, other: nat -> string)
    ensures var s, t := Ran(steps, freed), Ran(steps, other);
            s.reg.cbs == t.reg.cbs && s.reg.next == t.reg.next && s.snapshots == t.snapshots && s.touched == t.touched
  {
    if steps != [] {
      hide AfterOff, FreedReads, Kept, Reached;
      SameCallbacks(steps[..|steps| - 1], freed, other);
    }
  }

  /** The names a run reads are right whatever freed memory holds if and only if it reads none there. */
  lemma RightIffUntouched(steps: seq<Step>, freed: nat -> string)
    ensures (forall other :: RunIntact(steps, other)) <==> Ran(steps, freed).touched == []
  {
    hide RunIntact, HeldThroughout, Ran;
    if Ran(steps, freed).touched == [] {
      forall other ensures RunIntact(steps, other) {
        SameCallbacks(steps, freed, other);
        UntouchedIffHeld(steps, other);
        HeldIsIntact(steps, other);
      }
    } else {
      var other := WrongName(steps, freed);
    }
  }

  lemma {:induction false} WrongName(steps: seq<Step>, freed: nat -> string) returns (other: nat -> string)
    requires Ran(steps, freed).touched != []
    ensures !RunIntact(steps, other)
  {
    hide Done, HeldOp, IntactOp, ReadBy;
    var init, last := steps[..|steps| - 1], steps[|steps| - 1];
    if Ran(init, freed).touched != [] {
      other := WrongName(init, freed);
    } else {
      assert last.Do? && ReadBy(Ran(init, freed), last.op) != [];
      ReadsNothingIffHeld(Ran(init, freed), last.op);
      other := WrongNow(Ran(init, freed), last.op);
      SameCallbacks(init, freed, other);
      hide Ran;
      SameIntact(Ran(init, freed), Ran(init, other), last.op, other);
    }
  }

  lemma SameIntact(s: State, t: State, op: Op, freed: nat -> string)
    requires s.reg.cbs == t.reg.cbs && s.snapshots == t.snapshots
    ensures IntactOp(s, op, freed) == IntactOp(t, op, freed)
  {
  }

  lemma WrongNow(s: State, op: Op) returns (other: nat -> string)
    requires !HeldOp(s, op)
    ensures !IntactOp(s, op, other)
  {
    hide Hit, Held;
    var cb :| cb in s.reg.cbs && Hit(cb, op.name, op.func) && !Held(s.snapshots, cb);
    other := _ => cb.name + "?";
    assert NameRead(cb, s.snapshots, other) != cb.name;
  }

  // ---- Two runs ----

  /** An `off` inside the emit that it answers reads nothing freed, emit after emit. */
  lemma OffInsideEmit(freed: nat -> string)
    ensures var steps := [Do(On("a", 1, 0)), Enter("a"), Do(Off("a", 0)), Leave,
                          Do(On("b", 1, 0)), Enter("b"), Do(Off("b", 0)), Leave];
            Ran(steps, freed).touched == [] && Ran(steps, freed).reg.cbs == []
  {
    var first := [Do(On("a", 1, 0)), Enter("a"), Do(Off("a", 0)), Leave];
    var second := [Do(On("b", 1, 0)), Enter("b"), Do(Off("b", 0)), Leave];
    OneRound([], "a", freed);
    assert [] + first == first;
    OneRound(first, "b", freed);
    assert first + second == [first[0], first[1], first[2], first[3], second[0], second[1], second[2], second[3]];
  }

  lemma OneRound(steps: seq<Step>, name: string, freed: nat -> string)
    requires Ran(steps, freed).reg.cbs == [] && Ran(steps, freed).snapshots == [] && Ran(steps, freed).touched == []
    requires name != "" && !Starred(name)
    ensures var s := Ran(steps + [Do(On(name, 1, 0)), Enter(name), Do(Off(name, 0)), Leave], freed);
            s.reg.cbs == [] && s.snapshots == [] && s.touched == []
  {
    hide Ran, Take, Starred;
    RanFour(steps, Do(On(name, 1, 0)), Enter(name), Do(Off(name, 0)), Leave, freed);
    RoundFrom(Ran(steps, freed), name, freed);
  }

  lemma RanFour(steps: seq<Step>, a: Step, b: Step, c: Step, d: Step, freed: nat -> string)
    ensures Ran(steps + [a, b, c, d], freed) ==
            Take(Take(Take(Take(Ran(steps, freed), a, freed), b, freed), c, freed), d, freed)
  {
    hide Ran, Take;
    RanMore(steps, a, freed);
    RanMore(steps + [a], b, freed);
    RanMore(steps + [a] + [b], c, freed);
    RanMore(steps + [a] + [b] + [c], d, freed);
    assert steps + [a, b, c, d] == steps + [a] + [b] + [c] + [d];
  }

  lemma OnStep(s: State, name: string, freed: nat -> string)
    ensures Take(s, Do(On(name, 1, 0)), freed) == s.(reg := Apply(s.reg, On(name, 1, 0)))
  {
    hide Added;
    assert s.touched + [] == s.touched;
  }

  lemma RoundFrom(s: State, name: string, freed: nat -> string)
    requires s.reg.cbs == [] && s.snapshots == [] && s.touched == [] && name != "" && !Starred(name)
    ensures var t := Take(Take(Take(Take(s, Do(On(name, 1, 0)), freed), Enter(name), freed), Do(Off(name, 0)), freed),
                          Leave, freed);
            t.reg.cbs == [] && t.snapshots == [] && t.touched == []
  {
    hide AfterOff, Reached, Kept, FreedReads;
    OnStep(s, name, freed);
    assert [] + [Callback(s.reg.next, name, 1, 0)] == [Callback(s.reg.next, name, 1, 0)];
    OnlyOne(Callback(s.reg.next, name, 1, 0), name);
  }

  lemma OnlyOne(cb: Callback, name: string)
    requires cb.name == name && name != "" && !Starred(name)
    ensures Reached([cb], name) == [cb] && Kept([cb], name, 0) == []
    ensures FreedReads([cb], name, 0, [[cb]]) == []
  {
    assert [cb][..0] == [];
    assert Held([[cb]], cb) by { assert [cb] in [[cb]]; }
  }

  /**
   Two callbacks, and no `emit` running: taking off the first reads its name after it is
   freed; where that memory reads "b", the second is no longer in the index though `emit` calls it.
   */
  lemma FreedNameHidesAnother()
    ensures var steps := [Do(On("a", 1, 0)), Do(On("b", 1, 0)), Do(Off("a", 0))];
            var r := Ran(steps, _ => "b").reg;
            Reached(r.cbs, "b") != [] && !Indexed(r.counts, "b")
  {
    hide Ran, Take, Kept, AfterOff, Reached, Indexed;
    var freed := _ => "b";
    TwoOn(freed);
    var steps := [Do(On("a", 1, 0)), Do(On("b", 1, 0))];
    RanMore(steps, Do(Off("a", 0)), freed);
    assert steps + [Do(Off("a", 0))] == [Do(On("a", 1, 0)), Do(On("b", 1, 0)), Do(Off("a", 0))];
    FirstOff(Ran(steps, freed), freed);
  }

  lemma TwoOn(freed: nat -> string)
    ensures Ran([Do(On("a", 1, 0)), Do(On("b", 1, 0))], freed) ==
            State(Registry([Callback(0, "a", 1, 0), Callback(1, "b", 1, 0)], map["a" := 1, "b" := 1], 2), [], [])
  {
    hide Ran, Take;
    var first, second := Do(On("a", 1, 0)), Do(On("b", 1, 0));
    RanNone(freed);
    RanMore([], first, freed);
    RanMore([first], second, freed);
    assert [] + [first] == [first] && [first] + [second] == [first, second];
    OnStep(IDLE, "a", freed);
    OnStep(IDLE.(reg := Apply(EMPTY, On("a", 1, 0))), "b", freed);
  }

  lemma FirstOff(s: State, freed: nat -> string)
    requires s == State(Registry([Callback(0, "a", 1, 0), Callback(1, "b", 1, 0)], map["a" := 1, "b" := 1], 2), [], [])
    requires freed(0) == "b"
    ensures var r := Take(s, Do(Off("a", 0)), freed).reg; Reached(r.cbs, "b") != [] && !Indexed(r.counts, "b")
  {
    hide Kept, AfterOff, Reached, Indexed, FreedReads;
    FirstTakenOff(Callback(0, "a", 1, 0), Callback(1, "b", 1, 0), freed);
  }

  lemma RanNone(freed: nat -> string)
    ensures Ran([], freed) == IDLE
  {
  }

  lemma FirstTakenOff(a: Callback, b: Callback, freed: nat -> string)
    requires a == Callback(0, "a", 1, 0) && b == Callback(1, "b", 1, 0) && freed(0) == "b"
    ensures Kept([a, b], "a", 0) == [b] && Reached([b], "b") == [b]
    ensures AfterOff(map["a" := 1, "b" := 1], [a, b], "a", 0, [], freed) == map["a" := 1]
    ensures !Indexed(map["a" := 1], "b")
  {
    assert [a, b][..1] == [a] && [a][..0] == [] && [b][..0] == [];
    assert Kept([a], "a", 0) == Kept([], "a", 0) == [];
    var counts := map["a" := 1, "b" := 1];
    assert AfterOff(counts, [a], "a", 0, [], freed) == Unindexed(AfterOff(counts, [], "a", 0, [], freed), "b");
    assert counts - {"b"} == map["a" := 1];
  }
}
