/** Native event callbacks and the index of their names, as long as names are read from living callbacks. */
module EventIndex {

  /** The callback object made `id`-th; `func` zero is a null function. */
  datatype Callback = Callback(id: nat, name: string, func: nat, ctx: nat)

  predicate Starred(name: string) {
    name != "" && name[|name| - 1] == '*'
  }

  function Stem(name: string): string
    requires Starred(name)
  {
    name[..|name| - 1]
  }

  /** A callback registered as `pattern` is for the event `name`. */
  predicate Matches(pattern: string, name: string) {
    if Starred(pattern) then Stem(pattern) <= name else pattern == name
  }

  /** `pattern` is `name`, or it is the beginning of `name` with a star after it; alone, a star is for every event. */
  lemma MatchesInWords(pattern: string, name: string)
    ensures Matches(pattern, name) <==>
            || (pattern == name && (pattern == "" || pattern[|pattern| - 1] != '*'))
            || exists k | 0 <= k <= |name| :: pattern == name[..k] + "*"
    ensures Matches("*", name)
  {
    if Matches(pattern, name) && Starred(pattern) {
      var k := |pattern| - 1;
      assert pattern == name[..k] + "*";
    }
    if k :| 0 <= k <= |name| && pattern == name[..k] + "*" {
      assert Stem(pattern) == name[..k];
    }
  }

  /** How many of the callbacks are registered as `name`. */
  function Live(cbs: seq<Callback>, name: string): nat {
    if cbs == [] then 0
    else Live(cbs[..|cbs| - 1], name) + if cbs[|cbs| - 1].name == name then 1 else 0
  }

  lemma {:induction false} LiveAppend(a: seq<Callback>, b: seq<Callback>, name: string)
    ensures Live(a + b, name) == Live(a, name) + Live(b, name)
  {
    if b == [] {
      assert a + b == a;
    } else {
      assert (a + b)[..|a + b| - 1] == a + b[..|b| - 1];
      LiveAppend(a, b[..|b| - 1], name);
    }
  }

  lemma {:induction false} LiveIsThere(cbs: seq<Callback>, name: string)
    ensures Live(cbs, name) > 0 <==> exists cb <- cbs :: cb.name == name
  {
    if cbs != [] {
      var init, last := cbs[..|cbs| - 1], cbs[|cbs| - 1];
      assert cbs == init + [last];
      LiveIsThere(init, name);
      if last.name == name {
        assert last in cbs;
      }
    }
  }

  /** Counts never fall below what is registered; a count of one is exact. */
  ghost predicate Agree(cbs: seq<Callback>, counts: map<string, nat>) {
    && (forall n :: Live(cbs, n) <= if n in counts then counts[n] else 0)
    && (forall n <- counts :: counts[n] >= 1)
    && (forall n <- counts | counts[n] == 1 :: Live(cbs, n) == 1)
  }

  predicate Indexed(counts: map<string, nat>, name: string) {
    exists n <- counts :: Matches(n, name)
  }

  /** The callbacks that an event `name` reaches, in the order of their registration. */
  function Reached(cbs: seq<Callback>, name: string): seq<Callback> {
    if cbs == [] then []
    else
      var last := cbs[|cbs| - 1];
      Reached(cbs[..|cbs| - 1], name) + if Matches(last.name, name) then [last] else []
  }

  lemma {:induction false} ReachedAre(cbs: seq<Callback>, name: string)
    ensures forall cb :: cb in Reached(cbs, name) <==> cb in cbs && Matches(cb.name, name)
  {
    if cbs != [] {
      assert cbs == cbs[..|cbs| - 1] + [cbs[|cbs| - 1]];
      ReachedAre(cbs[..|cbs| - 1], name);
    }
  }

  lemma {:induction false} ReachedInOrder(a: seq<Callback>, b: seq<Callback>, name: string)
    ensures Reached(a + b, name) == Reached(a, name) + Reached(b, name)
  {
    if b == [] {
      assert a + b == a;
    } else {
      hide Matches;
      assert (a + b)[..|a + b| - 1] == a + b[..|b| - 1];
      ReachedInOrder(a, b[..|b| - 1], name);
    }
  }

  /** `has` is true whenever `emit` would reach a callback. */
  lemma ReachedIsIndexed(cbs: seq<Callback>, counts: map<string, nat>, name: string)
    requires Agree(cbs, counts)
    ensures Reached(cbs, name) != [] ==> Indexed(counts, name)
  {
    if Reached(cbs, name) != [] {
      var cb := Reached(cbs, name)[0];
      ReachedAre(cbs, name);
      assert cb in Reached(cbs, name);
      LiveIsThere(cbs, cb.name);
      assert cb.name in counts;
    }
  }

  /** A name that stays indexed though nothing is registered under it: it has been registered twice at once. */
  predicate Forgotten(cbs: seq<Callback>, counts: map<string, nat>, n: string) {
    n in counts && counts[n] >= 2 && Live(cbs, n) == 0
  }

  /** `has` says what `emit` would do, except where only forgotten names match. */
  lemma IndexIsExact(cbs: seq<Callback>, counts: map<string, nat>, name: string)
    requires Agree(cbs, counts)
    ensures Indexed(counts, name) <==>
            Reached(cbs, name) != [] || exists n <- counts :: Forgotten(cbs, counts, n) && Matches(n, name)
  {
    ReachedIsIndexed(cbs, counts, name);
    if Indexed(counts, name) {
      var n :| n in counts && Matches(n, name);
      if Live(cbs, n) > 0 {
        LiveIsThere(cbs, n);
        var cb :| cb in cbs && cb.name == n;
        ReachedAre(cbs, name);
        assert cb in Reached(cbs, name);
      } else {
        assert Forgotten(cbs, counts, n);
      }
    }
  }

  // ---- Operations ----

  datatype Op = On(name: string, func: nat, ctx: nat) | Off(name: string, func: nat)

  /** What `off` takes away. */
  predicate Hit(cb: Callback, name: string, func: nat) {
    (name == "" || name == cb.name) && (func == 0 || func == cb.func)
  }

  /** An empty name and a null function stand for any. */
  lemma KeptInWords(cbs: seq<Callback>, name: string, func: nat, cb: Callback)
    ensures cb in Kept(cbs, name, func) <==>
            cb in cbs && ((name != "" && cb.name != name) || (func != 0 && cb.func != func))
  {
    KeptAre(cbs, name, func);
  }

  function Kept(cbs: seq<Callback>, name: string, func: nat): seq<Callback> {
    if cbs == [] then []
    else
      var last := cbs[|cbs| - 1];
      Kept(cbs[..|cbs| - 1], name, func) + if Hit(last, name, func) then [] else [last]
  }

  /** What is kept is what is not hit, in the same order. */
  lemma {:induction false} KeptAre(cbs: seq<Callback>, name: string, func: nat)
    ensures forall cb :: cb in Kept(cbs, name, func) <==> cb in cbs && !Hit(cb, name, func)
  {
    if cbs != [] {
      hide Hit;
      assert cbs == cbs[..|cbs| - 1] + [cbs[|cbs| - 1]];
      KeptAre(cbs[..|cbs| - 1], name, func);
    }
  }

  lemma {:induction false} KeptInOrder(a: seq<Callback>, b: seq<Callback>, name: string, func: nat)
    ensures Kept(a + b, name, func) == Kept(a, name, func) + Kept(b, name, func)
  {
    if b == [] {
      assert a + b == a;
    } else {
      hide Hit;
      assert (a + b)[..|a + b| - 1] == a + b[..|b| - 1];
      KeptInOrder(a, b[..|b| - 1], name, func);
    }
  }

  function Added(counts: map<string, nat>, name: string): map<string, nat> {
    counts[name := if name in counts then counts[name] + 1 else 1]
  }

  /** The names whose count stays when only `cbs` are left: a count above one is never taken back. */
  function Survivors(counts: map<string, nat>, cbs: seq<Callback>): map<string, nat> {
    map n | n in counts && (counts[n] >= 2 || Live(cbs, n) > 0) :: counts[n]
  }

  /** `next` callbacks have been made so far. */
  datatype Registry = Registry(cbs: seq<Callback>, counts: map<string, nat>, next: nat)

  const EMPTY := Registry([], map[], 0)

  function Apply(r: Registry, op: Op): Registry {
    match op
    case On(name, func, ctx) => Registry(r.cbs + [Callback(r.next, name, func, ctx)], Added(r.counts, name), r.next + 1)
    case Off(name, func) => var cbs := Kept(r.cbs, name, func); r.(cbs := cbs, counts := Survivors(r.counts, cbs))
  }

  function ApplyAll(r: Registry, ops: seq<Op>): Registry {
    if ops == [] then r else Apply(ApplyAll(r, ops[..|ops| - 1]), ops[|ops| - 1])
  }

  lemma {:induction false} KeptLive(cbs: seq<Callback>, name: string, func: nat, n: string)
    ensures Live(Kept(cbs, name, func), n) <= Live(cbs, n)
  {
    if cbs != [] {
      var init, last := cbs[..|cbs| - 1], cbs[|cbs| - 1];
      KeptLive(init, name, func, n);
      LiveAppend(Kept(init, name, func), if Hit(last, name, func) then [] else [last], n);
    }
  }

  lemma AddedAgrees(cbs: seq<Callback>, counts: map<string, nat>, cb: Callback)
    requires Agree(cbs, counts)
    ensures Agree(cbs + [cb], Added(counts, cb.name))
  {
    forall n ensures Live(cbs + [cb], n) == Live(cbs, n) + if cb.name == n then 1 else 0 {
      assert (cbs + [cb])[..|cbs + [cb]| - 1] == cbs;
    }
    hide Live;
  }

  lemma SurvivorsAgree(cbs: seq<Callback>, counts: map<string, nat>, fewer: seq<Callback>)
    requires Agree(cbs, counts) && forall n :: Live(fewer, n) <= Live(cbs, n)
    ensures Agree(fewer, Survivors(counts, fewer))
  {
    hide Live;
  }

  lemma ApplyAgrees(r: Registry, op: Op)
    requires Agree(r.cbs, r.counts)
    ensures Agree(Apply(r, op).cbs, Apply(r, op).counts)
  {
    match op
    case On(name, func, ctx) => AddedAgrees(r.cbs, r.counts, Callback(r.next, name, func, ctx));
    case Off(name, func) =>
      forall n ensures Live(Kept(r.cbs, name, func), n) <= Live(r.cbs, n) {
        KeptLive(r.cbs, name, func, n);
      }
      SurvivorsAgree(r.cbs, r.counts, Kept(r.cbs, name, func));
  }

  /** Over every run of `on` and `off`: counts bound what is live, and `has` is exact up to forgotten names. */
  lemma {:induction false} RunAgrees(ops: seq<Op>)
    ensures var r := ApplyAll(EMPTY, ops); Agree(r.cbs, r.counts)
  {
    if ops != [] {
      RunAgrees(ops[..|ops| - 1]);
      ApplyAgrees(ApplyAll(EMPTY, ops[..|ops| - 1]), ops[|ops| - 1]);
    }
  }

  /** The name was registered while a callback registered under it was still there. */
  predicate Doubled(ops: seq<Op>, n: string) {
    exists k | 0 <= k < |ops| :: DoublesAt(ops, k, n)
  }

  predicate DoublesAt(ops: seq<Op>, k: nat, n: string)
    requires k < |ops|
  {
    ops[k].On? && ops[k].name == n && Live(ApplyAll(EMPTY, ops[..k]).cbs, n) > 0
  }

  lemma {:induction false} CountTwoIsDoubled(ops: seq<Op>, n: string)
    ensures var r := ApplyAll(EMPTY, ops); n in r.counts && r.counts[n] >= 2 <==> Doubled(ops, n)
  {
    if ops != [] {
      var init := ops[..|ops| - 1];
      CountTwoIsDoubled(init, n);
      RunAgrees(init);
      DoubledStep(ops, n);
      hide Doubled, ApplyAll, Live;
      var r := ApplyAll(EMPTY, init);
    }
  }

  lemma DoubledStep(ops: seq<Op>, n: string)
    requires ops != []
    ensures var init, last := ops[..|ops| - 1], ops[|ops| - 1];
            ApplyAll(EMPTY, ops) == Apply(ApplyAll(EMPTY, init), last) &&
            (Doubled(ops, n) <==>
             Doubled(init, n) || (last.On? && last.name == n && Live(ApplyAll(EMPTY, init).cbs, n) > 0))
  {
    var n0 := |ops| - 1;
    var init, last := ops[..n0], ops[n0];
    assert ApplyAll(EMPTY, ops) == Apply(ApplyAll(EMPTY, init), last);
    forall k | 0 <= k < n0 ensures DoublesAt(ops, k, n) == DoublesAt(init, k, n) {
      assert ops[..k] == init[..k];
    }
    hide ApplyAll, Apply, Live;
    assert DoublesAt(ops, n0, n) <==> last.On? && last.name == n && Live(ApplyAll(EMPTY, init).cbs, n) > 0;
  }

  function After(ops: seq<Op>): Registry {
    ApplyAll(EMPTY, ops)
  }

  /**
   After any run, `has` and `emit` disagree on an event exactly when nothing is
   reached and it matches a name that was doubled and has no callbacks left.
   */
  lemma DisagreeOnlyOnDoubled(ops: seq<Op>, name: string)
    ensures var r := After(ops);
            (Indexed(r.counts, name) <==> Reached(r.cbs, name) != []) <==>
            Reached(r.cbs, name) != [] || forall n | Doubled(ops, n) && Matches(n, name) :: Live(r.cbs, n) > 0
  {
    RunAgrees(ops);
    var r := After(ops);
    IndexIsExact(r.cbs, r.counts, name);
    forall n ensures Forgotten(r.cbs, r.counts, n) <==> Doubled(ops, n) && Live(r.cbs, n) == 0 {
      CountTwoIsDoubled(ops, n);
    }
    hide Live, Doubled, Agree, Reached, ApplyAll;
    if n :| Doubled(ops, n) && Matches(n, name) && Live(r.cbs, n) == 0 {
      assert Forgotten(r.cbs, r.counts, n);
    }
  }

  /** `has` is exact where no name that matches was registered twice at once. */
  lemma ExactUnlessDoubled(ops: seq<Op>, name: string)
    requires forall n | Matches(n, name) :: !Doubled(ops, n)
    ensures Indexed(After(ops).counts, name) <==> Reached(After(ops).cbs, name) != []
  {
    hide Doubled, Matches, Indexed, Reached, After;
    DisagreeOnlyOnDoubled(ops, name);
  }

  /** After everything is taken off, `emit` reaches nothing, and `has` holds of what matches a doubled name. */
  lemma ClearedKeepsDoubled(ops: seq<Op>, name: string)
    ensures var r := After(ops + [Off("", 0)]);
            Reached(r.cbs, name) == [] && (Indexed(r.counts, name) <==> exists n :: Doubled(ops, n) && Matches(n, name))
  {
    var r, r' := After(ops), After(ops + [Off("", 0)]);
    assert (ops + [Off("", 0)])[..|ops|] == ops;
    KeptNone(r.cbs);
    assert r' == Apply(r, Off("", 0)) == r.(cbs := [], counts := Survivors(r.counts, []));
    forall n ensures n in r'.counts <==> Doubled(ops, n) {
      CountTwoIsDoubled(ops, n);
    }
    hide Doubled, ApplyAll, Matches;
    if n :| Doubled(ops, n) && Matches(n, name) {
      assert n in r'.counts;
    }
  }

  lemma {:induction false} KeptNone(cbs: seq<Callback>)
    ensures Kept(cbs, "", 0) == []
  {
    if cbs != [] {
      KeptNone(cbs[..|cbs| - 1]);
    }
  }

  // ---- One handle for each callback ----

  predicate OneEach(r: Registry) {
    && (forall cb <- r.cbs :: cb.id < r.next)
    && (forall i, j | 0 <= i < j < |r.cbs| :: r.cbs[i].id != r.cbs[j].id)
  }

  lemma {:induction false} KeptOneEach(r: Registry, name: string, func: nat)
    requires OneEach(r)
    ensures OneEach(r.(cbs := Kept(r.cbs, name, func)))
    decreases |r.cbs|
  {
    if r.cbs != [] {
      var init, last := r.cbs[..|r.cbs| - 1], r.cbs[|r.cbs| - 1];
      forall i | 0 <= i < |init| ensures init[i].id != last.id {
        assert init[i] == r.cbs[i];
      }
      KeptOneEach(r.(cbs := init), name, func);
      hide Hit;
      KeptAre(init, name, func);
      var kept := Kept(init, name, func);
      forall cb <- kept ensures cb.id != last.id {
        assert cb in init;
      }
      forall i, j | 0 <= i < j < |kept + [last]| ensures (kept + [last])[i].id != (kept + [last])[j].id {
        assert (kept + [last])[i] == kept[i] && kept[i] in kept;
      }
    }
  }

  /** In every run a callback is in the list once, so that its handle there is the only one but for running emits. */
  lemma {:induction false} RunOneEach(ops: seq<Op>)
    ensures OneEach(After(ops))
  {
    if ops != [] {
      var init := ops[..|ops| - 1];
      RunOneEach(init);
      match ops[|ops| - 1]
      case On(_, _, _) =>
      case Off(name, func) => KeptOneEach(After(init), name, func);
    }
  }

  lemma SurvivorsOfAll(cbs: seq<Callback>, counts: map<string, nat>)
    requires Agree(cbs, counts)
    ensures Survivors(counts, cbs) == counts
  {
    hide Live;
  }

  lemma KeptStep(cbs: seq<Callback>, k: nat, name: string, func: nat)
    requires k < |cbs|
    ensures Kept(cbs[..k + 1], name, func) == Kept(cbs[..k], name, func) + if Hit(cbs[k], name, func) then [] else [cbs[k]]
    ensures cbs[k..] == [cbs[k]] + cbs[k + 1..]
  {
    assert cbs[..k + 1][..k] == cbs[..k];
  }

  lemma OffStart(cbs: seq<Callback>, name: string, func: nat)
    ensures cbs == Kept(cbs[..0], name, func) + cbs[0..] && |Kept(cbs[..0], name, func)| == 0
  {
  }

  lemma OffEnd(cbs: seq<Callback>, k: nat, now: seq<Callback>, name: string, func: nat)
    requires k <= |cbs| && now == Kept(cbs[..k], name, func) + cbs[k..] && |now| <= |Kept(cbs[..k], name, func)|
    ensures now == Kept(cbs, name, func)
  {
    assert cbs[..k] == cbs;
  }

  /** The list with what has been looked at kept or erased, and the rest still to look at. */
  lemma OffStep(cbs: seq<Callback>, k: nat, now: seq<Callback>, i: nat, name: string, func: nat)
    requires k <= |cbs| && now == Kept(cbs[..k], name, func) + cbs[k..] && i == |Kept(cbs[..k], name, func)| < |now|
    ensures k < |cbs| && now[i] == cbs[k]
    ensures var kept := Kept(cbs[..k + 1], name, func);
            if Hit(cbs[k], name, func) then now[..i] + now[i + 1..] == kept + cbs[k + 1..] && i == |kept|
            else now == kept + cbs[k + 1..] && i + 1 == |kept|
  {
    KeptStep(cbs, k, name, func);
    ListStep(Kept(cbs[..k], name, func), cbs, k);
    hide Kept, Hit;
  }

  lemma ListStep(kept: seq<Callback>, cbs: seq<Callback>, k: nat)
    requires k < |cbs|
    ensures var now, i := kept + cbs[k..], |kept|;
            && now[i] == cbs[k] && now == kept + [cbs[k]] + cbs[k + 1..]
            && now[..i] + now[i + 1..] == kept + [] + cbs[k + 1..]
  {
  }

  /** Erasing one callback and removing its name once leaves the survivors. */
  lemma OneErased(counts: map<string, nat>, cbs: seq<Callback>, i: nat)
    requires i < |cbs| && Agree(cbs, Survivors(counts, cbs))
    ensures var fewer, n, now := cbs[..i] + cbs[i + 1..], cbs[i].name, Survivors(counts, cbs);
            && Agree(fewer, Survivors(counts, fewer)) && n in now
            && Survivors(counts, fewer) == if now[n] <= 1 then now - {n} else now
  {
    var fewer, n, now := cbs[..i] + cbs[i + 1..], cbs[i].name, Survivors(counts, cbs);
    forall m ensures Live(fewer, m) == Live(cbs, m) - if n == m then 1 else 0 {
      LiveWithout(cbs, i, m);
    }
    hide Live;
    assert Live(cbs, n) >= 1;
    SurvivorsAgree(cbs, now, fewer);
    assert Survivors(now, fewer) == Survivors(counts, fewer);
  }

  lemma LiveWithout(cbs: seq<Callback>, i: nat, m: string)
    requires i < |cbs|
    ensures Live(cbs[..i] + cbs[i + 1..], m) == Live(cbs, m) - if cbs[i].name == m then 1 else 0
  {
    assert cbs == cbs[..i] + ([cbs[i]] + cbs[i + 1..]);
    LiveAppend(cbs[..i], [cbs[i]] + cbs[i + 1..], m);
    LiveAppend([cbs[i]], cbs[i + 1..], m);
    LiveAppend(cbs[..i], cbs[i + 1..], m);
    assert Live([cbs[i]], m) == if cbs[i].name == m then 1 else 0;
  }
}
