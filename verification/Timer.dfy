/** The life of a script timer: firing, clearing from inside and outside its callback, and being freed. */
module Timer {

  datatype Timeval = Timeval(sec: nat, usec: nat)

  /** Milliseconds as seconds and microseconds. */
  function NewTimeval(tv: nat): (v: Timeval)
    ensures v.sec * 1_000_000 + v.usec == tv * 1000 && v.usec < 1_000_000
  {
    Timeval(tv / 1000, tv % 1000 * 1000)
  }

  /** `repeat` is the interval, zero for one shot; `starts` counts callbacks, `frees` how often it was freed. */
  datatype State = State(
    repeat: nat, calling: bool, recycled: bool, armed: bool, finalised: bool, starts: nat, frees: nat)

  /**
   What can happen: the event fires, and the finaliser runs inside the callback, or while a
   one-shot timer deletes its own property, or neither; or the finaliser runs outside.
   */
  datatype Op = Fire(inCallback: bool, inDelete: bool) | Finalise

  /** The event fires only when pending; the finaliser runs once. */
  predicate Enabled(s: State, op: Op) {
    match op
    case Fire(inCallback, inDelete) =>
      s.armed && (inCallback ==> !s.finalised && !inDelete) && (inDelete ==> !s.finalised && s.repeat == 0)
    case Finalise => !s.finalised
  }

  function Created(repeat: nat): State {
    State(repeat, false, false, true, false, 0, 0)
  }

  ghost predicate Runs(s: State, ops: seq<Op>, s': State)
    decreases |ops|
  {
    if ops == [] then s' == s
    else exists next :: Enabled(s, ops[0]) && Happens(s, ops[0], next) && Runs(next, ops[1..], s')
  }

  /** What each op must come to, without saying how. */
  predicate Happens(s: State, op: Op, next: State) {
    var cleared := op.Finalise? || op.inCallback || op.inDelete;
    && next.repeat == s.repeat
    && next.finalised == (s.finalised || cleared)
    && next.starts == s.starts + (if op.Fire? then 1 else 0)
    && next.frees == s.frees + (if cleared then 1 else 0)
    && next.recycled == (s.recycled || cleared)
    && next.armed == (!cleared && if op.Fire? then s.repeat != 0 else s.armed)
    && (!cleared ==> !next.calling)
  }

  /** Between events: alive until finalised, and pending while there is something left to do. */
  predicate Settled(s: State) {
    && s.recycled == s.finalised && s.frees == (if s.finalised then 1 else 0)
    && (!s.finalised ==> !s.calling)
    && s.armed == (!s.finalised && (s.repeat != 0 || s.starts == 0))
    && (s.repeat == 0 ==> s.starts <= 1)
  }

  lemma HappensSettled(s: State, op: Op, next: State)
    requires Settled(s) && Enabled(s, op) && Happens(s, op, next)
    ensures Settled(next) && s.frees == 0
  {
  }

  /**
   Over every run: freed exactly when the finaliser has run, and then once; nothing happens to a
   freed timer; a one-shot timer starts at most one callback; an interval timer stays pending until then.
   */
  lemma {:induction false} Lifetime(s: State, ops: seq<Op>, s': State)
    requires Settled(s) && Runs(s, ops, s')
    ensures Settled(s') && s'.repeat == s.repeat && s'.starts >= s.starts
    ensures s.frees == 1 ==> ops == []
    decreases |ops|
  {
    if ops != [] {
      var next :| Enabled(s, ops[0]) && Happens(s, ops[0], next) && Runs(next, ops[1..], s');
      HappensSettled(s, ops[0], next);
      Lifetime(next, ops[1..], s');
    }
  }

  class EventTimer {
    const repeat: nat
    var calling: bool
    var recycled: bool
    var armed: bool
    ghost var finalised: bool
    ghost var starts: nat
    ghost var frees: nat

    ghost function Now(): State
      reads this
    {
      State(repeat, calling, recycled, armed, finalised, starts, frees)
    }

    constructor (tv: nat, rv: nat)
      ensures Now() == Created(rv) && Settled(Now())
    {
      repeat, calling, recycled, armed := rv, false, false, true;
      finalised, starts, frees := false, 0, 0;
    }

    /** `~EventTimer`: the event goes too. */
    method Free()
      requires frees == 0
      modifies `armed, `frees
      ensures frees == 1 && !armed
    {
      armed := false;
      frees := 1;
    }

    /** `recycle`, which the finaliser calls; a second call changes nothing. */
    method Recycle()
      requires frees == 0
      modifies `recycled, `armed, `frees, `finalised
      ensures recycled && finalised
      ensures old(recycled) || calling ==> frees == 0 && armed == old(armed)
      ensures !old(recycled) && !calling ==> frees == 1 && !armed
    {
      finalised := true;
      if recycled {
        return;
      }
      recycled := true;
      if !calling {
        Free();
      }
    }

    method Finalise()
      requires Settled(Now()) && Enabled(Now(), Op.Finalise)
      modifies this
      ensures Happens(old(Now()), Op.Finalise, Now()) && Settled(Now())
    {
      Recycle();
    }

    /** `call`, when the event fires; every field is read and written only while the timer is not freed. */
    method Call(inCallback: bool, inDelete: bool)
      requires Settled(Now()) && Enabled(Now(), Fire(inCallback, inDelete))
      modifies this
      ensures Happens(old(Now()), Fire(inCallback, inDelete), Now()) && Settled(Now())
    {
      armed := false;
      if recycled {
        return;
      }
      if calling {
        return;
      }
      calling := true;
      starts := starts + 1;
      if inCallback {
        Recycle();
      }
      assert frees == 0;
      if recycled {
        Free();
        return;
      }
      if repeat != 0 {
        armed := true;
        calling := false;
        return;
      }
      if inDelete {
        Recycle();
      }
      assert frees == 0;
      calling := false;
      if recycled {
        Free();
      }
    }
  }

  // ---- In numbers ----

  /** A one-shot timer fires once and is freed with its finaliser; cleared in its callback, it is freed there. */
  lemma OneShot(a: State, b: State)
    requires Happens(Created(0), Fire(false, false), a) && Happens(a, Op.Finalise, b)
    ensures a.starts == 1 && !a.armed && a.frees == 0 && b.frees == 1 && b.starts == 1
  {
  }

  /** An interval timer fires again until it is cleared. */
  lemma Interval(a: State, b: State, c: State)
    requires Happens(Created(250), Fire(false, false), a) && Happens(a, Fire(false, false), b)
    requires Happens(b, Fire(true, false), c)
    ensures a.armed && b.armed && b.starts == 2 && b.frees == 0
    ensures c.starts == 3 && !c.armed && c.frees == 1 && !Enabled(c, Fire(false, false)) && !Enabled(c, Op.Finalise)
  {
  }

  /** 1500 milliseconds are one second and half a million microseconds. */
  lemma TimevalInNumbers()
    ensures NewTimeval(1500) == Timeval(1, 500_000) && NewTimeval(0) == Timeval(0, 0)
  {
  }
}
