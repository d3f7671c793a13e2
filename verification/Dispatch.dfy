/** The channel and the job loop of a dispatch queue, as its own thread sees them. */
module Dispatch {
  import opened DispatchProtocol

  /** A mutex-guarded queue of jobs; `released` records what its release function was given. */
  class Chan {
    var queue: seq<Job>
    ghost var released: seq<Job>

    constructor ()
      ensures queue == [] && released == []
    {
      queue, released := [], [];
    }

    method Push(j: Job)
      modifies `queue
      ensures queue == old(queue) + [j]
    {
      queue := queue + [j];
    }

    /** The oldest job, or nothing. */
    method Pop() returns (found: bool, j: Job)
      modifies `queue
      ensures found == (old(queue) != [])
      ensures found ==> old(queue) == [j] + queue
      ensures !found ==> queue == []
    {
      found, j := false, 0;
      if queue != [] {
        found, j := true, queue[0];
        queue := queue[1..];
      }
    }

    method ReleaseObject(j: Job)
      modifies `released
      ensures released == old(released) + [j]
    {
      released := released + [j];
    }

    /** `~Chan`: what was never taken is released, oldest first. */
    method Destroy()
      modifies `queue, `released
      ensures queue == [] && released == old(released) + old(queue)
    {
      ghost var q, r := queue, released;
      while queue != []
        invariant released + queue == r + q
        decreases |queue|
      {
        var v := queue[0];
        assert released + queue == released + [v] + queue[1..];
        queue := queue[1..];
        ReleaseObject(v);
      }
      assert released + [] == released;
    }
  }

  /** The part of `jobs` that stays queued after the first break. */
  function AfterBreak(kinds: map<Job, Kind>, jobs: seq<Job>): seq<Job> {
    if jobs == [] then []
    else if Breaks(kinds, jobs[0]) then jobs[1..]
    else AfterBreak(kinds, jobs[1..])
  }

  predicate AnyBreaks(kinds: map<Job, Kind>, jobs: seq<Job>) {
    exists j <- jobs :: Breaks(kinds, j)
  }

  lemma {:induction false} SplitAtBreak(kinds: map<Job, Kind>, jobs: seq<Job>)
    ensures jobs == UpToBreak(kinds, jobs) + AfterBreak(kinds, jobs)
    ensures !AnyBreaks(kinds, jobs) ==> AfterBreak(kinds, jobs) == []
    ensures AnyBreaks(kinds, jobs) ==> UpToBreak(kinds, jobs) != [] && Breaks(kinds, Last(UpToBreak(kinds, jobs)))
  {
    if jobs != [] {
      assert jobs == [jobs[0]] + jobs[1..];
      SplitAtBreak(kinds, jobs[1..]);
    }
  }

  function Last(s: seq<Job>): Job
    requires s != []
  {
    s[|s| - 1]
  }

  lemma FirstBreaks(kinds: map<Job, Kind>, jobs: seq<Job>)
    requires jobs != []
    ensures AnyBreaks(kinds, jobs) == (Breaks(kinds, jobs[0]) || AnyBreaks(kinds, jobs[1..]))
  {
    assert jobs == [jobs[0]] + jobs[1..];
    assert forall j :: j in jobs <==> j == jobs[0] || j in jobs[1..];
  }

  /** Pushing more before a run, or between runs, makes no difference to what runs. */
  lemma {:induction false} UpToBreakInPieces(kinds: map<Job, Kind>, a: seq<Job>, b: seq<Job>)
    ensures UpToBreak(kinds, a + b) ==
            if AnyBreaks(kinds, a) then UpToBreak(kinds, a) else a + UpToBreak(kinds, b)
  {
    if a == [] {
      assert a + b == b;
    } else {
      hide AnyBreaks, Breaks;
      FirstBreaks(kinds, a);
      assert (a + b)[0] == a[0] && (a + b)[1..] == a[1..] + b;
      UpToBreakInPieces(kinds, a[1..], b);
      assert a + UpToBreak(kinds, b) == [a[0]] + (a[1..] + UpToBreak(kinds, b));
    }
  }

  /** `DispatchQueue`: `pushed` records the run; `armed` says that the timer is pending. */
  class Queue {
    const chan: Chan
    const kinds: map<Job, Kind>
    var loopbreak: bool
    var armed: bool
    var executed: seq<Job>
    ghost var pushed: seq<Job>

    /** What ran is what was pushed up to the first break; the timer is pending until then. */
    ghost predicate Valid()
      reads this, chan
    {
      && pushed == executed + chan.queue && chan.released == executed && armed == !loopbreak
      && (if loopbreak then executed == UpToBreak(kinds, pushed) && AnyBreaks(kinds, pushed)
          else !AnyBreaks(kinds, executed))
    }

    constructor (kinds: map<Job, Kind>)
      ensures Valid() && fresh(chan) && pushed == [] && this.kinds == kinds && !loopbreak
    {
      chan := new Chan();
      this.kinds := kinds;
      loopbreak, armed, executed, pushed := false, true, [], [];
    }

    method Async(j: Job)
      requires Valid()
      modifies `pushed, chan`queue
      ensures Valid() && pushed == old(pushed) + [j]
    {
      chan.Push(j);
      pushed := pushed + [j];
      if loopbreak {
        UpToBreakInPieces(kinds, old(pushed), [j]);
      }
    }

    /** One firing of the timer: jobs run one by one until none is left or one has broken the loop. */
    method Run()
      requires Valid() && armed
      modifies this, chan
      ensures Valid() && pushed == old(pushed)
      ensures executed == old(executed) + UpToBreak(kinds, old(chan.queue))
      ensures loopbreak == AnyBreaks(kinds, old(chan.queue))
    {
      ghost var q, x, done := chan.queue, executed, [];
      assert !AnyBreaks(kinds, done);
      hide AnyBreaks, UpToBreak, Breaks;
      armed := false;
      while true
        invariant executed == x + done && done + chan.queue == q && pushed == x + q
        invariant chan.released == executed && !loopbreak && !armed && !AnyBreaks(kinds, done)
        decreases |chan.queue|
      {
        var found, j := chan.Pop();
        if !found {
          assert done == q;
          NoneBroke(kinds, x, done);
          break;
        }
        Grow(kinds, x, done, j, chan.queue);
        executed := executed + [j];
        loopbreak := Breaks(kinds, j);
        chan.ReleaseObject(j);
        done := done + [j];
        if loopbreak {
          OneBroke(kinds, x, done, q);
          break;
        }
      }
      Regroup(x, done, chan.queue);
      if !loopbreak {
        armed := true;
      }
    }

    /** `~DispatchQueue` after `join`: the jobs behind the break are deleted unrun. */
    method Destroy()
      requires Valid() && loopbreak
      modifies chan
      ensures chan.queue == [] && chan.released == pushed && executed == old(executed)
    {
      chan.Destroy();
    }
  }

  lemma BreaksAppend(kinds: map<Job, Kind>, a: seq<Job>, b: seq<Job>)
    ensures AnyBreaks(kinds, a + b) == (AnyBreaks(kinds, a) || AnyBreaks(kinds, b))
  {
    assert forall j :: j in a + b <==> j in a || j in b;
  }

  lemma Regroup(a: seq<Job>, b: seq<Job>, c: seq<Job>)
    ensures a + (b + c) == a + b + c
  {
  }

  lemma NoneBroke(kinds: map<Job, Kind>, x: seq<Job>, q: seq<Job>)
    requires !AnyBreaks(kinds, x) && !AnyBreaks(kinds, q)
    ensures UpToBreak(kinds, q) == q && !AnyBreaks(kinds, x + q)
  {
    assert q + [] == q;
    UpToBreakInPieces(kinds, q, []);
    BreaksAppend(kinds, x, q);
  }

  lemma OneBroke(kinds: map<Job, Kind>, x: seq<Job>, done: seq<Job>, q: seq<Job>)
    requires !AnyBreaks(kinds, x) && AnyBreaks(kinds, q) && UpToBreak(kinds, q) == done
    ensures x + done == UpToBreak(kinds, x + q) && AnyBreaks(kinds, x + q)
  {
    UpToBreakInPieces(kinds, x, q);
    BreaksAppend(kinds, x, q);
  }

  /** One more job taken: what has run stays what runs up to the first break. */
  lemma Grow(kinds: map<Job, Kind>, x: seq<Job>, done: seq<Job>, j: Job, rest: seq<Job>)
    requires !AnyBreaks(kinds, done)
    ensures x + done + [j] == x + (done + [j]) && done + ([j] + rest) == done + [j] + rest
    ensures x + done + ([j] + rest) == x + done + [j] + rest
    ensures AnyBreaks(kinds, done + [j]) == Breaks(kinds, j)
    ensures Breaks(kinds, j) ==> UpToBreak(kinds, done + [j] + rest) == done + [j] && AnyBreaks(kinds, done + [j] + rest)
  {
    BreaksAppend(kinds, done, [j]);
    BreaksAppend(kinds, done + [j], rest);
    assert AnyBreaks(kinds, [j]) == Breaks(kinds, j) by {
      assert j in [j];
    }
    UpToBreakInPieces(kinds, done, [j] + rest);
    assert done + ([j] + rest) == done + [j] + rest;
    assert ([j] + rest)[0] == j;
  }
}
