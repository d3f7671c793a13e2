/** A whole message: flattened by the sender, read back on the receiver's stack. */
module BinaryMessage {
  import opened BinarySpec
  import opened BinaryDamage
  import opened BinaryList

  method Link(p: Binary, child: Binary, ghost nodes: seq<Binary>, ghost at: nat, ghost more: seq<Binary>) returns (q: Binary)
    requires Chain(nodes) && at < |nodes| && nodes[at] == p
    requires Chain(more) && more != [] && more[0] == child && forall n <- more :: n !in nodes
    modifies nodes[|nodes| - 1]
    ensures q == child && Chain(nodes + more)
  {
    assert nodes[|nodes| - 1] in nodes;
    q := BinaryAdd(p, child, nodes, at);
    assert Chain(more);
    Joined(nodes, more);
  }

  /** `WebWorkerPostMessage`: the values joined to one list. */
  method Post(vs: seq<Value>) returns (binary: Binary?, ghost nodes: seq<Binary>)
    requires AllWellFormed(vs)
    ensures Chain(nodes) && At(binary, nodes) && CellsOf(nodes) == FlatAll(vs)
    ensures binary == null <==> vs == []
  {
    hide Flat, FlatAll, WellFormed, AllWellFormed, FlatAllButLast, CellsOf;
    binary, nodes := null, [];
    var p: Binary? := null;
    ghost var at: nat := 0;
    var i := 0;
    NothingSent();
    assert vs[..0] == [];
    while i < |vs|
      invariant i <= |vs| && Chain(nodes) && At(binary, nodes) && CellsOf(nodes) == FlatAll(vs[..i])
      invariant if i == 0 then nodes == [] && p == null else at < |nodes| && nodes[at] == p
      invariant forall n <- nodes :: fresh(n)
    {
      WellFormedAt(vs, i);
      var child, more := BinaryAlloc(vs[i]);
      OneMoreSent(vs, i, nodes, more);
      if p == null {
        p, binary := child, child;
        assert nodes + more == more;
      } else {
        assert nodes[|nodes| - 1] in nodes;
        p := Link(p, child, nodes, at, more);
      }
      at := |nodes|;
      nodes := nodes + more;
      i := i + 1;
    }
    assert vs[..i] == vs;
  }

  lemma OneMoreSent(vs: seq<Value>, i: nat, nodes: seq<Binary>, more: seq<Binary>)
    requires i < |vs|
    requires CellsOf(nodes) == FlatAll(vs[..i]) && CellsOf(more) == Flat(vs[i])
    ensures CellsOf(nodes + more) == FlatAll(vs[..i + 1])
  {
    hide Flat, FlatAll, WellFormed, AllWellFormed, FlatAllButLast;
    FlatAllSnoc(vs[..i], vs[i]);
    CellsAppend(nodes, more);
    assert vs[..i] + [vs[i]] == vs[..i + 1];
  }

  lemma NothingSent()
    ensures FlatAll([]) == [] && Chain([]) && CellsOf([]) == []
  {
  }

  /** The receiver's loop: values are pushed until the list ends. */
  method Receive(ctx: Context, binary: Binary?, ghost nodes: seq<Binary>) returns (ok: bool)
    requires Chain(nodes) && At(binary, nodes)
    modifies ctx
    ensures ok == DecodeAll(CellsOf(nodes)).Got?
    ensures ok ==> ctx.stack == old(ctx.stack) + DecodeAll(CellsOf(nodes)).values
  {
    hide Decode, DecodeAll, Prepend;
    var p := binary;
    ghost var rest := nodes;
    ghost var pushed: seq<Value> := [];
    ok := true;
    PrependNothing(CellsOf(nodes));
    while p != null
      invariant Chain(rest) && At(p, rest) && ctx.stack == old(ctx.stack) + pushed
      invariant DecodeAll(CellsOf(nodes)) == Prepend(pushed, DecodeAll(CellsOf(rest)))
      decreases |rest|
    {
      ghost var cells := CellsOf(rest);
      PrependStep(pushed, cells);
      ok, p, rest := BinaryPushContext(ctx, p, rest);
      if !ok {
        return;
      }
      pushed := pushed + [Decode(cells).value];
    }
    assert CellsOf(rest) == [];
    PrependEnd(pushed);
  }

  function Prepend(pushed: seq<Value>, r: Received): Received {
    if r.Lost? then r else Got(pushed + r.values)
  }

  lemma PrependNothing(cells: seq<Cell>)
    ensures DecodeAll(cells) == Prepend([], DecodeAll(cells))
  {
    hide DecodeAll;
    var r := DecodeAll(cells);
    if r.Got? {
      assert [] + r.values == r.values;
    }
  }

  lemma PrependStep(pushed: seq<Value>, cells: seq<Cell>)
    requires cells != []
    ensures var d := Decode(cells);
            if d.Crash? then Prepend(pushed, DecodeAll(cells)) == Lost
            else Prepend(pushed, DecodeAll(cells)) == Prepend(pushed + [d.value], DecodeAll(d.rest))
  {
    hide Decode;
    var d := Decode(cells);
    if d.Done? && DecodeAll(d.rest).Got? {
      assert pushed + ([d.value] + DecodeAll(d.rest).values) == (pushed + [d.value]) + DecodeAll(d.rest).values;
    }
  }

  lemma PrependEnd(pushed: seq<Value>)
    ensures Prepend(pushed, DecodeAll([])) == Got(pushed)
  {
    assert pushed + [] == pushed;
  }

  /** A message arrives on the receiver's stack, one entry a value, if and only if each value survives where it stands. */
  method Deliver(ctx: Context, vs: seq<Value>) returns (ok: bool)
    requires AllWellFormed(vs)
    modifies ctx
    ensures ok && ctx.stack == old(ctx.stack) + PlainAll(vs) <==> Arrives(vs)
    ensures Arrives(vs) ==> |ctx.stack| == |old(ctx.stack)| + |vs|
    ensures AllKnown(vs) ==> (ok && ctx.stack == old(ctx.stack) + vs <==> Arrives(vs))
  {
    hide Flat, FlatAll, DecodeAll, PlainAll, AllWellFormed, Arrives;
    if AllKnown(vs) {
      AllKnownArePlain(vs);
    }
    var binary, nodes := Post(vs);
    MessageArrivesIff(vs);
    ok := Receive(ctx, binary, nodes);
    if ok {
      SameAfter(old(ctx.stack), DecodeAll(FlatAll(vs)).values, PlainAll(vs));
    }
  }

  lemma SameAfter(stack: seq<Value>, a: seq<Value>, b: seq<Value>)
    ensures stack + a == stack + b <==> a == b
  {
    assert (stack + a)[|stack|..] == a && (stack + b)[|stack|..] == b;
  }
}
