/** The linked list itself: nodes joined by writing `next`, and the script stack it is read back to. */
module BinaryList {
  import opened BinarySpec

  class Binary {
    const cell: Cell
    var next: Binary?

    constructor (cell: Cell)
      ensures this.cell == cell && next == null
    {
      this.cell := cell;
      next := null;
    }
  }

  /** `nodes` are the nodes reached from the first by `next`. */
  ghost predicate Chain(nodes: seq<Binary>)
    reads nodes
  {
    && (forall i, j | 0 <= i < j < |nodes| :: nodes[i] != nodes[j])
    && (forall i | 0 <= i < |nodes| :: nodes[i].next == After(nodes, i))
  }

  ghost function After(nodes: seq<Binary>, i: nat): Binary?
    requires i < |nodes|
  {
    if i + 1 < |nodes| then nodes[i + 1] else null
  }

  ghost function CellsOf(nodes: seq<Binary>): (cells: seq<Cell>)
    ensures |cells| == |nodes|
  {
    seq(|nodes|, i requires 0 <= i < |nodes| => nodes[i].cell)
  }

  lemma CellsAppend(a: seq<Binary>, b: seq<Binary>)
    ensures CellsOf(a + b) == CellsOf(a) + CellsOf(b)
  {
  }

  /** `BinaryAdd`: link `binary` after the last node reached from `p`. */
  method BinaryAdd(p: Binary?, binary: Binary, ghost nodes: seq<Binary>, ghost at: nat) returns (r: Binary)
    requires p != null ==> Chain(nodes) && at < |nodes| && nodes[at] == p
    modifies if p == null then {} else {nodes[|nodes| - 1]}
    ensures r == binary && (p != null ==> nodes[|nodes| - 1].next == binary)
  {
    var q := p;
    ghost var i: nat := at;
    while q != null && q.next != null
      invariant p == null ==> q == null
      invariant p != null ==> Chain(nodes) && i < |nodes| && q == nodes[i]
      decreases if q == null then 0 else |nodes| - i
    {
      assert nodes[i].next == After(nodes, i);
      q := q.next;
      i := i + 1;
    }
    if q != null {
      assert nodes[i].next == After(nodes, i);
      q.next := binary;
    }
    r := binary;
  }

  // ---- Encoding ----

  lemma {:induction false} FlatAllSnoc(vs: seq<Value>, v: Value)
    ensures FlatAll(vs + [v]) == FlatAll(vs) + Flat(v)
    ensures FlatAllButLast(vs + [v]) == FlatAll(vs)
    decreases |vs|
  {
    hide Flat;
    if vs == [] {
      assert vs + [v] == [v] && [v][1..] == [];
      assert FlatAll([v]) == Flat(v) + FlatAll([]);
      assert FlatAllButLast([v]) == [];
    } else {
      assert (vs + [v])[1..] == vs[1..] + [v];
      FlatAllSnoc(vs[1..], v);
      assert FlatAllButLast(vs + [v]) == Flat(vs[0]) + FlatAllButLast(vs[1..] + [v]);
    }
  }

  /** A composite under construction: `p` is the head of the last child, or of the whole. */
  ghost predicate Building(nodes: seq<Binary>, at: nat, p: Binary, head: Cell, done: seq<Value>)
    reads nodes
  {
    && Chain(nodes) && at < |nodes| && nodes[at] == p
    && CellsOf(nodes) == [head] + FlatAll(done)
    && CellsOf(nodes[..at + 1]) == [head] + FlatKids(done)
  }

  lemma Extended(nodes: seq<Binary>, at: nat, head: Cell, done: seq<Value>, v: Value, more: seq<Binary>)
    requires at < |nodes| && CellsOf(nodes) == [head] + FlatAll(done)
    requires more != [] && CellsOf(more) == Flat(v)
    ensures CellsOf(nodes + more) == [head] + FlatAll(done + [v])
    ensures CellsOf((nodes + more)[..|nodes| + 1]) == [head] + FlatKids(done + [v])
  {
    hide Flat, FlatAll, FlatAllButLast;
    FlatAllSnoc(done, v);
    CellsAppend(nodes, more);
    assert (nodes + more)[..|nodes| + 1] == nodes + [more[0]];
    assert CellsOf(more)[0] == more[0].cell;
    CellsAppend(nodes, [more[0]]);
  }

  lemma Joined(a: seq<Binary>, b: seq<Binary>)
    requires a != [] && b != [] && Chain(b) && a[|a| - 1].next == b[0]
    requires forall n <- b :: n !in a
    requires forall i, j | 0 <= i < j < |a| :: a[i] != a[j]
    requires forall i | 0 <= i < |a| - 1 :: a[i].next == After(a, i)
    ensures Chain(a + b)
  {
    var c := a + b;
    forall i, j | 0 <= i < j < |c| ensures c[i] != c[j] {
      if i < |a| <= j {
        assert c[j] in b && c[i] in a;
      }
    }
    forall i | 0 <= i < |c| ensures c[i].next == After(c, i) {
      if i < |a| - 1 {
        assert a[i].next == After(a, i);
      } else if i >= |a| {
        assert b[i - |a|].next == After(b, i - |a|);
      }
    }
  }

  /** One child appended, as the loops of `BinaryAlloc` do. */
  method AddChild(v: Value, p: Binary, ghost nodes: seq<Binary>, ghost at: nat, ghost head: Cell, ghost done: seq<Value>,
                  child: Binary, ghost more: seq<Binary>)
    returns (q: Binary, ghost nodes': seq<Binary>)
    requires Building(nodes, at, p, head, done)
    requires Chain(more) && more != [] && more[0] == child && CellsOf(more) == Flat(v)
    requires forall n <- more :: n !in nodes
    modifies nodes[|nodes| - 1]
    ensures nodes' == nodes + more && Building(nodes', |nodes|, q, head, done + [v])
  {
    hide Flat, FlatAll, FlatKids;
    assert nodes[|nodes| - 1] in nodes;
    q := BinaryAdd(p, child, nodes, at);
    assert Chain(more);
    nodes' := nodes + more;
    Joined(nodes, more);
    Extended(nodes, at, head, done, v, more);
  }

  /** `p->next = End`: whatever followed `p` is cut off. */
  method Finish(p: Binary, ghost nodes: seq<Binary>, ghost at: nat, ghost head: Cell, ghost done: seq<Value>)
    returns (ghost nodes': seq<Binary>)
    requires Building(nodes, at, p, head, done)
    modifies p
    ensures Chain(nodes') && nodes' != [] && nodes'[0] == nodes[0]
    ensures CellsOf(nodes') == [head] + FlatKids(done) + [EndCell]
    ensures forall n <- nodes' :: n in nodes || fresh(n)
  {
    var end := new Binary(EndCell);
    p.next := end;
    nodes' := nodes[..at + 1] + [end];
    CellsAppend(nodes[..at + 1], [end]);
  }

  /** `BinaryAlloc`: the nodes reached from the result carry the cells of `v`. */
  method BinaryAlloc(v: Value) returns (r: Binary, ghost nodes: seq<Binary>)
    requires WellFormed(v)
    ensures Chain(nodes) && nodes != [] && nodes[0] == r && CellsOf(nodes) == Flat(v)
    ensures forall n <- nodes :: fresh(n)
    decreases v, 2
  {
    r := new Binary(CellOf(v));
    if v.Array? {
      nodes := AddItems(v, r);
    } else if v.Object? {
      nodes := AddEntries(v, r);
    } else {
      nodes := [r];
    }
  }

  /** One child encoded and appended. */
  method AddOne(kids: seq<Value>, i: nat, p: Binary, ghost nodes: seq<Binary>, ghost at: nat, ghost head: Cell, ghost r: Binary)
    returns (q: Binary, ghost nodes': seq<Binary>, ghost at': nat)
    requires AllWellFormed(kids) && i < |kids| && Building(nodes, at, p, head, kids[..i]) && nodes != [] && nodes[0] == r
    modifies nodes[|nodes| - 1]
    ensures Building(nodes', at', q, head, kids[..i + 1]) && nodes' != [] && nodes'[0] == r && q in nodes'
    ensures (forall n <- nodes' :: n in nodes || fresh(n)) && fresh(nodes'[|nodes'| - 1])
    decreases kids[i], 3
  {
    hide Flat, FlatAll, FlatKids;
    WellFormedAt(kids, i);
    var child, more := BinaryAlloc(kids[i]);
    assert nodes[|nodes| - 1] in nodes;
    at' := |nodes|;
    q, nodes' := AddChild(kids[i], p, nodes, at, head, kids[..i], child, more);
    assert kids[..i] + [kids[i]] == kids[..i + 1];
    assert nodes'[|nodes'| - 1] == more[|more| - 1] && more[|more| - 1] in more;
  }

  /** The array loop of `BinaryAlloc`. */
  method AddItems(v: Value, r: Binary) returns (ghost nodes: seq<Binary>)
    requires v.Array? && WellFormed(v) && r.next == null && r.cell == ArrayCell
    modifies r
    ensures Chain(nodes) && nodes != [] && nodes[0] == r && CellsOf(nodes) == Flat(v)
    ensures forall n <- nodes :: n == r || fresh(n)
    decreases v, 1
  {
    nodes := [r];
    var p, i := r, 0;
    ghost var at: nat := 0;
    BuildingNone(nodes, r, ArrayCell);
    assert v.items[..0] == [];
    assert Flat(v) == [ArrayCell] + FlatKids(v.items) + [EndCell];
    hide Flat, FlatAll, FlatKids, Chain, AllWellFormed, Building;
    while i < |v.items|
      invariant i <= |v.items| && Building(nodes, at, p, ArrayCell, v.items[..i])
      invariant |nodes| > 0 && nodes[0] == r && p in nodes && forall n <- nodes :: n == r || fresh(n)
    {
      assert nodes[|nodes| - 1] in nodes;
      p, nodes, at := AddOne(v.items, i, p, nodes, at, ArrayCell, r);
      i := i + 1;
    }
    assert v.items[..i] == v.items;
    nodes := Finish(p, nodes, at, ArrayCell, v.items);
  }

  /** A key and its value. */
  method AddPair(v: Value, i: nat, p: Binary, ghost nodes: seq<Binary>, ghost at: nat, ghost r: Binary)
    returns (q: Binary, ghost nodes': seq<Binary>, ghost at': nat)
    requires v.Object? && AllWellFormed(v.entries) && i + 1 < |v.entries| && nodes != [] && nodes[0] == r
    requires Building(nodes, at, p, ObjectCell, v.entries[..i])
    modifies nodes[|nodes| - 1]
    ensures Building(nodes', at', q, ObjectCell, v.entries[..i + 2]) && nodes' != [] && nodes'[0] == r && q in nodes'
    ensures forall n <- nodes' :: n in nodes || fresh(n)
    decreases v, 0
  {
    hide AllWellFormed, Building;
    assert nodes[|nodes| - 1] in nodes;
    q, nodes', at' := AddOne(v.entries, i, p, nodes, at, ObjectCell, r);
    q, nodes', at' := AddOne(v.entries, i + 1, q, nodes', at', ObjectCell, r);
  }

  /** The object loop of `BinaryAlloc`: each turn appends a key and its value. */
  method AddEntries(v: Value, r: Binary) returns (ghost nodes: seq<Binary>)
    requires v.Object? && WellFormed(v) && r.next == null && r.cell == ObjectCell
    modifies r
    ensures Chain(nodes) && nodes != [] && nodes[0] == r && CellsOf(nodes) == Flat(v)
    ensures forall n <- nodes :: n == r || fresh(n)
    decreases v, 1
  {
    hide Flat, FlatAll, FlatKids, Chain, WellFormed, AllWellFormed, Keyed, Building;
    nodes := [r];
    var p, i := r, 0;
    ghost var at: nat := 0;
    BuildingNone(nodes, r, ObjectCell);
    assert v.entries[..0] == [];
    ObjectParts(v);
    while i < |v.entries|
      invariant i <= |v.entries| && i % 2 == 0 && Building(nodes, at, p, ObjectCell, v.entries[..i])
      invariant |nodes| > 0 && nodes[0] == r && p in nodes && forall n <- nodes :: n == r || fresh(n)
    {
      assert nodes[|nodes| - 1] in nodes;
      p, nodes, at := AddPair(v, i, p, nodes, at, r);
      i := i + 2;
    }
    assert v.entries[..i] == v.entries;
    nodes := Finish(p, nodes, at, ObjectCell, v.entries);
  }

  lemma ObjectParts(v: Value)
    requires v.Object? && WellFormed(v)
    ensures |v.entries| % 2 == 0 && AllWellFormed(v.entries) && Flat(v) == [ObjectCell] + FlatKids(v.entries) + [EndCell]
  {
    KeyedIsEven(v.entries);
  }

  lemma BuildingNone(nodes: seq<Binary>, r: Binary, head: Cell)
    requires nodes == [r] && r.next == null && r.cell == head
    ensures Building(nodes, 0, r, head, [])
  {
    assert nodes[..1] == nodes;
  }

  lemma {:induction false} WellFormedAt(vs: seq<Value>, i: nat)
    requires AllWellFormed(vs) && i < |vs|
    ensures WellFormed(vs[i])
    decreases |vs|
  {
    if i > 0 {
      WellFormedAt(vs[1..], i - 1);
    }
  }

  lemma {:induction false} KeyedIsEven(vs: seq<Value>)
    requires Keyed(vs)
    ensures |vs| % 2 == 0
    decreases |vs|
  {
    if vs != [] {
      KeyedIsEven(vs[2..]);
    }
  }

  // ---- Decoding ----

  /** `duk_put_prop` on the value below key and value. */
  function PutOn(target: Value, key: Value, value: Value): Value {
    match target
    case Array(items) => if key == Number(|items|) then Array(items + [value]) else target
    case Object(entries) => Object(Put(entries, key, value))
    case _ => target
  }

  class Context {
    var stack: seq<Value>

    method Push(v: Value)
      modifies this
      ensures stack == old(stack) + [v]
    {
      stack := stack + [v];
    }

    method Pop()
      requires stack != []
      modifies this
      ensures stack == old(stack)[..|old(stack)| - 1]
    {
      stack := stack[..|stack| - 1];
    }

    /** Takes key and value off the stack and puts them on the value below. */
    method PutProp()
      requires |stack| >= 3
      modifies this
      ensures var n := old(|stack|) - 3;
              stack == old(stack[..n]) + [PutOn(old(stack[n]), old(stack[n + 1]), old(stack[n + 2]))]
    {
      var n := |stack| - 3;
      stack := stack[..n] + [PutOn(stack[n], stack[n + 1], stack[n + 2])];
    }
  }

  /** `p` is the first of the nodes `rest`, or null when there are none. */
  ghost predicate At(p: Binary?, nodes: seq<Binary>) {
    if nodes == [] then p == null else p == nodes[0]
  }

  lemma ChainTail(nodes: seq<Binary>)
    requires Chain(nodes) && nodes != []
    ensures Chain(nodes[1..]) && At(nodes[0].next, nodes[1..]) && CellsOf(nodes)[1..] == CellsOf(nodes[1..])
    ensures CellsOf(nodes)[0] == nodes[0].cell
  {
    assert nodes[0].next == After(nodes, 0);
    forall i | 0 <= i < |nodes| - 1 ensures nodes[1..][i].next == After(nodes[1..], i) {
      assert nodes[i + 1].next == After(nodes, i + 1);
    }
  }

  /**
   `BinaryPushContext`: one value is pushed and the list position after it returned.
   Where the source would follow a null pointer, `ok` is false.
   */
  method BinaryPushContext(ctx: Context, binary: Binary, ghost nodes: seq<Binary>)
    returns (ok: bool, next: Binary?, ghost rest: seq<Binary>)
    requires Chain(nodes) && nodes != [] && nodes[0] == binary
    modifies ctx
    ensures ok == Decode(CellsOf(nodes)).Done?
    ensures ok ==> var d := Decode(CellsOf(nodes));
                   Chain(rest) && At(next, rest) && CellsOf(rest) == d.rest && ctx.stack == old(ctx.stack) + [d.value]
    ensures |rest| < |nodes|
    decreases |nodes|, 0
  {
    ChainTail(nodes);
    if binary.cell == ObjectCell {
      ok, next, rest := PushObject(ctx, binary.next, nodes[1..]);
    } else if binary.cell == ArrayCell {
      ok, next, rest := PushArray(ctx, binary.next, nodes[1..]);
    } else {
      ctx.Push(Atom(binary.cell));
      ok, next, rest := true, binary.next, nodes[1..];
    }
  }

  method PushArray(ctx: Context, first: Binary?, ghost nodes: seq<Binary>)
    returns (ok: bool, p: Binary?, ghost rest: seq<Binary>)
    requires Chain(nodes) && At(first, nodes)
    modifies ctx
    ensures var d := DecodeItems(CellsOf(nodes), []);
            ok == d.Done? &&
            (ok ==> Chain(rest) && At(p, rest) && CellsOf(rest) == d.rest && ctx.stack == old(ctx.stack) + [d.value])
    ensures |rest| <= |nodes|
    decreases |nodes|, 1
  {
    hide Decode;
    ctx.Push(Array([]));
    p, rest, ok := first, nodes, true;
    var i := 0;
    ghost var items: seq<Value> := [];
    while p != null && p.cell != EndCell
      invariant Chain(rest) && At(p, rest) && |rest| <= |nodes| && |items| == i
      invariant DecodeItems(CellsOf(nodes), []) == DecodeItems(CellsOf(rest), items)
      invariant ctx.stack == old(ctx.stack) + [Array(items)]
      decreases |rest|
    {
      ctx.Push(Number(i));
      ghost var before := ctx.stack;
      ghost var cells := CellsOf(rest);
      assert cells[0] == p.cell;
      ok, p, rest := BinaryPushContext(ctx, p, rest);
      if !ok {
        return;
      }
      ghost var v := Decode(cells).value;
      assert ctx.stack == old(ctx.stack) + [Array(items), Number(i), v];
      ctx.PutProp();
      items := items + [v];
      i := i + 1;
    }
    if p == null {
      ok := false;
      return;
    }
    ChainTail(rest);
    p, rest := p.next, rest[1..];
  }

  lemma FieldsUnfold(cells: seq<Cell>, entries: seq<Value>)
    ensures DecodeFields(cells, entries) ==
            if cells == [] then Done(Object(entries), [])
            else if cells[0] == EndCell then Done(Object(entries), cells[1..])
            else
              var k := Decode(cells);
              if k.Crash? then k
              else if k.rest == [] then Done(Object(entries), [])
              else
                var v := Decode(k.rest);
                if v.Crash? then v else DecodeFields(v.rest, Put(entries, k.value, v.value))
  {
    hide Decode, Put;
  }

  method PushObject(ctx: Context, first: Binary?, ghost nodes: seq<Binary>)
    returns (ok: bool, p: Binary?, ghost rest: seq<Binary>)
    requires Chain(nodes) && At(first, nodes)
    modifies ctx
    ensures var d := DecodeFields(CellsOf(nodes), []);
            ok == d.Done? &&
            (ok ==> Chain(rest) && At(p, rest) && CellsOf(rest) == d.rest && ctx.stack == old(ctx.stack) + [d.value])
    ensures |rest| <= |nodes|
    decreases |nodes|, 1
  {
    hide Decode, Put, DecodeFields;
    ctx.Push(Object([]));
    p, rest, ok := first, nodes, true;
    ghost var entries: seq<Value> := [];
    while p != null && p.cell != EndCell
      invariant Chain(rest) && At(p, rest) && |rest| <= |nodes|
      invariant DecodeFields(CellsOf(nodes), []) == DecodeFields(CellsOf(rest), entries)
      invariant ctx.stack == old(ctx.stack) + [Object(entries)]
      decreases |rest|
    {
      ghost var cells := CellsOf(rest);
      assert cells[0] == p.cell;
      FieldsUnfold(cells, entries);
      ok, p, rest := BinaryPushContext(ctx, p, rest);
      if !ok {
        return;
      }
      ghost var k := Decode(cells).value;
      if p != null {
        ghost var more := CellsOf(rest);
        ok, p, rest := BinaryPushContext(ctx, p, rest);
        if !ok {
          return;
        }
        ghost var v := Decode(more).value;
        assert ctx.stack == old(ctx.stack) + [Object(entries), k, v];
        ctx.PutProp();
        entries := Put(entries, k, v);
      } else {
        ctx.Pop();
        break;
      }
    }
    FieldsUnfold(CellsOf(rest), entries);
    if p != null && p.cell == EndCell {
      ChainTail(rest);
      p, rest := p.next, rest[1..];
    }
  }
}
