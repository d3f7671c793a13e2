/** Which values and messages the serialiser damages: every other one than survives. */
module BinaryDamage {
  import opened BinarySpec
  import opened BinaryRoundTrip

  // ---- Heads and ends ----

  /** How many more composites the cells open than they close. */
  function Net(cells: seq<Cell>): int {
    if cells == [] then 0 else Weight(cells[0]) + Net(cells[1..])
  }

  function Weight(c: Cell): int {
    if c == ArrayCell || c == ObjectCell then 1 else if c == EndCell then -1 else 0
  }

  lemma {:induction false} NetAppend(a: seq<Cell>, b: seq<Cell>)
    ensures Net(a + b) == Net(a) + Net(b)
  {
    if a == [] {
      assert a + b == b;
    } else {
      assert (a + b)[1..] == a[1..] + b;
      NetAppend(a[1..], b);
    }
  }

  /** At no point have the cells closed more than they opened. */
  ghost predicate Rising(cells: seq<Cell>) {
    forall k | 0 <= k <= |cells| :: Net(cells[..k]) >= 0
  }

  lemma RisingAppend(a: seq<Cell>, b: seq<Cell>)
    requires Rising(a) && Rising(b)
    ensures Rising(a + b)
  {
    hide Net;
    assert a[..|a|] == a;
    forall k | 0 <= k <= |a + b| ensures Net((a + b)[..k]) >= 0 {
      if k <= |a| {
        assert (a + b)[..k] == a[..k];
      } else {
        assert (a + b)[..k] == a + b[..k - |a|];
        NetAppend(a, b[..k - |a|]);
      }
    }
  }

  lemma RisingOne(c: Cell)
    requires c != EndCell
    ensures Rising([c]) && Net([c]) == Weight(c)
  {
    assert [c][..0] == [] && [c][..1] == [c];
  }

  lemma RisingNone()
    ensures Rising([]) && Net([]) == 0
  {
  }

  /** A flattened value closes all it opens exactly when its last children are atoms; else it leaves some open. */
  lemma {:induction false} FlatNet(v: Value)
    ensures Rising(Flat(v)) && (Net(Flat(v)) == 0 <==> LastAtomic(v))
    ensures Composite(v) ==> forall k | 0 < k < |Flat(v)| :: Net(Flat(v)[..k]) >= 1
    decreases v, 0
  {
    if Composite(v) {
      KidsNet(Kids(v));
      hide FlatKids, AllLastAtomic;
      Enclosed(CellOf(v), FlatKids(Kids(v)));
    } else {
      RisingOne(CellOf(v));
    }
  }

  lemma Enclosed(head: Cell, inner: seq<Cell>)
    requires Rising(inner) && Weight(head) == 1
    ensures var cells := [head] + inner + [EndCell];
            && Rising(cells) && Net(cells) == Net(inner)
            && forall k | 0 < k < |cells| :: Net(cells[..k]) >= 1
  {
    var cells := [head] + inner + [EndCell];
    assert inner[..|inner|] == inner;
    forall k | 0 < k < |cells| ensures Net(cells[..k]) == 1 + Net(inner[..k - 1]) {
      assert cells[..k] == [head] + inner[..k - 1];
      assert cells[..k][1..] == inner[..k - 1];
    }
    NetAppend([head] + inner, [EndCell]);
    assert ([head] + inner)[1..] == inner && [EndCell][1..] == [];
    assert cells[..|cells|] == cells && cells[..0] == [];
    hide Net;
  }

  lemma {:induction false} KidsNet(vs: seq<Value>)
    ensures Rising(FlatKids(vs)) && Net(FlatKids(vs)) >= 0
    ensures Net(FlatKids(vs)) == 0 <==> AllLastAtomic(vs) && (vs != [] ==> !Composite(vs[|vs| - 1]))
    decreases vs, 1
  {
    if vs == [] {
      RisingNone();
    } else if |vs| == 1 {
      OneKid(vs);
    } else {
      FlatNet(vs[0]);
      KidsNet(vs[1..]);
      hide Flat, LastAtomic, Net, Rising;
      KidsFirst(vs);
      RisingAppend(Flat(vs[0]), FlatKids(vs[1..]));
      NetAppend(Flat(vs[0]), FlatKids(vs[1..]));
      WholeRises(Flat(vs[0]));
    }
  }

  lemma WholeRises(cells: seq<Cell>)
    requires Rising(cells)
    ensures Net(cells) >= 0
  {
    assert cells[..|cells|] == cells;
  }

  lemma OneKid(vs: seq<Value>)
    requires |vs| == 1
    ensures FlatKids(vs) == [CellOf(vs[0])] && Rising(FlatKids(vs)) && Net(FlatKids(vs)) >= 0
    ensures Net(FlatKids(vs)) == 0 <==> AllLastAtomic(vs) && !Composite(vs[0])
  {
    assert FlatKids(vs) == [CellOf(vs[0])];
    RisingOne(CellOf(vs[0]));
    assert AllLastAtomic(vs) == (LastAtomic(vs[0]) && AllLastAtomic(vs[1..])) && vs[1..] == [];
    if !Composite(vs[0]) {
      assert LastAtomic(vs[0]);
    }
  }

  lemma KidsFirst(vs: seq<Value>)
    requires |vs| >= 2
    ensures FlatKids(vs) == Flat(vs[0]) + FlatKids(vs[1..])
    ensures vs[1..] != [] && vs[1..][|vs[1..]| - 1] == vs[|vs| - 1]
  {
    hide Flat;
    Associate(Flat(vs[0]), FlatAllButLast(vs[1..]), [CellOf(vs[|vs| - 1])]);
  }

  // ---- Reading ----

  /** The cells of `cells` before `rest`, its end. */
  predicate Ends(cells: seq<Cell>, rest: seq<Cell>) {
    |rest| <= |cells| && rest == cells[|cells| - |rest|..]
  }

  /** A read that does not run off the list never opens more than it closes. */
  lemma {:induction false} ReadBalance(cells: seq<Cell>)
    requires cells != [] && Decode(cells).Done? && Decode(cells).rest != []
    ensures Ends(cells, Decode(cells).rest) && Net(cells) <= Net(Decode(cells).rest)
    decreases |cells|, 0
  {
    if cells[0] == ArrayCell {
      ItemsBalance(cells[1..], []);
    } else if cells[0] == ObjectCell {
      FieldsBalance(cells[1..], []);
    }
  }

  lemma {:induction false} ItemsBalance(cells: seq<Cell>, items: seq<Value>)
    requires DecodeItems(cells, items).Done? && DecodeItems(cells, items).rest != []
    ensures var rest := DecodeItems(cells, items).rest; Ends(cells, rest) && Net(cells) + 1 <= Net(rest)
    decreases |cells|, 1
  {
    if cells[0] != EndCell {
      hide Decode, Net;
      var d := Decode(cells);
      assert d.rest != [];
      ReadBalance(cells);
      ItemsBalance(d.rest, items + [d.value]);
    }
  }

  lemma {:induction false} FieldsBalance(cells: seq<Cell>, entries: seq<Value>)
    requires DecodeFields(cells, entries).Done? && DecodeFields(cells, entries).rest != []
    ensures var rest := DecodeFields(cells, entries).rest; Ends(cells, rest) && Net(cells) + 1 <= Net(rest)
    decreases |cells|, 1
  {
    if cells[0] != EndCell {
      hide Decode, Net, Put;
      var k := Decode(cells);
      ReadBalance(cells);
      var v := Decode(k.rest);
      assert v.rest != [];
      ReadBalance(k.rest);
      FieldsBalance(v.rest, Put(entries, k.value, v.value));
    }
  }

  /** Once a damaged value is begun the reader does not come back from it before the list runs out. */
  lemma DamageRunsOn(v: Value, after: seq<Cell>)
    requires !LastAtomic(v) && after != [] && Rising(after[..|after| - 1])
    ensures Decode(Flat(v) + after).Done? ==> Decode(Flat(v) + after).rest == []
  {
    hide Decode, Flat, LastAtomic, Net, Rising;
    var cells := Flat(v) + after;
    FlatNet(v);
    AtomIsLastAtomic(v);
    if Decode(cells).Done? && Decode(cells).rest != [] {
      var rest := Decode(cells).rest;
      ReadBalance(cells);
      var k := |cells| - |rest|;
      assert cells == cells[..k] + rest;
      NetAppend(cells[..k], rest);
      StillOpen(Flat(v), after, k);
    }
  }

  lemma AtomIsLastAtomic(v: Value)
    requires !LastAtomic(v)
    ensures Composite(v)
  {
  }

  lemma StillOpen(flat: seq<Cell>, after: seq<Cell>, k: nat)
    requires 0 < k < |flat + after| && after != [] && Rising(after[..|after| - 1]) && Rising(flat) && Net(flat) != 0
    requires forall i | 0 < i < |flat| :: Net(flat[..i]) >= 1
    ensures Net((flat + after)[..k]) >= 1
  {
    hide Net;
    WholeRises(flat);
    if k < |flat| {
      assert (flat + after)[..k] == flat[..k];
    } else {
      var j := k - |flat|;
      assert (flat + after)[..k] == flat + after[..|after| - 1][..j];
      NetAppend(flat, after[..|after| - 1][..j]);
    }
  }

  /** With anything after it in the list, a value survives exactly when all last children are atoms. */
  lemma SurvivesIffLastAtomic(v: Value, rest: seq<Cell>)
    requires WellFormed(v) && rest != []
    ensures Decode(Flat(v) + rest) == Done(Plain(v), rest) <==> LastAtomic(v)
  {
    hide Decode, Flat, Plain, LastAtomic, WellFormed, Net, Rising;
    if LastAtomic(v) {
      RoundTrip(v, rest);
    } else if Decode(Flat(v) + rest) == Done(Plain(v), rest) {
      FlatNet(v);
      WholeRises(Flat(v));
      ReadBalance(Flat(v) + rest);
      NetAppend(Flat(v), rest);
    }
  }

  // ---- At the end of the list ----

  function Last(vs: seq<Value>): Value
    requires vs != []
  {
    vs[|vs| - 1]
  }

  /** What may come last in a message: an object may also end in an empty array or object. */
  predicate AtEnd(v: Value) {
    match v
    case Object(entries) =>
      AllLastAtomic(entries) && (entries == [] || !Composite(Last(entries)) || Kids(Last(entries)) == [])
    case _ => LastAtomic(v)
  }

  /** The children of a composite, its end cell, and nothing more. */
  function Closing(vs: seq<Value>): seq<Cell> {
    FlatKids(vs) + [EndCell]
  }

  lemma ClosingFirst(vs: seq<Value>)
    requires |vs| >= 2
    ensures Closing(vs) == Flat(vs[0]) + Closing(vs[1..])
    ensures vs[1..] != [] && Last(vs[1..]) == Last(vs)
    ensures var after := Closing(vs[1..]); after != [] && Rising(after[..|after| - 1])
  {
    hide Flat, FlatKids, Rising;
    KidsFirst(vs);
    KidsNet(vs[1..]);
    Associate(Flat(vs[0]), FlatKids(vs[1..]), [EndCell]);
    var after := Closing(vs[1..]);
    assert after[..|after| - 1] == FlatKids(vs[1..]);
  }

  lemma ClosingOne(v: Value)
    ensures Closing([v]) == [CellOf(v), EndCell]
  {
    assert FlatAllButLast([v]) == [];
  }

  /** What is read of a last child that is cut off after its head: the atom itself, or an empty composite. */
  lemma ReadCutOff(v: Value)
    ensures if Composite(v) then
              Decode([CellOf(v), EndCell]) == Done(if v.Array? then Array([]) else Object([]), [])
            else Decode([CellOf(v), EndCell]) == Done(Plain(v), [EndCell])
  {
    assert [CellOf(v), EndCell][1..] == [EndCell] && [EndCell][1..] == [];
    assert DecodeItems([EndCell], []) == Done(Array([]), []);
    assert DecodeFields([EndCell], []) == Done(Object([]), []);
  }

  lemma PlainEmpty(v: Value)
    requires Composite(v)
    ensures Plain(v) == (if v.Array? then Array([]) else Object([])) <==> Kids(v) == []
    ensures Kids(v) == [] ==> LastAtomic(v)
  {
    hide PlainAll;
    assert |PlainAll(Kids(v))| == |Kids(v)|;
    assert Kids(v) == [] ==> PlainAll(Kids(v)) == [];
  }

  /** An array at the end of the list: the reader must still find its end. */
  lemma {:induction false} ItemsAtEnd(vs: seq<Value>, items: seq<Value>)
    requires vs != [] && AllWellFormed(vs)
    ensures DecodeItems(Closing(vs), items) == Done(Array(items + PlainAll(vs)), []) <==>
            AllLastAtomic(vs) && !Composite(Last(vs))
    decreases |vs|
  {
    hide Decode, Flat, Closing, Plain, WellFormed, LastAtomic, Rising;
    if |vs| == 1 {
      OneItemAtEnd(vs[0], items);
      assert vs == [vs[0]];
      AllOfOne(vs[0]);
    } else {
      ClosingFirst(vs);
      var after := Closing(vs[1..]);
      StartsValue(vs[0], after);
      if LastAtomic(vs[0]) {
        RoundTrip(vs[0], after);
        ItemsAtEnd(vs[1..], items + [Plain(vs[0])]);
        Associate(items, [Plain(vs[0])], PlainAll(vs[1..]));
      } else {
        DamageRunsOn(vs[0], after);
      }
    }
  }

  lemma StartsValue(v: Value, after: seq<Cell>)
    ensures Flat(v) + after != [] && (Flat(v) + after)[0] != EndCell
  {
  }

  lemma AllOfOne(v: Value)
    ensures AllLastAtomic([v]) == LastAtomic(v) && PlainAll([v]) == [Plain(v)]
    ensures !Composite(v) ==> LastAtomic(v)
  {
    assert [v][1..] == [];
  }

  lemma OneItemAtEnd(v: Value, items: seq<Value>)
    ensures DecodeItems(Closing([v]), items) == Done(Array(items + [Plain(v)]), []) <==> !Composite(v)
  {
    hide Decode, Plain;
    ClosingOne(v);
    ReadCutOff(v);
    var cells := [CellOf(v), EndCell];
    assert cells[0] != EndCell && [EndCell][1..] == [];
    var got := items + [Decode(cells).value];
    assert DecodeItems([], got) == Crash && DecodeItems([EndCell], got) == Done(Array(got), []);
  }

  /** An object at the end of the list: the list may stand in for its end. */
  lemma {:induction false} FieldsAtEnd(vs: seq<Value>, entries: seq<Value>)
    requires vs != [] && AllWellFormed(vs) && Keyed(vs) && |entries| % 2 == 0 && Apart(entries, vs)
    ensures DecodeFields(Closing(vs), entries) == Done(Object(entries + PlainAll(vs)), []) <==>
            AllLastAtomic(vs) && (!Composite(Last(vs)) || Kids(Last(vs)) == [])
    decreases |vs|
  {
    hide Decode, DecodeFields, Flat, Closing, Plain, PlainAll, WellFormed, AllWellFormed, LastAtomic, AllLastAtomic,
         Rising, Keyed, HasKey, Put, Kids;
    FieldParts(vs);
    var k, v, more := vs[0], vs[1], vs[2..];
    PlainText(k);
    if |vs| == 2 {
      assert vs == [k, v];
      OneFieldAtEnd(k, v, entries);
    } else {
      SecondPart(vs);
      ClosingFirst(vs);
      ClosingFirst(vs[1..]);
      var after := Closing(more);
      RoundTrip(k, Flat(v) + after);
      StartsValue(k, Flat(v) + after);
      StartsValue(v, after);
      if LastAtomic(v) {
        RoundTrip(v, after);
        FieldStep(Closing(vs), entries, k, Flat(v) + after, Plain(v), after);
        PutNew(entries, k, Plain(v));
        ApartAppend(entries, k, Plain(v), more);
        FieldsAtEnd(more, entries + [k, Plain(v)]);
        PlainParts(entries, vs);
      } else {
        DamageRunsOn(v, after);
        DamagedField(Closing(vs), entries, k, Flat(v) + after, |vs|);
      }
    }
  }

  lemma FieldParts(vs: seq<Value>)
    requires vs != [] && Keyed(vs) && AllWellFormed(vs)
    ensures |vs| >= 2 && vs[0].Text? && !HasKey(vs[2..], vs[0]) && Keyed(vs[2..])
    ensures WellFormed(vs[0]) && WellFormed(vs[1]) && AllWellFormed(vs[2..])
    ensures AllLastAtomic(vs) == (LastAtomic(vs[1]) && AllLastAtomic(vs[2..]))
    ensures |vs| > 2 ==> |vs[2..]| >= 2 && Last(vs[2..]) == Last(vs)
    ensures |PlainAll(vs)| == |vs|
  {
    hide WellFormed, HasKey;
    var tail := vs[1..];
    assert tail[0] == vs[1] && tail[1..] == vs[2..];
    assert AllLastAtomic(vs) == (LastAtomic(vs[0]) && AllLastAtomic(tail));
    assert AllLastAtomic(tail) == (LastAtomic(vs[1]) && AllLastAtomic(vs[2..]));
  }

  /** The object ends where the damaged field runs off the list: too short. */
  lemma DamagedField(cells: seq<Cell>, entries: seq<Value>, k: Value, afterKey: seq<Cell>, n: nat)
    requires cells != [] && cells[0] != EndCell && Decode(cells) == Done(k, afterKey) && afterKey != []
    requires Decode(afterKey).Done? ==> Decode(afterKey).rest == []
    requires n > 2
    ensures var d := DecodeFields(cells, entries); d.Crash? || (d.value.Object? && |d.value.entries| < |entries| + n)
  {
    hide Decode, Put;
    var v := Decode(afterKey);
    if v.Done? {
      assert DecodeFields(cells, entries) == DecodeFields([], Put(entries, k, v.value));
      PutLength(entries, k, v.value);
    }
  }

  lemma {:induction false} PutLength(entries: seq<Value>, key: Value, value: Value)
    ensures |Put(entries, key, value)| <= |entries| + 2
    decreases |entries|
  {
    if |entries| >= 2 {
      PutLength(entries[2..], key, value);
    }
  }

  lemma OneFieldAtEnd(k: Value, v: Value, entries: seq<Value>)
    requires k.Text? && |entries| % 2 == 0 && !HasKey(entries, k)
    ensures DecodeFields(Closing([k, v]), entries) == Done(Object(entries + PlainAll([k, v])), []) <==>
            AllLastAtomic([k, v]) && (!Composite(v) || Kids(v) == [])
  {
    hide DecodeFields, Put, HasKey, Kids;
    var cells := [CellOf(k), CellOf(v), EndCell];
    ClosingTwo(k, v);
    ReadCutOff(v);
    assert cells[1..] == [CellOf(v), EndCell] && Decode(cells) == Done(k, cells[1..]);
    PairOf(k, v);
    hide Decode, Plain, PlainAll, AllLastAtomic, LastAtomic;
    var d := Decode(cells[1..]);
    FieldStep(cells, entries, k, cells[1..], d.value, d.rest);
    PutNew(entries, k, d.value);
    FieldsStop(entries + [k, d.value]);
    LastDiffers(entries, k, d.value, Plain(v));
    if Composite(v) {
      PlainEmpty(v);
    }
  }

  lemma LastDiffers(entries: seq<Value>, k: Value, a: Value, b: Value)
    ensures entries + [k, a] == entries + [k, b] <==> a == b
  {
    assert (entries + [k, a])[|entries| + 1] == a && (entries + [k, b])[|entries| + 1] == b;
  }

  lemma ClosingTwo(k: Value, v: Value)
    requires k.Text?
    ensures Closing([k, v]) == [CellOf(k), CellOf(v), EndCell]
  {
    assert [k, v][1..] == [v] && FlatAllButLast([v]) == [];
    assert FlatAllButLast([k, v]) == Flat(k) + FlatAllButLast([v]);
  }

  lemma PairOf(k: Value, v: Value)
    requires k.Text?
    ensures AllLastAtomic([k, v]) == LastAtomic(v) && PlainAll([k, v]) == [k, Plain(v)]
    ensures !Composite(v) ==> LastAtomic(v)
  {
    assert [k, v][1..] == [v];
    AllOfOne(v);
  }

  lemma FieldsStop(entries: seq<Value>)
    ensures DecodeFields([], entries) == DecodeFields([EndCell], entries) == Done(Object(entries), [])
  {
    assert [EndCell][1..] == [];
  }

  /** At the end of the list, as the only or last value of a message, exactly these values survive. */
  lemma SurvivesAtEndIff(v: Value)
    requires WellFormed(v)
    ensures Decode(Flat(v)) == Done(Plain(v), []) <==> AtEnd(v)
  {
    if !Composite(v) || Kids(v) == [] {
      hide Decode, Flat, Plain;
      RoundTrip(v, []);
      assert Flat(v) + [] == Flat(v);
    } else if v.Array? {
      hide DecodeItems, FlatKids, PlainAll, AllLastAtomic, AllWellFormed, WellFormed;
      FlatIsClosing(v);
      WellFormedKids(v);
      ItemsAtEnd(v.items, []);
      assert [] + PlainAll(v.items) == PlainAll(v.items);
    } else {
      hide DecodeFields, FlatKids, PlainAll, AllLastAtomic, AllWellFormed, WellFormed, Keyed;
      FlatIsClosing(v);
      WellFormedKids(v);
      ApartNone(v.entries);
      FieldsAtEnd(v.entries, []);
      assert [] + PlainAll(v.entries) == PlainAll(v.entries);
    }
  }

  lemma FlatIsClosing(v: Value)
    requires Composite(v)
    ensures Flat(v)[0] == CellOf(v) && Flat(v)[1..] == Closing(Kids(v))
  {
    hide FlatKids;
  }

  lemma WellFormedKids(v: Value)
    requires Composite(v) && WellFormed(v)
    ensures AllWellFormed(Kids(v)) && (v.Object? ==> Keyed(v.entries))
  {
  }

  /** An empty last value is closed for its object by the end of the list. */
  lemma EmptyLastValueAtTheEnd(key: Value)
    requires key.Text?
    ensures var v := Object([key, Array([])]);
            WellFormed(v) && !LastAtomic(v) && Decode(Flat(v)) == Done(Plain(v), [])
  {
    var v := Object([key, Array([])]);
    FlatPair(key, Array([]));
    assert v.entries[1..] == [Array([])] && v.entries[2..] == [] && [Array([])][1..] == [];
    ReadEmptyLastValue(key);
    assert PlainAll(v.entries) == [key] + PlainAll([Array([])]);
    assert PlainAll([Array([])]) == [Array([])] + PlainAll([]);
    assert AllWellFormed([Array([])]) && AllWellFormed([]) && WellFormed(key);
  }

  lemma FlatPair(key: Value, v: Value)
    requires key.Text? && Composite(v)
    ensures Flat(Object([key, v])) == [ObjectCell, CellOf(key), CellOf(v), EndCell]
  {
    var vs := [key, v];
    assert vs[1..] == [v];
    assert FlatAllButLast([v]) == [];
    assert FlatAllButLast(vs) == Flat(key) + FlatAllButLast(vs[1..]);
    assert Flat(key) == [CellOf(key)];
    assert FlatKids(vs) == [CellOf(key)] + [CellOf(v)];
  }

  lemma ReadEmptyLastValue(key: Value)
    requires key.Text?
    ensures Decode([ObjectCell, CellOf(key), ArrayCell, EndCell]) == Done(Object([key, Array([])]), [])
  {
    var cells := [ObjectCell, CellOf(key), ArrayCell, EndCell];
    var fields := cells[1..];
    assert fields == [CellOf(key), ArrayCell, EndCell] && fields[1..] == [ArrayCell, EndCell];
    assert [ArrayCell, EndCell][1..] == [EndCell] && [EndCell][1..] == [];
    assert DecodeItems([EndCell], []) == Done(Array([]), []);
    assert Decode([ArrayCell, EndCell]) == Done(Array([]), []);
    assert Decode(fields) == Done(key, [ArrayCell, EndCell]);
    assert Put([], key, Array([])) == [key, Array([])];
    FieldStep(fields, [], key, [ArrayCell, EndCell], Array([]), []);
  }

  /** A non-empty last value loses its contents, and an array's last array its end: the reader then runs off the list. */
  lemma LastChildDamaged(x: int)
    ensures Decode(Flat(Array([Array([Number(x)])]))) == Crash
    ensures Decode(Flat(Object([Text("k"), Array([Number(x)])]))) == Done(Object([Text("k"), Array([])]), [])
  {
    FlatPair(Text("k"), Array([Number(x)]));
    ReadEmptyLastValue(Text("k"));
    var inner := Array([Number(x)]);
    assert FlatKids([inner]) == FlatAllButLast([inner]) + [ArrayCell];
    assert FlatAllButLast([inner]) == [];
    var cells := [ArrayCell, ArrayCell, EndCell];
    assert Flat(Array([inner])) == cells;
    assert cells[1..] == [ArrayCell, EndCell] && [ArrayCell, EndCell][1..] == [EndCell] && [EndCell][1..] == [];
    assert DecodeItems([EndCell], []) == Done(Array([]), []);
    assert Decode([ArrayCell, EndCell]) == Done(Array([]), []);
    assert DecodeItems([], [] + [Array([])]) == Crash;
  }

  // ---- Whole messages ----

  /** What arrives: all values but the last survive anywhere, the last at the end. */
  predicate Arrives(vs: seq<Value>) {
    vs == [] || (if |vs| == 1 then AtEnd(vs[0]) else LastAtomic(vs[0]) && Arrives(vs[1..]))
  }

  lemma {:induction false} AllRises(vs: seq<Value>)
    ensures Rising(FlatAll(vs))
  {
    if vs == [] {
      RisingNone();
    } else {
      hide Flat, Rising;
      FlatNet(vs[0]);
      AllRises(vs[1..]);
      RisingAppend(Flat(vs[0]), FlatAll(vs[1..]));
    }
  }

  lemma RisingButLast(cells: seq<Cell>)
    requires Rising(cells) && cells != []
    ensures Rising(cells[..|cells| - 1])
  {
    hide Net;
    var most := cells[..|cells| - 1];
    forall k | 0 <= k <= |most| ensures Net(most[..k]) >= 0 {
      assert most[..k] == cells[..k];
    }
  }

  /** A message is read back value by value if and only if each value survives where it stands. */
  lemma {:induction false} MessageArrivesIff(vs: seq<Value>)
    requires AllWellFormed(vs)
    ensures DecodeAll(FlatAll(vs)) == Got(PlainAll(vs)) <==> Arrives(vs)
    ensures |PlainAll(vs)| == |vs|
  {
    hide Decode, Flat, Plain, WellFormed, LastAtomic, AtEnd, Rising;
    if |vs| == 1 {
      assert FlatAll(vs) == Flat(vs[0]) + FlatAll(vs[1..]) == Flat(vs[0]);
      AllOfOne(vs[0]);
      assert vs == [vs[0]];
      SurvivesAtEndIff(vs[0]);
      DecodeAllOne(Flat(vs[0]), Plain(vs[0]));
    } else if |vs| > 1 {
      var after := FlatAll(vs[1..]);
      MessageArrivesIff(vs[1..]);
      StartsValue(vs[1], FlatAll(vs[1..][1..]));
      StartsValue(vs[0], after);
      if LastAtomic(vs[0]) {
        RoundTrip(vs[0], after);
        DecodeAllMore(Flat(vs[0]) + after, Plain(vs[0]), after, PlainAll(vs[1..]));
      } else {
        AllRises(vs[1..]);
        RisingButLast(after);
        DamageRunsOn(vs[0], after);
        DecodeAllShort(Flat(vs[0]) + after, PlainAll(vs));
      }
    }
  }

  lemma DecodeAllOne(cells: seq<Cell>, v: Value)
    requires cells != []
    ensures DecodeAll(cells) == Got([v]) <==> Decode(cells) == Done(v, [])
  {
    hide Decode;
    var d := Decode(cells);
    if d.Done? {
      var r := DecodeAll(d.rest);
      if r.Got? {
        assert ([d.value] + r.values)[0] == d.value && |[d.value] + r.values| == 1 + |r.values|;
        assert d.rest == [] <==> r.values == [];
        assert [d.value] + [] == [d.value];
      }
    }
  }

  lemma DecodeAllMore(cells: seq<Cell>, v: Value, rest: seq<Cell>, vs: seq<Value>)
    requires cells != [] && Decode(cells) == Done(v, rest)
    ensures DecodeAll(cells) == Got([v] + vs) <==> DecodeAll(rest) == Got(vs)
  {
    hide Decode;
    var r := DecodeAll(rest);
    if r.Got? {
      assert ([v] + r.values)[1..] == r.values && ([v] + vs)[1..] == vs;
    }
  }

  lemma DecodeAllShort(cells: seq<Cell>, vs: seq<Value>)
    requires cells != [] && |vs| > 1 && (Decode(cells).Done? ==> Decode(cells).rest == [])
    ensures DecodeAll(cells) != Got(vs)
  {
    hide Decode;
  }
}
