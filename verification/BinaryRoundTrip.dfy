/** Values whose last children are atoms survive the serialiser wherever they stand. */
module BinaryRoundTrip {
  import opened BinarySpec

  // ---- Values whose last children are atoms ----

  lemma {:induction false} ButLastOfAtoms(vs: seq<Value>)
    requires vs != [] && !Composite(vs[|vs| - 1])
    ensures FlatKids(vs) == FlatAll(vs)
  {
    if |vs| == 1 {
      assert FlatAll(vs) == Flat(vs[0]) + FlatAll([]);
    } else {
      ButLastOfAtoms(vs[1..]);
      assert vs[1..][|vs[1..]| - 1] == vs[|vs| - 1];
      assert FlatKids(vs) == Flat(vs[0]) + FlatKids(vs[1..]);
    }
  }

  lemma FlatComposite(v: Value)
    requires Composite(v) && LastAtomic(v)
    ensures Flat(v) == [CellOf(v)] + FlatAll(Kids(v)) + [EndCell]
  {
    if Kids(v) != [] {
      ButLastOfAtoms(Kids(v));
    }
  }

  /** A value is read back as the other side should see it, and the rest of the list is left. */
  lemma {:induction false} RoundTrip(v: Value, rest: seq<Cell>)
    requires WellFormed(v) && LastAtomic(v)
    ensures Decode(Flat(v) + rest) == Done(Plain(v), rest)
    decreases v, 0
  {
    hide Flat, DecodeItems, DecodeFields, FlatAll, PlainAll, AllWellFormed, AllLastAtomic, Keyed, HasKey, Apart;
    var cells := Flat(v) + rest;
    if Composite(v) {
      FlatOpens(v, rest);
      if v.Array? {
        ItemsRoundTrip(v.items, [], rest);
        assert [] + PlainAll(v.items) == PlainAll(v.items);
      } else {
        ApartNone(v.entries);
        FieldsRoundTrip(v.entries, [], rest);
        assert [] + PlainAll(v.entries) == PlainAll(v.entries);
      }
    } else {
      FlatAtom(v);
      assert cells[1..] == rest;
    }
  }

  lemma FlatAtom(v: Value)
    requires !Composite(v)
    ensures Flat(v) == [CellOf(v)]
  {
  }

  lemma FlatOpens(v: Value, rest: seq<Cell>)
    requires Composite(v) && LastAtomic(v)
    ensures (Flat(v) + rest)[0] == CellOf(v)
    ensures (Flat(v) + rest)[1..] == FlatAll(Kids(v)) + ([EndCell] + rest)
  {
    FlatComposite(v);
    hide Flat, FlatAll;
  }

  lemma {:induction false} ItemsRoundTrip(vs: seq<Value>, items: seq<Value>, rest: seq<Cell>)
    requires AllWellFormed(vs) && AllLastAtomic(vs)
    ensures DecodeItems(FlatAll(vs) + ([EndCell] + rest), items) == Done(Array(items + PlainAll(vs)), rest)
    decreases vs, 1
  {
    var end := [EndCell] + rest;
    var cells := FlatAll(vs) + end;
    if vs == [] {
      assert cells == end && end[1..] == rest && items + [] == items;
    } else {
      assert cells == Flat(vs[0]) + (FlatAll(vs[1..]) + end);
      RoundTrip(vs[0], FlatAll(vs[1..]) + end);
      ItemsRoundTrip(vs[1..], items + [Plain(vs[0])], rest);
      assert (items + [Plain(vs[0])]) + PlainAll(vs[1..]) == items + PlainAll(vs);
    }
  }

  lemma {:induction false} PutNew(entries: seq<Value>, key: Value, value: Value)
    requires |entries| % 2 == 0 && !HasKey(entries, key)
    ensures Put(entries, key, value) == entries + [key, value]
    decreases |entries|
  {
    if |entries| >= 2 {
      PutNew(entries[2..], key, value);
      assert entries[..2] + (entries[2..] + [key, value]) == entries + [key, value];
    }
  }

  lemma {:induction false} HasKeyAppend(a: seq<Value>, b: seq<Value>, key: Value)
    requires |a| % 2 == 0
    ensures HasKey(a + b, key) == (HasKey(a, key) || HasKey(b, key))
    decreases |a|
  {
    if a == [] {
      assert a + b == b;
    } else {
      assert (a + b)[2..] == a[2..] + b;
      HasKeyAppend(a[2..], b, key);
    }
  }

  /** The keys in `entries` differ from those still to come. */
  predicate Apart(entries: seq<Value>, vs: seq<Value>)
    decreases |vs|
  {
    |vs| < 2 || (!HasKey(entries, vs[0]) && Apart(entries, vs[2..]))
  }

  lemma {:induction false} ApartAppend(entries: seq<Value>, k: Value, v: Value, vs: seq<Value>)
    requires |entries| % 2 == 0 && Apart(entries, vs) && !HasKey(vs, k)
    ensures Apart(entries + [k, v], vs)
    decreases |vs|
  {
    if |vs| >= 2 {
      HasKeyAppend(entries, [k, v], vs[0]);
      assert [k, v][2..] == [];
      ApartAppend(entries, k, v, vs[2..]);
    }
  }

  lemma {:induction false} ApartNone(vs: seq<Value>)
    ensures Apart([], vs)
    decreases |vs|
  {
    if |vs| >= 2 {
      ApartNone(vs[2..]);
    }
  }

  /** One turn of the object loop. */
  lemma FieldStep(cells: seq<Cell>, entries: seq<Value>, k: Value, afterKey: seq<Cell>, v: Value, after: seq<Cell>)
    requires cells != [] && cells[0] != EndCell && Decode(cells) == Done(k, afterKey)
    requires afterKey != [] && Decode(afterKey) == Done(v, after)
    ensures DecodeFields(cells, entries) == DecodeFields(after, Put(entries, k, v))
  {
    hide Decode, Put;
  }

  lemma KeyedParts(vs: seq<Value>)
    requires vs != [] && Keyed(vs) && AllWellFormed(vs) && AllLastAtomic(vs)
    ensures |vs| >= 2 && vs[0].Text? && !HasKey(vs[2..], vs[0]) && Keyed(vs[2..])
    ensures WellFormed(vs[0]) && WellFormed(vs[1]) && LastAtomic(vs[0]) && LastAtomic(vs[1])
    ensures AllWellFormed(vs[2..]) && AllLastAtomic(vs[2..])
  {
    hide WellFormed, LastAtomic, HasKey;
    var tail := vs[1..];
    assert tail[0] == vs[1] && tail[1..] == vs[2..];
    assert AllWellFormed(tail) && AllLastAtomic(tail);
  }

  lemma SecondPart(vs: seq<Value>)
    requires |vs| >= 2
    ensures vs[1..][0] == vs[1] && vs[1..][1..] == vs[2..]
  {
  }

  lemma Associate<T>(a: seq<T>, b: seq<T>, c: seq<T>)
    ensures (a + b) + c == a + (b + c)
  {
  }

  lemma FlatAllFirst(vs: seq<Value>)
    requires vs != []
    ensures FlatAll(vs) == Flat(vs[0]) + FlatAll(vs[1..])
  {
    hide Flat;
  }

  lemma FlatFirst(vs: seq<Value>, end: seq<Cell>)
    requires vs != []
    ensures FlatAll(vs) + end == Flat(vs[0]) + (FlatAll(vs[1..]) + end)
  {
    hide Flat, FlatAll;
    FlatAllFirst(vs);
    Associate(Flat(vs[0]), FlatAll(vs[1..]), end);
  }

  lemma FlatParts(vs: seq<Value>, end: seq<Cell>)
    requires |vs| >= 2
    ensures FlatAll(vs) + end == Flat(vs[0]) + (FlatAll(vs[1..]) + end)
    ensures FlatAll(vs[1..]) + end == Flat(vs[1]) + (FlatAll(vs[2..]) + end)
  {
    hide Flat, FlatAll;
    SecondPart(vs);
    FlatFirst(vs, end);
    FlatFirst(vs[1..], end);
  }

  lemma PlainFirst(vs: seq<Value>)
    requires vs != []
    ensures PlainAll(vs) == [Plain(vs[0])] + PlainAll(vs[1..])
  {
    hide Plain;
  }

  lemma PlainParts(entries: seq<Value>, vs: seq<Value>)
    requires |vs| >= 2 && vs[0].Text?
    ensures (entries + [vs[0], Plain(vs[1])]) + PlainAll(vs[2..]) == entries + PlainAll(vs)
  {
    PlainText(vs[0]);
    hide Plain, PlainAll;
    SecondPart(vs);
    PlainFirst(vs);
    PlainFirst(vs[1..]);
    var k, v, more := vs[0], Plain(vs[1]), PlainAll(vs[2..]);
    Associate([k], [v], more);
    Associate(entries, [k, v], more);
    assert [k] + [v] == [k, v];
  }

  lemma PlainText(k: Value)
    requires k.Text?
    ensures Plain(k) == k && WellFormed(k) && LastAtomic(k)
  {
  }

  lemma FieldsEnd(entries: seq<Value>, rest: seq<Cell>)
    ensures DecodeFields(FlatAll([]) + ([EndCell] + rest), entries) == Done(Object(entries + PlainAll([])), rest)
  {
    var end := [EndCell] + rest;
    assert FlatAll([]) + end == end && end[1..] == rest && entries + [] == entries;
  }

  lemma {:induction false} FieldsRoundTrip(vs: seq<Value>, entries: seq<Value>, rest: seq<Cell>)
    requires AllWellFormed(vs) && AllLastAtomic(vs) && Keyed(vs)
    requires |entries| % 2 == 0 && Apart(entries, vs)
    ensures DecodeFields(FlatAll(vs) + ([EndCell] + rest), entries) == Done(Object(entries + PlainAll(vs)), rest)
    decreases vs, 1
  {
    hide Decode, DecodeFields, Flat, FlatAll, Plain, PlainAll, AllWellFormed, AllLastAtomic, Keyed, HasKey, Put,
         WellFormed, LastAtomic;
    var end := [EndCell] + rest;
    if vs == [] {
      FieldsEnd(entries, rest);
    } else {
      KeyedParts(vs);
      FlatParts(vs, end);
      var k, v, more := vs[0], vs[1], vs[2..];
      var afterKey, after := FlatAll(vs[1..]) + end, FlatAll(more) + end;
      PlainText(k);
      RoundTrip(k, afterKey);
      RoundTrip(v, after);
      FieldStep(FlatAll(vs) + end, entries, k, afterKey, Plain(v), after);
      PutNew(entries, k, Plain(v));
      ApartAppend(entries, k, Plain(v), more);
      FieldsRoundTrip(more, entries + [k, Plain(v)], rest);
      PlainParts(entries, vs);
    }
  }
}
