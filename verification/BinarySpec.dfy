/** Script values, the list of cells they are flattened to, and how the list is read back. */
module BinarySpec {

  /** `Other` is null and everything the encoder has no case for. An object lists its keys and values in turn. */
  datatype Value =
    | Undefined
    | Other
    | Function(code: seq<int>)
    | Buffer(bytes: seq<int>)
    | Boolean(b: bool)
    | Number(bits: int)
    | Text(chars: string)
    | Array(items: seq<Value>)
    | Object(entries: seq<Value>)

  datatype Cell =
    | NilCell
    | FunctionCell(code: seq<int>)
    | BufferCell(bytes: seq<int>)
    | BooleanCell(b: bool)
    | NumberCell(bits: int)
    | TextCell(chars: string)
    | ArrayCell
    | ObjectCell
    | EndCell

  predicate Composite(v: Value) { v.Array? || v.Object? }

  function Kids(v: Value): (kids: seq<Value>)
    requires Composite(v)
  {
    match v
    case Array(items) => items
    case Object(entries) => entries
  }

  /** The cell made for `v` itself. */
  function CellOf(v: Value): (c: Cell)
    ensures c != EndCell
  {
    match v
    case Undefined => NilCell
    case Other => NilCell
    case Function(code) => FunctionCell(code)
    case Buffer(bytes) => BufferCell(bytes)
    case Boolean(b) => BooleanCell(b)
    case Number(bits) => NumberCell(bits)
    case Text(chars) => TextCell(chars)
    case Array(_) => ArrayCell
    case Object(_) => ObjectCell
  }

  /** What a cell that is no array or object stands for. */
  function Atom(c: Cell): Value
    requires c != ArrayCell && c != ObjectCell
  {
    match c
    case NilCell => Undefined
    case FunctionCell(code) => Function(code)
    case BufferCell(bytes) => Buffer(bytes)
    case BooleanCell(b) => Boolean(b)
    case NumberCell(bits) => Number(bits)
    case TextCell(chars) => Text(chars)
    case EndCell => Undefined
  }

  /** The cells that can be reached from the head of an encoded value. */
  function Flat(v: Value): (cells: seq<Cell>)
    ensures |cells| > 0 && cells[0] == CellOf(v)
    decreases v, 0
  {
    match v
    case Array(items) => [ArrayCell] + FlatKids(items) + [EndCell]
    case Object(entries) => [ObjectCell] + FlatKids(entries) + [EndCell]
    case _ => [CellOf(v)]
  }

  function FlatAll(vs: seq<Value>): seq<Cell>
    decreases vs, 1
  {
    if vs == [] then [] else Flat(vs[0]) + FlatAll(vs[1..])
  }

  /** The end cell is linked to the head of the last child, which cuts off what follows that head. */
  function FlatKids(vs: seq<Value>): seq<Cell>
    decreases vs, 1
  {
    if vs == [] then [] else FlatAllButLast(vs) + [CellOf(vs[|vs| - 1])]
  }

  function FlatAllButLast(vs: seq<Value>): seq<Cell>
    requires vs != []
    decreases vs, 0
  {
    if |vs| == 1 then [] else Flat(vs[0]) + FlatAllButLast(vs[1..])
  }

  datatype Decoded = Crash | Done(value: Value, rest: seq<Cell>)

  /** The property put on an object: an equal key keeps its place. */
  function Put(entries: seq<Value>, key: Value, value: Value): (r: seq<Value>)
    decreases |entries|
  {
    if |entries| < 2 then entries + [key, value]
    else if entries[0] == key then entries[1 := value]
    else entries[..2] + Put(entries[2..], key, value)
  }

  /** One value read from a list that is not empty; an empty rest is the null pointer. */
  function Decode(cells: seq<Cell>): (d: Decoded)
    requires cells != []
    ensures d.Done? ==> |d.rest| < |cells|
    decreases |cells|, 0
  {
    if cells[0] == ArrayCell then DecodeItems(cells[1..], [])
    else if cells[0] == ObjectCell then DecodeFields(cells[1..], [])
    else Done(Atom(cells[0]), cells[1..])
  }

  /** The end of an array is asked for its type even when the list has run out. */
  function DecodeItems(cells: seq<Cell>, items: seq<Value>): (d: Decoded)
    ensures d.Done? ==> |d.rest| <= |cells|
    decreases |cells|, 1
  {
    if cells == [] then Crash
    else if cells[0] == EndCell then Done(Array(items), cells[1..])
    else
      var d := Decode(cells);
      if d.Crash? then d else DecodeItems(d.rest, items + [d.value])
  }

  function DecodeFields(cells: seq<Cell>, entries: seq<Value>): (d: Decoded)
    ensures d.Done? ==> |d.rest| <= |cells|
    decreases |cells|, 1
  {
    if cells == [] then Done(Object(entries), [])
    else if cells[0] == EndCell then Done(Object(entries), cells[1..])
    else
      var k := Decode(cells);
      if k.Crash? then k
      else if k.rest == [] then Done(Object(entries), [])
      else
        var v := Decode(k.rest);
        if v.Crash? then v else DecodeFields(v.rest, Put(entries, k.value, v.value))
  }

  datatype Received = Lost | Got(values: seq<Value>)

  /** Values read until the list runs out. */
  function DecodeAll(cells: seq<Cell>): Received
    decreases |cells|
  {
    if cells == [] then Got([])
    else
      var d := Decode(cells);
      if d.Crash? then Lost
      else
        var r := DecodeAll(d.rest);
        if r.Lost? then r else Got([d.value] + r.values)
  }

  // ---- What can be promised ----

  /** The value as the other side sees it. */
  function Plain(v: Value): Value
    decreases v, 0
  {
    match v
    case Other => Undefined
    case Array(items) => Array(PlainAll(items))
    case Object(entries) => Object(PlainAll(entries))
    case _ => v
  }

  function PlainAll(vs: seq<Value>): (r: seq<Value>)
    ensures |r| == |vs|
    decreases vs, 1
  {
    if vs == [] then [] else [Plain(vs[0])] + PlainAll(vs[1..])
  }

  /** Object keys are strings and no two of them are equal. */
  predicate WellFormed(v: Value)
    decreases v, 0
  {
    match v
    case Array(items) => AllWellFormed(items)
    case Object(entries) => AllWellFormed(entries) && Keyed(entries)
    case _ => true
  }

  predicate AllWellFormed(vs: seq<Value>)
    decreases vs, 1
  {
    vs == [] || (WellFormed(vs[0]) && AllWellFormed(vs[1..]))
  }

  predicate Keyed(entries: seq<Value>)
    decreases |entries|
  {
    entries == [] ||
    (|entries| >= 2 && entries[0].Text? && !HasKey(entries[2..], entries[0]) && Keyed(entries[2..]))
  }

  predicate HasKey(entries: seq<Value>, key: Value)
    decreases |entries|
  {
    |entries| >= 2 && (entries[0] == key || HasKey(entries[2..], key))
  }

  /** No array or object, at any depth, has an array or object as its last child. */
  predicate LastAtomic(v: Value)
    decreases v, 0
  {
    match v
    case Array(items) => AllLastAtomic(items) && (items != [] ==> !Composite(items[|items| - 1]))
    case Object(entries) => AllLastAtomic(entries) && (entries != [] ==> !Composite(entries[|entries| - 1]))
    case _ => true
  }

  predicate AllLastAtomic(vs: seq<Value>)
    decreases vs, 1
  {
    vs == [] || (LastAtomic(vs[0]) && AllLastAtomic(vs[1..]))
  }

  // ---- What the other side sees, in words ----

  /** Nothing in the value is null or of a kind that the encoder does not know. */
  predicate Known(v: Value)
    decreases v, 0
  {
    match v
    case Other => false
    case Array(items) => AllKnown(items)
    case Object(entries) => AllKnown(entries)
    case _ => true
  }

  predicate AllKnown(vs: seq<Value>)
    decreases vs, 1
  {
    vs == [] || (Known(vs[0]) && AllKnown(vs[1..]))
  }

  /** Such a value is seen as it is. */
  lemma {:induction false} KnownIsPlain(v: Value)
    requires Known(v)
    ensures Plain(v) == v
    decreases v, 0
  {
    match v
    case Array(items) => AllKnownArePlain(items);
    case Object(entries) => AllKnownArePlain(entries);
    case _ =>
  }

  lemma {:induction false} AllKnownArePlain(vs: seq<Value>)
    requires AllKnown(vs)
    ensures PlainAll(vs) == vs
    decreases vs, 1
  {
    if vs != [] {
      KnownIsPlain(vs[0]);
      AllKnownArePlain(vs[1..]);
      assert vs == [vs[0]] + vs[1..];
    }
  }

  /** What is not known is seen as undefined; children are seen one by one. */
  lemma UnknownIsUndefined(vs: seq<Value>)
    ensures Plain(Other) == Undefined && Plain(Array(vs)) == Array(PlainAll(vs)) && Plain(Object(vs)) == Object(PlainAll(vs))
  {
  }

  lemma {:induction false} PlainOneByOne(vs: seq<Value>, i: nat)
    requires i < |vs|
    ensures PlainAll(vs)[i] == Plain(vs[i])
  {
    if i > 0 {
      PlainOneByOne(vs[1..], i - 1);
    }
  }

  /** The value of a key: that of its first occurrence. */
  function Looked(entries: seq<Value>, key: Value): Value
    decreases |entries|
  {
    if |entries| < 2 then Undefined
    else if entries[0] == key then entries[1]
    else Looked(entries[2..], key)
  }

  /** A property put is found, other properties are as before, and an equal key is not repeated. */
  lemma {:induction false} PutIsFound(entries: seq<Value>, key: Value, value: Value, other: Value)
    requires |entries| % 2 == 0
    ensures var r := Put(entries, key, value);
            && Looked(r, key) == value && (other != key ==> Looked(r, other) == Looked(entries, other))
            && |r| == if HasKey(entries, key) then |entries| else |entries| + 2
    decreases |entries|
  {
    if |entries| >= 2 && entries[0] != key {
      PutIsFound(entries[2..], key, value, other);
      var r := Put(entries, key, value);
      assert r[2..] == Put(entries[2..], key, value);
    }
  }
}
