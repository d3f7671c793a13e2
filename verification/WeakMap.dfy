/** Weak maps: the keys they hold, and the objects that know which maps hold them. */
module WeakMap {
  import opened Bytes

  /** Keys are heap addresses. */
  type Key = nat
  type MapId = nat
  type Value = nat

  /** The property name under which a map stores the value for a key: the address as `%x` prints it. */
  function Name(k: Key): nat {
    k % 0x1_0000_0000
  }

  datatype Table = Table(keys: set<Key>, props: map<nat, Value>)

  /**
   `objects` are the live objects and functions, `ancestors` their prototypes from the
   nearest on, `closed` those that take no new properties; `watchers` are the maps
   registered in the WeakObject of each object that has one of its own.
   */
  datatype World = World(
    objects: set<Key>, ancestors: map<Key, seq<Key>>, closed: set<Key>,
    watchers: map<Key, set<MapId>>, maps: map<MapId, Table>)

  /** The lists are prototype chains: each is the nearest ancestor and then its own. */
  predicate Linked(objects: set<Key>, ancestors: map<Key, seq<Key>>) {
    && ancestors.Keys == objects
    && forall k <- objects | ancestors[k] != [] ::
         ancestors[k][0] in objects && ancestors[k] == [ancestors[k][0]] + ancestors[ancestors[k][0]]
  }

  function Watching(w: World, k: Key): set<MapId> {
    if k in w.watchers then w.watchers[k] else {}
  }

  function FirstWatched(watchers: map<Key, set<MapId>>, chain: seq<Key>): Option<Key> {
    if chain == [] then None
    else if chain[0] in watchers then Some(chain[0])
    else FirstWatched(watchers, chain[1..])
  }

  /** Whose WeakObject is found when `k` is asked for one: its own, or its nearest ancestor's. */
  function Holder(w: World, k: Key): Option<Key> {
    if k in w.objects && k in w.ancestors then FirstWatched(w.watchers, [k] + w.ancestors[k]) else None
  }

  // ---- What the script sees ----

  datatype Op =
    | Born(k: Key, parent: Option<Key>)
    | Relink(ancestors: map<Key, seq<Key>>)
    | Close(k: Key)
    | Die(k: Key)
    | NewMap(m: MapId)
    | DropMap(m: MapId)
    | Set(m: MapId, k: Key, v: Value)
    | Delete(m: MapId, k: Key)

  /** Addresses of live objects print differently; an object outlives those whose prototype it is. */
  predicate Enabled(w: World, op: Op) {
    match op
    case Born(k, parent) => (forall j <- w.objects :: Name(j) != Name(k)) && (parent.Some? ==> parent.value in w.ancestors)
    case Relink(ancestors) => Linked(w.objects, ancestors)
    case Close(k) => k in w.objects
    case Die(k) => k in w.objects && forall j <- w.ancestors :: k !in w.ancestors[j]
    case NewMap(m) => m !in w.maps
    case DropMap(m) => m in w.maps
    case Set(m, k, _) => m in w.maps
    case Delete(m, k) => m in w.maps
  }

  /** A simple reference: for each live map, its keys and their values. */
  type View = map<MapId, map<Key, Value>>

  function Put(entries: map<Key, Value>, k: Key, v: Value): map<Key, Value> {
    entries[k := v]
  }

  function Meant(view: View, op: Op): View {
    match op
    case Born(_, _) => view
    case Relink(_) => view
    case Close(_) => view
    case Die(k) => map m | m in view :: view[m] - {k}
    case NewMap(m) => view[m := map[]]
    case DropMap(m) => view - {m}
    case Set(m, k, v) => if m in view then view[m := Put(view[m], k, v)] else view
    case Delete(m, k) => if m in view then view[m := view[m] - {k}] else view
  }

  function ViewOf(w: World): View {
    map m | m in w.maps :: Contents(w.maps[m])
  }

  function Contents(t: Table): map<Key, Value> {
    map k | k in t.keys && Name(k) in t.props :: t.props[Name(k)]
  }

  // ---- What the code does ----

  function SetIn(t: Table, k: Key, v: Value): Table {
    Table(t.keys + {k}, t.props[Name(k) := v])
  }

  function DeleteIn(t: Table, k: Key): Table {
    if k in t.keys then Table(t.keys - {k}, t.props - {Name(k)}) else t
  }

  /** `set` throws: a new key that takes no properties would need a WeakObject of its own. */
  predicate Throws(w: World, op: Op) {
    op.Set? && op.m in w.maps && op.k !in w.maps[op.m].keys && op.k in w.closed && op.k in w.objects &&
    Holder(w, op.k) == None
  }

  function Apply(w: World, op: Op): World
    requires Enabled(w, op)
  {
    match op
    case Born(k, parent) =>
      var chain := if parent.None? then [] else [parent.value] + w.ancestors[parent.value];
      w.(objects := w.objects + {k}, ancestors := w.ancestors[k := chain])
    case Relink(ancestors) => w.(ancestors := ancestors)
    case Close(k) => w.(closed := w.closed + {k})
    case Die(k) =>
      World(w.objects - {k}, w.ancestors - {k}, w.closed - {k}, w.watchers - {k},
            map m | m in w.maps :: if m in Watching(w, k) then DeleteIn(w.maps[m], k) else w.maps[m])
    case NewMap(m) => w.(maps := w.maps[m := Table({}, map[])])
    case DropMap(m) => w.(watchers := Unregistered(w, w.maps[m].keys, m), maps := w.maps - {m})
    case Set(m, k, v) =>
      if Throws(w, op) then w
      else w.(watchers := if k in w.maps[m].keys then w.watchers else Registering(w, k, m),
              maps := w.maps[m := SetIn(w.maps[m], k, v)])
    case Delete(m, k) =>
      w.(watchers := Unregistered(w, w.maps[m].keys * {k}, m), maps := w.maps[m := DeleteIn(w.maps[m], k)])
  }

  /** The map is registered with whoever holds for `k`; an object for whom nobody does gets a WeakObject. */
  function Registering(w: World, k: Key, m: MapId): map<Key, set<MapId>> {
    match Holder(w, k)
    case Some(h) => w.watchers[h := Watching(w, h) + {m}]
    case None => if k in w.objects then w.watchers[k := {m}] else w.watchers
  }

  /** The map is taken from whoever holds for each of the keys. */
  function Unregistered(w: World, keys: set<Key>, m: MapId): map<Key, set<MapId>> {
    map h | h in w.watchers :: if exists k <- keys :: Holder(w, k) == Some(h) then w.watchers[h] - {m} else w.watchers[h]
  }

  /** `get`: the value, or undefined. */
  function Get(w: World, m: MapId, k: Key): Option<Value>
    requires m in w.maps
  {
    var t := w.maps[m];
    if k in t.keys && Name(k) in t.props then Some(t.props[Name(k)]) else None
  }

  // ---- Agreement ----

  predicate Apart(objects: set<Key>) {
    forall j <- objects, k <- objects | Name(j) == Name(k) :: j == k
  }

  function Names(keys: set<Key>): set<nat> {
    set k | k in keys :: Name(k)
  }

  /** A key is held by a map, registered with it, and has a value in it, all or none; only live maps are registered. */
  predicate Agrees(w: World) {
    Apart(w.objects) && Linked(w.objects, w.ancestors) && w.watchers.Keys <= w.objects && Registered(w) && Valued(w)
  }

  predicate Registered(w: World) {
    && (forall m <- w.maps, k <- w.maps[m].keys :: k in w.objects && m in Watching(w, k))
    && (forall k <- w.watchers, m <- w.watchers[k] :: m in w.maps && k in w.maps[m].keys)
  }

  /** A WeakObject asked for `k` is its own, found or made. */
  predicate Own(w: World, k: Key) {
    k in w.objects && (Holder(w, k) == None || Holder(w, k) == Some(k))
  }

  /** Who has a WeakObject finds it. */
  lemma WatchedIsHolder(w: World, k: Key)
    requires k in w.objects && k in w.ancestors
    ensures k in w.watchers <==> Holder(w, k) == Some(k)
  {
    assert ([k] + w.ancestors[k])[0] == k && ([k] + w.ancestors[k])[1..] == w.ancestors[k];
    if k !in w.watchers {
      NotWatched(w.watchers, w.ancestors[k], k);
    }
  }

  lemma {:induction false} NotWatched(watchers: map<Key, set<MapId>>, chain: seq<Key>, k: Key)
    requires k !in watchers
    ensures FirstWatched(watchers, chain) != Some(k)
    ensures FirstWatched(watchers, chain).Some? ==> FirstWatched(watchers, chain).value in watchers
  {
    if chain != [] && chain[0] !in watchers {
      NotWatched(watchers, chain[1..], k);
    }
  }

  /** What is held is registered with itself. */
  lemma HeldIsOwn(w: World, m: MapId, k: Key)
    requires Agrees(w) && m in w.maps && k in w.maps[m].keys
    ensures Holder(w, k) == Some(k) && Own(w, k)
  {
    hide Apart, Valued, Holder;
    WatchedIsHolder(w, k);
  }

  predicate Valued(w: World) {
    forall m <- w.maps :: w.maps[m].props.Keys == Names(w.maps[m].keys)
  }

  lemma HeldHasValue(w: World, m: MapId)
    requires Agrees(w) && m in w.maps
    ensures Contents(w.maps[m]).Keys == w.maps[m].keys
    ensures forall k :: Get(w, m, k) == if k in Contents(w.maps[m]) then Some(Contents(w.maps[m])[k]) else None
  {
    forall k <- w.maps[m].keys ensures Name(k) in w.maps[m].props {
      assert Name(k) in Names(w.maps[m].keys);
    }
  }

  lemma SetNames(t: Table, k: Key, v: Value)
    requires t.props.Keys == Names(t.keys)
    ensures SetIn(t, k, v).props.Keys == Names(SetIn(t, k, v).keys)
  {
    assert Names(t.keys + {k}) == Names(t.keys) + {Name(k)};
  }

  lemma ContentsAt(t: Table, k: Key)
    ensures k in Contents(t) <==> k in t.keys && Name(k) in t.props
    ensures k in Contents(t) ==> Contents(t)[k] == t.props[Name(k)]
  {
  }

  lemma SetContents(t: Table, objects: set<Key>, k: Key, v: Value)
    requires Apart(objects) && t.keys <= objects && k in objects
    ensures Contents(SetIn(t, k, v)) == Put(Contents(t), k, v)
  {
    var a, b := Contents(SetIn(t, k, v)), Put(Contents(t), k, v);
    forall j ensures (j in a <==> j in b) && (j in a ==> a[j] == b[j]) {
      ContentsAt(t, j);
      ContentsAt(SetIn(t, k, v), j);
      hide Contents, Name;
      if j in t.keys && j != k {
        assert Name(j) != Name(k);
      }
    }
  }

  lemma DeleteTable(t: Table, objects: set<Key>, k: Key)
    requires Apart(objects) && t.keys <= objects && t.props.Keys == Names(t.keys)
    ensures DeleteIn(t, k).props.Keys == Names(DeleteIn(t, k).keys)
    ensures Contents(DeleteIn(t, k)) == Contents(t) - {k}
  {
    if k in t.keys {
      OthersNamed(objects, t.keys, k);
      var a, b := Contents(DeleteIn(t, k)), Contents(t) - {k};
      forall j ensures (j in a <==> j in b) && (j in a ==> a[j] == b[j]) {
        ContentsAt(t, j);
        ContentsAt(DeleteIn(t, k), j);
        hide Contents, Name, Names, Apart;
      }
    } else {
      ContentsAt(t, k);
    }
  }

  lemma OthersNamed(objects: set<Key>, keys: set<Key>, k: Key)
    requires Apart(objects) && keys <= objects && k in keys
    ensures forall j <- keys | j != k :: Name(j) != Name(k)
    ensures Names(keys - {k}) == Names(keys) - {Name(k)}
  {
    hide Name;
  }

  /** One map's table is replaced. */
  lemma ViewWith(w: World, w': World, m: MapId, t: Table)
    requires m in w.maps && w'.maps == w.maps[m := t]
    ensures ViewOf(w') == ViewOf(w)[m := Contents(t)]
  {
    hide Contents;
  }

  /** By its own WeakObject or one it gets, `set` does what it means; or it throws and nothing changes. */
  lemma SetRefines(w: World, op: Op)
    requires Agrees(w) && op.Set? && Enabled(w, op) && Own(w, op.k)
    ensures Agrees(Apply(w, op))
    ensures if Throws(w, op) then Apply(w, op) == w else ViewOf(Apply(w, op)) == Meant(ViewOf(w), op)
  {
    if !Throws(w, op) {
      hide Name, Names, Contents, Apart, ViewOf, Throws, Linked, Registering;
      var w', t := Apply(w, op), w.maps[op.m];
      TablesOwned(w, op.m);
      SetNames(t, op.k, op.v);
      SetContents(t, w.objects, op.k, op.v);
      ViewWith(w, w', op.m, SetIn(t, op.k, op.v));
      SetWatchers(w, op);
      SetRegistered(w, op);
      hide Registered;
      ViewAt(w, op.m);
    }
  }

  lemma SetWatchers(w: World, op: Op)
    requires Agrees(w) && op.Set? && Enabled(w, op) && Own(w, op.k) && !Throws(w, op)
    ensures var w' := Apply(w, op);
            && w'.watchers.Keys <= w.objects
            && forall k :: Watching(w', k) == Watching(w, k) + if k == op.k then {op.m} else {}
  {
    hide Name, Names, Contents, Apart, Valued, Holder;
    WatchedIsHolder(w, op.k);
  }

  lemma ViewAt(w: World, m: MapId)
    requires m in w.maps
    ensures m in ViewOf(w) && ViewOf(w)[m] == Contents(w.maps[m])
  {
    hide Contents;
  }

  lemma TablesOwned(w: World, m: MapId)
    requires Registered(w) && m in w.maps
    ensures w.maps[m].keys <= w.objects
  {
  }

  lemma SetRegistered(w: World, op: Op)
    requires Agrees(w) && op.Set? && Enabled(w, op) && Own(w, op.k) && !Throws(w, op)
    ensures Registered(Apply(w, op))
  {
    hide Name, Names, Contents, Apart, Valued, Holder, Linked, Registering, Throws;
    SetWatchers(w, op);
    var w', t := Apply(w, op), w.maps[op.m];
    hide Watching;
    assert w'.objects == w.objects && w'.maps == w.maps[op.m := SetIn(t, op.k, op.v)];
    hide Apply;
    WatchedBy(w);
    WatchedBy(w');
  }

  /** Registration, by who watches. */
  lemma WatchedBy(w: World)
    ensures Registered(w) <==>
            && (forall m <- w.maps, k <- w.maps[m].keys :: k in w.objects && m in Watching(w, k))
            && (forall k, m | m in Watching(w, k) :: m in w.maps && k in w.maps[m].keys)
  {
    if forall k, m | m in Watching(w, k) :: m in w.maps && k in w.maps[m].keys {
      forall k <- w.watchers, m <- w.watchers[k] ensures m in w.maps && k in w.maps[m].keys {
        assert m in Watching(w, k);
      }
    }
  }

  lemma DeleteRefines(w: World, op: Op)
    requires Agrees(w) && op.Delete? && Enabled(w, op)
    ensures Agrees(Apply(w, op)) && ViewOf(Apply(w, op)) == Meant(ViewOf(w), op)
  {
    hide Name, Names, Contents, Apart, ViewOf, Linked, Unregistered;
    var w', t := Apply(w, op), w.maps[op.m];
    TablesOwned(w, op.m);
    DeleteTable(t, w.objects, op.k);
    ViewWith(w, w', op.m, DeleteIn(t, op.k));
    DeleteRegistered(w, op);
    UnregisteredKeys(w, t.keys * {op.k}, op.m);
    hide Registered;
    ViewAt(w, op.m);
  }

  lemma UnregisteredKeys(w: World, keys: set<Key>, m: MapId)
    ensures Unregistered(w, keys, m).Keys == w.watchers.Keys
  {
  }

  /** Of keys that the map holds, each loses it itself. */
  lemma UnregisteredHeld(w: World, keys: set<Key>, m: MapId, k: Key)
    requires Agrees(w) && m in w.maps && keys <= w.maps[m].keys
    ensures var u := Unregistered(w, keys, m);
            (if k in u then u[k] else {}) == Watching(w, k) - if k in keys then {m} else {}
  {
    hide Apart, Valued, Linked, Registered, Holder;
    forall j <- keys ensures Holder(w, j) == Some(j) {
      HeldIsOwn(w, m, j);
    }
    if k in keys {
      HeldWatched(w, m, k);
    }
  }

  lemma HeldWatched(w: World, m: MapId, k: Key)
    requires Registered(w) && m in w.maps && k in w.maps[m].keys
    ensures k in w.watchers && m in w.watchers[k]
  {
    assert m in Watching(w, k);
  }

  lemma DeleteRegistered(w: World, op: Op)
    requires Agrees(w) && op.Delete? && Enabled(w, op)
    ensures Registered(Apply(w, op))
  {
    hide Name, Names, Contents, Apart, Valued, Linked, Unregistered, Holder;
    var w', t := Apply(w, op), w.maps[op.m];
    forall k ensures Watching(w', k) == Watching(w, k) - if k == op.k && k in t.keys then {op.m} else {} {
      UnregisteredHeld(w, t.keys * {op.k}, op.m, k);
    }
    hide Watching;
    assert w'.objects == w.objects && w'.maps == w.maps[op.m := DeleteIn(t, op.k)];
    assert DeleteIn(t, op.k).keys == t.keys - {op.k};
    hide Apply, DeleteIn;
    WatchedBy(w);
    WatchedBy(w');
  }

  lemma DieRefines(w: World, op: Op)
    requires Agrees(w) && op.Die? && Enabled(w, op)
    ensures Agrees(Apply(w, op)) && ViewOf(Apply(w, op)) == Meant(ViewOf(w), op)
  {
    hide Name, Names, Contents, Registered, Watching, DeleteIn, Linked;
    var w' := Apply(w, op);
    DieTables(w, op);
    DieRegistered(w, op);
    DieLinked(w.objects, w.ancestors, op.k);
    hide Apart;
    assert Apart(w'.objects) by {
      FewerApart(w.objects, op.k);
    }
    assert ViewOf(w') == Meant(ViewOf(w), op);
  }

  lemma FewerApart(objects: set<Key>, k: Key)
    requires Apart(objects)
    ensures Apart(objects - {k})
  {
    hide Name;
  }

  lemma DieLinked(objects: set<Key>, ancestors: map<Key, seq<Key>>, k: Key)
    requires Linked(objects, ancestors) && forall j <- ancestors :: k !in ancestors[j]
    ensures Linked(objects - {k}, ancestors - {k})
  {
  }

  /** Maps that were not registered did not hold the key. */
  lemma DieTables(w: World, op: Op)
    requires Agrees(w) && op.Die? && Enabled(w, op)
    ensures var w' := Apply(w, op);
            && w'.maps.Keys == w.maps.Keys
            && forall m <- w.maps :: w'.maps[m].props.Keys == Names(w'.maps[m].keys) &&
                                     Contents(w'.maps[m]) == Contents(w.maps[m]) - {op.k}
  {
    var w' := Apply(w, op);
    forall m <- w.maps
      ensures w'.maps[m].props.Keys == Names(w'.maps[m].keys) && Contents(w'.maps[m]) == Contents(w.maps[m]) - {op.k}
    {
      TablesOwned(w, m);
      DeleteTable(w.maps[m], w.objects, op.k);
      assert w'.maps[m] == DeleteIn(w.maps[m], op.k);
    }
  }

  lemma DieRegistered(w: World, op: Op)
    requires Registered(w) && op.Die? && Enabled(w, op) && w.watchers.Keys <= w.objects
    ensures Registered(Apply(w, op))
  {
    var w' := Apply(w, op);
    forall m <- w.maps ensures w'.maps[m].keys == w.maps[m].keys - {op.k} {
    }
    assert forall k :: Watching(w', k) == if k == op.k then {} else Watching(w, k);
    hide Enabled, Name, DeleteIn;
  }

  lemma EmptyTable()
    ensures Names({}) == {} && Contents(Table({}, map[])) == map[]
  {
    hide Name;
  }

  lemma NewMapRefines(w: World, op: Op)
    requires Agrees(w) && op.NewMap? && Enabled(w, op)
    ensures Agrees(Apply(w, op)) && ViewOf(Apply(w, op)) == Meant(ViewOf(w), op)
  {
    hide Name, Apart, Names, Contents, Linked;
    EmptyTable();
    NewMapView(w, op);
    hide ViewOf, Meant;
  }

  lemma NewMapView(w: World, op: Op)
    requires op.NewMap? && Enabled(w, op)
    ensures ViewOf(Apply(w, op)) == Meant(ViewOf(w), op)
  {
    hide Name, Names, Contents;
    EmptyTable();
  }

  lemma DropMapRefines(w: World, op: Op)
    requires Agrees(w) && op.DropMap? && Enabled(w, op)
    ensures Agrees(Apply(w, op)) && ViewOf(Apply(w, op)) == Meant(ViewOf(w), op)
  {
    hide Name, Apart, Names, Contents, Registered, Linked, Unregistered;
    var w' := Apply(w, op);
    DropMapRegistered(w, op);
    UnregisteredKeys(w, w.maps[op.m].keys, op.m);
    assert ViewOf(w') == Meant(ViewOf(w), op);
  }

  lemma DropMapRegistered(w: World, op: Op)
    requires Agrees(w) && op.DropMap? && Enabled(w, op)
    ensures Registered(Apply(w, op))
  {
    hide Name, Names, Contents, Apart, Valued, Linked, Unregistered, Holder;
    var w', keys := Apply(w, op), w.maps[op.m].keys;
    forall k ensures Watching(w', k) == Watching(w, k) - if k in keys then {op.m} else {} {
      UnregisteredHeld(w, keys, op.m, k);
    }
    hide Watching;
    assert w'.maps == w.maps - {op.m} && w'.objects == w.objects;
    hide Apply;
    WatchedBy(w);
    WatchedBy(w');
  }

  /** New objects, prototypes and closed objects make no difference to what is held. */
  lemma OthersRefine(w: World, op: Op)
    requires Agrees(w) && (op.Born? || op.Relink? || op.Close?) && Enabled(w, op)
    ensures Agrees(Apply(w, op)) && ViewOf(Apply(w, op)) == Meant(ViewOf(w), op)
  {
    hide Name, Names, Contents, Registered, Valued, Linked, Apart;
    var w' := Apply(w, op);
    if op.Born? {
      BornObjects(w, op);
    }
    SameMaps(w, w');
  }

  lemma SameMaps(w: World, w': World)
    requires Registered(w) && Valued(w)
    requires w'.maps == w.maps && w'.watchers == w.watchers && w.objects <= w'.objects
    ensures Registered(w') && Valued(w') && ViewOf(w') == ViewOf(w)
  {
    hide Name, Names, Contents;
    assert forall k :: Watching(w', k) == Watching(w, k);
    hide Watching;
    WatchedBy(w);
    WatchedBy(w');
  }

  lemma BornObjects(w: World, op: Op)
    requires Apart(w.objects) && Linked(w.objects, w.ancestors) && op.Born? && Enabled(w, op)
    ensures var w' := Apply(w, op); Apart(w'.objects) && Linked(w'.objects, w'.ancestors)
  {
    hide Name;
    NewIsNot(w.objects, op.k);
  }

  lemma NewIsNot(objects: set<Key>, k: Key)
    requires forall j <- objects :: Name(j) != Name(k)
    ensures k !in objects
  {
  }

  /** Every operation that asks a key only for its own WeakObject does what it means, and keeps the agreement. */
  lemma OpRefines(w: World, op: Op)
    requires Agrees(w) && Enabled(w, op) && (op.Set? ==> Own(w, op.k))
    ensures Agrees(Apply(w, op))
    ensures if Throws(w, op) then Apply(w, op) == w else ViewOf(Apply(w, op)) == Meant(ViewOf(w), op)
  {
    hide Agrees, Apply, Enabled, ViewOf, Meant, Own;
    match op
    case Born(_, _) => OthersRefine(w, op);
    case Relink(_) => OthersRefine(w, op);
    case Close(_) => OthersRefine(w, op);
    case Die(_) => DieRefines(w, op);
    case NewMap(_) => NewMapRefines(w, op);
    case DropMap(_) => DropMapRefines(w, op);
    case Set(_, _, _) => SetRefines(w, op);
    case Delete(_, _) => DeleteRefines(w, op);
  }

  const EMPTY := World({}, map[], {}, map[], map[])

  /** A run of the heap beside one of the reference, in which a `set` that throws is not there. */
  ghost predicate Runs(w: World, view: View, ops: seq<Op>, w': World, view': View)
    decreases |ops|
  {
    if ops == [] then w' == w && view' == view
    else
      var op := ops[0];
      Enabled(w, op) && (op.Set? ==> Own(w, op.k)) &&
      Runs(Apply(w, op), if Throws(w, op) then view else Meant(view, op), ops[1..], w', view')
  }

  lemma {:induction false} RunRefines(w: World, view: View, ops: seq<Op>, w': World, view': View)
    requires Agrees(w) && ViewOf(w) == view && Runs(w, view, ops, w', view')
    ensures Agrees(w') && ViewOf(w') == view'
    decreases |ops|
  {
    if ops != [] {
      hide Agrees, ViewOf, Apply, Meant, Own, Throws, Enabled;
      OpRefines(w, ops[0]);
      RunRefines(Apply(w, ops[0]), if Throws(w, ops[0]) then view else Meant(view, ops[0]), ops[1..], w', view');
    }
  }

  /**
   Over every such run: a map holds a key exactly when the reference does, and exactly
   when it is registered with it; `get` is the last value set; no WeakObject keeps a
   map that is gone.
   */
  lemma WeakMapAgreement(ops: seq<Op>, w: World, view: View, m: MapId, k: Key)
    requires Runs(EMPTY, map[], ops, w, view)
    ensures m in Watching(w, k) ==> m in w.maps
    ensures view.Keys == w.maps.Keys
    ensures m in w.maps ==>
              (k in w.maps[m].keys <==> k in view[m]) && (m in Watching(w, k) <==> k in view[m]) &&
              Get(w, m, k) == if k in view[m] then Some(view[m][k]) else None
  {
    hide Name, Names, Contents, Apply, Meant, Runs;
    assert Agrees(EMPTY) && ViewOf(EMPTY) == map[];
    RunRefines(EMPTY, map[], ops, w, view);
    hide Apart, Valued, Linked;
    WatchedBy(w);
    hide Registered, Watching;
    assert ViewOf(w).Keys == w.maps.Keys;
    if m in w.maps {
      HeldHasValue(w, m);
      ViewAt(w, m);
      hide ViewOf, Get;
    }
  }

  // ---- When `set` keeps the agreement ----

  /**
   A `set` keeps the agreement if and only if the key is a live object that has its own
   WeakObject or no prototype with one; any other key ends up held but not registered.
   */
  lemma SetAgreesIffOwn(w: World, m: MapId, k: Key, v: Value)
    requires Agrees(w) && m in w.maps
    ensures Agrees(Apply(w, Set(m, k, v))) <==> Own(w, k)
  {
    hide Apart, Names, Linked, Valued;
    if Own(w, k) {
      SetRefines(w, Set(m, k, v));
    } else {
      NotOwnUnregistered(w, m, k, v);
    }
  }

  lemma NotOwnUnregistered(w: World, m: MapId, k: Key, v: Value)
    requires Agrees(w) && m in w.maps && !Own(w, k)
    ensures !Registered(Apply(w, Set(m, k, v)))
  {
    hide Apart, Names, Linked, Valued, Name, Holder, Registered;
    var w' := Apply(w, Set(m, k, v));
    if k in w.maps[m].keys {
      HeldIsOwn(w, m, k);
    } else {
      if k in w.objects {
        OwnIfWatched(w, k);
      } else {
        NoHolder(w, k);
      }
      assert k in w'.maps[m].keys;
      assert k !in w'.watchers;
      assert !Registered(w') by {
        if Registered(w') {
          HeldWatched(w', m, k);
        }
      }
    }
  }

  lemma NoHolder(w: World, k: Key)
    requires k !in w.objects
    ensures Holder(w, k) == None
  {
  }

  lemma OwnIfWatched(w: World, k: Key)
    requires Agrees(w) && k in w.objects
    ensures k in w.watchers ==> Own(w, k)
  {
    hide Apart, Registered, Valued, Holder;
    WatchedIsHolder(w, k);
  }

  const CHILD := World({1, 2}, map[1 := [], 2 := [1]], {}, map[1 := {0}],
                       map[0 := Table({1, 2}, map[1 := 7, 2 := 8])])

  /**
   Object 1 is set, then object 2 whose prototype it is: 2 is registered with 1's
   WeakObject. When 2 dies the map keeps it; when instead 2 is deleted, 1 is forgotten.
   */
  lemma ChildKeyOutlives()
    ensures Apply(Apply(Apply(Apply(Apply(EMPTY, NewMap(0)), Born(1, None)), Set(0, 1, 7)), Born(2, Some(1))), Set(0, 2, 8))
            == CHILD
    ensures Get(Apply(CHILD, Die(2)), 0, 2) == Some(8)
    ensures var w := Apply(CHILD, Delete(0, 2)); 0 !in Watching(w, 1) && 1 in w.maps[0].keys
  {
    ChildBorn();
    ChildHolders();
    var u := Unregistered(CHILD, {2}, 0);
    assert u.Keys == {1};
    assert 2 in {2} && Holder(CHILD, 2) == Some(1);
    assert {1, 2} * {2} == {2};
  }

  const PARENT := World({1}, map[1 := []], {}, map[1 := {0}], map[0 := Table({1}, map[1 := 7])])
  const CHILD_BORN := PARENT.(objects := {1, 2}, ancestors := map[1 := [], 2 := [1]])

  lemma ChildBorn()
    ensures Apply(Apply(Apply(EMPTY, NewMap(0)), Born(1, None)), Set(0, 1, 7)) == PARENT
    ensures Apply(PARENT, Born(2, Some(1))) == CHILD_BORN
    ensures Apply(CHILD_BORN, Set(0, 2, 8)) == CHILD
  {
    var w := Apply(Apply(EMPTY, NewMap(0)), Born(1, None));
    assert w == World({1}, map[1 := []], {}, map[], map[0 := Table({}, map[])]);
    assert FirstWatched(w.watchers, []) == None;
    assert ([1] + w.ancestors[1])[1..] == [];
    assert Holder(w, 1) == None;
    assert Apply(w, Set(0, 1, 7)) == PARENT;
    assert Apply(PARENT, Born(2, Some(1))) == CHILD_BORN by {
      assert [1] + PARENT.ancestors[1] == [1];
    }
    ChildHolders();
    assert Apply(CHILD_BORN, Set(0, 2, 8)) == CHILD by {
      assert Watching(CHILD_BORN, 1) + {0} == {0};
      assert PARENT.maps[0].keys + {2} == {1, 2};
    }
  }

  /** The look-up for the child passes it by and finds its prototype's. */
  lemma ChildHolders()
    ensures Holder(CHILD_BORN, 2) == Holder(CHILD, 2) == Some(1)
  {
    assert ([2] + [1])[1..] == [1];
    assert FirstWatched(CHILD.watchers, [1]) == Some(1);
  }

  /**
   A string, as the keys of a map's initial object are, is set at address 5, freed, and an
   object is made there: it finds the string's value.
   */
  lemma StringKeyOutlives()
    ensures var w := Apply(Apply(Apply(EMPTY, NewMap(0)), Set(0, 5, 7)), Born(5, None)); Get(w, 0, 5) == Some(7)
  {
  }

  /** Without the assumption that live addresses print differently, one key's value is another's. */
  lemma ClashLosesValue(w: World, m: MapId, j: Key, k: Key, u: Value, v: Value)
    requires m in w.maps && j != k && !Throws(w, Set(m, j, u)) && !Throws(Apply(w, Set(m, j, u)), Set(m, k, v))
    ensures Get(Apply(Apply(w, Set(m, j, u)), Set(m, k, v)), m, j) == Some(if Name(j) == Name(k) then v else u)
  {
  }

  // ---- The heap of the script ----

  lemma {:induction false} FirstWatchedKeys(a: map<Key, set<MapId>>, b: map<Key, set<MapId>>, chain: seq<Key>)
    requires a.Keys == b.Keys
    ensures FirstWatched(a, chain) == FirstWatched(b, chain)
  {
    if chain != [] {
      FirstWatchedKeys(a, b, chain[1..]);
    }
  }

  lemma UnregisteredNone(w: World, m: MapId)
    ensures Unregistered(w, {}, m) == w.watchers
  {
  }

  /** Unregistering changes nobody's holder. */
  lemma UnregisteredMore(w: World, keys: set<Key>, k: Key, m: MapId)
    ensures Unregistered(w.(watchers := Unregistered(w, keys, m)), {k}, m) == Unregistered(w, keys + {k}, m)
  {
    var once := w.(watchers := Unregistered(w, keys, m));
    assert once.watchers.Keys == w.watchers.Keys;
    forall j ensures Holder(once, j) == Holder(w, j) {
      if j in w.objects && j in w.ancestors {
        FirstWatchedKeys(once.watchers, w.watchers, [j] + w.ancestors[j]);
      }
    }
    hide Holder;
    var a, b := Unregistered(once, {k}, m), Unregistered(w, keys + {k}, m);
    assert a.Keys == w.watchers.Keys == b.Keys;
    forall h <- a ensures a[h] == b[h] {
      assert (exists j <- {k} :: Holder(once, j) == Some(h)) <==> Holder(w, k) == Some(h);
    }
  }

  class ScriptHeap {
    var objects: set<Key>
    var ancestors: map<Key, seq<Key>>
    var closed: set<Key>
    var watchers: map<Key, set<MapId>>
    var maps: map<MapId, Table>

    ghost function Now(): World
      reads this
    {
      World(objects, ancestors, closed, watchers, maps)
    }

    constructor ()
      ensures Now() == EMPTY
    {
      objects, ancestors, closed, watchers, maps := {}, map[], {}, map[], map[];
    }

    /** The look-up of `__weakObject`, which goes on to the prototypes. */
    method FindHolder(k: Key) returns (h: Option<Key>)
      ensures h == Holder(Now(), k)
    {
      if k !in objects || k !in ancestors {
        return None;
      }
      var chain := [k] + ancestors[k];
      var i := 0;
      assert chain[0..] == chain;
      while i < |chain|
        invariant i <= |chain| && FirstWatched(watchers, chain) == FirstWatched(watchers, chain[i..])
      {
        assert chain[i..][1..] == chain[i + 1..];
        if chain[i] in watchers {
          return Some(chain[i]);
        }
        i := i + 1;
      }
      return None;
    }

    /** `WeakMap::set`: a key not yet held is registered, if it can be. */
    method SetValue(m: MapId, k: Key, v: Value) returns (thrown: bool)
      requires m in maps
      modifies `watchers, `maps
      ensures thrown == Throws(old(Now()), Set(m, k, v)) && Now() == Apply(old(Now()), Set(m, k, v))
    {
      hide Holder;
      thrown := false;
      var t := maps[m];
      if k !in t.keys {
        thrown := Register(k, m);
        if thrown {
          return;
        }
        t := t.(keys := t.keys + {k});
      } else {
        assert t.keys + {k} == t.keys;
      }
      t := t.(props := t.props[Name(k) := v]);
      assert t == SetIn(maps[m], k, v);
      maps := maps[m := t];
    }

    /**
     `duk_weakObject`: objects get a WeakObject when none is found; a closed one cannot,
     and the call throws; other keys have none.
     */
    method Register(k: Key, m: MapId) returns (thrown: bool)
      modifies `watchers
      ensures thrown == (k in closed && k in objects && Holder(old(Now()), k) == None)
      ensures watchers == if thrown then old(watchers) else Registering(old(Now()), k, m)
    {
      thrown := false;
      var h := FindHolder(k);
      hide Holder;
      if h.Some? {
        var before := if h.value in watchers then watchers[h.value] else {};
        watchers := watchers[h.value := before + {m}];
      } else if k in objects {
        if k in closed {
          return true;
        }
        watchers := watchers[k := {m}];
      }
    }

    /** `duk_unweakObject` */
    method Unregister(k: Key, m: MapId)
      modifies `watchers
      ensures watchers == Unregistered(old(Now()), {k}, m)
    {
      ghost var w := Now();
      var h := FindHolder(k);
      hide Holder;
      if h.Some? && h.value in watchers {
        watchers := watchers[h.value := watchers[h.value] - {m}];
      }
      assert watchers == Unregistered(w, {k}, m) by {
        assert forall h' <- w.watchers :: (exists j <- {k} :: Holder(w, j) == Some(h')) <==> Holder(w, k) == Some(h');
      }
    }

    /** `get`: in agreement, the value that the reference has for the key. */
    method GetValue(m: MapId, k: Key) returns (v: Option<Value>)
      requires m in maps
      ensures v == Get(Now(), m, k)
      ensures Agrees(Now()) ==>
                m in ViewOf(Now()) && v == if k in ViewOf(Now())[m] then Some(ViewOf(Now())[m][k]) else None
    {
      v := None;
      if k in maps[m].keys && Name(k) in maps[m].props {
        v := Some(maps[m].props[Name(k)]);
      }
      if Agrees(Now()) {
        HeldHasValue(Now(), m);
        ViewAt(Now(), m);
      }
    }

    /** `WeakMap::remove` */
    method Remove(m: MapId, k: Key)
      requires m in maps
      modifies `watchers, `maps
      ensures Now() == Apply(old(Now()), Delete(m, k))
    {
      hide Unregistered;
      ghost var w := Now();
      var t := maps[m];
      if k in t.keys {
        t := t.(props := t.props - {Name(k)});
        Unregister(k, m);
        t := t.(keys := t.keys - {k});
        assert w.maps[m].keys * {k} == {k};
      } else {
        assert w.maps[m].keys * {k} == {};
        UnregisteredNone(w, m);
      }
      assert t == DeleteIn(maps[m], k);
      maps := maps[m := t];
    }

    /** The key's own WeakObject, if it has one, is finalised: every map registered with it forgets the key. */
    method FinaliseKey(k: Key)
      requires Enabled(Now(), Die(k)) && forall m <- Watching(Now(), k) :: m in maps
      modifies this
      ensures Now() == Apply(old(Now()), Die(k))
    {
      ghost var w := Now();
      var rest := if k in watchers then watchers[k] else {};
      while rest != {}
        invariant rest <= Watching(w, k) && Now() == w.(maps := maps)
        invariant maps == map m | m in w.maps ::
                            if m in Watching(w, k) && m !in rest then DeleteIn(w.maps[m], k) else w.maps[m]
        decreases |rest|
      {
        var m :| m in rest;
        rest := rest - {m};
        maps := maps[m := DeleteIn(maps[m], k)];
      }
      watchers := watchers - {k};
      objects, ancestors, closed := objects - {k}, ancestors - {k}, closed - {k};
    }

    /** A map is finalised: it is unregistered for every key it holds. */
    method FinaliseMap(m: MapId)
      requires m in maps
      modifies `watchers, `maps
      ensures Now() == Apply(old(Now()), DropMap(m))
    {
      hide Unregistered;
      ghost var w, keys := Now(), maps[m].keys;
      UnregisteredNone(w, m);
      var rest := maps[m].keys;
      ghost var done := {};
      while rest != {}
        invariant Now() == w.(watchers := watchers) && done + rest == keys && watchers == Unregistered(w, done, m)
        decreases |rest|
      {
        var k :| k in rest;
        rest := rest - {k};
        UnregisteredMore(w, done, k, m);
        done := done + {k};
        Unregister(k, m);
      }
      assert done == keys;
      maps := maps - {m};
    }
  }

  // ---- One operation and what `get` then says ----

  /** Addresses print alike exactly when they differ by a multiple of 2^32. */
  lemma SameNames(j: Key, k: Key)
    ensures Name(j) == Name(k) <==> (j - k) % 0x1_0000_0000 == 0
  {
  }

  /** What is set is there; what prints differently, and other maps, are as before. */
  lemma SetThenGet(w: World, m: MapId, k: Key, v: Value, n: MapId, j: Key)
    requires m in w.maps && n in w.maps && !Throws(w, Set(m, k, v))
    ensures Get(Apply(w, Set(m, k, v)), m, k) == Some(v)
    ensures n != m || (j - k) % 0x1_0000_0000 != 0 ==> Get(Apply(w, Set(m, k, v)), n, j) == Get(w, n, j)
  {
    SameNames(j, k);
  }

  /** What is deleted is not there; what prints differently, and other maps, are as before. */
  lemma DeleteThenGet(w: World, m: MapId, k: Key, n: MapId, j: Key)
    requires m in w.maps && n in w.maps
    ensures Get(Apply(w, Delete(m, k)), m, k) == None
    ensures n != m || (j - k) % 0x1_0000_0000 != 0 ==> Get(Apply(w, Delete(m, k)), n, j) == Get(w, n, j)
  {
    SameNames(j, k);
  }

  /** A new map has nothing, and a map forgets a key that dies registered with it. */
  lemma NothingThenGet(w: World, m: MapId, k: Key, j: Key)
    ensures m !in w.maps ==> Get(Apply(w, NewMap(m)), m, j) == None
    ensures m in w.maps && Enabled(w, Die(k)) && k in w.watchers && m in w.watchers[k] ==>
              Get(Apply(w, Die(k)), m, k) == None
  {
  }

  /** A closed object makes `set` throw, unless it had its WeakObject before. */
  lemma ClosedThrows()
    ensures var w := World({1}, map[1 := []], {1}, map[], map[0 := Table({}, map[])]);
            Throws(w, Set(0, 1, 7)) && Get(Apply(w, Set(0, 1, 7)), 0, 1) == None
    ensures var w := World({1}, map[1 := []], {1}, map[1 := {}], map[0 := Table({}, map[])]);
            !Throws(w, Set(0, 1, 7)) && Get(Apply(w, Set(0, 1, 7)), 0, 1) == Some(7)
  {
    assert [1] + [] == [1] && [1][1..] == [];
    assert FirstWatched(map[], [1]) == FirstWatched(map[], []) == None;
    assert Holder(World({1}, map[1 := []], {1}, map[], map[0 := Table({}, map[])]), 1) == None;
    assert Holder(World({1}, map[1 := []], {1}, map[1 := {}], map[0 := Table({}, map[])]), 1) == Some(1);
  }
}
