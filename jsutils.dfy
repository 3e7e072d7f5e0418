/**
 * The browser's settings diff (app/static/js/utils.js): `flattenObject`
 * turns nested settings into one object keyed by dotted paths, `diffFlatten`
 * splits two flattened objects into what was added, changed and removed, and
 * `compareObjects` composes the two.
 *
 * A JavaScript value is a primitive or an object; an array is an object
 * whose entries have the keys "0", "1", ... (which is what `Object.entries`
 * sees). `JSON.parse` is a parameter.
 */
module JsUtils {
  import opened Wrappers
  import opened Strings
  import opened OrderedDict

  datatype JsValue =
    | JUndefined
    | JNull
    | JBool(b: bool)
    | JNum(n: int)
    | JStr(s: string)
    | JObj(isArray: bool, entries: seq<Entry>)

  /** One of `Object.entries(obj)`. */
  datatype Entry = Entry(key: string, value: JsValue)

  /** A leaf found by `dig`: the keys leading to it and its value. */
  datatype Leaf = Leaf(path: seq<string>, value: JsValue)

  /** `Object(value) === value`: objects and arrays, not primitives. */
  predicate IsObject(v: JsValue) {
    v.JObj?
  }

  /** The size of a value: one per value plus the length of each string. */
  function Weight(v: JsValue): (w: nat)
    ensures w >= 1
    decreases v, 1
  {
    match v
    case JStr(s) => 1 + |s|
    case JObj(_, es) => 1 + EntriesWeight(es)
    case _ => 1
  }

  function EntriesWeight(es: seq<Entry>): nat
    decreases es, 0
  {
    if es == [] then 0 else Weight(es[0].value) + EntriesWeight(es[1..])
  }

  /** What any `JSON.parse` satisfies: the value it returns is no larger than
      the text it read, since every value and every character of a string
      needs at least one character of text. */
  ghost predicate ParseShrinks(parse: string -> Option<JsValue>) {
    forall s :: parse(s).Some? ==> Weight(parse(s).value) <= |s|
  }

  /** A string that starts and ends with braces or with brackets. */
  predicate LooksLikeJson(s: string) {
    (IsPrefix("{", s) && IsSuffix("}", s)) || (IsPrefix("[", s) && IsSuffix("]", s))
  }

  /** A value as `dig` uses it (utils.js:12-18): a JSON-looking string is
      replaced by what it parses to, and kept when parsing fails. */
  function Decoded(v: JsValue, parse: string -> Option<JsValue>): JsValue {
    if v.JStr? && LooksLikeJson(v.s) && parse(v.s).Some? then parse(v.s).value else v
  }

  lemma DecodedWeight(v: JsValue, parse: string -> Option<JsValue>)
    requires ParseShrinks(parse)
    ensures Weight(Decoded(v, parse)) <= Weight(v)
  {
  }

  lemma {:induction false} EntryWeight(es: seq<Entry>, i: int)
    requires 0 <= i < |es|
    ensures Weight(es[i].value) <= EntriesWeight(es)
  {
    if i > 0 {
      EntryWeight(es[1..], i - 1);
    }
  }

  /** The leaves below `entries`, each with its path of keys, in the order
      `dig` visits them. */
  function Flatten(prefix: seq<string>, entries: seq<Entry>, parse: string -> Option<JsValue>): seq<Leaf>
    requires ParseShrinks(parse)
    decreases EntriesWeight(entries), 1
  {
    if entries == [] then []
    else FlattenEntry(prefix, entries[0], parse) + Flatten(prefix, entries[1..], parse)
  }

  /** The leaves of one entry: the entry itself when its (decoded) value is
      a primitive, the leaves below it otherwise. */
  function FlattenEntry(prefix: seq<string>, e: Entry, parse: string -> Option<JsValue>): seq<Leaf>
    requires ParseShrinks(parse)
    decreases Weight(e.value), 0
  {
    var value := Decoded(e.value, parse);
    DecodedWeight(e.value, parse);
    if IsObject(value) then Flatten(prefix + [e.key], value.entries, parse)
    else [Leaf(prefix + [e.key], value)]
  }

  /** `object[path.join('.')] = value` for each leaf in turn. */
  function Store(flat: ODict<JsValue>, leaves: seq<Leaf>): ODict<JsValue>
    decreases |leaves|
  {
    if leaves == [] then flat
    else Store(Put(flat, Join(leaves[0].path, "."), leaves[0].value), leaves[1..])
  }

  /** `Object.entries(obj)`; `undefined` and `null` throw. A string's
      entries are its characters. */
  function ObjectEntries(v: JsValue): Option<seq<Entry>> {
    match v
    case JUndefined => None
    case JNull => None
    case JStr(s) => Some(seq(|s|, i requires 0 <= i < |s| => Entry(NatToString(i), JStr([s[i]]))))
    case JObj(_, es) => Some(es)
    case _ => Some([])
  }

  /** What `flattenObject(obj)` returns, or the error it throws. */
  function Flattened(obj: JsValue, parse: string -> Option<JsValue>): Result<ODict<JsValue>>
    requires ParseShrinks(parse)
  {
    if obj.JUndefined? then Ok(Empty())
    else match ObjectEntries(obj)
      case None => Err("TypeError: Cannot convert undefined or null to object")
      case Some(es) => Ok(Store(Empty(), Flatten([], es, parse)))
  }

  // ---------------------------------------------------------------------------
  // Properties of flattening

  lemma {:induction false} FlattenAppend(prefix: seq<string>, a: seq<Entry>, b: seq<Entry>,
                                         parse: string -> Option<JsValue>)
    requires ParseShrinks(parse)
    ensures Flatten(prefix, a + b, parse) == Flatten(prefix, a, parse) + Flatten(prefix, b, parse)
    decreases |a|
  {
    if a == [] {
      assert a + b == b;
    } else {
      assert (a + b)[0] == a[0] && (a + b)[1..] == a[1..] + b;
      FlattenAppend(prefix, a[1..], b, parse);
    }
  }

  lemma {:induction false} StoreAppend(flat: ODict<JsValue>, a: seq<Leaf>, b: seq<Leaf>)
    ensures Store(flat, a + b) == Store(Store(flat, a), b)
    decreases |a|
  {
    if a == [] {
      assert a + b == b;
    } else {
      assert (a + b)[0] == a[0] && (a + b)[1..] == a[1..] + b;
      StoreAppend(Put(flat, Join(a[0].path, "."), a[0].value), a[1..], b);
    }
  }

  /** Every leaf lies strictly below the prefix and is not an object: nested
      objects and arrays get no key of their own. */
  lemma {:induction false} FlattenLeaves(prefix: seq<string>, entries: seq<Entry>,
                                         parse: string -> Option<JsValue>, j: int)
    requires ParseShrinks(parse) && 0 <= j < |Flatten(prefix, entries, parse)|
    ensures var leaf := Flatten(prefix, entries, parse)[j];
      |leaf.path| > |prefix| && leaf.path[..|prefix|] == prefix && !IsObject(leaf.value)
    decreases EntriesWeight(entries), 1
  {
    var head := FlattenEntry(prefix, entries[0], parse);
    if j < |head| {
      EntryLeaves(prefix, entries[0], parse, j);
    } else {
      FlattenLeaves(prefix, entries[1..], parse, j - |head|);
    }
  }

  lemma {:induction false} EntryLeaves(prefix: seq<string>, e: Entry, parse: string -> Option<JsValue>, j: int)
    requires ParseShrinks(parse) && 0 <= j < |FlattenEntry(prefix, e, parse)|
    ensures var leaf := FlattenEntry(prefix, e, parse)[j];
      |leaf.path| > |prefix| && leaf.path[..|prefix|] == prefix && !IsObject(leaf.value)
    decreases Weight(e.value), 0
  {
    var value := Decoded(e.value, parse);
    DecodedWeight(e.value, parse);
    if IsObject(value) {
      FlattenLeaves(prefix + [e.key], value.entries, parse, j);
      var path := FlattenEntry(prefix, e, parse)[j].path;
      assert path[..|prefix|] == (path[..|prefix| + 1])[..|prefix|];
    }
  }

  /** An object without nested objects or JSON-looking strings flattens to
      one leaf per entry, under its own key. */
  lemma {:induction false} FlattenFlat(entries: seq<Entry>, parse: string -> Option<JsValue>)
    requires ParseShrinks(parse)
    requires forall i | 0 <= i < |entries| :: !IsObject(entries[i].value) && !(entries[i].value.JStr? && LooksLikeJson(entries[i].value.s))
    ensures |Flatten([], entries, parse)| == |entries|
    ensures forall i | 0 <= i < |entries| :: Flatten([], entries, parse)[i] == Leaf([entries[i].key], entries[i].value)
  {
    if entries != [] {
      FlattenFlat(entries[1..], parse);
      assert Decoded(entries[0].value, parse) == entries[0].value;
      assert [] + [entries[0].key] == [entries[0].key];
    }
  }

  /** Storing keeps the key order well formed, and the stored keys are the
      old ones plus the joined paths. */
  lemma {:induction false} StoreSpec(flat: ODict<JsValue>, leaves: seq<Leaf>, k: string)
    requires Valid(flat)
    ensures Valid(Store(flat, leaves))
    ensures k in Store(flat, leaves).vals <==>
      k in flat.vals || exists j | 0 <= j < |leaves| :: Join(leaves[j].path, ".") == k
    decreases |leaves|
  {
    if leaves != [] {
      var next := Put(flat, Join(leaves[0].path, "."), leaves[0].value);
      PutValid(flat, Join(leaves[0].path, "."), leaves[0].value);
      StoreSpec(next, leaves[1..], k);
      if exists j | 0 <= j < |leaves[1..]| :: Join(leaves[1..][j].path, ".") == k {
        var j :| 0 <= j < |leaves[1..]| && Join(leaves[1..][j].path, ".") == k;
        assert Join(leaves[j + 1].path, ".") == k;
      }
      if exists j | 0 <= j < |leaves| :: Join(leaves[j].path, ".") == k {
        var j :| 0 <= j < |leaves| && Join(leaves[j].path, ".") == k;
        if j > 0 {
          assert Join(leaves[1..][j - 1].path, ".") == k;
        }
      }
    }
  }

  /** `flattenObject(undefined)` is empty and `null` throws. */
  lemma FlattenedErrors(obj: JsValue, parse: string -> Option<JsValue>)
    requires ParseShrinks(parse)
    ensures obj.JUndefined? ==> Flattened(obj, parse) == Ok(Empty())
    ensures Flattened(obj, parse).Err? <==> obj.JNull?
  {
  }

  /** The flattening of an object is well formed and its keys are the dotted
      paths of the leaves. */
  lemma FlattenedKeys(entries: seq<Entry>, parse: string -> Option<JsValue>, k: string)
    requires ParseShrinks(parse)
    ensures var r := Store(Empty(), Flatten([], entries, parse));
      var leaves := Flatten([], entries, parse);
      && Flattened(JObj(false, entries), parse) == Ok(r)
      && Valid(r)
      && (k in r.vals <==> exists j | 0 <= j < |leaves| :: Join(leaves[j].path, ".") == k)
  {
    StoreSpec(Empty(), Flatten([], entries, parse), k);
  }

  /** A flat object whose keys differ from each other is its own
      flattening. */
  lemma {:induction false} FlatObjectUnchanged(entries: seq<Entry>, parse: string -> Option<JsValue>, i: int)
    requires ParseShrinks(parse) && 0 <= i < |entries|
    requires forall j | 0 <= j < |entries| :: !IsObject(entries[j].value) && !(entries[j].value.JStr? && LooksLikeJson(entries[j].value.s))
    requires forall j | 0 <= j < |entries| && j != i :: entries[j].key != entries[i].key
    ensures var r := Store(Empty(), Flatten([], entries, parse));
      entries[i].key in r.vals && r.vals[entries[i].key] == entries[i].value
  {
    FlattenFlat(entries, parse);
    var leaves := Flatten([], entries, parse);
    assert forall j | 0 <= j < |leaves| :: Join(leaves[j].path, ".") == entries[j].key;
    StoreLast(Empty(), leaves, i);
  }

  /** The value stored under a leaf's key is that leaf's, when no other leaf
      has the same key. */
  lemma {:induction false} StoreLast(flat: ODict<JsValue>, leaves: seq<Leaf>, i: int)
    requires 0 <= i < |leaves|
    requires forall j | 0 <= j < |leaves| && j != i :: Join(leaves[j].path, ".") != Join(leaves[i].path, ".")
    ensures Join(leaves[i].path, ".") in Store(flat, leaves).vals
    ensures Store(flat, leaves).vals[Join(leaves[i].path, ".")] == leaves[i].value
    decreases |leaves|
  {
    var next := Put(flat, Join(leaves[0].path, "."), leaves[0].value);
    if i == 0 {
      forall j | 0 <= j < |leaves[1..]| ensures Join(leaves[1..][j].path, ".") != Join(leaves[0].path, ".") {
        assert leaves[1..][j] == leaves[j + 1];
      }
      StoreAvoids(next, leaves[1..], Join(leaves[0].path, "."));
    } else {
      forall j | 0 <= j < |leaves[1..]| && j != i - 1
        ensures Join(leaves[1..][j].path, ".") != Join(leaves[1..][i - 1].path, ".")
      {
        assert leaves[1..][j] == leaves[j + 1];
      }
      StoreLast(next, leaves[1..], i - 1);
    }
  }

  /** Leaves with other keys leave a key's value alone. */
  lemma {:induction false} StoreAvoids(flat: ODict<JsValue>, leaves: seq<Leaf>, k: string)
    requires k in flat.vals
    requires forall j | 0 <= j < |leaves| :: Join(leaves[j].path, ".") != k
    ensures k in Store(flat, leaves).vals && Store(flat, leaves).vals[k] == flat.vals[k]
    decreases |leaves|
  {
    if leaves != [] {
      StoreAvoids(Put(flat, Join(leaves[0].path, "."), leaves[0].value), leaves[1..], k);
    }
  }

  /** `flattenObject`'s state: the result object and the shared path. */
  class Flattener {
    var flat: ODict<JsValue>
    var path: seq<string>

    constructor()
      ensures flat == Empty() && path == []
    {
      flat := Empty();
      path := [];
    }

    /** `dig(obj)` on the entries of `obj`: the leaves are stored in
        visiting order and the path is as before. */
    method Dig(entries: seq<Entry>, parse: string -> Option<JsValue>)
      requires ParseShrinks(parse)
      modifies this
      ensures path == old(path)
      ensures flat == Store(old(flat), Flatten(old(path), entries, parse))
      decreases EntriesWeight(entries), 1
    {
      var i := 0;
      while i < |entries|
        invariant 0 <= i <= |entries|
        invariant path == old(path)
        invariant flat == Store(old(flat), Flatten(old(path), entries[..i], parse))
      {
        EntryWeight(entries, i);
        DigEntry(entries[i], parse);
        DigStep(old(flat), old(path), entries, i, parse);
        i := i + 1;
      }
      assert entries[..i] == entries;
    }

    /** One pass of `dig`'s loop: the key is pushed, the value decoded and
        either dug into or stored, and the key popped again. */
    method DigEntry(e: Entry, parse: string -> Option<JsValue>)
      requires ParseShrinks(parse)
      modifies this
      ensures path == old(path)
      ensures flat == Store(old(flat), FlattenEntry(old(path), e, parse))
      decreases Weight(e.value), 0
    {
      var value := e.value;
      if value.JStr? && LooksLikeJson(value.s) {
        var parsed := parse(value.s);
        if parsed.Some? {
          value := parsed.value;
        }
      }
      assert value == Decoded(e.value, parse);
      path := path + [e.key];
      if IsObject(value) {
        DecodedWeight(e.value, parse);
        Dig(value.entries, parse);
      } else {
        flat := Put(flat, Join(path, "."), value);
      }
      path := path[..|path| - 1];
    }
  }

  lemma DigStep(flat: ODict<JsValue>, path: seq<string>, entries: seq<Entry>, i: int, parse: string -> Option<JsValue>)
    requires ParseShrinks(parse) && 0 <= i < |entries|
    ensures Store(flat, Flatten(path, entries[..i + 1], parse))
         == Store(Store(flat, Flatten(path, entries[..i], parse)), FlattenEntry(path, entries[i], parse))
  {
    assert entries[..i + 1] == entries[..i] + [entries[i]];
    FlattenAppend(path, entries[..i], [entries[i]], parse);
    assert Flatten(path, [entries[i]], parse) == FlattenEntry(path, entries[i], parse);
    StoreAppend(flat, Flatten(path, entries[..i], parse), FlattenEntry(path, entries[i], parse));
  }

  /** `flattenObject(obj)`. */
  method FlattenObject(obj: JsValue, parse: string -> Option<JsValue>) returns (r: Result<ODict<JsValue>>)
    requires ParseShrinks(parse)
    ensures r == Flattened(obj, parse)
  {
    if obj.JUndefined? {
      return Ok(Empty());
    }
    var entries := ObjectEntries(obj);
    if entries.None? {
      return Err("TypeError: Cannot convert undefined or null to object");
    }
    var f := new Flattener();
    f.Dig(entries.value, parse);
    r := Ok(f.flat);
  }

  // ---------------------------------------------------------------------------
  // The diff (utils.js:33-59)

  /** `d[key]`, `undefined` when absent. */
  function Lookup(d: ODict<JsValue>, key: string): JsValue {
    Get(d, key, JUndefined)
  }

  /** `{ from: before[key], to: after[key] }`. */
  function FromTo(from: JsValue, to: JsValue): JsValue {
    JObj(false, [Entry("from", from), Entry("to", to)])
  }

  /** The keys of `after` whose value is not `===` the one in `before` and
      that `before` lacks. */
  ghost function AddedSpec(before: ODict<JsValue>, after: ODict<JsValue>): map<string, JsValue> {
    map k | k in after.vals && after.vals[k] != Lookup(before, k) && k !in before.vals :: after.vals[k]
  }

  /** The keys in both whose values differ, each with its old and new value. */
  ghost function ChangedSpec(before: ODict<JsValue>, after: ODict<JsValue>): map<string, JsValue> {
    map k | k in after.vals && after.vals[k] != Lookup(before, k) && k in before.vals :: FromTo(before.vals[k], after.vals[k])
  }

  /** The keys of `before` that `after` lacks. */
  ghost function RemovedSpec(before: ODict<JsValue>, after: ODict<JsValue>): map<string, JsValue> {
    map k | k in before.vals && k !in after.vals :: before.vals[k]
  }

  /** `diffFlatten(before, after)`: three copies, from which each key of
      `after` is deleted where it does not belong. Flattened values are
      primitives, for which `===` is equality. */
  method DiffFlatten(before: ODict<JsValue>, after: ODict<JsValue>)
    returns (added: ODict<JsValue>, changed: ODict<JsValue>, removed: ODict<JsValue>)
    requires Valid(after)
    ensures added.vals == AddedSpec(before, after)
    ensures changed.vals == ChangedSpec(before, after)
    ensures removed.vals == RemovedSpec(before, after)
  {
    added, changed, removed := after, after, before;
    ghost var done: set<string> := {};
    var i := 0;
    while i < |after.keys|
      invariant 0 <= i <= |after.keys|
      invariant forall k :: k in done <==> k in after.keys[..i]
      invariant added.vals == AddedUpTo(before, after, done)
      invariant changed.vals == ChangedUpTo(before, after, done)
      invariant removed.vals == RemovedUpTo(before, after, done)
    {
      var key := after.keys[i];
      assert after.keys[..i + 1] == after.keys[..i] + [key];
      DiffStep(before, after, done, key);
      if Lookup(after, key) == Lookup(before, key) {
        added := Remove(added, key);
        changed := Remove(changed, key);
        removed := Remove(removed, key);
      } else if key in before.vals {
        added := Remove(added, key);
        changed := Put(changed, key, FromTo(Lookup(before, key), Lookup(after, key)));
        removed := Remove(removed, key);
      } else {
        changed := Remove(changed, key);
        removed := Remove(removed, key);
      }
      done := done + {key};
      i := i + 1;
    }
    assert after.keys[..i] == after.keys;
    DiffDone(before, after, done);
  }

  /** The three results once the keys in `done` have been visited. */
  ghost function AddedUpTo(before: ODict<JsValue>, after: ODict<JsValue>, done: set<string>): map<string, JsValue> {
    map k | k in after.vals && (k in done ==> k in AddedSpec(before, after)) :: after.vals[k]
  }

  ghost function ChangedUpTo(before: ODict<JsValue>, after: ODict<JsValue>, done: set<string>): map<string, JsValue> {
    map k | k in after.vals && (k in done ==> k in ChangedSpec(before, after)) ::
      if k in done then ChangedSpec(before, after)[k] else after.vals[k]
  }

  ghost function RemovedUpTo(before: ODict<JsValue>, after: ODict<JsValue>, done: set<string>): map<string, JsValue> {
    map k | k in before.vals && k !in done :: before.vals[k]
  }

  lemma DiffStep(before: ODict<JsValue>, after: ODict<JsValue>, done: set<string>, key: string)
    requires key in after.vals
    ensures key in AddedSpec(before, after) <==> after.vals[key] != Lookup(before, key) && key !in before.vals
    ensures key in ChangedSpec(before, after) <==> after.vals[key] != Lookup(before, key) && key in before.vals
    ensures key in ChangedSpec(before, after) ==> ChangedSpec(before, after)[key] == FromTo(before.vals[key], after.vals[key])
    ensures AddedUpTo(before, after, done + {key}) ==
      if key in AddedSpec(before, after) then AddedUpTo(before, after, done) else AddedUpTo(before, after, done) - {key}
    ensures ChangedUpTo(before, after, done + {key}) ==
      if key in ChangedSpec(before, after) then ChangedUpTo(before, after, done)[key := ChangedSpec(before, after)[key]]
      else ChangedUpTo(before, after, done) - {key}
    ensures RemovedUpTo(before, after, done + {key}) == RemovedUpTo(before, after, done) - {key}
  {
    ChangedStep(before, after, done, key);
  }

  lemma ChangedStep(before: ODict<JsValue>, after: ODict<JsValue>, done: set<string>, key: string)
    requires key in after.vals
    ensures ChangedUpTo(before, after, done + {key}) ==
      if key in ChangedSpec(before, after) then ChangedUpTo(before, after, done)[key := ChangedSpec(before, after)[key]]
      else ChangedUpTo(before, after, done) - {key}
  {
  }

  lemma DiffDone(before: ODict<JsValue>, after: ODict<JsValue>, done: set<string>)
    requires forall k | k in after.vals :: k in done
    requires forall k | k in done :: k in after.vals
    ensures AddedUpTo(before, after, done) == AddedSpec(before, after)
    ensures ChangedUpTo(before, after, done) == ChangedSpec(before, after)
    ensures RemovedUpTo(before, after, done) == RemovedSpec(before, after)
  {
  }

  /** The result of `compareObjects`. */
  datatype Diff = Diff(added: ODict<JsValue>, changed: ODict<JsValue>, removed: ODict<JsValue>)

  /** `compareObjects(before, after)`: the diff of the two flattenings; a
      throwing `flattenObject` makes it throw. */
  method CompareObjects(before: JsValue, after: JsValue, parse: string -> Option<JsValue>) returns (r: Result<Diff>)
    requires ParseShrinks(parse)
    ensures r.Err? <==> Flattened(before, parse).Err? || Flattened(after, parse).Err?
    ensures r.Ok? ==> var b := Flattened(before, parse).value;
      var a := Flattened(after, parse).value;
      && r.value.added.vals == AddedSpec(b, a)
      && r.value.changed.vals == ChangedSpec(b, a)
      && r.value.removed.vals == RemovedSpec(b, a)
  {
    var b := FlattenObject(before, parse);
    if b.Err? {
      return Err(b.msg);
    }
    var a := FlattenObject(after, parse);
    if a.Err? {
      return Err(a.msg);
    }
    FlattenedValid(after, parse);
    var added, changed, removed := DiffFlatten(b.value, a.value);
    r := Ok(Diff(added, changed, removed));
  }

  lemma FlattenedValid(obj: JsValue, parse: string -> Option<JsValue>)
    requires ParseShrinks(parse) && Flattened(obj, parse).Ok?
    ensures Valid(Flattened(obj, parse).value)
  {
    if !obj.JUndefined? {
      StoreSpec(Empty(), Flatten([], ObjectEntries(obj).value, parse), "");
    }
  }

  // ---------------------------------------------------------------------------
  // Properties of the diff

  /** The three parts are pairwise disjoint, and every key of either side is
      in exactly one of them or kept its value. */
  lemma DiffPartition(before: ODict<JsValue>, after: ODict<JsValue>, k: string)
    ensures var a, c, r := AddedSpec(before, after), ChangedSpec(before, after), RemovedSpec(before, after);
      && !(k in a && k in c) && !(k in a && k in r) && !(k in c && k in r)
      && (k in after.vals && after.vals[k] == Lookup(before, k) ==> k !in a && k !in c && k !in r)
      && (k in before.vals || k in after.vals ==>
            k in a || k in c || k in r || (k in after.vals && after.vals[k] == Lookup(before, k)))
  {
  }

  /** Applying the diff to `before` — drop the removed keys, then write the
      added values and the changed keys' new values — gives `after`, provided
      no new key holds `undefined`. */
  ghost function Patch(before: map<string, JsValue>, added: map<string, JsValue>,
                       changed: map<string, JsValue>, removed: map<string, JsValue>): map<string, JsValue> {
    map k | k in (before.Keys - removed.Keys) + added.Keys + changed.Keys ::
      if k in added then added[k]
      else if k in changed then To(changed[k])
      else before[k]
  }

  /** The `to` of a `{from, to}` pair. */
  function To(change: JsValue): JsValue {
    if change.JObj? && |change.entries| == 2 then change.entries[1].value else JUndefined
  }

  lemma DiffPatch(before: ODict<JsValue>, after: ODict<JsValue>)
    requires forall k | k in after.vals && k !in before.vals :: after.vals[k] != JUndefined
    ensures Patch(before.vals, AddedSpec(before, after), ChangedSpec(before, after), RemovedSpec(before, after)) == after.vals
  {
  }

  /** Comparing a flattening with itself finds no difference. */
  lemma DiffSelf(d: ODict<JsValue>)
    ensures AddedSpec(d, d) == map[] && ChangedSpec(d, d) == map[] && RemovedSpec(d, d) == map[]
  {
  }
}
