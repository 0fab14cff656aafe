/**
 * The decoded JSON payloads the service returns, as Python sees them after `json.loads`,
 * together with the Python operations the crawler applies to them: truthiness, `d.get(k, default)`,
 * `d[k]`, `k in x`, `for x in v`, `len(v)`, `d[k] = v` and `str(v)`.
 * A dict keeps its keys in insertion order, as Python dicts do.
 */
module JsonValues {
  import opened Outcomes
  import opened Text

  datatype Json =
    | Null                       // None
    | Bool(b: bool)
    | Int(i: int)
    | Str(s: string)
    | List(items: seq<Json>)
    | Obj(fields: seq<Field>)    // a dict, in insertion order

  datatype Field = Field(key: string, value: Json)

  const EmptyList: Json := List([])
  const EmptyDict: Json := Obj([])

  /** Python's `bool(v)`. */
  predicate Truthy(j: Json) {
    match j
    case Null => false
    case Bool(b) => b
    case Int(i) => i != 0
    case Str(s) => s != ""
    case List(items) => items != []
    case Obj(fields) => fields != []
  }

  /** The value stored under `key`; as `json.loads` does, a repeated key keeps its last value. */
  function Lookup(fields: seq<Field>, key: string): Option<Json>
    decreases |fields|
  {
    if fields == [] then None
    else if fields[|fields| - 1].key == key then Some(fields[|fields| - 1].value)
    else Lookup(fields[..|fields| - 1], key)
  }

  /** A key is found exactly when some entry carries it, and what is found is the last such entry's value. */
  lemma {:induction false} LookupFindsLast(fields: seq<Field>, key: string)
    ensures Lookup(fields, key).Some? <==> exists k :: 0 <= k < |fields| && fields[k].key == key
    ensures Lookup(fields, key).Some? ==>
      exists k :: (0 <= k < |fields| && fields[k] == Field(key, Lookup(fields, key).value)
        && forall m :: k < m < |fields| ==> fields[m].key != key)
    decreases |fields|
  {
    if fields != [] && fields[|fields| - 1].key != key {
      var n := |fields| - 1;
      LookupFindsLast(fields[..n], key);
      assert forall k :: 0 <= k < n ==> fields[..n][k] == fields[k];
    }
  }

  /** An entry no later entry overrides is what a lookup of its key finds. */
  lemma {:induction false} LookupLastEntry(fields: seq<Field>, k: nat)
    requires k < |fields|
    requires forall m :: k < m < |fields| ==> fields[m].key != fields[k].key
    ensures Lookup(fields, fields[k].key) == Some(fields[k].value)
    decreases |fields|
  {
    var n := |fields| - 1;
    if k < n {
      assert fields[..n][k] == fields[k];
      LookupLastEntry(fields[..n], k);
    }
  }

  /** A key no entry carries is not found. */
  lemma {:induction false} LookupMissing(fields: seq<Field>, key: string)
    requires forall m :: 0 <= m < |fields| ==> fields[m].key != key
    ensures Lookup(fields, key) == None
    decreases |fields|
  {
    if fields != [] {
      var n := |fields| - 1;
      assert forall m :: 0 <= m < n ==> fields[..n][m] == fields[m];
      LookupMissing(fields[..n], key);
    }
  }

  /** `key in d` for a dict `d`. */
  predicate HasKey(j: Json, key: string) {
    j.Obj? && Lookup(j.fields, key).Some?
  }

  /** `j.get(key, default)`: only dicts have `.get`. */
  function Get(j: Json, key: string, default: Json): (r: Result<Json>)
    ensures r.Err? <==> !j.Obj?
    ensures r.Err? ==> r.error == AttributeError
    ensures r.Ok? && HasKey(j, key) ==> r.value == Lookup(j.fields, key).value
    ensures r.Ok? && !HasKey(j, key) ==> r.value == default
  {
    if !j.Obj? then Err(AttributeError)
    else match Lookup(j.fields, key)
      case None => Ok(default)
      case Some(v) => Ok(v)
  }

  /** `j[key]` with a string key: only dicts accept one. */
  function Subscript(j: Json, key: string): (r: Result<Json>)
    ensures r.Ok? <==> HasKey(j, key)
    ensures r.Ok? ==> r.value == Lookup(j.fields, key).value
    ensures r.Err? ==> r.error == (if j.Obj? then KeyError else TypeError)
  {
    if !j.Obj? then Err(TypeError)
    else match Lookup(j.fields, key)
      case None => Err(KeyError)
      case Some(v) => Ok(v)
  }

  /** `key in j`: a key of a dict, an element of a list, a substring of a string. */
  function Contains(j: Json, key: string): (r: Result<bool>)
    ensures j.Obj? ==> r == Ok(HasKey(j, key))
    ensures r.Err? <==> !(j.Obj? || j.List? || j.Str?)
  {
    match j
    case Obj(_) => Ok(HasKey(j, key))
    case List(items) => Ok(Str(key) in items)
    case Str(s) => Ok(HasSubstring(s, key))
    case _ => Err(TypeError)
  }

  /** `for x in j`: list elements, one-character strings, or dict keys. */
  function Iterate(j: Json): (r: Result<seq<Json>>)
    ensures j.List? ==> r == Ok(j.items)
    ensures r.Err? <==> !(j.Obj? || j.List? || j.Str?)
    ensures r.Ok? ==> |r.value| == (match j case List(xs) => |xs| case Str(s) => |s| case Obj(fs) => |fs| case _ => 0)
  {
    match j
    case List(items) => Ok(items)
    case Str(s) => Ok(seq(|s|, k requires 0 <= k < |s| => Str([s[k]])))
    case Obj(fields) => Ok(seq(|fields|, k requires 0 <= k < |fields| => Str(fields[k].key)))
    case _ => Err(TypeError)
  }

  /** `len(j)`. */
  function Len(j: Json): (r: Result<nat>)
    ensures r.Ok? <==> (j.Obj? || j.List? || j.Str?)
    ensures r.Ok? ==> Iterate(j).Ok? && r.value == |Iterate(j).value|
  {
    match j
    case List(items) => Ok(|items|)
    case Str(s) => Ok(|s|)
    case Obj(fields) => Ok(|fields|)
    case _ => Err(TypeError)
  }

  /** `d[key] = v` on a dict: an existing key keeps its place, a new key goes last. */
  function SetKey(d: Json, key: string, v: Json): (r: Json)
    requires d.Obj?
    ensures r.Obj? && Lookup(r.fields, key) == Some(v)
    ensures forall k :: k != key ==> Lookup(r.fields, k) == Lookup(d.fields, k)
  {
    if HasKey(d, key) then
      var fs := seq(|d.fields|, k requires 0 <= k < |d.fields| =>
        if d.fields[k].key == key then Field(key, v) else d.fields[k]);
      SameKeysLookup(d.fields, fs, key, v);
      Obj(fs)
    else
      var fs := d.fields + [Field(key, v)];
      assert fs[..|fs| - 1] == d.fields;
      Obj(fs)
  }

  /** Replacing the value of every `key` entry makes `key` read `v` and leaves other keys alone. */
  lemma {:induction false} SameKeysLookup(old_: seq<Field>, new_: seq<Field>, key: string, v: Json)
    requires |old_| == |new_|
    requires forall k :: 0 <= k < |old_| ==> new_[k] == (if old_[k].key == key then Field(key, v) else old_[k])
    ensures Lookup(old_, key).Some? ==> Lookup(new_, key) == Some(v)
    ensures forall k :: k != key ==> Lookup(new_, k) == Lookup(old_, k)
    decreases |old_|
  {
    if old_ != [] {
      var n := |old_| - 1;
      SameKeysLookup(old_[..n], new_[..n], key, v);
    }
  }

  /** `for x in j.get(key, [])`. */
  function IterGet(j: Json, key: string): (r: Result<seq<Json>>)
    ensures r.Ok? ==> j.Obj?
    ensures j.Obj? && !HasKey(j, key) ==> r == Ok([])
    ensures HasKey(j, key) ==> r == Iterate(Lookup(j.fields, key).value)
  {
    var v :- Get(j, key, EmptyList);
    Iterate(v)
  }

  /** `j[p0][p1]...[pn]` read with `.get` semantics: `None` when a level is missing or not a dict. */
  function LookupPath(j: Json, path: seq<string>): Option<Json>
    decreases |path|
  {
    if path == [] then Some(j)
    else if !j.Obj? then None
    else match Lookup(j.fields, path[0])
      case None => None
      case Some(child) => LookupPath(child, path[1..])
  }

  /**
   * Every level of `path` that is present, down to the parent of the last key, is a dict: the
   * condition under which a chain of `.get` calls along `path` does not raise AttributeError.
   */
  predicate DictsAlong(j: Json, path: seq<string>)
    decreases |path|
  {
    j.Obj? && (|path| <= 1 || match Lookup(j.fields, path[0])
      case None => true
      case Some(child) => DictsAlong(child, path[1..]))
  }

  /** `j[p0]...[pn-1][pn] = v`: every level but the last is read by subscript, the last one assigned. */
  function SetPath(j: Json, path: seq<string>, v: Json): Result<Json>
    requires |path| >= 1
    decreases |path|
  {
    if |path| == 1 then
      if j.Obj? then Ok(SetKey(j, path[0], v)) else Err(TypeError)
    else
      var child :- Subscript(j, path[0]);
      var updated :- SetPath(child, path[1..], v);
      Ok(SetKey(j, path[0], updated))
  }

  /** Assigning through the first entry of a dict whose other keys differ rewrites that entry alone. */
  lemma SetPathThroughFirst(key: string, child: Json, rest: seq<Field>, path: seq<string>, v: Json)
    requires |path| >= 1 && SetPath(child, path, v).Ok?
    requires forall m :: 0 <= m < |rest| ==> rest[m].key != key
    ensures SetPath(Obj([Field(key, child)] + rest), [key] + path, v)
      == Ok(Obj([Field(key, SetPath(child, path, v).value)] + rest))
  {
    var d := Obj([Field(key, child)] + rest);
    LookupLastEntry(d.fields, 0);
    assert ([key] + path)[1..] == path;
    var updated := SetPath(child, path, v).value;
    var fs := seq(|d.fields|, k requires 0 <= k < |d.fields| =>
      if d.fields[k].key == key then Field(key, updated) else d.fields[k]);
    assert fs == [Field(key, updated)] + rest;
  }

  /** Assigning the same key twice is assigning it once, with the last value. */
  lemma {:induction false} SetKeyTwice(d: Json, key: string, v1: Json, v2: Json)
    requires d.Obj?
    ensures SetKey(SetKey(d, key, v1), key, v2) == SetKey(d, key, v2)
  {
    var d1 := SetKey(d, key, v1);
    if HasKey(d, key) {
      var n := |d.fields|;
      assert |d1.fields| == n;
      assert SetKey(d1, key, v2).fields == SetKey(d, key, v2).fields;
    } else {
      LookupFindsLast(d.fields, key);
      assert forall k :: 0 <= k < |d.fields| ==> d.fields[k].key != key;
      assert d1.fields == d.fields + [Field(key, v1)];
      assert HasKey(d1, key);
      assert SetKey(d1, key, v2).fields == d.fields + [Field(key, v2)];
    }
  }

  /** After a successful nested assignment, reading the same path gives the assigned value. */
  lemma {:induction false} LookupAfterSetPath(j: Json, path: seq<string>, v: Json)
    requires |path| >= 1 && SetPath(j, path, v).Ok?
    ensures LookupPath(SetPath(j, path, v).value, path) == Some(v)
    decreases |path|
  {
    var r := SetPath(j, path, v).value;
    if |path| > 1 {
      var child := Subscript(j, path[0]).value;
      LookupAfterSetPath(child, path[1..], v);
    }
    assert Lookup(r.fields, path[0]).Some?;
  }

  /** Assigning the same nested path twice is assigning it once, with the last value. */
  lemma {:induction false} SetPathTwice(j: Json, path: seq<string>, v1: Json, v2: Json)
    requires |path| >= 1 && SetPath(j, path, v1).Ok?
    ensures SetPath(SetPath(j, path, v1).value, path, v2) == SetPath(j, path, v2)
    decreases |path|
  {
    var j1 := SetPath(j, path, v1).value;
    if |path| == 1 {
      SetKeyTwice(j, path[0], v1, v2);
    } else {
      var child := Subscript(j, path[0]).value;
      var c1 := SetPath(child, path[1..], v1).value;
      assert j1 == SetKey(j, path[0], c1);
      assert Subscript(j1, path[0]) == Ok(c1);
      SetPathTwice(child, path[1..], v1, v2);
      match SetPath(child, path[1..], v2)
      case Ok(c2) => SetKeyTwice(j, path[0], c1, c2);
      case Err(_) =>
    }
  }

  /** Python's `repr(v)` (strings in single quotes, without escaping). */
  function Repr(j: Json): string
    decreases j
  {
    match j
    case Null => "None"
    case Bool(b) => if b then "True" else "False"
    case Int(i) => IntText(i)
    case Str(s) => "'" + s + "'"
    case List(items) =>
      "[" + Join(seq(|items|, k requires 0 <= k < |items| => Repr(items[k])), ", ") + "]"
    case Obj(fields) =>
      "{" + Join(seq(|fields|, k requires 0 <= k < |fields| => FieldRepr(fields[k], j)), ", ") + "}"
  }

  function FieldRepr(f: Field, ghost parent: Json): string
    requires f < parent
    decreases parent, 0
  {
    "'" + f.key + "': " + Repr(f.value)
  }

  /** Python's `str(v)`: a string is shown bare, everything else as its repr. */
  function PyStr(j: Json): (r: string)
    ensures j.Str? ==> r == j.s
    ensures j == Null ==> r == "None"
  {
    if j.Str? then j.s else Repr(j)
  }
}
