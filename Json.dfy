/** JSON-shaped values as the Python code sees them after `json.loads`, and the Python
    operations the core applies to them (`in`, `.get`, `[]`, iteration, `.items()`,
    truthiness, `str()`), each with the exception Python raises when the value has the
    wrong shape. Objects keep their keys in insertion order, as Python dicts do. */
module Json {
  import opened Common
  import opened Text

  datatype Json =
    | JNull
    | JBool(b: bool)
    | JInt(i: int)
    | JStr(s: string)
    | JArr(items: seq<Json>)
    | JObj(fields: seq<(string, Json)>)

  type Fields = seq<(string, Json)>

  // ---------------------------------------------------------------- dictionaries

  function Keys(fields: Fields): (ks: seq<string>)
    ensures |ks| == |fields| && forall i :: 0 <= i < |fields| ==> ks[i] == fields[i].0
  {
    seq(|fields|, i requires 0 <= i < |fields| => fields[i].0)
  }

  /** No key occurs twice: every dict Python builds has this shape. */
  predicate UniqueKeys(fields: Fields) {
    forall i, j :: 0 <= i < j < |fields| ==> fields[i].0 != fields[j].0
  }

  /** `d.get(k)` on the dict `fields`, None when the key is absent. */
  function Lookup(fields: Fields, k: string): (r: Option<Json>)
    ensures r.Some? <==> k in Keys(fields)
    ensures r.Some? ==> (k, r.value) in fields
  {
    if fields == [] then None
    else if fields[0].0 == k then Some(fields[0].1)
    else
      assert Keys(fields) == [fields[0].0] + Keys(fields[1..]);
      Lookup(fields[1..], k)
  }

  /** `d[k] = v`: an existing key keeps its position and takes the new value; a new key
      goes last. */
  function Put(fields: Fields, k: string, v: Json): (r: Fields)
    ensures Keys(r) == if k in Keys(fields) then Keys(fields) else Keys(fields) + [k]
  {
    if fields == [] then [(k, v)]
    else
      KeysCons(fields[0], fields[1..]);
      assert [fields[0]] + fields[1..] == fields;
      if fields[0].0 == k then
        KeysCons((k, v), fields[1..]);
        [(k, v)] + fields[1..]
      else
        var tail := Put(fields[1..], k, v);
        KeysCons(fields[0], tail);
        assert (k in Keys(fields)) == (k in Keys(fields[1..]));
        [fields[0]] + tail
  }

  lemma KeysCons(p: (string, Json), fields: Fields)
    ensures Keys([p] + fields) == [p.0] + Keys(fields)
  {
  }

  /** Assigning a key the dict does not have yet appends it. */
  lemma {:induction false} PutNew(fields: Fields, k: string, v: Json)
    requires k !in Keys(fields)
    ensures Put(fields, k, v) == fields + [(k, v)]
  {
    if fields != [] {
      assert [fields[0]] + (fields[1..] + [(k, v)]) == fields + [(k, v)];
      assert [fields[0]] + fields[1..] == fields;
      KeysCons(fields[0], fields[1..]);
      PutNew(fields[1..], k, v);
    }
  }

  lemma KeysAppend(a: Fields, b: Fields)
    ensures Keys(a + b) == Keys(a) + Keys(b)
  {
    var l, r := Keys(a + b), Keys(a) + Keys(b);
    forall i | 0 <= i < |l| ensures l[i] == r[i] {
      if i < |a| {
        assert (a + b)[i] == a[i];
      } else {
        assert (a + b)[i] == b[i - |a|];
      }
    }
  }

  /** A key is looked up in the first part of a concatenation, then in the second. */
  lemma {:induction false} LookupAppend(a: Fields, b: Fields, k: string)
    ensures Lookup(a + b, k) == if k in Keys(a) then Lookup(a, k) else Lookup(b, k)
  {
    if a == [] {
      assert a + b == b;
    } else if a[0].0 == k {
      assert (a + b)[0] == a[0];
      assert Keys(a)[0] == k;
    } else {
      assert (a + b)[0] == a[0];
      assert (a + b)[1..] == a[1..] + b;
      assert Keys(a) == [a[0].0] + Keys(a[1..]);
      LookupAppend(a[1..], b, k);
    }
  }

  /** Joining two dicts with distinct keys and no key in common keeps keys distinct. */
  lemma UniqueAppend(a: Fields, b: Fields)
    requires UniqueKeys(a) && UniqueKeys(b)
    requires forall k :: k in Keys(a) ==> k !in Keys(b)
    ensures UniqueKeys(a + b)
  {
    var r := a + b;
    forall i, j | 0 <= i < j < |r| ensures r[i].0 != r[j].0 {
      if j >= |a| {
        assert r[j] == b[j - |a|] && Keys(b)[j - |a|] == b[j - |a|].0;
        if i < |a| {
          assert r[i] == a[i] && Keys(a)[i] == a[i].0;
          assert a[i].0 in Keys(a) && b[j - |a|].0 in Keys(b);
        } else {
          assert r[i] == b[i - |a|];
        }
      } else {
        assert r[i] == a[i] && r[j] == a[j];
      }
    }
  }

  /** In a dict with distinct keys, each key reads as the value stored beside it. */
  lemma {:induction false} LookupUnique(fields: Fields, i: nat)
    requires UniqueKeys(fields) && i < |fields|
    ensures Lookup(fields, fields[i].0) == Some(fields[i].1)
  {
    if i > 0 {
      assert fields[1..][i - 1] == fields[i];
      LookupUnique(fields[1..], i - 1);
    }
  }

  /** A key reads as the value beside its first occurrence. */
  lemma {:induction false} LookupFirst(fields: Fields, i: nat)
    requires i < |fields| && forall j :: 0 <= j < i ==> fields[j].0 != fields[i].0
    ensures Lookup(fields, fields[i].0) == Some(fields[i].1)
  {
    if i > 0 {
      assert fields[1..][i - 1] == fields[i];
      LookupFirst(fields[1..], i - 1);
    }
  }

  /** After `d[k] = v`, `d[k]` is `v` and every other key reads as before. */
  lemma {:induction false} LookupPut(fields: Fields, k: string, v: Json, k': string)
    ensures Lookup(Put(fields, k, v), k') == if k' == k then Some(v) else Lookup(fields, k')
  {
    if fields != [] && fields[0].0 != k {
      LookupPut(fields[1..], k, v, k');
      assert Put(fields, k, v)[1..] == Put(fields[1..], k, v);
    }
  }

  /** The keys after `d[k] = v` are the keys before, and `k`. */
  lemma PutKeysIn(fields: Fields, k: string, v: Json, k': string)
    ensures k' in Keys(Put(fields, k, v)) <==> k' in Keys(fields) || k' == k
  {
    if k !in Keys(fields) {
      assert Keys(Put(fields, k, v)) == Keys(fields) + [k];
    }
  }

  /** Appending a pair with a new key keeps the keys distinct. */
  lemma UniqueSnoc(fields: Fields, p: (string, Json))
    requires UniqueKeys(fields) && p.0 !in Keys(fields)
    ensures UniqueKeys(fields + [p])
  {
    var f := fields + [p];
    forall i, j | 0 <= i < j < |f| ensures f[i].0 != f[j].0 {
      if j == |fields| {
        assert Keys(fields)[i] == f[i].0;
      }
    }
  }

  /** Assignment keeps a dict's keys distinct. */
  lemma {:induction false} PutKeepsUnique(fields: Fields, k: string, v: Json)
    requires UniqueKeys(fields)
    ensures UniqueKeys(Put(fields, k, v))
  {
    var r := Put(fields, k, v);
    forall i, j | 0 <= i < j < |r| ensures r[i].0 != r[j].0 {
      assert Keys(r)[i] == r[i].0 && Keys(r)[j] == r[j].0;
      if j < |fields| {
        assert Keys(fields)[i] == fields[i].0 && Keys(fields)[j] == fields[j].0;
      } else {
        assert k !in Keys(fields);
      }
    }
  }

  // ---------------------------------------------------------------- Python semantics

  /** Python truthiness: None, False, 0, "", [] and {} are false. */
  predicate Truthy(j: Json) {
    match j
    case JNull => false
    case JBool(b) => b
    case JInt(i) => i != 0
    case JStr(s) => s != ""
    case JArr(items) => items != []
    case JObj(fields) => fields != []
  }

  /** `key in j` for a string key: dict keys, list elements, or a substring; a scalar
      raises TypeError. */
  function In(key: string, j: Json): (r: Result<bool>)
    ensures r.Err? <==> !(j.JObj? || j.JArr? || j.JStr?)
    ensures j.JObj? ==> r == Ok(key in Keys(j.fields))
    ensures j.JArr? ==> r == Ok(JStr(key) in j.items)
    ensures j.JStr? ==> r == Ok(IsSubstring(key, j.s))
  {
    match j
    case JObj(fields) => Ok(key in Keys(fields))
    case JArr(items) => Ok(JStr(key) in items)
    case JStr(s) => Ok(IsSubstring(key, s))
    case _ => Err(TypeError)
  }

  /** `j.get(key, default)`: only dicts have `.get`. */
  function Get(j: Json, key: string, default: Json): (r: Result<Json>)
    ensures r.Err? <==> !j.JObj?
    ensures j.JObj? ==> r == Ok(if key in Keys(j.fields) then Lookup(j.fields, key).value else default)
  {
    match j
    case JObj(fields) =>
      var v := Lookup(fields, key);
      Ok(if v.Some? then v.value else default)
    case _ => Err(AttributeError)
  }

  /** `j[key]` for a string key: a missing dict key raises KeyError, any other value
      TypeError. */
  function Index(j: Json, key: string): (r: Result<Json>)
    ensures r.Ok? <==> j.JObj? && key in Keys(j.fields)
    ensures r.Ok? ==> Lookup(j.fields, key) == Some(r.value)
  {
    match j
    case JObj(fields) =>
      var v := Lookup(fields, key);
      if v.Some? then Ok(v.value) else Err(KeyError)
    case _ => Err(TypeError)
  }

  /** `j[0]`: the first element of a list or the first character of a string; a dict
      has no key 0, since JSON keys are strings. */
  function First(j: Json): (r: Result<Json>)
    ensures r.Ok? <==> (j.JArr? && j.items != []) || (j.JStr? && j.s != "")
    ensures j.JArr? && j.items != [] ==> r == Ok(j.items[0])
  {
    match j
    case JArr(items) => if items == [] then Err(IndexError) else Ok(items[0])
    case JStr(s) => if s == "" then Err(IndexError) else Ok(JStr([s[0]]))
    case JObj(_) => Err(KeyError)
    case _ => Err(TypeError)
  }

  /** `j[:n]`: a prefix of a list or a string; other values cannot be sliced. */
  function Prefix(j: Json, n: nat): (r: Result<Json>)
    ensures r.Ok? <==> j.JArr? || j.JStr?
    ensures j.JStr? ==> r == Ok(JStr(if |j.s| <= n then j.s else j.s[..n]))
  {
    match j
    case JArr(items) => Ok(JArr(if |items| <= n then items else items[..n]))
    case JStr(s) => Ok(JStr(if |s| <= n then s else s[..n]))
    case _ => Err(TypeError)
  }

  /** `for x in j`: list elements, dict keys, or the characters of a string. */
  function Iter(j: Json): (r: Result<seq<Json>>)
    ensures r.Err? <==> !(j.JObj? || j.JArr? || j.JStr?)
    ensures j.JArr? ==> r == Ok(j.items)
  {
    match j
    case JArr(items) => Ok(items)
    case JObj(fields) => Ok(seq(|fields|, i requires 0 <= i < |fields| => JStr(fields[i].0)))
    case JStr(s) => Ok(seq(|s|, i requires 0 <= i < |s| => JStr([s[i]])))
    case _ => Err(TypeError)
  }

  /** `j.items()`: only dicts have it. */
  function Items(j: Json): (r: Result<Fields>)
    ensures r.Ok? <==> j.JObj?
    ensures r.Ok? ==> r.value == j.fields
  {
    match j
    case JObj(fields) => Ok(fields)
    case _ => Err(AttributeError)
  }

  /** `len(j)`. */
  function Len(j: Json): (r: Result<nat>)
    ensures r.Ok? <==> (j.JObj? || j.JArr? || j.JStr?)
    ensures r.Ok? ==> (r.value == 0 <==> !Truthy(j))
  {
    match j
    case JObj(fields) => Ok(|fields|)
    case JArr(items) => Ok(|items|)
    case JStr(s) => Ok(|s|)
    case _ => Err(TypeError)
  }

  /** `str(j)`, which is also what an f-string inserts. A string is itself; containers
      use Repr. */
  function PyStr(j: Json): string {
    match j
    case JStr(s) => s
    case _ => Repr(j)
  }

  /** Python's `repr` of a JSON value, with strings always in single quotes and no
      escaping (see README, Left out). */
  function Repr(j: Json): string {
    match j
    case JNull => "None"
    case JBool(b) => if b then "True" else "False"
    case JInt(i) => IntToString(i)
    case JStr(s) => "'" + s + "'"
    case JArr(items) =>
      "[" + Join(", ", seq(|items|, k requires 0 <= k < |items| => Repr(items[k]))) + "]"
    case JObj(fields) =>
      "{" + Join(", ", seq(|fields|, k requires 0 <= k < |fields| =>
                         "'" + fields[k].0 + "': " + Repr(fields[k].1))) + "}"
  }
}
