/** JSON values as Python's json module decodes them, and the handful of Python
    operations on them that the connector uses: `in`, subscripting, iteration,
    item assignment, `dict.update`, `dict.pop` and `str.join`.  Objects are
    ordered association lists, because Python dictionaries keep insertion order
    and the connector emits records in the order `.items()` yields them. */
module JsonValues {

  datatype Option<T> = None | Some(value: T)

  /** The Python exceptions the connector's code can raise on malformed input. */
  datatype Error = KeyError | TypeError | AttributeError

  datatype Result<T> = Ok(value: T) | Err(error: Error)

  /** A decoded JSON value; `Null` is Python's None. */
  datatype Json =
    | Null
    | Bool(b: bool)
    | Int(i: int)
    | Str(s: string)
    | Arr(items: seq<Json>)
    | Obj(fields: seq<(string, Json)>)

  /** A Python dict with string keys, in insertion order. */
  type Dict = seq<(string, Json)>

  // ---------------------------------------------------------------------------
  // Dictionaries

  function Keys(d: Dict): (r: seq<string>)
    ensures |r| == |d|
    ensures forall i :: 0 <= i < |d| ==> r[i] == d[i].0
  {
    if d == [] then [] else [d[0].0] + Keys(d[1..])
  }

  /** `d.get(k)`: the value of the first entry with key `k`. */
  function Get(d: Dict, k: string): (r: Option<Json>)
  {
    if d == [] then None else if d[0].0 == k then Some(d[0].1) else Get(d[1..], k)
  }

  /** `k in d` */
  predicate Has(d: Dict, k: string)
  {
    Get(d, k).Some?
  }

  /** No key occurs twice, as in every dict Python builds. */
  predicate DistinctKeys(d: Dict)
  {
    forall i, j :: 0 <= i < j < |d| ==> d[i].0 != d[j].0
  }

  /** `d[k] = v`: an existing key keeps its position, a new key goes last. */
  function Set(d: Dict, k: string, v: Json): (r: Dict)
    ensures Get(r, k) == Some(v)
    ensures forall j :: j != k ==> Get(r, j) == Get(d, j)
  {
    if d == [] then [(k, v)]
    else if d[0].0 == k then [(k, v)] + d[1..]
    else [d[0]] + Set(d[1..], k, v)
  }

  /** Assignment keeps the key order, appending a new key. */
  lemma {:induction false} SetKeys(d: Dict, k: string, v: Json)
    ensures Keys(Set(d, k, v)) == if Has(d, k) then Keys(d) else Keys(d) + [k]
    decreases |d|
  {
    if d != [] && d[0].0 != k {
      SetKeys(d[1..], k, v);
      assert Keys(Set(d, k, v)) == [d[0].0] + Keys(Set(d[1..], k, v));
      assert Keys(d) == [d[0].0] + Keys(d[1..]);
    }
  }

  /** `d.update(e)`: the entries of `e` are assigned one after another. */
  function Update(d: Dict, e: Dict): (r: Dict)
    ensures DistinctKeys(e) ==> forall k :: Get(r, k) == if Has(e, k) then Get(e, k) else Get(d, k)
    decreases |e|
  {
    if e == [] then d
    else
      FirstKeyNotRepeated(e);
      Update(Set(d, e[0].0, e[0].1), e[1..])
  }

  lemma FirstKeyNotRepeated(e: Dict)
    ensures e != [] && DistinctKeys(e) ==> !Has(e[1..], e[0].0)
  {
    if e != [] && DistinctKeys(e) {
      AbsentKey(e[1..], e[0].0);
    }
  }

  /** In a dict without repeated keys every entry is what its key looks up,
      and no other key is present. */
  lemma {:induction false} DistinctGet(d: Dict)
    requires DistinctKeys(d)
    ensures forall i :: 0 <= i < |d| ==> Get(d, d[i].0) == Some(d[i].1)
    ensures forall k :: Has(d, k) ==> exists i :: 0 <= i < |d| && d[i].0 == k
    decreases |d|
  {
    if d != [] {
      DistinctGet(d[1..]);
      forall i | 1 <= i < |d|
        ensures Get(d, d[i].0) == Some(d[i].1)
      {
        assert d[i] == d[1..][i - 1];
      }
      forall k | Has(d, k)
        ensures exists i :: 0 <= i < |d| && d[i].0 == k
      {
        if d[0].0 != k {
          assert Has(d[1..], k);
          var j :| 0 <= j < |d| - 1 && d[1..][j].0 == k;
          assert d[j + 1].0 == k;
        }
      }
    }
  }

  /** A key that no entry has is absent. */
  lemma {:induction false} AbsentKey(d: Dict, k: string)
    requires forall i :: 0 <= i < |d| ==> d[i].0 != k
    ensures !Has(d, k)
    decreases |d|
  {
    if d != [] {
      AbsentKey(d[1..], k);
    }
  }

  /** A key not among a dict's keys is absent. */
  lemma NotInKeys(d: Dict, k: string)
    requires k !in Keys(d)
    ensures !Has(d, k)
  {
    AbsentKey(d, k);
  }

  /** `d.pop(k)` on a dict that has the key. */
  function Remove(d: Dict, k: string): (r: Dict)
    ensures !Has(r, k)
    ensures forall j :: j != k ==> Get(r, j) == Get(d, j)
  {
    if d == [] then []
    else if d[0].0 == k then Remove(d[1..], k)
    else [d[0]] + Remove(d[1..], k)
  }

  // ---------------------------------------------------------------------------
  // Python operators on arbitrary JSON values

  /** `p` occurs in `s` as a contiguous block. */
  predicate IsSubstring(p: string, s: string)
    decreases |s|
  {
    p <= s || (s != [] && IsSubstring(p, s[1..]))
  }

  /** `key in j`: a key test on a dict, an element test on a list, a substring
      test on a string; a TypeError on numbers, booleans and None. */
  function Contains(j: Json, key: string): (r: Result<bool>)
    ensures j.Obj? ==> r == Ok(Has(j.fields, key))
    ensures r.Err? <==> j.Null? || j.Bool? || j.Int?
  {
    match j
    case Obj(f) => Ok(Has(f, key))
    case Arr(items) => Ok(Str(key) in items)
    case Str(s) => Ok(IsSubstring(key, s))
    case _ => Err(TypeError)
  }

  /** `j[key]` with a string subscript. */
  function Index(j: Json, key: string): (r: Result<Json>)
    ensures r.Ok? <==> j.Obj? && Has(j.fields, key)
    ensures r.Ok? ==> Some(r.value) == Get(j.fields, key)
    ensures j.Obj? && !Has(j.fields, key) ==> r == Err(KeyError)
    ensures !j.Obj? ==> r == Err(TypeError)
  {
    match j
    case Obj(f) => (match Get(f, key) case Some(v) => Ok(v) case None => Err(KeyError))
    case _ => Err(TypeError)
  }

  function CharsOf(s: string): (r: seq<Json>)
    ensures |r| == |s|
    ensures forall i :: 0 <= i < |s| ==> r[i] == Str([s[i]])
  {
    if s == [] then [] else [Str([s[0]])] + CharsOf(s[1..])
  }

  function KeysOf(d: Dict): (r: seq<Json>)
    ensures |r| == |d|
    ensures forall i :: 0 <= i < |d| ==> r[i] == Str(d[i].0)
  {
    if d == [] then [] else [Str(d[0].0)] + KeysOf(d[1..])
  }

  /** The elements a Python `for` loop visits: a list's items, a dict's keys,
      a string's characters; a TypeError on numbers, booleans and None. */
  function Iter(j: Json): (r: Result<seq<Json>>)
    ensures j.Arr? ==> r == Ok(j.items)
    ensures r.Err? <==> j.Null? || j.Bool? || j.Int?
  {
    match j
    case Arr(items) => Ok(items)
    case Obj(f) => Ok(KeysOf(f))
    case Str(s) => Ok(CharsOf(s))
    case _ => Err(TypeError)
  }

  /** Python truthiness. */
  predicate Truthy(j: Json)
  {
    match j
    case Null => false
    case Bool(b) => b
    case Int(i) => i != 0
    case Str(s) => s != ""
    case Arr(items) => items != []
    case Obj(f) => f != []
  }

  /** `j[key] = v` with a string key: only a dict supports it. */
  function SetItem(j: Json, key: string, v: Json): (r: Result<Dict>)
    ensures r.Ok? <==> j.Obj?
    ensures r.Ok? ==> Get(r.value, key) == Some(v)
    ensures r.Ok? ==> forall k :: k != key ==> Get(r.value, k) == Get(j.fields, k)
    ensures r.Err? ==> r.error == TypeError
  {
    match j
    case Obj(f) => Ok(Set(f, key, v))
    case _ => Err(TypeError)
  }

  /** `j.update(e)`: only a dict has the method. */
  function UpdateItem(j: Json, e: Dict): (r: Result<Dict>)
    ensures r.Ok? <==> j.Obj?
    ensures r.Ok? && DistinctKeys(e) ==>
      forall k :: Get(r.value, k) == if Has(e, k) then Get(e, k) else Get(j.fields, k)
    ensures r.Err? ==> r.error == AttributeError
  {
    match j
    case Obj(f) => Ok(Update(f, e))
    case _ => Err(AttributeError)
  }

  /** The values of `keys` in `j`, looked up one after another as a dict
      display `{k: j[k], ...}` evaluates them; the first failing lookup raises. */
  function Lookup(j: Json, keys: seq<string>): (r: Result<seq<Json>>)
    ensures r.Ok? ==> |r.value| == |keys|
    ensures r.Ok? && keys != [] ==> j.Obj?
    ensures r.Ok? ==> forall i :: 0 <= i < |keys| ==> Get(j.fields, keys[i]) == Some(r.value[i])
    ensures j.Obj? && (forall i :: 0 <= i < |keys| ==> Has(j.fields, keys[i])) ==> r.Ok?
  {
    if keys == [] then Ok([])
    else match Index(j, keys[0])
      case Err(e) => Err(e)
      case Ok(v) =>
        match Lookup(j, keys[1..])
        case Err(e) => Err(e)
        case Ok(vs) => Ok([v] + vs)
  }

  // ---------------------------------------------------------------------------
  // str.join and its inverse

  /** `sep.join(parts)` for a one-character separator. */
  function Join(parts: seq<string>, sep: char): string
  {
    if parts == [] then ""
    else if |parts| == 1 then parts[0]
    else parts[0] + [sep] + Join(parts[1..], sep)
  }

  /** `s.split(sep)`: the partner of Join. */
  function Split(s: string, sep: char): (r: seq<string>)
    ensures |r| > 0
    decreases |s|
  {
    if s == [] then [""]
    else if s[0] == sep then [""] + Split(s[1..], sep)
    else
      var rest := Split(s[1..], sep);
      [[s[0]] + rest[0]] + rest[1..]
  }

  /** Joining the pieces of a split gives back the string. */
  lemma {:induction false} JoinSplit(s: string, sep: char)
    ensures Join(Split(s, sep), sep) == s
    decreases |s|
  {
    if s == [] {
    } else if s[0] == sep {
      JoinSplit(s[1..], sep);
      var rest := Split(s[1..], sep);
      assert Split(s, sep) == [""] + rest;
      assert ([""] + rest)[1..] == rest;
    } else {
      JoinSplit(s[1..], sep);
      var rest := Split(s[1..], sep);
      var r := Split(s, sep);
      assert r == [[s[0]] + rest[0]] + rest[1..];
      if |rest| == 1 {
        assert r == [[s[0]] + rest[0]];
        assert Join(rest, sep) == rest[0];
      } else {
        assert r[1..] == rest[1..];
        assert Join(rest, sep) == rest[0] + [sep] + Join(rest[1..], sep);
        assert Join(r, sep) == [s[0]] + rest[0] + [sep] + Join(rest[1..], sep);
      }
    }
  }

  /** Splitting a string with no separator in it gives the string itself,
      and a separator-free prefix attaches to the first piece. */
  lemma {:induction false} SplitPrefix(p: string, t: string, sep: char)
    requires sep !in p
    ensures Split(p + t, sep) == [p + Split(t, sep)[0]] + Split(t, sep)[1..]
    decreases |p|
  {
    if p != [] {
      SplitPrefix(p[1..], t, sep);
      assert (p + t)[0] == p[0];
      assert (p + t)[1..] == p[1..] + t;
      assert [p[0]] + (p[1..] + Split(t, sep)[0]) == p + Split(t, sep)[0];
    } else {
      var r := Split(t, sep);
      assert p + t == t && p + r[0] == r[0];
      assert r == [r[0]] + r[1..];
    }
  }

  /** Splitting a join gives back the parts, when no part holds the separator. */
  lemma {:induction false} SplitJoin(parts: seq<string>, sep: char)
    requires |parts| > 0
    requires forall i :: 0 <= i < |parts| ==> sep !in parts[i]
    ensures Split(Join(parts, sep), sep) == parts
    decreases |parts|
  {
    if |parts| == 1 {
      SplitPrefix(parts[0], "", sep);
      assert parts[0] + "" == parts[0];
    } else {
      SplitJoin(parts[1..], sep);
      var t := [sep] + Join(parts[1..], sep);
      assert Join(parts, sep) == parts[0] + t;
      SplitPrefix(parts[0], t, sep);
      assert t[0] == sep && t[1..] == Join(parts[1..], sep);
      assert Split(t, sep) == [""] + parts[1..];
      assert parts[0] + "" == parts[0];
      assert parts == [parts[0]] + parts[1..];
    }
  }
}
