/** Shared vocabulary: optional values, Python exceptions as values, the JSON
    values the controller exchanges with the dashboard and the payload files,
    and the few string operations of Python's standard library that the core
    relies on. */
module Common {

  datatype Option<+T> = None | Some(value: T)

  /** The outcome of a Python call that may raise instead of returning. */
  datatype Outcome<+T> = Ok(value: T) | Raises(error: string)

  /** `xs` followed by the list an outcome holds; an exception passes through. */
  function Prepend<T>(xs: seq<T>, o: Outcome<seq<T>>): Outcome<seq<T>>
  {
    match o
    case Ok(ys) => Ok(xs + ys)
    case Raises(e) => Raises(e)
  }

  /** The concatenation of two list outcomes; the first exception wins. */
  function Then<T>(first: Outcome<seq<T>>, second: Outcome<seq<T>>): Outcome<seq<T>>
  {
    match first
    case Ok(xs) => Prepend(xs, second)
    case Raises(e) => Raises(e)
  }

  lemma PrependNil<T>(o: Outcome<seq<T>>)
    ensures Prepend([], o) == o
  {
    match o
    case Ok(ys) => assert [] + ys == ys;
    case Raises(_) =>
  }

  lemma PrependPrepend<T>(xs: seq<T>, ys: seq<T>, o: Outcome<seq<T>>)
    ensures Prepend(xs, Prepend(ys, o)) == Prepend(xs + ys, o)
  {
    match o
    case Ok(zs) => assert xs + (ys + zs) == (xs + ys) + zs;
    case Raises(_) =>
  }

  /** `Then` is associative, and an empty success is its unit. */
  lemma ThenAssoc<T>(a: Outcome<seq<T>>, b: Outcome<seq<T>>, c: Outcome<seq<T>>)
    ensures Then(Then(a, b), c) == Then(a, Then(b, c))
  {
    match a
    case Raises(_) =>
    case Ok(xs) =>
      match b
      case Raises(_) =>
      case Ok(ys) => PrependPrepend(xs, ys, c);
  }

  lemma ThenNil<T>(o: Outcome<seq<T>>)
    ensures Then(Ok([]), o) == o
    ensures Then(o, Ok([])) == o
  {
    PrependNil(o);
    match o
    case Ok(xs) => assert xs + [] == xs;
    case Raises(_) =>
  }

  /** A decoded JSON value. `Null` is Python's None; objects keep their key
      order, which is the order in which Python iterates the dictionary. `Get`
      finds the first field with a key, while `json.loads` keeps the last of
      duplicate keys; the two agree on objects whose keys are distinct
      (`DistinctKeys`), as a decoded dictionary's are (`GetAgreesWithToMap`). */
  datatype Value =
    | Null
    | Bool(b: bool)
    | Num(n: int)
    | Str(s: string)
    | Arr(items: seq<Value>)
    | Obj(fields: seq<(string, Value)>)

  type Record = seq<(string, Value)>

  /** Python truthiness: None, False, 0, '', [] and {} are false. */
  predicate Truthy(v: Value)
  {
    match v
    case Null => false
    case Bool(b) => b
    case Num(n) => n != 0
    case Str(s) => s != ""
    case Arr(items) => items != []
    case Obj(fields) => fields != []
  }

  /** `d.get(key)` on a dictionary: the value stored under `key`, if any. */
  function Get(fields: Record, key: string): Option<Value>
  {
    if fields == [] then None
    else if fields[0].0 == key then Some(fields[0].1)
    else Get(fields[1..], key)
  }

  /** A key is found exactly when some field carries it, and what is found is
      stored under it. */
  lemma {:induction false} GetSpec(fields: Record, key: string)
    ensures Get(fields, key).Some? <==> exists i :: 0 <= i < |fields| && fields[i].0 == key
    ensures Get(fields, key).Some? ==> exists i :: 0 <= i < |fields| && fields[i] == (key, Get(fields, key).value)
    decreases |fields|
  {
    if fields != [] && fields[0].0 != key {
      GetSpec(fields[1..], key);
      var r := Get(fields[1..], key);
      if r.Some? {
        var i :| 0 <= i < |fields[1..]| && fields[1..][i] == (key, r.value);
        assert fields[i + 1] == (key, r.value);
      }
      if exists i :: 0 <= i < |fields| && fields[i].0 == key {
        var i :| 0 <= i < |fields| && fields[i].0 == key;
        assert fields[1..][i - 1].0 == key;
      }
    }
  }

  /** `d.get(key)` where an absent key and a stored None both read as None. */
  function GetOrNull(fields: Record, key: string): Value
  {
    match Get(fields, key)
    case Some(v) => v
    case None => Null
  }

  /** A dictionary built from decoded JSON object fields: a later duplicate key wins. */
  function ToMap(fields: Record): (m: map<string, Value>)
    ensures forall i :: 0 <= i < |fields| ==> fields[i].0 in m
    ensures forall k :: k in m ==> exists i :: 0 <= i < |fields| && fields[i].0 == k
  {
    if fields == [] then map[]
    else
      var front := fields[..|fields| - 1];
      var m := ToMap(front);
      var last := fields[|fields| - 1];
      assert forall i :: 0 <= i < |fields| - 1 ==> fields[i] == front[i];
      m[last.0 := last.1]
  }
  /** No key occurs twice among the fields. */
  predicate DistinctKeys(fields: Record)
  {
    forall i, j :: 0 <= i < j < |fields| ==> fields[i].0 != fields[j].0
  }

  /** The dictionary holds the value of the last field carrying a key. */
  lemma {:induction false} ToMapLast(fields: Record, i: nat)
    requires i < |fields|
    requires forall j :: i < j < |fields| ==> fields[j].0 != fields[i].0
    ensures fields[i].0 in ToMap(fields) && ToMap(fields)[fields[i].0] == fields[i].1
    decreases |fields|
  {
    if i < |fields| - 1 {
      var front := fields[..|fields| - 1];
      assert front[i] == fields[i];
      assert forall j :: i < j < |front| ==> front[j] == fields[j];
      ToMapLast(front, i);
    }
  }

  /** With distinct keys, looking a key up in the fields and in the
      dictionary built from them give the same answer. */
  lemma GetAgreesWithToMap(fields: Record, key: string)
    requires DistinctKeys(fields)
    ensures Get(fields, key).Some? <==> key in ToMap(fields)
    ensures Get(fields, key).Some? ==> ToMap(fields)[key] == Get(fields, key).value
  {
    GetSpec(fields, key);
    if Get(fields, key).Some? {
      var i :| 0 <= i < |fields| && fields[i] == (key, Get(fields, key).value);
      ToMapLast(fields, i);
    }
  }


  /** Python's `s.split(sep)` for a one-character separator. */
  function Split(s: string, sep: char): (r: seq<string>)
    ensures |r| >= 1
    ensures forall k :: 0 <= k < |r| ==> sep !in r[k]
    decreases |s|
  {
    if sep !in s then [s]
    else
      var i := IndexOf(s, sep);
      [s[..i]] + Split(s[i + 1..], sep)
  }

  /** `sep.join(parts)`. */
  function Join(parts: seq<string>, sep: char): string
  {
    if |parts| == 0 then ""
    else if |parts| == 1 then parts[0]
    else parts[0] + [sep] + Join(parts[1..], sep)
  }

  /** Index of the first occurrence of `c` in `s`. */
  function IndexOf(s: string, c: char): (i: nat)
    requires c in s
    ensures i < |s| && s[i] == c && c !in s[..i]
  {
    if s[0] == c then 0 else 1 + IndexOf(s[1..], c)
  }

  /** `sep.join(s.split(sep)) == s`: splitting loses nothing. */
  lemma {:induction false} SplitJoin(s: string, sep: char)
    ensures Join(Split(s, sep), sep) == s
    decreases |s|
  {
    if sep in s {
      var i := IndexOf(s, sep);
      var rest := s[i + 1..];
      SplitJoin(rest, sep);
      assert Split(s, sep) == [s[..i]] + Split(rest, sep);
      assert s == s[..i] + [sep] + rest;
    }
  }

  function DigitChar(d: nat): char
    requires d < 10
  {
    "0123456789"[d]
  }

  /** Decimal rendering of a natural number, as Python's `str`. */
  function NatToString(n: nat): (r: string)
    ensures |r| >= 1
    ensures forall k :: 0 <= k < |r| ==> '0' <= r[k] <= '9'
  {
    if n < 10 then [DigitChar(n)] else NatToString(n / 10) + [DigitChar(n % 10)]
  }

  /** Python's `str(i)` for an int. */
  function IntToString(i: int): string
  {
    if i < 0 then "-" + NatToString(-i) else NatToString(i)
  }

  /** `os.path.join(a, b)` on POSIX for two components. */
  function PathJoin(a: string, b: string): string
  {
    if |b| > 0 && b[0] == '/' then b
    else if a == "" || a[|a| - 1] == '/' then a + b
    else a + "/" + b
  }

  /** `os.path.isabs(p)` on POSIX. */
  predicate IsAbs(p: string)
  {
    |p| > 0 && p[0] == '/'
  }

  /** `s.startswith(t)`. */
  predicate StartsWith(s: string, t: string)
  {
    |t| <= |s| && s[..|t|] == t
  }

  /** Python's whitespace for `str.strip`: space, tab, newline, carriage
      return, vertical tab and form feed. */
  predicate IsSpace(c: char)
  {
    c == ' ' || c == '\t' || c == '\n' || c == '\r' || c as int == 11 || c as int == 12
  }

  function StripSpace(s: string): (t: string)
    ensures |t| <= |s|
    ensures t != [] ==> !IsSpace(t[0]) && !IsSpace(t[|t| - 1])
    decreases |s|
  {
    if s == [] then s
    else if IsSpace(s[0]) then StripSpace(s[1..])
    else if IsSpace(s[|s| - 1]) then StripSpace(s[..|s| - 1])
    else s
  }

  /** `s.rstrip()`: the whitespace at the end removed. */
  function RStrip(s: string): (t: string)
    ensures t <= s
    ensures t != [] ==> !IsSpace(t[|t| - 1])
    ensures forall k :: |t| <= k < |s| ==> IsSpace(s[k])
  {
    if s != [] && IsSpace(s[|s| - 1]) then RStrip(s[..|s| - 1]) else s
  }
}
