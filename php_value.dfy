/**
 * PHP values as the configuration pipeline handles them: scalars and
 * ordered string-keyed arrays, with PHP's truthiness, loose equality,
 * string conversion and nested array reads and writes.
 */
module PhpValue {
  import opened Wrappers

  /** A PHP value. Floats and objects do not occur in this pipeline. */
  datatype Value =
    | Null
    | Bool(b: bool)
    | Int(i: int)
    | Str(s: string)
    | Arr(entries: seq<(string, Value)>)

  /** A property bag such as `$this->projectProperties`. */
  type Props = map<string, Value>

  /** PHP's truthiness of a string: everything but "" and "0". */
  predicate StrTruthy(s: string) {
    s != "" && s != "0"
  }

  /** PHP's conversion to bool. */
  predicate Truthy(v: Value) {
    match v
    case Null => false
    case Bool(b) => b
    case Int(i) => i != 0
    case Str(s) => StrTruthy(s)
    case Arr(e) => e != []
  }

  function DigitChar(d: nat): char
    requires d < 10
  {
    "0123456789"[d]
  }

  /** Decimal digits of a natural number, without leading zeros. */
  function NatString(n: nat): (r: string)
    ensures |r| >= 1
    ensures forall k :: 0 <= k < |r| ==> '0' <= r[k] <= '9'
    ensures r[0] == '0' ==> n == 0
    decreases n
  {
    if n < 10 then [DigitChar(n)] else NatString(n / 10) + [DigitChar(n % 10)]
  }

  /** PHP's conversion of an integer to a string. */
  function DecimalString(i: int): string {
    if i < 0 then "-" + NatString(-i) else NatString(i)
  }

  /** PHP's conversion to string, as `.` concatenation performs it. */
  function ToPhpString(v: Value): string {
    match v
    case Null => ""
    case Bool(b) => if b then "1" else ""
    case Int(i) => DecimalString(i)
    case Str(s) => s
    case Arr(_) => "Array"
  }

  /**
   * PHP 8's loose comparison `==`. Two strings are compared as strings and
   * an integer against a string through its decimal form; the numeric-string
   * rules ("1.0" == "1") are not modelled.
   */
  predicate LooseEquals(a: Value, b: Value) {
    match (a, b)
    case (Null, Null) => true
    case (Bool(x), _) => x == Truthy(b)
    case (_, Bool(y)) => Truthy(a) == y
    case (Null, Str(t)) => t == ""
    case (Str(s), Null) => s == ""
    case (Null, _) => !Truthy(b)
    case (_, Null) => !Truthy(a)
    case (Int(i), Int(j)) => i == j
    case (Str(s), Str(t)) => s == t
    case (Int(i), Str(t)) => DecimalString(i) == t
    case (Str(s), Int(j)) => s == DecimalString(j)
    case (Arr(x), Arr(y)) => x == y
    case _ => false
  }

  /** `$props[$key]` as PHP reads it: a missing key reads as null. */
  function Prop(props: Props, key: string): Value {
    if key in props then props[key] else Null
  }

  /** `isset($props[$key])`: present and not null. */
  predicate IsSet(props: Props, key: string) {
    key in props && props[key] != Null
  }

  /** `empty($props[$key])`: missing or falsy. */
  predicate IsEmpty(props: Props, key: string) {
    !(key in props && Truthy(props[key]))
  }

  /** The value stored under `key` in an ordered array (its first entry with that key). */
  function Find(entries: seq<(string, Value)>, key: string): Option<Value> {
    if entries == [] then None
    else if entries[0].0 == key then Some(entries[0].1)
    else Find(entries[1..], key)
  }

  /**
   * `$array[$key] = $x`: an existing entry is replaced where it stands, a new
   * key is appended at the end.
   */
  function Put(entries: seq<(string, Value)>, key: string, x: Value): (r: seq<(string, Value)>)
    ensures Find(r, key) == Some(x)
    ensures forall other :: other != key ==> Find(r, other) == Find(entries, other)
    ensures |r| == if Find(entries, key).Some? then |entries| else |entries| + 1
  {
    if entries == [] then [(key, x)]
    else if entries[0].0 == key then [(key, x)] + entries[1..]
    else [entries[0]] + Put(entries[1..], key, x)
  }

  /** `$v[$p0][$p1]...`, or None when some key on the path is missing or meets a non-array. */
  function Get(v: Value, path: seq<string>): Option<Value>
    decreases |path|
  {
    if path == [] then Some(v)
    else if !v.Arr? then None
    else match Find(v.entries, path[0])
      case None => None
      case Some(child) => Get(child, path[1..])
  }

  /** Reading along `p + t` reads `t` inside the node at `p`. */
  lemma {:induction false} GetSplit(v: Value, p: seq<string>, t: seq<string>)
    requires Get(v, p).Some?
    ensures Get(v, p + t) == Get(Get(v, p).value, t)
    decreases |p|
  {
    if p == [] {
      assert p + t == t;
    } else {
      assert (p + t)[0] == p[0] && (p + t)[1..] == p[1..] + t;
      GetSplit(Find(v.entries, p[0]).value, p[1..], t);
    }
  }

  /** `$v[$p0][$p1]...` as a PHP read: null where the path leads nowhere. */
  function At(v: Value, path: seq<string>): Value {
    Get(v, path).GetOr(Null)
  }

  /**
   * `$v[$p0][$p1]... = $x`. Missing and null nodes on the path become arrays,
   * as PHP's autovivification makes them.
   */
  function Set(v: Value, path: seq<string>, x: Value): (r: Value)
    ensures Get(r, path) == Some(x)
    decreases |path|
  {
    if path == [] then x
    else
      var entries := if v.Arr? then v.entries else [];
      var child := Find(entries, path[0]).GetOr(Null);
      Arr(Put(entries, path[0], Set(child, path[1..], x)))
  }

  predicate IsPrefix(p: seq<string>, q: seq<string>) {
    |p| <= |q| && q[..|p|] == p
  }

  /** Two paths that name separate places: neither lies inside the other. */
  predicate Disjoint(p: seq<string>, q: seq<string>) {
    !IsPrefix(p, q) && !IsPrefix(q, p)
  }

  /** Paths that differ at some position are disjoint. */
  lemma DisjointAt(p: seq<string>, q: seq<string>, i: nat)
    requires i < |p| && i < |q| && p[i] != q[i]
    ensures Disjoint(p, q)
  {
  }

  /** A PHP read along `p + t` is a read of `t` in what a read of `p` gives. */
  lemma AtSplit(v: Value, p: seq<string>, t: seq<string>)
    requires t != []
    ensures At(v, p + t) == At(At(v, p), t)
  {
    if Get(v, p).Some? {
      GetSplit(v, p, t);
    } else {
      GetMissing(v, p, t);
    }
  }

  /** Nothing lies below a path that leads nowhere. */
  lemma {:induction false} GetMissing(v: Value, p: seq<string>, t: seq<string>)
    requires Get(v, p) == None
    ensures Get(v, p + t) == None
    decreases |p|
  {
    assert p != [];
    assert (p + t)[0] == p[0] && (p + t)[1..] == p[1..] + t;
    if v.Arr? && Find(v.entries, p[0]).Some? {
      GetMissing(Find(v.entries, p[0]).value, p[1..], t);
    }
  }

  /** A path clear of a node is clear of everything below it. */
  lemma DisjointBelow(p: seq<string>, t: seq<string>, q: seq<string>)
    requires Disjoint(p, q)
    ensures Disjoint(p + t, q)
  {
  }

  /** Writing at one path leaves every separate path as it was. */
  lemma {:induction false} GetSetDisjoint(v: Value, p: seq<string>, x: Value, q: seq<string>)
    requires Disjoint(p, q)
    ensures Get(Set(v, p, x), q) == Get(v, q)
    decreases |p|
  {
    assert p != [] && q != [];
    var entries := if v.Arr? then v.entries else [];
    var child := Find(entries, p[0]).GetOr(Null);
    if p[0] == q[0] {
      GetSetDisjoint(child, p[1..], x, q[1..]);
      if !(v.Arr? && Find(v.entries, p[0]).Some?) {
        assert q[1..] != [];
      }
    }
  }

  /** Writing below an existing node changes that node by the same write. */
  lemma {:induction false} GetSetBelow(v: Value, p: seq<string>, t: seq<string>, x: Value)
    requires Get(v, p).Some?
    ensures Get(Set(v, p + t, x), p) == Some(Set(Get(v, p).value, t, x))
    decreases |p|
  {
    if p != [] {
      assert (p + t)[0] == p[0] && (p + t)[1..] == p[1..] + t;
      var child := Find(v.entries, p[0]).value;
      GetSetBelow(child, p[1..], t, x);
      var r := Set(v, p + t, x);
      assert r == Arr(Put(v.entries, p[0], Set(child, p[1..] + t, x)));
      assert Find(r.entries, p[0]) == Some(Set(child, p[1..] + t, x));
    } else {
      assert p + t == t;
    }
  }
}
