/**
 * The PHP values that the logger's configuration arrays hold.
 *
 * A PHP array is an ordered dictionary: assigning to an existing key keeps the
 * key's position, assigning to a new key appends it. It is modelled as a
 * sequence of entries whose keys are distinct in every array PHP can build;
 * `Lookup` finds the first entry with a key and `Put` is PHP's `$a[$k] = $v`.
 */
module PhpValues {
  import opened Results

  /** A PHP array key: an integer or a string. */
  datatype Key = IntKey(i: int) | StrKey(s: string)

  datatype Value =
    | Null
    | Bool(b: bool)
    | Int(i: int)
    | Str(s: string)
    | Arr(entries: seq<Entry>)
    | Obj(cls: string)  // an object, known by its class name

  datatype Entry = Entry(key: Key, val: Value)

  /** The keys of an array, in iteration order. */
  function KeysOf(a: seq<Entry>): (ks: seq<Key>)
    ensures |ks| == |a|
    ensures forall i :: 0 <= i < |a| ==> ks[i] == a[i].key
  {
    if a == [] then [] else [a[0].key] + KeysOf(a[1..])
  }

  /** Every array PHP builds has pairwise distinct keys. */
  predicate DistinctKeys(a: seq<Entry>) {
    forall i, j :: 0 <= i < j < |a| ==> a[i].key != a[j].key
  }

  /** `$a[$k]` when the key exists. */
  function Lookup(a: seq<Entry>, k: Key): Option<Value> {
    if a == [] then None
    else if a[0].key == k then Some(a[0].val)
    else Lookup(a[1..], k)
  }

  /** A key is found exactly when the array has it. */
  lemma {:induction false} LookupFinds(a: seq<Entry>, k: Key)
    ensures Lookup(a, k).Some? <==> k in KeysOf(a)
  {
    if a != [] {
      assert KeysOf(a) == [a[0].key] + KeysOf(a[1..]);
      LookupFinds(a[1..], k);
    }
  }

  /** In an array with distinct keys, each entry is the one its key finds. */
  lemma {:induction false} LookupAt(a: seq<Entry>, i: nat)
    requires DistinctKeys(a) && i < |a|
    ensures Lookup(a, a[i].key) == Some(a[i].val)
  {
    if i > 0 {
      LookupAt(a[1..], i - 1);
    }
  }

  /** `$a[$k] = $v`: replaces the value in place when the key exists, appends otherwise. */
  function Put(a: seq<Entry>, k: Key, v: Value): (r: seq<Entry>)
    ensures Lookup(r, k) == Some(v)
    ensures forall j :: j != k ==> Lookup(r, j) == Lookup(a, j)
  {
    if a == [] then [Entry(k, v)]
    else if a[0].key == k then [Entry(k, v)] + a[1..]
    else
      var r := [a[0]] + Put(a[1..], k, v);
      assert r[1..] == Put(a[1..], k, v);
      r
  }

  /** Assignment keeps the key order, and appends a key the array did not have. */
  lemma {:induction false} PutKeys(a: seq<Entry>, k: Key, v: Value)
    ensures KeysOf(Put(a, k, v)) == if k in KeysOf(a) then KeysOf(a) else KeysOf(a) + [k]
  {
    if a != [] {
      if a[0].key != k {
        PutKeys(a[1..], k, v);
        assert Put(a, k, v)[1..] == Put(a[1..], k, v);
      } else {
        assert Put(a, k, v)[1..] == a[1..];
      }
    }
  }

  /** Assignment never introduces a repeated key. */
  lemma PutKeepsKeysDistinct(a: seq<Entry>, k: Key, v: Value)
    requires DistinctKeys(a)
    ensures DistinctKeys(Put(a, k, v))
  {
    var r := Put(a, k, v);
    PutKeys(a, k, v);
    assert forall i :: 0 <= i < |r| ==> r[i].key == KeysOf(r)[i];
    assert forall i :: 0 <= i < |a| ==> a[i].key == KeysOf(a)[i];
  }

  /** `$a[$k]`, which is null (with a warning) when the key is absent. */
  function At(a: seq<Entry>, k: Key): Value {
    match Lookup(a, k)
    case Some(v) => v
    case None => Null
  }

  /** `$a['name']`. */
  function Get(a: seq<Entry>, name: string): Value {
    At(a, StrKey(name))
  }

  /** `isset($a[$name])`: the key exists and its value is not null. */
  predicate Isset(a: seq<Entry>, name: string) {
    Lookup(a, StrKey(name)).Some? && Lookup(a, StrKey(name)).value != Null
  }

  /** `isset($v[$name])` for any value: false unless `$v` is an array. */
  predicate IssetIn(v: Value, name: string) {
    v.Arr? && Isset(v.entries, name)
  }

  /** `$v[$name]` for a value that may not be an array (null otherwise). */
  function GetIn(v: Value, name: string): Value {
    if v.Arr? then Get(v.entries, name) else Null
  }

  /** The values that PHP's boolean conversion (and so `array_filter`) treats as false. */
  predicate Falsy(v: Value) {
    v == Null || v == Bool(false) || v == Int(0) || v == Str("") || v == Str("0") || v == Arr([])
  }

  function DigitChar(d: nat): char
    requires d < 10
  {
    "0123456789"[d]
  }

  function NatToString(n: nat): (s: string)
    ensures |s| > 0
    ensures forall c :: c in s ==> c in "0123456789"
  {
    if n < 10 then [DigitChar(n)] else NatToString(n / 10) + [DigitChar(n % 10)]
  }

  /** The decimal text PHP gives an integer. */
  function IntToString(i: int): string {
    if i < 0 then "-" + NatToString(-i) else NatToString(i)
  }

  /**
   * PHP's conversion of a value to a string in concatenation:
   * an array becomes "Array"; an object without __toString cannot be converted.
   */
  function ToPhpString(v: Value): (r: Option<string>)
    ensures r.None? <==> v.Obj?
  {
    match v
    case Null => Some("")
    case Bool(b) => Some(if b then "1" else "")
    case Int(i) => Some(IntToString(i))
    case Str(s) => Some(s)
    case Arr(_) => Some("Array")
    case Obj(_) => None
  }

  /**
   * Passing a value to a `string` parameter outside strict mode: scalars are
   * converted, null, arrays and objects raise a TypeError (None).
   */
  function CoerceString(v: Value): (r: Option<string>)
    ensures r.Some? <==> (v.Bool? || v.Int? || v.Str?)
    ensures r.Some? ==> Some(r.value) == ToPhpString(v)
  {
    match v
    case Bool(_) => ToPhpString(v)
    case Int(_) => ToPhpString(v)
    case Str(s) => Some(s)
    case _ => None
  }

  /** The position of the first occurrence of `c` in `s` (PHP's `strpos` for one character). */
  function IndexOf(s: string, c: char): (r: Option<nat>)
    ensures r.None? <==> c !in s
    ensures r.Some? ==> r.value < |s| && s[r.value] == c && c !in s[..r.value]
  {
    if s == [] then None
    else if s[0] == c then Some(0)
    else
      match IndexOf(s[1..], c)
      case None => None
      case Some(i) =>
        assert s[..i + 1] == [s[0]] + s[1..][..i];
        Some(i + 1)
  }

  /** A character met after a prefix that lacks it is found at the prefix's length. */
  lemma {:induction false} IndexOfAfter(a: string, b: string, c: char)
    requires c !in a && c in b
    ensures IndexOf(a + b, c) == Some(|a| + IndexOf(b, c).value)
  {
    if a == [] {
      assert a + b == b;
    } else {
      assert (a + b)[0] == a[0] != c;
      assert (a + b)[1..] == a[1..] + b;
      IndexOfAfter(a[1..], b, c);
    }
  }
}
