/** The slice of PHP's value semantics that the notification operation relies on:
    the values a decoded request array holds, `empty()`, the `(int)` cast, reading
    an offset, and ordered associative arrays built by `$a[$k] = $v`. */
module Php {

  datatype Option<+T> = None | Some(value: T)

  /** A PHP value as it can appear in a request array.  Floats and objects are not
      modelled; array keys are strings. */
  datatype Value =
    | Null
    | Bool(b: bool)
    | Int(i: int)
    | Str(s: string)
    | Arr(items: map<string, Value>)

  /** PHP's `empty()`: null, false, 0, "", "0" and the empty array are empty. */
  predicate Empty(v: Value)
    ensures Empty(v) <==> v in {Null, Bool(false), Int(0), Str(""), Str("0"), Arr(map[])}
  {
    match v
    case Null => true
    case Bool(b) => !b
    case Int(i) => i == 0
    case Str(s) => s == "" || s == "0"
    case Arr(items) => items == map[]
  }

  /** `$a[$k]` on an array: a key that is absent reads as null. */
  function Get(a: map<string, Value>, k: string): (v: Value)
    ensures k in a ==> v == a[k]
    ensures k !in a ==> v == Null && Empty(v)
  {
    if k in a then a[k] else Null
  }

  /** `$v[$k]` on any value: offsets of an array are looked up; on every other
      value the read yields null. */
  function Index(v: Value, k: string): (r: Value)
    ensures !v.Arr? ==> r == Null
    ensures v.Arr? ==> r == Get(v.items, k)
  {
    match v
    case Arr(items) => Get(items, k)
    case _ => Null
  }

  /** PHP's `(int)` cast.  How a string is converted is a parameter of the model. */
  function ToInt(v: Value, castString: string -> int): (n: int)
    ensures v.Int? ==> n == v.i
    ensures v == Null || v == Bool(false) || v == Arr(map[]) ==> n == 0
    ensures v == Bool(true) || (v.Arr? && v.items != map[]) ==> n == 1
    ensures v.Str? ==> n == castString(v.s)
  {
    match v
    case Null => 0
    case Bool(b) => if b then 1 else 0
    case Int(i) => i
    case Str(s) => castString(s)
    case Arr(items) => if items == map[] then 0 else 1
  }

  /** An ordered PHP array with string keys, as the sequence of its entries. */
  type Entries = seq<(string, Value)>

  function KeysOf(t: Entries): (ks: seq<string>)
    ensures |ks| == |t|
  {
    if t == [] then [] else [t[0].0] + KeysOf(t[1..])
  }

  lemma {:induction false} KeysOfAt(t: Entries, i: nat)
    requires i < |t|
    ensures KeysOf(t)[i] == t[i].0
  {
    if i > 0 {
      KeysOfAt(t[1..], i - 1);
    }
  }

  predicate DistinctKeys(t: Entries) {
    forall i, j :: 0 <= i < j < |t| ==> t[i].0 != t[j].0
  }

  /** `$t[$k]`: the value of the entry with key `k`, null when there is none. */
  function Lookup(t: Entries, k: string): (v: Value)
    ensures k !in KeysOf(t) ==> v == Null
  {
    if t == [] then Null
    else if t[0].0 == k then t[0].1
    else Lookup(t[1..], k)
  }

  /** `$t[$k] = $v`: overwrites the value of an existing key where it stands,
      and appends a new key at the end. */
  function Put(t: Entries, k: string, v: Value): (r: Entries)
    ensures Lookup(r, k) == v
    ensures forall k' :: k' != k ==> Lookup(r, k') == Lookup(t, k')
  {
    if t == [] then [(k, v)]
    else if t[0].0 == k then [(k, v)] + t[1..]
    else [t[0]] + Put(t[1..], k, v)
  }

  /** Assigning a key the array holds keeps every key where it stands. */
  lemma {:induction false} PutKeepsKeys(t: Entries, k: string, v: Value)
    requires k in KeysOf(t)
    ensures KeysOf(Put(t, k, v)) == KeysOf(t)
  {
    if t[0].0 != k {
      PutKeepsKeys(t[1..], k, v);
    }
  }

  /** Assigning a key the array does not hold yet appends one entry, so the new
      key comes last. */
  lemma {:induction false} PutAppends(t: Entries, k: string, v: Value)
    requires k !in KeysOf(t)
    ensures Put(t, k, v) == t + [(k, v)]
    ensures KeysOf(Put(t, k, v)) == KeysOf(t) + [k]
  {
    if t != [] {
      PutAppends(t[1..], k, v);
      assert t == [t[0]] + t[1..];
      assert (t + [(k, v)])[1..] == t[1..] + [(k, v)];
    }
  }

  /** In an array whose keys are distinct, each entry is what its key reads. */
  lemma {:induction false} LookupAt(t: Entries, i: nat)
    requires DistinctKeys(t)
    requires i < |t|
    ensures Lookup(t, t[i].0) == t[i].1
  {
    if i > 0 {
      assert t[0].0 != t[i].0;
      assert DistinctKeys(t[1..]) by {
        forall a, b | 0 <= a < b < |t[1..]| ensures t[1..][a].0 != t[1..][b].0 {
          assert t[1..][a] == t[a + 1] && t[1..][b] == t[b + 1];
        }
      }
      LookupAt(t[1..], i - 1);
    }
  }
}
