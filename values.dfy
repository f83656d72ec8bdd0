/**
 * Python values as the validation engine sees them. Only the distinctions the
 * engine makes are kept: `None`, scalars, the sequence-like containers
 * (list, tuple, set, frozenset, generator) and dicts. Every collection is
 * held in its iteration order; for a set that order is the one the model
 * fixes (first occurrence), and only its membership is meaningful.
 */
module Values {

  import opened Wrappers

  newtype byte = x: int | 0 <= x < 256

  datatype CollKind = ListKind | TupleKind | SetKind | FrozenSetKind | GeneratorKind

  datatype Value =
    | NoneV
    | Bool(b: bool)
    | Int(i: int)
    | Str(s: string)
    | Bytes(bs: seq<byte>)
    | Obj(id: nat)                         // any other object, opaque to the engine
    | Coll(kind: CollKind, items: seq<Value>)
    | Dict(entries: seq<Entry>)

  datatype Entry = Entry(key: Value, val: Value)

  /** `sequence_like`: list, tuple, set, frozenset or generator (not str, bytes or dict). */
  predicate SequenceLike(v: Value) {
    v.Coll?
  }

  /** The elements of a collection, without repetitions, first occurrence kept. */
  function Dedup(s: seq<Value>): (r: seq<Value>)
    ensures forall x :: x in r <==> x in s
    ensures |r| <= |s|
    ensures Distinct(r)
  {
    if s == [] then []
    else
      var r := Dedup(s[..|s| - 1]);
      assert forall x :: x in s <==> x in s[..|s| - 1] || x == s[|s| - 1];
      if s[|s| - 1] in r then r else r + [s[|s| - 1]]
  }

  predicate Distinct(s: seq<Value>) {
    forall i, j :: 0 <= i < j < |s| ==> s[i] != s[j]
  }

  predicate HasKey(entries: seq<Entry>, k: Value) {
    exists i :: 0 <= i < |entries| && entries[i].key == k
  }

  /** The keys of a dict in insertion order. */
  function Keys(entries: seq<Entry>): (r: seq<Value>)
    ensures |r| == |entries|
    ensures forall i :: 0 <= i < |entries| ==> r[i] == entries[i].key
  {
    if entries == [] then [] else [entries[0].key] + Keys(entries[1..])
  }

  /** `d[k]` when `k in d`. */
  function Get(entries: seq<Entry>, k: Value): Option<Value> {
    if entries == [] then None
    else if entries[0].key == k then Some(entries[0].val)
    else Get(entries[1..], k)
  }

  /**
   * `d[k] = v` on a Python dict: an existing key keeps its position and
   * takes the new value; a new key is appended.
   */
  function Put(entries: seq<Entry>, k: Value, v: Value): (r: seq<Entry>)
    ensures Get(r, k) == Some(v)
    ensures forall k' :: k' != k ==> Get(r, k') == Get(entries, k')
  {
    if entries == [] then [Entry(k, v)]
    else if entries[0].key == k then [Entry(k, v)] + entries[1..]
    else [entries[0]] + Put(entries[1..], k, v)
  }

  /** Putting a key never loses one and adds only that key. */
  lemma {:induction false} PutKeys(entries: seq<Entry>, k: Value, v: Value)
    ensures forall x :: x in Keys(Put(entries, k, v)) <==> x in Keys(entries) || x == k
  {
    if entries != [] && entries[0].key != k {
      PutKeys(entries[1..], k, v);
      assert Keys(Put(entries, k, v)) == [entries[0].key] + Keys(Put(entries[1..], k, v));
      assert Keys(entries) == [entries[0].key] + Keys(entries[1..]);
    } else if entries != [] {
      assert Keys(Put(entries, k, v)) == [k] + Keys(entries[1..]);
      assert Keys(entries) == [entries[0].key] + Keys(entries[1..]);
    }
  }
}
