/** The values `json.loads` returns, and the Python dict operations the
    pipeline applies to them. A dict is a list of key-value pairs with
    distinct keys, in insertion order, as Python keeps it. */
module JsonModel {
  import opened Common

  /** A JSON value as Python holds it after `json.loads`; numbers keep their
      source text, since the pipeline never computes with them. */
  datatype Json =
    | JNull
    | JBool(b: bool)
    | JNumber(text: string)
    | JString(s: string)
    | JArray(items: seq<Json>)
    | JObject(fields: seq<(string, Json)>)

  type Object = seq<(string, Json)>

  /** The keys of a dict, in insertion order. */
  function Keys(o: Object): (ks: seq<string>)
    ensures |ks| == |o|
    ensures forall i :: 0 <= i < |o| ==> ks[i] == o[i].0
  {
    seq(|o|, i requires 0 <= i < |o| => o[i].0)
  }

  predicate DistinctKeys(o: Object)
  {
    forall i, j :: 0 <= i < j < |o| ==> o[i].0 != o[j].0
  }

  /** `k in d`. */
  predicate HasKey(o: Object, k: string)
  {
    exists i :: 0 <= i < |o| && o[i].0 == k
  }

  /** The position of key `k` in `o`. */
  function IndexOf(o: Object, k: string): (i: nat)
    requires HasKey(o, k)
    ensures i < |o| && o[i].0 == k
    ensures forall j :: 0 <= j < i ==> o[j].0 != k
    decreases |o|
  {
    if o[0].0 == k then 0 else 1 + IndexOf(o[1..], k)
  }

  /** `d.get(k)`: the value stored under `k`, if any. */
  function Lookup(o: Object, k: string): (r: Option<Json>)
    ensures r.Some? <==> HasKey(o, k)
  {
    if HasKey(o, k) then Some(o[IndexOf(o, k)].1) else None
  }

  /** `d[k] = v`: a key already present keeps its position and takes the new
      value; a new key goes at the end. */
  function Put(o: Object, k: string, v: Json): Object
  {
    if HasKey(o, k) then o[IndexOf(o, k) := (k, v)] else o + [(k, v)]
  }

  /** The first position holding key `k` is the one `IndexOf` finds. */
  lemma IndexOfFirst(o: Object, k: string, i: nat)
    requires i < |o| && o[i].0 == k
    requires forall j :: 0 <= j < i ==> o[j].0 != k
    ensures HasKey(o, k) && IndexOf(o, k) == i
  {
  }

  /** After `d[k] = v`, `d[k]` is `v`, every other key keeps its value, and
      the key order changes only by a new key going last. */
  lemma PutLookup(o: Object, k: string, v: Json)
    ensures Lookup(Put(o, k, v), k) == Some(v)
    ensures forall k' :: k' != k ==> Lookup(Put(o, k, v), k') == Lookup(o, k')
    ensures Keys(Put(o, k, v)) == if HasKey(o, k) then Keys(o) else Keys(o) + [k]
  {
    var r := Put(o, k, v);
    var n := if HasKey(o, k) then IndexOf(o, k) else |o|;
    assert r[n] == (k, v);
    IndexOfFirst(r, k, n);
    forall k' | k' != k
      ensures Lookup(r, k') == Lookup(o, k')
    {
      if HasKey(o, k') {
        var i := IndexOf(o, k');
        assert r[i] == o[i];
        IndexOfFirst(r, k', i);
      } else {
        assert !HasKey(r, k');
      }
    }
    if HasKey(o, k) {
      assert Keys(r) == Keys(o);
    } else {
      assert Keys(r) == Keys(o) + [k];
    }
  }

  /** `d[k] = v` keeps the keys of a dict distinct. */
  lemma PutDistinct(o: Object, k: string, v: Json)
    requires DistinctKeys(o)
    ensures DistinctKeys(Put(o, k, v))
  {
    PutLookup(o, k, v);
    assert forall i :: 0 <= i < |Put(o, k, v)| ==> Put(o, k, v)[i].0 == Keys(Put(o, k, v))[i];
  }
}
