/** Plain JavaScript objects with string values (headers, update payloads),
    as their own keys in insertion order. Models property lookup,
    assignment `obj[k] = v` and the spread `{...a, ...b}`. */
module Records {
  import opened Wrappers

  /** An object's own properties, in insertion order. */
  type Fields = seq<(string, string)>

  /** The object's keys, in order. */
  function Keys(f: Fields): (r: seq<string>)
    ensures |r| == |f|
    ensures forall i :: 0 <= i < |f| ==> r[i] == f[i].0
  {
    if f == [] then [] else [f[0].0] + Keys(f[1..])
  }

  /** No key occurs twice, as in any object literal. */
  predicate UniqueKeys(f: Fields) {
    forall i, j :: 0 <= i < j < |f| ==> f[i].0 != f[j].0
  }

  /** `obj[k]`: the value stored under `k`, if any. */
  function Lookup(f: Fields, k: string): (r: Option<string>)
    ensures r.Some? <==> k in Keys(f)
    ensures r.Some? ==> (k, r.value) in f
  {
    if f == [] then None
    else if f[0].0 == k then Some(f[0].1)
    else Lookup(f[1..], k)
  }

  /** `obj[k] = v`: overwrites `k` where it already is, otherwise adds it at the end. */
  function Assign(f: Fields, k: string, v: string): (r: Fields)
    ensures Keys(r) == if k in Keys(f) then Keys(f) else Keys(f) + [k]
  {
    if f == [] then [(k, v)]
    else if f[0].0 == k then [(k, v)] + f[1..]
    else
      var t := Assign(f[1..], k, v);
      assert Keys(f) == [f[0].0] + Keys(f[1..]);
      assert Keys([f[0]] + t) == [f[0].0] + Keys(t);
      [f[0]] + t
  }

  /** After `obj[k] = v`, `obj[k]` is `v` and every other key reads as before. */
  lemma {:induction false} LookupAssign(f: Fields, k: string, v: string, k': string)
    ensures Lookup(Assign(f, k, v), k') == if k' == k then Some(v) else Lookup(f, k')
  {
    if f != [] && f[0].0 != k {
      LookupAssign(f[1..], k, v, k');
    }
  }

  /** `{...a, ...b}`: the properties of `b` assigned, in order, over a copy of `a`. */
  function Spread(a: Fields, b: Fields): Fields
    decreases |b|
  {
    if b == [] then a else Spread(Assign(a, b[0].0, b[0].1), b[1..])
  }

  /** After a spread, a key takes its value from `b` when `b` has it, else from `a`. */
  lemma {:induction false} LookupSpread(a: Fields, b: Fields, k: string)
    requires UniqueKeys(b)
    ensures Lookup(Spread(a, b), k) == if k in Keys(b) then Lookup(b, k) else Lookup(a, k)
    decreases |b|
  {
    if b != [] {
      var b' := b[1..];
      assert UniqueKeys(b');
      LookupSpread(Assign(a, b[0].0, b[0].1), b', k);
      LookupAssign(a, b[0].0, b[0].1, k);
      assert Keys(b) == [b[0].0] + Keys(b');
    }
  }

  /** Spreading an empty object over `a` changes nothing. */
  lemma SpreadEmpty(a: Fields)
    ensures Spread(a, []) == a
  {
  }
}
