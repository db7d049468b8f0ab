/**
 * JavaScript objects used as string-keyed maps of numbers (`ISliderValues`,
 * `IIntentBounds`). An object has own enumerable properties, in the order
 * `Object.keys` lists them, and properties inherited through its prototype
 * chain. For keys that are not array indices (such as "dangerStart") that
 * order is insertion order, which is the only case modelled here.
 */
module JsObjects {
  import opened Wrappers

  type Key = string

  /** Property entries in enumeration order. */
  type Entries = seq<(Key, real)>

  datatype ValueObject = ValueObject(own: Entries, inherited: Entries)

  function Keys(e: Entries): seq<Key> {
    seq(|e|, i requires 0 <= i < |e| => e[i].0)
  }

  function Values(e: Entries): seq<real> {
    seq(|e|, i requires 0 <= i < |e| => e[i].1)
  }

  /** A JavaScript object never holds the same own key twice. */
  ghost predicate DistinctKeys(e: Entries) {
    forall i, j :: 0 <= i < j < |e| ==> e[i].0 != e[j].0
  }

  /** `Object.keys(o)`: own enumerable keys in insertion order. */
  function OwnKeys(o: ValueObject): seq<Key> {
    Keys(o.own)
  }

  /** `o.hasOwnProperty(k)`. */
  predicate HasOwnProperty(o: ValueObject, k: Key) {
    k in OwnKeys(o)
  }

  /** The value stored under `k` in `e`, if any. */
  function Get(e: Entries, k: Key): (r: Option<real>)
    ensures r.Some? <==> k in Keys(e)
  {
    if e == [] then None
    else
      assert Keys(e) == [e[0].0] + Keys(e[1..]);
      if e[0].0 == k then Some(e[0].1) else Get(e[1..], k)
  }

  /** `o[k]`: own property first, then the prototype chain. */
  function Lookup(o: ValueObject, k: Key): (r: Option<real>)
    ensures r.Some? <==> k in Keys(o.own) || k in Keys(o.inherited)
    ensures k in Keys(o.own) ==> r == Get(o.own, k)
    ensures k !in Keys(o.own) ==> r == Get(o.inherited, k)
  {
    if Get(o.own, k).Some? then Get(o.own, k) else Get(o.inherited, k)
  }

  lemma {:induction false} GetAt(e: Entries, i: nat)
    requires DistinctKeys(e) && i < |e|
    ensures Get(e, e[i].0) == Some(e[i].1)
  {
    if i > 0 {
      assert e[0].0 != e[i].0;
      assert e[1..][i - 1] == e[i];
      GetAt(e[1..], i - 1);
    }
  }

  /** The keys of `ks` that are not in `exclude`, in order. */
  function Without(ks: seq<Key>, exclude: seq<Key>): (r: seq<Key>)
    ensures forall k :: k in r <==> k in ks && k !in exclude
  {
    if ks == [] then []
    else (if ks[0] in exclude then [] else [ks[0]]) + Without(ks[1..], exclude)
  }

  /**
   * The keys a `for..in` loop visits: own keys first, then inherited keys
   * that no own property shadows.
   */
  function ForInKeys(o: ValueObject): (r: seq<Key>)
    ensures |r| >= |OwnKeys(o)| && r[..|OwnKeys(o)|] == OwnKeys(o)
    ensures forall k :: k in r <==> k in Keys(o.own) || k in Keys(o.inherited)
    ensures forall i :: |OwnKeys(o)| <= i < |r| ==> !HasOwnProperty(o, r[i])
  {
    OwnKeys(o) + Without(Keys(o.inherited), OwnKeys(o))
  }

  /**
   * `o[k] = v` on a plain object with a non-index key: overwrite in place, or
   * append a new property after the existing ones.
   */
  function Assign(e: Entries, k: Key, v: real): (r: Entries)
    ensures k in Keys(e) ==> |r| == |e| && Keys(r) == Keys(e)
    ensures k !in Keys(e) ==> r == e + [(k, v)]
  {
    if e == [] then [(k, v)]
    else
      assert Keys(e) == [e[0].0] + Keys(e[1..]);
      if e[0].0 == k then [(k, v)] + e[1..]
      else
        var rest := Assign(e[1..], k, v);
        assert Keys([e[0]] + rest) == [e[0].0] + Keys(rest);
        [e[0]] + rest
  }

  /** After `o[k] = v`, `o[k]` is `v` and every other key reads as before. */
  lemma {:induction false} AssignGet(e: Entries, k: Key, v: real, k': Key)
    ensures Get(Assign(e, k, v), k') == if k' == k then Some(v) else Get(e, k')
  {
    if e != [] && e[0].0 != k {
      AssignGet(e[1..], k, v, k');
      assert Assign(e, k, v)[1..] == Assign(e[1..], k, v);
    }
  }

  lemma AssignKeepsDistinct(e: Entries, k: Key, v: real)
    requires DistinctKeys(e)
    ensures DistinctKeys(Assign(e, k, v))
  {
    var r := Assign(e, k, v);
    if k in Keys(e) {
      forall i, j | 0 <= i < j < |r| ensures r[i].0 != r[j].0 {
        assert Keys(r)[i] == Keys(e)[i] && Keys(r)[j] == Keys(e)[j];
      }
    }
  }

  /** `{...base, ...upd}` on own properties: `upd`'s entries assigned onto a copy of `base`, in order. */
  function Spread(base: Entries, upd: Entries): (r: Entries)
    ensures |r| >= |base|
    ensures Keys(r)[..|base|] == Keys(base)
    ensures DistinctKeys(base) ==> DistinctKeys(r)
    ensures (forall k :: k in Keys(upd) ==> k in Keys(base)) ==> Keys(r) == Keys(base)
    decreases upd
  {
    if upd == [] then base
    else
      assert Keys(upd) == [upd[0].0] + Keys(upd[1..]);
      var next := Assign(base, upd[0].0, upd[0].1);
      assert Keys(next)[..|base|] == Keys(base);
      assert DistinctKeys(base) ==> DistinctKeys(next) by {
        if DistinctKeys(base) { AssignKeepsDistinct(base, upd[0].0, upd[0].1); }
      }
      var r := Spread(next, upd[1..]);
      assert Keys(r)[..|base|] == Keys(r)[..|next|][..|base|];
      r
  }

  /** In a spread, the updating object's properties win; the others keep their old values. */
  lemma {:induction false} SpreadGet(base: Entries, upd: Entries, k: Key)
    requires DistinctKeys(upd)
    ensures Get(Spread(base, upd), k) == if Get(upd, k).Some? then Get(upd, k) else Get(base, k)
    decreases upd
  {
    if upd != [] {
      var (k0, v0) := upd[0];
      assert Keys(upd) == [k0] + Keys(upd[1..]);
      assert DistinctKeys(upd[1..]);
      SpreadGet(Assign(base, k0, v0), upd[1..], k);
      AssignGet(base, k0, v0, k);
    }
  }
}
