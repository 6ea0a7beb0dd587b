/** A JavaScript object literal with string keys, seen as the ordered list of its
    own properties, the way `Record<string, V>` values are written in the source. */
module JsObject {

  datatype Option<T> = None | Some(value: T)

  /** The properties of an object literal in the order they are written. */
  type Object<V> = seq<(string, V)>

  /** The property names in the order they are written. This is the order of
      `Object.keys` whenever the names are distinct and none of them is an
      array index, which holds for every object of this model. */
  function Keys<V>(o: Object<V>): (ks: seq<string>)
    ensures |ks| == |o| && forall i :: 0 <= i < |o| ==> ks[i] == o[i].0
  {
    seq(|o|, i requires 0 <= i < |o| => o[i].0)
  }

  predicate Distinct(ks: seq<string>)
  {
    forall i, j :: 0 <= i < j < |ks| ==> ks[i] != ks[j]
  }

  /** Property access `o[k]`; `None` stands for `undefined`. When a literal
      names a property twice, the later binding is the one that is read. */
  function Get<V>(o: Object<V>, k: string): (r: Option<V>)
    ensures r.Some? <==> k in Keys(o)
    ensures r.Some? ==> (k, r.value) in o
  {
    if o == [] then None
    else if o[|o| - 1].0 == k then
      assert Keys(o)[|o| - 1] == k;
      Some(o[|o| - 1].1)
    else
      assert Keys(o) == Keys(o[..|o| - 1]) + [o[|o| - 1].0];
      Get(o[..|o| - 1], k)
  }

  /** The map an object denotes: each property name to the value `o[k]` reads. */
  function AsMap<V>(o: Object<V>): (m: map<string, V>)
    ensures forall k :: k in m <==> k in Keys(o)
  {
    map k | k in Keys(o) :: Get(o, k).value
  }

  /** With distinct names, reading a property gives the value written for it. */
  lemma {:induction false} GetDistinct<V>(o: Object<V>, i: nat)
    requires Distinct(Keys(o)) && i < |o|
    ensures Get(o, o[i].0) == Some(o[i].1)
    ensures o[i].0 in AsMap(o) && AsMap(o)[o[i].0] == o[i].1
  {
    var n := |o| - 1;
    if i < n {
      var p := o[..n];
      assert Keys(o)[i] == o[i].0 && Keys(o)[n] == o[n].0;
      assert Keys(p) == Keys(o)[..n];
      GetDistinct(p, i);
    }
  }
}
