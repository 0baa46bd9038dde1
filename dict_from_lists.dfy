/** `makeOrderedDictFromTwoLists` (src/usaxs/utils/dict_from_lists.py): a
    dictionary built by pairing labels with values in order.  Building a
    Python dictionary from pairs assigns them one by one, so a repeated label
    keeps its first position and takes its last value. */
module DictFromLists {
  import opened Wrappers
  import opened OrderedDicts

  /** `zip(labels, values)`: pairs up to the shorter list. */
  function Zip<K, V>(labels: seq<K>, values: seq<V>): (ps: seq<(K, V)>)
    ensures |ps| == if |labels| < |values| then |labels| else |values|
    ensures forall i :: 0 <= i < |ps| ==> ps[i] == (labels[i], values[i])
  {
    if labels == [] || values == [] then []
    else [(labels[0], values[0])] + Zip(labels[1..], values[1..])
  }

  /** A dictionary built by assigning the pairs in order. */
  function FromPairs<K(==), V>(ps: seq<(K, V)>): Dict<K, V>
  {
    if ps == [] then [] else Put(FromPairs(ps[..|ps| - 1]), ps[|ps| - 1].0, ps[|ps| - 1].1)
  }

  /** The value of the last pair with key `k`, if any. */
  function LastValue<K(==), V>(ps: seq<(K, V)>, k: K): Option<V>
  {
    if ps == [] then None
    else if ps[|ps| - 1].0 == k then Some(ps[|ps| - 1].1)
    else LastValue(ps[..|ps| - 1], k)
  }

  function PairKeys<K, V>(ps: seq<(K, V)>): (ks: seq<K>)
    ensures |ks| == |ps| && forall i :: 0 <= i < |ps| ==> ks[i] == ps[i].0
  {
    if ps == [] then [] else PairKeys(ps[..|ps| - 1]) + [ps[|ps| - 1].0]
  }

  /** `makeOrderedDictFromTwoLists(labels, values)`: ValueError exactly when
      there are more values than labels; otherwise the labels beyond the
      values are dropped. */
  function MakeOrderedDictFromTwoLists<K(==), V>(labels: seq<K>, values: seq<V>): (r: Result<Dict<K, V>>)
    ensures r.Err? <==> |values| > |labels|
    ensures r.Err? ==> r.error.ValueError?
  {
    if |values| > |labels| then Err(ValueError("Too many values for known labels."))
    else Ok(FromPairs(Zip(labels, values)))
  }

  /** Reading a key gives the value of its last pair. */
  lemma {:induction false} FromPairsGet<K, V>(ps: seq<(K, V)>, k: K)
    ensures Get(FromPairs(ps), k) == LastValue(ps, k)
  {
    if ps != [] {
      var last := ps[|ps| - 1];
      FromPairsGet(ps[..|ps| - 1], k);
      GetPut(FromPairs(ps[..|ps| - 1]), last.0, last.1, k);
    }
  }

  /** The keys are the pair keys in order of first appearance. */
  lemma {:induction false} FromPairsKeys<K, V>(ps: seq<(K, V)>)
    ensures Keys(FromPairs(ps)) == FirstAppearances(PairKeys(ps))
  {
    if ps != [] {
      var init := ps[..|ps| - 1];
      FromPairsKeys(init);
      assert PairKeys(ps)[..|ps| - 1] == PairKeys(init);
    }
  }

  /** With distinct keys, the dictionary is the pairs themselves. */
  lemma {:induction false} FromDistinctPairs<K, V>(ps: seq<(K, V)>)
    requires DistinctKeys(ps)
    ensures FromPairs(ps) == ps
  {
    if ps != [] {
      var init := ps[..|ps| - 1];
      var last := ps[|ps| - 1];
      assert DistinctKeys(init) by {
        forall i, j | 0 <= i < j < |init| ensures init[i].0 != init[j].0 {
          assert init[i] == ps[i] && init[j] == ps[j];
        }
      }
      FromDistinctPairs(init);
      assert last.0 !in Keys(init) by {
        forall i | 0 <= i < |init| ensures Keys(init)[i] != last.0 {
          assert init[i] == ps[i];
        }
      }
      PutAbsent(init, last.0, last.1);
    }
  }

  /** With enough labels, each label among the first `len(values)` reads the
      value at its last position; the result keeps those labels in order of
      first appearance, and with distinct labels it is exactly the pairs
      `(labels[i], values[i])`. */
  lemma MakeOrderedDict<K, V>(labels: seq<K>, values: seq<V>, k: K)
    requires |values| <= |labels|
    ensures var r := MakeOrderedDictFromTwoLists(labels, values);
      && r.Ok?
      && Get(r.value, k) == LastValue(Zip(labels, values), k)
      && Keys(r.value) == FirstAppearances(labels[..|values|])
  {
    var ps := Zip(labels, values);
    FromPairsGet(ps, k);
    FromPairsKeys(ps);
    assert PairKeys(ps) == labels[..|values|];
  }

  lemma MakeOrderedDictDistinct<K, V>(labels: seq<K>, values: seq<V>)
    requires |values| <= |labels|
    requires forall i, j :: 0 <= i < j < |values| ==> labels[i] != labels[j]
    ensures var r := MakeOrderedDictFromTwoLists(labels, values);
      r.Ok? && |r.value| == |values| && forall i :: 0 <= i < |values| ==> r.value[i] == (labels[i], values[i])
  {
    var ps := Zip(labels, values);
    assert DistinctKeys(ps) by {
      forall i, j | 0 <= i < j < |ps| ensures ps[i].0 != ps[j].0 {
        assert ps[i].0 == labels[i] && ps[j].0 == labels[j];
      }
    }
    FromDistinctPairs(ps);
  }
}
