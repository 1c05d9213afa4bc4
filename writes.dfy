/** Dictionary assignments performed one after the other (setattr and
    d[k] = v in a loop), and the facts about them the engine modules use. */
module Writes {

  /** Performing assignments one after the other on a dictionary. */
  function Apply<K, V>(m: map<K, V>, writes: seq<(K, V)>): map<K, V>
    decreases |writes|
  {
    if writes == [] then m else Apply(m[writes[0].0 := writes[0].1], writes[1..])
  }

  lemma {:induction false} ApplyConcat<K, V>(m: map<K, V>, w1: seq<(K, V)>, w2: seq<(K, V)>)
    ensures Apply(m, w1 + w2) == Apply(Apply(m, w1), w2)
    decreases |w1|
  {
    if w1 == [] {
      assert w1 + w2 == w2;
    } else {
      assert (w1 + w2)[1..] == w1[1..] + w2;
      ApplyConcat(m[w1[0].0 := w1[0].1], w1[1..], w2);
    }
  }

  /** dict.update: applying writes to m is m overridden by the writes applied
      to an empty dictionary. */
  lemma {:induction false} ApplyIsUpdate<K, V>(m: map<K, V>, w: seq<(K, V)>)
    ensures Apply(m, w) == m + Apply(map[], w)
    decreases |w|
  {
    if w != [] {
      var k, v := w[0].0, w[0].1;
      ApplyIsUpdate(m[k := v], w[1..]);
      ApplyIsUpdate(map[k := v], w[1..]);
      assert map[][k := v] == map[k := v];
      assert m[k := v] == m + map[k := v];
    }
  }

  /** Later wins: the last write of a key decides its value. */
  lemma {:induction false} ApplyLaterWins<K, V>(m: map<K, V>, w1: seq<(K, V)>, k: K, v: V, w2: seq<(K, V)>)
    requires forall i :: 0 <= i < |w2| ==> w2[i].0 != k
    ensures k in Apply(m, w1 + [(k, v)] + w2) && Apply(m, w1 + [(k, v)] + w2)[k] == v
  {
    ApplyConcat(m, w1 + [(k, v)], w2);
    ApplyConcat(m, w1, [(k, v)]);
    assert [(k, v)][1..] == [];
    ApplyUntouched(Apply(m, w1)[k := v], w2, k);
  }

  /** A first write no later write touches is the one its key keeps. */
  lemma ApplyFirstWins<K, V>(m: map<K, V>, w: seq<(K, V)>, k: K, v: V)
    requires w != [] && w[0] == (k, v)
    requires forall i :: 1 <= i < |w| ==> w[i].0 != k
    ensures k in Apply(m, w) && Apply(m, w)[k] == v
  {
    var w2 := w[1..];
    assert w == [] + [(k, v)] + w2;
    forall i | 0 <= i < |w2| ensures w2[i].0 != k {
      assert w2[i] == w[i + 1];
    }
    ApplyLaterWins(m, [], k, v, w2);
  }

  lemma {:induction false} ApplyUntouched<K, V>(m: map<K, V>, w: seq<(K, V)>, k: K)
    requires forall i :: 0 <= i < |w| ==> w[i].0 != k
    ensures k in m ==> k in Apply(m, w) && Apply(m, w)[k] == m[k]
    ensures k !in m ==> k !in Apply(m, w)
    decreases |w|
  {
    if w != [] {
      ApplyUntouched(m[w[0].0 := w[0].1], w[1..], k);
    }
  }

  /** A write that no later write overrides decides its key's value. */
  lemma ApplyLastWrite<K, V>(m: map<K, V>, w: seq<(K, V)>, t: nat)
    requires t < |w|
    requires forall u :: t < u < |w| ==> w[u].0 != w[t].0
    ensures w[t].0 in Apply(m, w) && Apply(m, w)[w[t].0] == w[t].1
  {
    var w2 := w[t + 1..];
    assert w == w[..t] + [(w[t].0, w[t].1)] + w2;
    forall i | 0 <= i < |w2| ensures w2[i].0 != w[t].0 {
      assert w2[i] == w[t + 1 + i];
    }
    ApplyLaterWins(m, w[..t], w[t].0, w[t].1, w2);
  }
}
