/** Python's insertion-ordered `dict`, as a sequence of (key, value) pairs.
    Assigning value `v` to key `k` keeps the position `k` was first inserted at and overwrites its
    value; a fresh key goes to the end. `Collect` is the dict a run of such assignments
    builds from `{}`; `CollectCharacterised` states its meaning independently of the
    construction. */
module OrderedMaps {
  import opened Common

  function Keys<K, V>(m: seq<(K, V)>): (ks: seq<K>)
    ensures |ks| == |m|
    ensures forall i :: 0 <= i < |m| ==> ks[i] == m[i].0
  {
    seq(|m|, i requires 0 <= i < |m| => m[i].0)
  }

  function Values<K, V>(m: seq<(K, V)>): (vs: seq<V>)
    ensures |vs| == |m|
    ensures forall i :: 0 <= i < |m| ==> vs[i] == m[i].1
  {
    seq(|m|, i requires 0 <= i < |m| => m[i].1)
  }

  predicate Distinct<T(==)>(s: seq<T>) {
    forall i, j :: 0 <= i < j < |s| ==> s[i] != s[j]
  }

  /** Position of the first pair whose key is `k`. */
  function FirstIndex<K(==,!new), V>(m: seq<(K, V)>, k: K): (i: nat)
    requires k in Keys(m)
    ensures i < |m| && m[i].0 == k
    ensures forall j :: 0 <= j < i ==> m[j].0 != k
  {
    if m[0].0 == k then 0
    else
      assert k in Keys(m[1..]) by {
        var j :| 0 <= j < |m| && Keys(m)[j] == k;
        assert Keys(m[1..])[j - 1] == k;
      }
      1 + FirstIndex(m[1..], k)
  }

  /** In a map with distinct keys each pair is the first, and only, one with its key. */
  lemma FirstIndexDistinct<K(!new), V>(m: seq<(K, V)>, i: int)
    requires Distinct(Keys(m)) && 0 <= i < |m|
    ensures m[i].0 in Keys(m) && FirstIndex(m, m[i].0) == i
  {
    assert Keys(m)[i] == m[i].0;
    var f := FirstIndex(m, m[i].0);
    assert Keys(m)[f] == m[f].0;
  }

  /** The value of the last pair in `ws` whose key is `k`: what the dict holds for `k` after the writes. */
  function LastValue<K(==,!new), V>(ws: seq<(K, V)>, k: K): (v: V)
    requires k in Keys(ws)
    ensures (k, v) in ws
  {
    var n := |ws| - 1;
    if ws[n].0 == k then ws[n].1
    else
      assert k in Keys(ws[..n]) by {
        var j :| 0 <= j < |ws| && Keys(ws)[j] == k;
        assert j < n && Keys(ws[..n])[j] == k;
      }
      LastValue(ws[..n], k)
  }

  /** The value `m` holds for `k`, when the keys of `m` are distinct. */
  function Find<K(==,!new), V>(m: seq<(K, V)>, k: K): (r: Option<V>)
    ensures r.Some? <==> k in Keys(m)
    ensures r.Some? ==> r.value == m[FirstIndex(m, k)].1
  {
    if |m| == 0 then None
    else if m[0].0 == k then Some(m[0].1)
    else
      var r := Find(m[1..], k);
      assert Keys(m) == [m[0].0] + Keys(m[1..]);
      r
  }

  /** Assigning `v` to key `k`. */
  function Put<K(==,!new), V>(m: seq<(K, V)>, k: K, v: V): seq<(K, V)> {
    if |m| == 0 then [(k, v)]
    else if m[0].0 == k then [(k, v)] + m[1..]
    else [m[0]] + Put(m[1..], k, v)
  }

  /** A fresh key is appended; an existing key keeps its position and takes the new value. */
  lemma PutShape<K(!new), V>(m: seq<(K, V)>, k: K, v: V)
    ensures k !in Keys(m) ==> Put(m, k, v) == m + [(k, v)]
    ensures k in Keys(m) ==>
      var r, f := Put(m, k, v), FirstIndex(m, k);
      && |r| == |m| && r[f] == (k, v)
      && forall i :: 0 <= i < |m| && i != f ==> r[i] == m[i]
  {
    if k in Keys(m) {
      PutPresent(m, k, v);
    } else {
      PutFresh(m, k, v);
    }
  }

  lemma {:induction false} PutFresh<K(!new), V>(m: seq<(K, V)>, k: K, v: V)
    requires k !in Keys(m)
    ensures Put(m, k, v) == m + [(k, v)]
  {
    if |m| > 0 {
      assert Keys(m) == [m[0].0] + Keys(m[1..]);
      PutFresh(m[1..], k, v);
      assert [m[0]] + (m[1..] + [(k, v)]) == m + [(k, v)];
    }
  }

  lemma PutPresent<K(!new), V>(m: seq<(K, V)>, k: K, v: V)
    requires k in Keys(m)
    ensures var r, f := Put(m, k, v), FirstIndex(m, k);
      && |r| == |m| && r[f] == (k, v)
      && forall i :: 0 <= i < |m| && i != f ==> r[i] == m[i]
  {
    var f := FirstIndex(m, k);
    PutSplice(m, k, v);
    var r := Put(m, k, v);
    forall i | 0 <= i < |m| && i != f
      ensures r[i] == m[i]
    {
      if i < f {
        assert r[i] == m[..f][i];
      } else {
        assert r[i] == m[f + 1..][i - f - 1];
      }
    }
  }

  /** Writing to a present key replaces its first pair in place. */
  lemma {:induction false} PutSplice<K(!new), V>(m: seq<(K, V)>, k: K, v: V)
    requires k in Keys(m)
    ensures var f := FirstIndex(m, k); Put(m, k, v) == m[..f] + [(k, v)] + m[f + 1..]
  {
    if m[0].0 == k {
      assert FirstIndex(m, k) == 0;
    } else {
      var tail := m[1..];
      assert k in Keys(tail) by {
        var j :| 0 <= j < |m| && Keys(m)[j] == k;
        assert 0 < j && Keys(tail)[j - 1] == k;
      }
      PutSplice(tail, k, v);
      var g := FirstIndex(tail, k);
      assert FirstIndex(m, k) == 1 + g;
      assert m[..1 + g] == [m[0]] + tail[..g];
      assert m[2 + g..] == tail[g + 1..];
    }
  }

  lemma PutKeys<K(!new), V>(m: seq<(K, V)>, k: K, v: V)
    ensures Keys(Put(m, k, v)) == if k in Keys(m) then Keys(m) else Keys(m) + [k]
    ensures Distinct(Keys(m)) ==> Distinct(Keys(Put(m, k, v)))
  {
    var r := Put(m, k, v);
    PutShape(m, k, v);
    if k in Keys(m) {
      assert Keys(r) == Keys(m);
    } else {
      assert Keys(r) == Keys(m) + [k];
    }
  }

  /** The dict that assigning `w.1` to key `w.0`, for each `w` of `ws` in order, builds from
      an empty dict. */
  function Collect<K(==,!new), V>(ws: seq<(K, V)>): (m: seq<(K, V)>)
    ensures Distinct(Keys(m))
    ensures forall k :: k in Keys(m) <==> k in Keys(ws)
  {
    if |ws| == 0 then []
    else
      var n := |ws| - 1;
      var prev := Collect(ws[..n]);
      PutKeys(prev, ws[n].0, ws[n].1);
      assert Keys(ws) == Keys(ws[..n]) + [ws[n].0];
      Put(prev, ws[n].0, ws[n].1)
  }

  lemma FirstIndexOfPrefix<K(!new), V>(ws: seq<(K, V)>, n: nat, k: K)
    requires n <= |ws| && k in Keys(ws[..n])
    ensures k in Keys(ws) && FirstIndex(ws, k) == FirstIndex(ws[..n], k)
  {
    var p := ws[..n];
    var i := FirstIndex(p, k);
    assert p[i] == ws[i];
    assert Keys(ws)[i] == k;
    forall j | 0 <= j < i
      ensures ws[j].0 != k
    {
      assert p[j] == ws[j];
    }
  }

  /** What `Collect` means, without reference to how it is built: its keys are the keys
      written, each once, ordered by where each key was FIRST written, and each key holds
      the value LAST written to it. */
  lemma {:induction false} CollectCharacterised<K(!new), V>(ws: seq<(K, V)>)
    ensures forall k :: k in Keys(ws) ==> Find(Collect(ws), k) == Some(LastValue(ws, k))
    ensures forall i, j :: 0 <= i < j < |Collect(ws)| ==>
      FirstIndex(ws, Collect(ws)[i].0) < FirstIndex(ws, Collect(ws)[j].0)
  {
    if |ws| > 0 {
      var n := |ws| - 1;
      var p := ws[..n];
      var prev := Collect(p);
      var m := Collect(ws);
      var k, v := ws[n].0, ws[n].1;
      CollectCharacterised(p);
      assert m == Put(prev, k, v);
      assert Keys(ws) == Keys(p) + [k];
      forall x | x in Keys(ws)
        ensures Find(m, x) == Some(LastValue(ws, x))
      {
        if x == k {
          FindPut(prev, k, v);
        } else {
          assert x in Keys(p);
          FindAfterPut(prev, k, v, x);
        }
      }
      forall i, j | 0 <= i < j < |m|
        ensures FirstIndex(ws, m[i].0) < FirstIndex(ws, m[j].0)
      {
        OrderStep(ws, prev, i, j);
      }
    }
  }

  lemma FindPut<K(!new), V>(m: seq<(K, V)>, k: K, v: V)
    ensures Find(Put(m, k, v), k) == Some(v)
  {
    if k in Keys(m) {
      FindPutPresent(m, k, v);
    } else {
      FindPutAbsent(m, k, v);
    }
  }

  lemma FindPutPresent<K(!new), V>(m: seq<(K, V)>, k: K, v: V)
    requires k in Keys(m)
    ensures Find(Put(m, k, v), k) == Some(v)
  {
    var r := Put(m, k, v);
    PutShape(m, k, v);
    PutKeys(m, k, v);
    var f := FirstIndex(m, k);
    var g := FirstIndex(r, k);
    assert forall t :: 0 <= t < |m| ==> r[t].0 == m[t].0;
    assert g <= f;
    assert m[g].0 == k;
  }

  lemma FindPutAbsent<K(!new), V>(m: seq<(K, V)>, k: K, v: V)
    requires k !in Keys(m)
    ensures Find(Put(m, k, v), k) == Some(v)
  {
    var r := Put(m, k, v);
    PutShape(m, k, v);
    assert r == m + [(k, v)];
    assert Keys(r)[|m|] == k;
    var g := FirstIndex(r, k);
    assert forall t :: 0 <= t < |m| ==> Keys(m)[t] != k;
    assert g == |m|;
  }

  lemma FindAfterPut<K(!new), V>(m: seq<(K, V)>, k: K, v: V, x: K)
    requires x != k
    ensures Find(Put(m, k, v), x) == Find(m, x)
  {
    var r := Put(m, k, v);
    PutShape(m, k, v);
    PutKeys(m, k, v);
    if x in Keys(m) {
      var i := FirstIndex(m, x);
      var j := FirstIndex(r, x);
      assert forall t :: 0 <= t < |m| ==> r[t].0 == m[t].0;
      assert r[i] == m[i];
      assert j <= i;
      assert m[j].0 == x;
      assert j == i;
    } else {
      assert x !in Keys(r);
    }
  }

  lemma OrderStep<K(!new), V>(ws: seq<(K, V)>, prev: seq<(K, V)>, i: int, j: int)
    requires |ws| > 0 && prev == Collect(ws[..|ws| - 1])
    requires forall i, j :: 0 <= i < j < |prev| ==>
      FirstIndex(ws[..|ws| - 1], prev[i].0) < FirstIndex(ws[..|ws| - 1], prev[j].0)
    requires 0 <= i < j < |Collect(ws)|
    ensures FirstIndex(ws, Collect(ws)[i].0) < FirstIndex(ws, Collect(ws)[j].0)
  {
    var n := |ws| - 1;
    var p := ws[..n];
    var k, v := ws[n].0, ws[n].1;
    var m := Collect(ws);
    assert m == Put(prev, k, v);
    PutKeys(prev, k, v);
    assert Keys(m)[i] == m[i].0 && Keys(m)[j] == m[j].0;
    assert Keys(prev)[i] == prev[i].0;
    assert m[i].0 in Keys(p);
    FirstIndexOfPrefix(ws, n, m[i].0);
    if j < |prev| {
      assert Keys(prev)[j] == prev[j].0;
      assert m[j].0 in Keys(p);
      FirstIndexOfPrefix(ws, n, m[j].0);
    } else {
      assert k !in Keys(prev) && m[j].0 == k;
      assert k !in Keys(p);
      assert forall t :: 0 <= t < n ==> Keys(p)[t] == ws[t].0;
      assert Keys(ws)[n] == k;
      assert FirstIndex(ws, k) == n;
    }
  }

  /** A run of writes to distinct keys builds the dict that lists them in order: so
      rebuilding a dict from distinct-keyed pairs, or decoding such a dict, gives the pairs back. */
  lemma {:induction false} CollectDistinct<K(!new), V>(ws: seq<(K, V)>)
    requires Distinct(Keys(ws))
    ensures Collect(ws) == ws
  {
    if |ws| > 0 {
      var n := |ws| - 1;
      assert Keys(ws[..n]) == Keys(ws)[..n];
      CollectDistinct(ws[..n]);
      assert ws[n].0 !in Keys(ws[..n]);
      PutShape(ws[..n], ws[n].0, ws[n].1);
      assert ws[..n] + [(ws[n].0, ws[n].1)] == ws;
    }
  }

  /** Every value that ends up in the dict satisfies whatever every write satisfied. */
  lemma CollectValuesFrom<K(!new), V>(ws: seq<(K, V)>, i: int)
    requires 0 <= i < |Collect(ws)|
    ensures Collect(ws)[i] in ws
  {
    var m := Collect(ws);
    var k := m[i].0;
    assert Keys(m)[i] == k;
    CollectCharacterised(ws);
    assert FirstIndex(m, k) == i;
    assert m[i].1 == LastValue(ws, k);
  }
}
