/** PHP's string-keyed array as the builders use it for parameter lists: an
    ordered list of entries in which `$m[$k] = $v` overwrites the value of an
    existing key where it stands and appends a new key at the end. */
module OrderedMap {

  type Entries<V> = seq<(string, V)>

  function Keys<V>(m: Entries<V>): (ks: seq<string>)
    ensures |ks| == |m|
    ensures forall i :: 0 <= i < |m| ==> ks[i] == m[i].0
  {
    seq(|m|, i requires 0 <= i < |m| => m[i].0)
  }

  /** No key occurs twice, as in any PHP array. */
  predicate DistinctKeys<V>(m: Entries<V>) {
    forall i, j :: 0 <= i < j < |m| ==> m[i].0 != m[j].0
  }

  /** `$m[$k] = $v`.  Every entry is either the new one or the entry that
      stood in the same position before; entries under other keys stay where
      they were; at most one entry is added, at the end. */
  function Put<V>(m: Entries<V>, k: string, v: V): (r: Entries<V>)
    ensures |r| == |m| || r == m + [(k, v)]
    ensures forall i :: 0 <= i < |m| && m[i].0 != k ==> r[i] == m[i]
    ensures forall i :: 0 <= i < |r| ==> r[i] == (k, v) || (i < |m| && r[i] == m[i])
  {
    if m == [] then [(k, v)]
    else if m[0].0 == k then [(k, v)] + m[1..]
    else [m[0]] + Put(m[1..], k, v)
  }

  lemma KeysCons<V>(m: Entries<V>)
    requires m != []
    ensures Keys(m) == [m[0].0] + Keys(m[1..])
  {
  }

  /** A present key keeps its position, so the key order is unchanged. */
  lemma {:induction false} PutPresent<V>(m: Entries<V>, k: string, v: V)
    requires k in Keys(m)
    ensures |Put(m, k, v)| == |m| && Keys(Put(m, k, v)) == Keys(m)
  {
    KeysCons(m);
    var r := Put(m, k, v);
    if m[0].0 != k {
      PutPresent(m[1..], k, v);
      assert r == [m[0]] + Put(m[1..], k, v);
      KeysCons(r);
      assert r[1..] == Put(m[1..], k, v);
    } else {
      KeysCons(r);
      assert r[1..] == m[1..];
    }
  }

  /** An absent key is appended. */
  lemma {:induction false} PutAbsent<V>(m: Entries<V>, k: string, v: V)
    requires k !in Keys(m)
    ensures Put(m, k, v) == m + [(k, v)]
  {
    if m != [] {
      KeysCons(m);
      PutAbsent(m[1..], k, v);
      assert [m[0]] + (m[1..] + [(k, v)]) == m + [(k, v)];
    }
  }

  /** With distinct keys, the key then holds the new value and keys stay
      distinct. */
  lemma {:induction false} PutDistinct<V>(m: Entries<V>, k: string, v: V)
    requires DistinctKeys(m)
    ensures DistinctKeys(Put(m, k, v))
    ensures forall i :: 0 <= i < |Put(m, k, v)| && Put(m, k, v)[i].0 == k ==> Put(m, k, v)[i].1 == v
  {
    if m != [] {
      var tail := m[1..];
      if m[0].0 == k {
        var r := [(k, v)] + tail;
        assert Put(m, k, v) == r;
        forall i | 1 <= i < |r|
          ensures r[i] == m[i]
        {
        }
      } else {
        assert DistinctKeys(tail) by {
          forall i, j | 0 <= i < j < |tail|
            ensures tail[i].0 != tail[j].0
          {
            assert tail[i] == m[i + 1] && tail[j] == m[j + 1];
          }
        }
        PutDistinct(tail, k, v);
        var p := Put(tail, k, v);
        var r := [m[0]] + p;
        assert Put(m, k, v) == r;
        forall i, j | 0 <= i < j < |r|
          ensures r[i].0 != r[j].0
        {
          if i == 0 {
            assert r[j] == p[j - 1];
            if j - 1 < |tail| {
              assert tail[j - 1] == m[j];
            }
          } else {
            assert r[i] == p[i - 1] && r[j] == p[j - 1];
          }
        }
        forall i | 0 <= i < |r| && r[i].0 == k
          ensures r[i].1 == v
        {
          assert r[i] == p[i - 1];
        }
      }
    }
  }

  /** The key-to-value map the entries stand for. */
  function ToMap<V>(m: Entries<V>): map<string, V> {
    if m == [] then map[] else ToMap(m[1..])[m[0].0 := m[0].1]
  }

  /** The map's keys are exactly the entries' keys. */
  lemma {:induction false} ToMapKeys<V>(m: Entries<V>)
    ensures forall i :: 0 <= i < |m| ==> m[i].0 in ToMap(m)
    ensures forall key :: key in ToMap(m) ==> key in Keys(m)
  {
    if m != [] {
      ToMapKeys(m[1..]);
      assert Keys(m) == [m[0].0] + Keys(m[1..]);
      assert forall i :: 1 <= i < |m| ==> m[i] == m[1..][i - 1];
    }
  }

  /** With distinct keys each key maps to the value of its entry. */
  lemma {:induction false} ToMapValues<V>(m: Entries<V>)
    requires DistinctKeys(m)
    ensures forall i :: 0 <= i < |m| ==> m[i].0 in ToMap(m) && ToMap(m)[m[i].0] == m[i].1
  {
    ToMapKeys(m);
    if m != [] {
      var tail := m[1..];
      assert forall i :: 1 <= i < |m| ==> m[i] == tail[i - 1];
      assert DistinctKeys(tail);
      ToMapValues(tail);
      assert forall i :: 1 <= i < |m| ==> m[i].0 != m[0].0;
    }
  }

  /** A second update of the same key replaces the first. */
  lemma UpdateTwice<V>(mp: map<string, V>, k: string, a: V, b: V)
    ensures mp[k := a][k := b] == mp[k := b]
  {
    assert mp[k := a][k := b].Keys == mp[k := b].Keys;
  }

  /** Updates of two different keys commute. */
  lemma UpdateSwap<V>(mp: map<string, V>, k1: string, a: V, k2: string, b: V)
    requires k1 != k2
    ensures mp[k1 := a][k2 := b] == mp[k2 := b][k1 := a]
  {
    assert mp[k1 := a][k2 := b].Keys == mp[k2 := b][k1 := a].Keys;
  }

  /** Last write wins: putting an entry updates the map it stands for at
      exactly that key (the position it is kept in does not matter). */
  lemma {:induction false} PutIsMapUpdate<V>(m: Entries<V>, k: string, v: V)
    ensures ToMap(Put(m, k, v)) == ToMap(m)[k := v]
  {
    if m == [] {
      assert ToMap([(k, v)]) == ToMap<V>([])[k := v];
    } else {
      var tail := m[1..];
      if m[0].0 == k {
        var r := [(k, v)] + tail;
        assert Put(m, k, v) == r && r[1..] == tail;
        UpdateTwice(ToMap(tail), k, m[0].1, v);
      } else {
        var p := Put(tail, k, v);
        var r := [m[0]] + p;
        assert Put(m, k, v) == r && r[1..] == p;
        PutIsMapUpdate(tail, k, v);
        UpdateSwap(ToMap(tail), k, v, m[0].0, m[0].1);
      }
    }
  }

  /** With distinct keys there are exactly as many entries as keys. */
  lemma {:induction false} EntryCount<V>(m: Entries<V>)
    requires DistinctKeys(m)
    ensures |ToMap(m)| == |m|
  {
    if m != [] {
      var tail := m[1..];
      EntryCount(tail);
      assert forall j :: 0 <= j < |tail| ==> Keys(tail)[j] != m[0].0 by {
        assert forall j :: 0 <= j < |tail| ==> tail[j] == m[j + 1];
      }
      assert m[0].0 !in Keys(tail);
      ToMapKeys(tail);
      assert ToMap(m) == ToMap(tail)[m[0].0 := m[0].1];
    }
  }

  /** Adding a, then b, then a again leaves a single a, in the first
      position and with the latest value. */
  lemma ReAddKeepsFirstPosition<V>(a: string, b: string, x: V, y: V, z: V)
    requires a != b
    ensures Put(Put(Put([], a, x), b, y), a, z) == [(a, z), (b, y)]
  {
    assert Put([], a, x) == [(a, x)];
    assert Put([(a, x)], b, y) == [(a, x), (b, y)];
  }
}
