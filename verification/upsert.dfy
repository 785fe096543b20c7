/**
 * A keyed overwrite: the part of an upsert that replaces a row's data with the
 * latest write. `SetAll` applies a sequence of writes in order; it is the
 * table effect of the Token, PriceEvent and RiskProfile upserts and of the
 * figures part of the Balance upsert.
 */
module Upsert {

  /** The keys a sequence of writes touches. */
  function Keys<K, V>(ws: seq<(K, V)>): (r: set<K>)
    ensures forall i :: 0 <= i < |ws| ==> ws[i].0 in r
    ensures forall k :: k in r ==> exists i :: 0 <= i < |ws| && ws[i].0 == k
    decreases |ws|
  {
    if ws == [] then {} else Keys(ws[..|ws| - 1]) + {ws[|ws| - 1].0}
  }

  lemma {:induction false} KeysConcat<K, V>(a: seq<(K, V)>, b: seq<(K, V)>)
    ensures Keys(a + b) == Keys(a) + Keys(b)
    decreases |b|
  {
    if b == [] {
      assert a + b == a;
    } else {
      assert (a + b)[..|a + b| - 1] == a + b[..|b| - 1];
      KeysConcat(a, b[..|b| - 1]);
    }
  }

  /** Applies the writes in order, each one overwriting the row at its key. */
  function SetAll<K, V>(m: map<K, V>, ws: seq<(K, V)>): (r: map<K, V>)
    ensures r.Keys == m.Keys + Keys(ws)
    decreases |ws|
  {
    if ws == [] then m else SetAll(m, ws[..|ws| - 1])[ws[|ws| - 1].0 := ws[|ws| - 1].1]
  }

  /** The writes amount to overriding `m` with a map that depends on the writes alone. */
  lemma {:induction false} SetAllOverrides<K, V>(m: map<K, V>, ws: seq<(K, V)>)
    ensures SetAll(m, ws) == m + SetAll(map[], ws)
    decreases |ws|
  {
    if ws != [] {
      SetAllOverrides(m, ws[..|ws| - 1]);
    }
  }

  /** Replaying the same writes changes nothing. */
  lemma SetAllIdempotent<K, V>(m: map<K, V>, ws: seq<(K, V)>)
    ensures SetAll(SetAll(m, ws), ws) == SetAll(m, ws)
  {
    var w := SetAll(map[], ws);
    SetAllOverrides(m, ws);
    SetAllOverrides(SetAll(m, ws), ws);
    assert (m + w) + w == m + w;
  }

  /** Applying `a` then `b` is applying `a + b`. */
  lemma {:induction false} SetAllSplit<K, V>(m: map<K, V>, a: seq<(K, V)>, b: seq<(K, V)>)
    ensures SetAll(m, a + b) == SetAll(SetAll(m, a), b)
    decreases |b|
  {
    if b == [] {
      assert a + b == a;
    } else {
      assert (a + b)[..|a + b| - 1] == a + b[..|b| - 1];
      SetAllSplit(m, a, b[..|b| - 1]);
    }
  }

  /** A key is left as it was unless a write touches it. */
  lemma {:induction false} SetAllUntouched<K, V>(m: map<K, V>, ws: seq<(K, V)>, k: K)
    requires k in m && k !in Keys(ws)
    ensures SetAll(m, ws)[k] == m[k]
    decreases |ws|
  {
    if ws != [] {
      SetAllUntouched(m, ws[..|ws| - 1], k);
    }
  }

  /** The row at a key holds the last write to that key. */
  lemma {:induction false} SetAllLastWins<K, V>(m: map<K, V>, ws: seq<(K, V)>, i: nat)
    requires i < |ws|
    requires forall j :: i < j < |ws| ==> ws[j].0 != ws[i].0
    ensures SetAll(m, ws)[ws[i].0] == ws[i].1
    decreases |ws|
  {
    if i < |ws| - 1 {
      SetAllLastWins(m, ws[..|ws| - 1], i);
    }
  }
}
