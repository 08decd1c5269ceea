/**
 * Python dictionaries keep their keys in insertion order; assigning to a key
 * that is already present keeps its position and replaces its value. A
 * dictionary is modelled here as the sequence of its (key, value) pairs.
 */
module Dicts {
  import opened Wrappers

  /** The keys of `d`, in order. */
  function Keys<K, V>(d: seq<(K, V)>): (ks: seq<K>)
    ensures |ks| == |d|
    ensures forall i :: 0 <= i < |d| ==> ks[i] == d[i].0
  {
    seq(|d|, i requires 0 <= i < |d| => d[i].0)
  }

  /** `d[k]`: the value of the first pair whose key is `k`, if any. */
  function Lookup<K(==), V>(d: seq<(K, V)>, k: K): Option<V>
  {
    if d == [] then None else if d[0].0 == k then Some(d[0].1) else Lookup(d[1..], k)
  }

  predicate HasKey<K(==), V>(d: seq<(K, V)>, k: K)
  {
    k in Keys(d)
  }

  /** A lookup succeeds exactly for the keys of the dictionary. */
  lemma {:induction false} LookupHasKey<K, V>(d: seq<(K, V)>, k: K)
    ensures Lookup(d, k).Some? <==> HasKey(d, k)
  {
    if d != [] {
      LookupHasKey(d[1..], k);
      assert Keys(d) == [d[0].0] + Keys(d[1..]);
    }
  }

  /** The position of the first pair whose key is `k`. */
  function IndexOf<K(==), V>(d: seq<(K, V)>, k: K): (r: Option<nat>)
    ensures r.Some? ==> r.value < |d| && d[r.value].0 == k
    ensures r.Some? ==> forall j :: 0 <= j < r.value ==> d[j].0 != k
    ensures r.None? <==> k !in Keys(d)
  {
    if |d| == 0 then None
    else if d[0].0 == k then Some(0)
    else match IndexOf(d[1..], k)
      case None => None
      case Some(j) => Some(j + 1)
  }

  /** A lookup returns the value at the first position holding the key. */
  lemma {:induction false} LookupIndexOf<K, V>(d: seq<(K, V)>, k: K)
    ensures Lookup(d, k) == match IndexOf(d, k) case None => None case Some(i) => Some(d[i].1)
  {
    if d != [] && d[0].0 != k {
      LookupIndexOf(d[1..], k);
    }
  }

  /** Two pairs never share a key: what every Python dictionary satisfies. */
  predicate UniqueKeys<K(==), V>(d: seq<(K, V)>)
  {
    forall i, j :: 0 <= i < j < |d| ==> d[i].0 != d[j].0
  }

  /** `d[k] = v`: overwritten in place when present, appended otherwise. */
  function Set<K(==), V>(d: seq<(K, V)>, k: K, v: V): (r: seq<(K, V)>)
    ensures Keys(r) == if HasKey(d, k) then Keys(d) else Keys(d) + [k]
  {
    match IndexOf(d, k)
    case Some(i) => d[i := (k, v)]
    case None => d + [(k, v)]
  }

  /** An index whose key is `k` and that no earlier pair shares is the one a lookup finds. */
  lemma {:induction false} FirstIndexUnique<K, V>(d: seq<(K, V)>, k: K, i: nat)
    requires i < |d| && d[i].0 == k
    requires forall j :: 0 <= j < i ==> d[j].0 != k
    ensures IndexOf(d, k) == Some(i)
    ensures Lookup(d, k) == Some(d[i].1)
  {
    if i > 0 {
      FirstIndexUnique(d[1..], k, i - 1);
    }
  }

  /** Assigning to a key the dictionary lacks appends the pair. */
  lemma SetAbsent<K, V>(d: seq<(K, V)>, k: K, v: V)
    requires !HasKey(d, k)
    ensures Set(d, k, v) == d + [(k, v)]
  {
  }

  /** After `d[k] = v`, `k` maps to `v` and every other key keeps its value. */
  lemma SetLookup<K, V>(d: seq<(K, V)>, k: K, v: V, k': K)
    ensures Lookup(Set(d, k, v), k') == if k' == k then Some(v) else Lookup(d, k')
  {
    var r := Set(d, k, v);
    assert Keys(r) == if HasKey(d, k) then Keys(d) else Keys(d) + [k];
    LookupIndexOf(d, k');
    match IndexOf(d, k)
    case Some(i) =>
      FirstIndexUnique(r, k, i);
      if k' != k {
        match IndexOf(d, k')
        case None =>
          LookupHasKey(r, k');
        case Some(j) =>
          assert j != i;
          FirstIndexUnique(r, k', j);
      }
    case None =>
      FirstIndexUnique(r, k, |d|);
      if k' != k {
        match IndexOf(d, k')
        case None =>
          assert k' !in Keys(r);
          LookupHasKey(r, k');
        case Some(j) =>
          FirstIndexUnique(r, k', j);
      }
  }

  /** Setting a key keeps the keys of a dictionary distinct. */
  lemma SetUnique<K, V>(d: seq<(K, V)>, k: K, v: V)
    requires UniqueKeys(d)
    ensures UniqueKeys(Set(d, k, v))
  {
    var r := Set(d, k, v);
    if !HasKey(d, k) {
      forall i | 0 <= i < |d| ensures d[i].0 != k {
        assert Keys(d)[i] == d[i].0;
      }
    }
  }

  /** Looking a key up in a dictionary extended by one pair. */
  lemma LookupSnoc<K, V>(d: seq<(K, V)>, k': K, v: V, k: K)
    ensures Lookup(d + [(k', v)], k) ==
            if HasKey(d, k) then Lookup(d, k) else if k' == k then Some(v) else None
  {
    var e := d + [(k', v)];
    assert Keys(e) == Keys(d) + [k'];
    LookupIndexOf(d, k);
    match IndexOf(d, k)
    case Some(i) =>
      FirstIndexUnique(e, k, i);
    case None =>
      if k' == k {
        forall j | 0 <= j < |d| ensures e[j].0 != k {
          assert Keys(d)[j] == d[j].0;
        }
        FirstIndexUnique(e, k, |d|);
      } else {
        LookupHasKey(e, k);
      }
  }

  /** A lookup in `a + b` finds the key in `a` first and falls back on `b`. */
  lemma {:induction false} LookupConcat<K, V>(a: seq<(K, V)>, b: seq<(K, V)>, k: K)
    ensures Lookup(a + b, k) == if HasKey(a, k) then Lookup(a, k) else Lookup(b, k)
  {
    if a != [] {
      assert (a + b)[1..] == a[1..] + b;
      assert Keys(a) == [a[0].0] + Keys(a[1..]);
      LookupConcat(a[1..], b, k);
    } else {
      assert a + b == b;
    }
  }

  /** A dictionary gives back the value stored at a position whose key no earlier pair uses. */
  lemma FieldAt<K, V>(d: seq<(K, V)>, i: nat)
    requires i < |d| && forall j :: 0 <= j < i ==> d[j].0 != d[i].0
    ensures Lookup(d, d[i].0) == Some(d[i].1)
  {
    FirstIndexUnique(d, d[i].0, i);
  }

  /** The keys of two dictionaries written one after the other. */
  lemma KeysConcat<K, V>(a: seq<(K, V)>, b: seq<(K, V)>)
    ensures Keys(a + b) == Keys(a) + Keys(b)
  {
  }

  /** A position of `b` whose key no earlier pair of `b` uses and `a` lacks is what `a + b` gives back. */
  lemma FieldAfter<K, V>(a: seq<(K, V)>, b: seq<(K, V)>, i: nat)
    requires i < |b| && forall j :: 0 <= j < i ==> b[j].0 != b[i].0
    requires !HasKey(a, b[i].0)
    ensures Lookup(a + b, b[i].0) == Some(b[i].1)
  {
    LookupConcat(a, b, b[i].0);
    FieldAt(b, i);
  }


  // ---------------------------------------------------------------- building dictionaries

  /** `for k, v in ps: d[k] = v`: each pair assigned in turn. */
  function SetAll<K(==), V>(d: seq<(K, V)>, ps: seq<(K, V)>): seq<(K, V)>
  {
    if ps == [] then d else Set(SetAll(d, ps[..|ps| - 1]), ps[|ps| - 1].0, ps[|ps| - 1].1)
  }

  /** `{k: v for k, v in ps}`: a later pair with the same key overwrites an earlier one. */
  function FromPairs<K(==), V>(ps: seq<(K, V)>): seq<(K, V)>
  {
    SetAll([], ps)
  }

  /** `d1 | d2`: the pairs of `d2` assigned over `d1`. */
  function Union<K(==), V>(d1: seq<(K, V)>, d2: seq<(K, V)>): seq<(K, V)>
  {
    SetAll(d1, d2)
  }

  /** The value of the last pair of `ps` whose key is `k`. */
  function LastValue<K(==), V>(ps: seq<(K, V)>, k: K): Option<V>
  {
    if ps == [] then None
    else if ps[|ps| - 1].0 == k then Some(ps[|ps| - 1].1)
    else LastValue(ps[..|ps| - 1], k)
  }

  /** A key has a last value exactly when some pair carries it; that pair is the last with the key. */
  lemma {:induction false} LastValueAt<K, V>(ps: seq<(K, V)>, k: K)
    ensures LastValue(ps, k).Some? <==> exists i :: 0 <= i < |ps| && ps[i].0 == k
    ensures LastValue(ps, k).Some? ==>
      exists i :: 0 <= i < |ps| && ps[i] == (k, LastValue(ps, k).value) && forall j :: i < j < |ps| ==> ps[j].0 != k
  {
    if ps != [] && ps[|ps| - 1].0 != k {
      var init := ps[..|ps| - 1];
      LastValueAt(init, k);
      assert forall i :: 0 <= i < |init| ==> init[i] == ps[i];
      if LastValue(ps, k).Some? {
        var i :| 0 <= i < |init| && init[i] == (k, LastValue(ps, k).value) && forall j :: i < j < |init| ==> init[j].0 != k;
        assert ps[i] == (k, LastValue(ps, k).value) && forall j :: i < j < |ps| ==> ps[j].0 != k;
      }
    } else if ps != [] {
      assert ps[|ps| - 1] == (k, LastValue(ps, k).value);
    }
  }

  /** After the assignments, a key holds the value of its last pair, or keeps its old value. */
  lemma {:induction false} SetAllLookup<K, V>(d: seq<(K, V)>, ps: seq<(K, V)>, k: K)
    ensures Lookup(SetAll(d, ps), k) == if LastValue(ps, k).Some? then LastValue(ps, k) else Lookup(d, k)
  {
    if ps != [] {
      var init := ps[..|ps| - 1];
      SetAllLookup(d, init, k);
      SetLookup(SetAll(d, init), ps[|ps| - 1].0, ps[|ps| - 1].1, k);
    }
  }

  /** Assignments keep the keys of a dictionary distinct. */
  lemma {:induction false} SetAllUnique<K, V>(d: seq<(K, V)>, ps: seq<(K, V)>)
    requires UniqueKeys(d)
    ensures UniqueKeys(SetAll(d, ps))
  {
    if ps != [] {
      SetAllUnique(d, ps[..|ps| - 1]);
      SetUnique(SetAll(d, ps[..|ps| - 1]), ps[|ps| - 1].0, ps[|ps| - 1].1);
    }
  }

  /**
   * A comprehension holds exactly the keys of its pairs, each with the value
   * of its last pair, and no key twice.
   */
  lemma FromPairsLookup<K, V>(ps: seq<(K, V)>, k: K)
    ensures Lookup(FromPairs(ps), k) == LastValue(ps, k)
    ensures HasKey(FromPairs(ps), k) <==> exists i :: 0 <= i < |ps| && ps[i].0 == k
    ensures UniqueKeys(FromPairs(ps))
  {
    SetAllLookup([], ps, k);
    LookupHasKey(FromPairs(ps), k);
    SetAllUnique([], ps);
    LastValueAt(ps, k);
  }

  /** `d1 | d2` holds `d2`'s value for the keys of `d2`, and `d1`'s for the others. */
  lemma UnionLookup<K, V>(d1: seq<(K, V)>, d2: seq<(K, V)>, k: K)
    requires UniqueKeys(d2)
    ensures Lookup(Union(d1, d2), k) == if HasKey(d2, k) then Lookup(d2, k) else Lookup(d1, k)
    ensures HasKey(Union(d1, d2), k) <==> HasKey(d1, k) || HasKey(d2, k)
  {
    SetAllLookup(d1, d2, k);
    LookupHasKey(d2, k);
    LookupHasKey(d1, k);
    LookupHasKey(Union(d1, d2), k);
    LastValueAt(d2, k);
    match LastValue(d2, k)
    case None =>
    case Some(v) =>
      var i :| 0 <= i < |d2| && d2[i] == (k, v) && forall j :: i < j < |d2| ==> d2[j].0 != k;
      FieldAt(d2, i);
  }


  // ---------------------------------------------------------------- filtering

  /** `{k: v for k, v in d.items() if k in keep}`. */
  function FilterKeys<K(==), V>(d: seq<(K, V)>, keep: set<K>): seq<(K, V)>
  {
    if d == [] then []
    else FilterKeys(d[..|d| - 1], keep) + (if d[|d| - 1].0 in keep then [d[|d| - 1]] else [])
  }

  /** A filtered dictionary keeps the kept keys with their values, drops the others, and repeats no key. */
  lemma {:induction false} FilterKeysLookup<K, V>(d: seq<(K, V)>, keep: set<K>, k: K)
    requires UniqueKeys(d)
    ensures Lookup(FilterKeys(d, keep), k) == if k in keep then Lookup(d, k) else None
    ensures UniqueKeys(FilterKeys(d, keep))
    ensures HasKey(FilterKeys(d, keep), k) <==> k in keep && HasKey(d, k)
  {
    if d != [] {
      var init, last := d[..|d| - 1], d[|d| - 1];
      var fi := FilterKeys(init, keep);
      assert UniqueKeys(init);
      FilterKeysLookup(init, keep, k);
      FilterKeysLookup(init, keep, last.0);
      assert !HasKey(init, last.0) by {
        forall i | 0 <= i < |init| ensures Keys(init)[i] != last.0 {
          assert init[i] == d[i];
        }
      }
      assert d == init + [last];
      LookupSnoc(init, last.0, last.1, k);
      LookupHasKey(init, k);
      LookupHasKey(fi, k);
      if last.0 in keep {
        assert FilterKeys(d, keep) == fi + [last];
        LookupSnoc(fi, last.0, last.1, k);
        forall i | 0 <= i < |fi| ensures fi[i].0 != last.0 {
          assert Keys(fi)[i] == fi[i].0;
        }
        assert Keys(fi + [last]) == Keys(fi) + [last.0];
      } else {
        assert FilterKeys(d, keep) == fi;
      }
      assert Keys(d) == Keys(init) + [last.0];
    }
  }


  /** In a dictionary whose keys are distinct, every pair is what a lookup of its key gives. */
  lemma FirstValue<K, V>(d: seq<(K, V)>, i: nat)
    requires UniqueKeys(d) && i < |d|
    ensures Lookup(d, d[i].0) == Some(d[i].1)
  {
    FieldAt(d, i);
  }
}
