/**
 * The shape shared by every table builder of the pipeline: walk a list,
 * keep the entries a test accepts, and append one record for each.
 */
module Seqs {
  import opened Wrappers
  import opened Dicts

  /** The test of a loop that keeps every element. */
  predicate AcceptAll<T>(x: T) { true }

  /** The image under `f` of the elements of `xs` that satisfy `p`, in order. */
  function Keep<T, U>(xs: seq<T>, p: T -> bool, f: T -> U): (r: seq<U>)
    ensures |r| <= |xs|
  {
    if xs == [] then []
    else Keep(xs[..|xs| - 1], p, f) + (if p(xs[|xs| - 1]) then [f(xs[|xs| - 1])] else [])
  }

  /** One more element of the input adds at most its own image at the end. */
  lemma KeepPrefix<T, U>(xs: seq<T>, i: nat, p: T -> bool, f: T -> U)
    requires i < |xs|
    ensures Keep(xs[..i + 1], p, f) == Keep(xs[..i], p, f) + (if p(xs[i]) then [f(xs[i])] else [])
  {
    assert xs[..i + 1][..i] == xs[..i];
  }

  /** Every output is the image of an accepted input. */
  lemma {:induction false} KeepSound<T, U>(xs: seq<T>, p: T -> bool, f: T -> U, y: U)
    requires y in Keep(xs, p, f)
    ensures exists x :: x in xs && p(x) && y == f(x)
  {
    var init := xs[..|xs| - 1];
    if y in Keep(init, p, f) {
      KeepSound(init, p, f, y);
      var x :| x in init && p(x) && y == f(x);
      assert x in xs;
    } else {
      assert xs[|xs| - 1] in xs;
    }
  }

  /** Every accepted input has its image in the output. */
  lemma {:induction false} KeepComplete<T, U>(xs: seq<T>, p: T -> bool, f: T -> U, x: T)
    requires x in xs && p(x)
    ensures f(x) in Keep(xs, p, f)
  {
    var init := xs[..|xs| - 1];
    if x != xs[|xs| - 1] {
      assert xs == init + [xs[|xs| - 1]];
      assert x in init;
      KeepComplete(init, p, f, x);
    }
  }

  /** With every input accepted, the output is the image of the input, element by element. */
  lemma {:induction false} KeepEvery<T, U>(xs: seq<T>, p: T -> bool, f: T -> U)
    requires forall i :: 0 <= i < |xs| ==> p(xs[i])
    ensures |Keep(xs, p, f)| == |xs|
    ensures forall i :: 0 <= i < |xs| ==> Keep(xs, p, f)[i] == f(xs[i])
  {
    if xs != [] {
      KeepEvery(xs[..|xs| - 1], p, f);
    }
  }

  /** With no input accepted, the output is empty. */
  lemma {:induction false} KeepNone<T, U>(xs: seq<T>, p: T -> bool, f: T -> U)
    requires forall i :: 0 <= i < |xs| ==> !p(xs[i])
    ensures Keep(xs, p, f) == []
  {
    if xs != [] {
      KeepNone(xs[..|xs| - 1], p, f);
    }
  }

  /** The number of elements of `xs` that satisfy `p`. */
  function CountIf<T>(xs: seq<T>, p: T -> bool): nat
  {
    if xs == [] then 0 else CountIf(xs[..|xs| - 1], p) + (if p(xs[|xs| - 1]) then 1 else 0)
  }

  /** The output has one element per accepted input. */
  lemma {:induction false} KeepCount<T, U>(xs: seq<T>, p: T -> bool, f: T -> U)
    ensures |Keep(xs, p, f)| == CountIf(xs, p)
  {
    if xs != [] {
      KeepCount(xs[..|xs| - 1], p, f);
    }
  }

  /** `xs` followed by `ys`, flattened from a list of lists. */
  function Flatten<T>(xss: seq<seq<T>>): seq<T>
  {
    if xss == [] then [] else Flatten(xss[..|xss| - 1]) + xss[|xss| - 1]
  }

  lemma FlattenPrefix<T>(xss: seq<seq<T>>, i: nat)
    requires i < |xss|
    ensures Flatten(xss[..i + 1]) == Flatten(xss[..i]) + xss[i]
  {
    assert xss[..i + 1][..i] == xss[..i];
  }

  /** `[f(x) for x in xs]` where any failing `f(x)` makes the whole loop fail. */
  function AllSome<T, U>(xs: seq<T>, f: T -> Option<U>): Option<seq<U>>
  {
    if xs == [] then Some([])
    else match AllSome(xs[..|xs| - 1], f)
      case None => None
      case Some(ys) =>
        match f(xs[|xs| - 1])
        case None => None
        case Some(y) => Some(ys + [y])
  }

  /** One more element either fails the loop or adds its own image at the end. */
  lemma AllSomePrefix<T, U>(xs: seq<T>, i: nat, f: T -> Option<U>)
    requires i < |xs|
    ensures AllSome(xs[..i + 1], f) ==
      match AllSome(xs[..i], f)
      case None => None
      case Some(ys) => (match f(xs[i]) case None => None case Some(y) => Some(ys + [y]))
  {
    assert xs[..i + 1][..i] == xs[..i];
  }

  /** Once a prefix fails, the whole loop fails. */
  lemma {:induction false} AllSomeFailed<T, U>(xs: seq<T>, i: nat, f: T -> Option<U>)
    requires i <= |xs| && AllSome(xs[..i], f).None?
    ensures AllSome(xs, f).None?
    decreases |xs| - i
  {
    if i < |xs| {
      AllSomePrefix(xs, i, f);
      AllSomeFailed(xs, i + 1, f);
    } else {
      assert xs[..i] == xs;
    }
  }

  /** A loop that succeeds has one output per input, each the image of its own input. */
  lemma {:induction false} AllSomeAt<T, U>(xs: seq<T>, f: T -> Option<U>, i: nat)
    requires AllSome(xs, f).Some? && i < |xs|
    ensures |AllSome(xs, f).value| == |xs|
    ensures f(xs[i]) == Some(AllSome(xs, f).value[i])
  {
    var init := xs[..|xs| - 1];
    if i < |xs| - 1 {
      AllSomeAt(init, f, i);
      assert init[i] == xs[i];
    } else if init != [] {
      AllSomeAt(init, f, 0);
    }
  }

  /** The loop fails exactly when some element fails. */
  lemma {:induction false} AllSomeNone<T, U>(xs: seq<T>, f: T -> Option<U>)
    ensures AllSome(xs, f).None? <==> exists i :: 0 <= i < |xs| && f(xs[i]).None?
  {
    if xs != [] {
      var init := xs[..|xs| - 1];
      AllSomeNone(init, f);
      if exists i :: 0 <= i < |init| && f(init[i]).None? {
        var i :| 0 <= i < |init| && f(init[i]).None?;
        assert init[i] == xs[i];
      }
      if exists i :: 0 <= i < |xs| && f(xs[i]).None? {
        var i :| 0 <= i < |xs| && f(xs[i]).None?;
        if i < |init| {
          assert init[i] == xs[i];
        }
      }
    }
  }

  /** `[y for x in xs for y in f(x)]`: the images of the elements, one after the other. */
  function FlatMap<T, U>(xs: seq<T>, f: T -> seq<U>): seq<U>
  {
    if xs == [] then [] else FlatMap(xs[..|xs| - 1], f) + f(xs[|xs| - 1])
  }

  lemma FlatMapPrefix<T, U>(xs: seq<T>, i: nat, f: T -> seq<U>)
    requires i < |xs|
    ensures FlatMap(xs[..i + 1], f) == FlatMap(xs[..i], f) + f(xs[i])
  {
    assert xs[..i + 1][..i] == xs[..i];
  }

  /** Every output comes from the image of some input. */
  lemma {:induction false} FlatMapSound<T, U>(xs: seq<T>, f: T -> seq<U>, y: U)
    requires y in FlatMap(xs, f)
    ensures exists x :: x in xs && y in f(x)
  {
    var init := xs[..|xs| - 1];
    if y in FlatMap(init, f) {
      FlatMapSound(init, f, y);
      var x :| x in init && y in f(x);
      assert x in xs;
    } else {
      assert xs[|xs| - 1] in xs;
    }
  }

  /** The image of every input is part of the output. */
  lemma {:induction false} FlatMapComplete<T, U>(xs: seq<T>, f: T -> seq<U>, x: T, y: U)
    requires x in xs && y in f(x)
    ensures y in FlatMap(xs, f)
  {
    var init := xs[..|xs| - 1];
    if x != xs[|xs| - 1] {
      assert xs == init + [xs[|xs| - 1]];
      assert x in init;
      FlatMapComplete(init, f, x, y);
    }
  }

  /** `{k: v for x in xs}` where `f` gives each pair and any failing `f(x)` raises. */
  function Keyed<T, K(==), V>(xs: seq<T>, f: T -> Option<(K, V)>): Option<seq<(K, V)>>
  {
    match AllSome(xs, f)
    case None => None
    case Some(ps) => Some(FromPairs(ps))
  }

  /** A keyed comprehension raises exactly when one element fails. */
  lemma KeyedFails<T, K, V>(xs: seq<T>, f: T -> Option<(K, V)>)
    ensures Keyed(xs, f).None? <==> exists i :: 0 <= i < |xs| && f(xs[i]).None?
  {
    AllSomeNone(xs, f);
  }

  /** The pairs `f` gives, one per element, when none fails. */
  lemma KeyedPairs<T, K, V>(xs: seq<T>, f: T -> Option<(K, V)>)
    requires Keyed(xs, f).Some?
    ensures |AllSome(xs, f).value| == |xs|
    ensures forall i :: 0 <= i < |xs| ==> f(xs[i]) == Some(AllSome(xs, f).value[i])
  {
    if xs == [] {
    } else {
      AllSomeAt(xs, f, 0);
    }
    forall i | 0 <= i < |xs| ensures f(xs[i]) == Some(AllSome(xs, f).value[i]) {
      AllSomeAt(xs, f, i);
    }
  }

  /** A keyed comprehension that succeeds repeats no key. */
  lemma KeyedDistinct<T, K, V>(xs: seq<T>, f: T -> Option<(K, V)>)
    requires Keyed(xs, f).Some?
    ensures UniqueKeys(Keyed(xs, f).value)
  {
    SetAllUnique([], AllSome(xs, f).value);
  }

  /** A keyed comprehension that succeeds holds exactly the keys of its elements. */
  lemma KeyedHas<T, K, V>(xs: seq<T>, f: T -> Option<(K, V)>, k: K)
    requires Keyed(xs, f).Some?
    ensures HasKey(Keyed(xs, f).value, k) <==> exists i :: 0 <= i < |xs| && f(xs[i]).Some? && f(xs[i]).value.0 == k
  {
    var ps := AllSome(xs, f).value;
    KeyedPairs(xs, f);
    FromPairsLookup(ps, k);
    if exists i :: 0 <= i < |xs| && f(xs[i]).Some? && f(xs[i]).value.0 == k {
      var i :| 0 <= i < |xs| && f(xs[i]).Some? && f(xs[i]).value.0 == k;
      assert ps[i].0 == k;
    }
    if exists i :: 0 <= i < |ps| && ps[i].0 == k {
      var i :| 0 <= i < |ps| && ps[i].0 == k;
      assert f(xs[i]) == Some(ps[i]);
    }
  }

  /** Each key of a keyed comprehension holds the value of an element carrying that key. */
  lemma KeyedValue<T, K, V>(xs: seq<T>, f: T -> Option<(K, V)>, k: K)
    requires Keyed(xs, f).Some? && HasKey(Keyed(xs, f).value, k)
    ensures Lookup(Keyed(xs, f).value, k).Some?
    ensures exists i :: 0 <= i < |xs| && f(xs[i]) == Some((k, Lookup(Keyed(xs, f).value, k).value))
  {
    var ps := AllSome(xs, f).value;
    KeyedPairs(xs, f);
    FromPairsLookup(ps, k);
    LookupHasKey(FromPairs(ps), k);
    LastValueAt(ps, k);
    var i :| 0 <= i < |ps| && ps[i] == (k, LastValue(ps, k).value) && forall j :: i < j < |ps| ==> ps[j].0 != k;
    assert f(xs[i]) == Some(ps[i]);
  }

  /** `{f(x)[0]: f(x)[1] for x in xs if p(x)}` holds exactly the keys of the accepted elements. */
  lemma KeptPairsHas<T, K, V>(xs: seq<T>, p: T -> bool, f: T -> (K, V), k: K)
    ensures UniqueKeys(FromPairs(Keep(xs, p, f)))
    ensures HasKey(FromPairs(Keep(xs, p, f)), k) <==> exists x :: x in xs && p(x) && f(x).0 == k
  {
    var ps := Keep(xs, p, f);
    FromPairsLookup(ps, k);
    if exists i :: 0 <= i < |ps| && ps[i].0 == k {
      var i :| 0 <= i < |ps| && ps[i].0 == k;
      KeepSound(xs, p, f, ps[i]);
    }
    if exists x :: x in xs && p(x) && f(x).0 == k {
      var x :| x in xs && p(x) && f(x).0 == k;
      KeepComplete(xs, p, f, x);
      var i :| 0 <= i < |ps| && ps[i] == f(x);
    }
  }

  /** Each key of such a comprehension holds the value of an accepted element with that key. */
  lemma KeptPairsValue<T, K, V>(xs: seq<T>, p: T -> bool, f: T -> (K, V), k: K)
    requires HasKey(FromPairs(Keep(xs, p, f)), k)
    ensures Lookup(FromPairs(Keep(xs, p, f)), k).Some?
    ensures exists x :: x in xs && p(x) && f(x) == (k, Lookup(FromPairs(Keep(xs, p, f)), k).value)
  {
    var ps := Keep(xs, p, f);
    FromPairsLookup(ps, k);
    LookupHasKey(FromPairs(ps), k);
    LastValueAt(ps, k);
    var i :| 0 <= i < |ps| && ps[i] == (k, LastValue(ps, k).value) && forall j :: i < j < |ps| ==> ps[j].0 != k;
    KeepSound(xs, p, f, ps[i]);
  }

  /** An element, kept as it is: `[x for x in xs if p(x)]` is `Keep(xs, p, Itself)`. */
  function Itself<T>(x: T): T { x }

  /** An element survives a filter exactly when it is in the input and accepted. */
  lemma KeepIn<T>(xs: seq<T>, p: T -> bool, x: T)
    ensures x in Keep(xs, p, Itself) <==> x in xs && p(x)
  {
    if x in Keep(xs, p, Itself) {
      KeepSound(xs, p, Itself, x);
    }
    if x in xs && p(x) {
      KeepComplete(xs, p, Itself, x);
    }
  }

  /** `{f(x) for x in xs if p(x)}` raises exactly when an accepted element fails. */
  lemma KeyedKeepFails<T, K, V>(xs: seq<T>, p: T -> bool, f: T -> Option<(K, V)>)
    ensures Keyed(Keep(xs, p, Itself), f).None? <==> exists x :: x in xs && p(x) && f(x).None?
  {
    var ys := Keep(xs, p, Itself);
    KeyedFails(ys, f);
    if exists i :: 0 <= i < |ys| && f(ys[i]).None? {
      var i :| 0 <= i < |ys| && f(ys[i]).None?;
      KeepIn(xs, p, ys[i]);
    }
    if exists x :: x in xs && p(x) && f(x).None? {
      var x :| x in xs && p(x) && f(x).None?;
      KeepIn(xs, p, x);
      var i :| 0 <= i < |ys| && ys[i] == x;
    }
  }

  /** When it succeeds, it holds the keys of the accepted elements, each once. */
  lemma KeyedKeepHas<T, K, V>(xs: seq<T>, p: T -> bool, f: T -> Option<(K, V)>, k: K)
    requires Keyed(Keep(xs, p, Itself), f).Some?
    ensures UniqueKeys(Keyed(Keep(xs, p, Itself), f).value)
    ensures HasKey(Keyed(Keep(xs, p, Itself), f).value, k) <==> exists x :: x in xs && p(x) && f(x).Some? && f(x).value.0 == k
  {
    var ys := Keep(xs, p, Itself);
    KeyedDistinct(ys, f);
    KeyedHas(ys, f, k);
    if exists i :: 0 <= i < |ys| && f(ys[i]).Some? && f(ys[i]).value.0 == k {
      var i :| 0 <= i < |ys| && f(ys[i]).Some? && f(ys[i]).value.0 == k;
      KeepIn(xs, p, ys[i]);
    }
    if exists x :: x in xs && p(x) && f(x).Some? && f(x).value.0 == k {
      var x :| x in xs && p(x) && f(x).Some? && f(x).value.0 == k;
      KeepIn(xs, p, x);
      var i :| 0 <= i < |ys| && ys[i] == x;
    }
  }

  /** A key holds the value of the last element giving that key: later duplicates overwrite earlier ones. */
  lemma KeyedLast<T, K, V>(xs: seq<T>, f: T -> Option<(K, V)>, i: nat)
    requires Keyed(xs, f).Some? && i < |xs| && f(xs[i]).Some?
    requires forall j :: i < j < |xs| ==> f(xs[j]).None? || f(xs[j]).value.0 != f(xs[i]).value.0
    ensures Lookup(Keyed(xs, f).value, f(xs[i]).value.0) == Some(f(xs[i]).value.1)
  {
    var ps := AllSome(xs, f).value;
    var k := f(xs[i]).value.0;
    KeyedPairs(xs, f);
    FromPairsLookup(ps, k);
    LastValueAt(ps, k);
    assert ps[i].0 == k;
    var i' :| 0 <= i' < |ps| && ps[i'] == (k, LastValue(ps, k).value) && forall j :: i' < j < |ps| ==> ps[j].0 != k;
    assert f(xs[i']) == Some(ps[i']);
    assert i' == i;
  }
}
