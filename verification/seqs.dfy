/** Generic sequence helpers shared by the backend and the frontend models. */
module Seqs {

  /** Python's `xs[-n:]` for n > 0: the last n elements, or all of them when there are fewer. */
  function Last<T>(xs: seq<T>, n: nat): (r: seq<T>)
    ensures |r| == if |xs| <= n then |xs| else n
    ensures r == xs[|xs| - |r|..]
  {
    if |xs| <= n then xs else xs[|xs| - n..]
  }

  /** Concatenation of a sequence of sequences, in order. */
  function Flatten<T>(xss: seq<seq<T>>): seq<T>
  {
    if xss == [] then [] else Flatten(xss[..|xss| - 1]) + xss[|xss| - 1]
  }

  lemma {:induction false} FlattenAppend<T>(xss: seq<seq<T>>, yss: seq<seq<T>>)
    ensures Flatten(xss + yss) == Flatten(xss) + Flatten(yss)
    decreases |yss|
  {
    if yss == [] {
      assert xss + yss == xss;
    } else {
      var init, last := yss[..|yss| - 1], yss[|yss| - 1];
      var zss := xss + yss;
      calc {
        Flatten(zss);
        { assert zss[..|zss| - 1] == xss + init && zss[|zss| - 1] == last; }
        Flatten(xss + init) + last;
        { FlattenAppend(xss, init); }
        (Flatten(xss) + Flatten(init)) + last;
        Flatten(xss) + (Flatten(init) + last);
        Flatten(xss) + Flatten(yss);
      }
    }
  }

  /** `f` applied to every element, the results concatenated in order. */
  function ConcatMap<T, U>(f: T -> seq<U>, xs: seq<T>): seq<U>
  {
    if xs == [] then [] else ConcatMap(f, xs[..|xs| - 1]) + f(xs[|xs| - 1])
  }

  lemma {:induction false} ConcatMapAppend<T, U>(f: T -> seq<U>, xs: seq<T>, ys: seq<T>)
    ensures ConcatMap(f, xs + ys) == ConcatMap(f, xs) + ConcatMap(f, ys)
    decreases |ys|
  {
    if ys == [] {
      assert xs + ys == xs;
    } else {
      var init, last := ys[..|ys| - 1], ys[|ys| - 1];
      var zs := xs + ys;
      calc {
        ConcatMap(f, zs);
        { assert zs[..|zs| - 1] == xs + init && zs[|zs| - 1] == last; }
        ConcatMap(f, xs + init) + f(last);
        { ConcatMapAppend(f, xs, init); }
        (ConcatMap(f, xs) + ConcatMap(f, init)) + f(last);
        ConcatMap(f, xs) + (ConcatMap(f, init) + f(last));
        ConcatMap(f, xs) + ConcatMap(f, ys);
      }
    }
  }

  /** No element occurs twice. */
  ghost predicate NoDup<T>(xs: seq<T>)
  {
    forall i, j :: 0 <= i < j < |xs| ==> xs[i] != xs[j]
  }

  /**
   * JavaScript's `[...new Set(xs)]`: every element kept at its first occurrence, in order.
   */
  function Dedup<T(==)>(xs: seq<T>): (r: seq<T>)
    ensures NoDup(r)
    ensures forall i :: 0 <= i < |r| ==> r[i] in xs
    ensures forall i :: 0 <= i < |xs| ==> xs[i] in r
  {
    if xs == [] then []
    else
      var rest := Dedup(xs[..|xs| - 1]);
      var x := xs[|xs| - 1];
      if x in rest then rest else rest + [x]
  }

  /** A list without duplicates is its own de-duplication. */
  lemma {:induction false} DedupOfNoDup<T>(xs: seq<T>)
    requires NoDup(xs)
    ensures Dedup(xs) == xs
  {
    if xs != [] {
      var init := xs[..|xs| - 1];
      assert NoDup(init);
      DedupOfNoDup(init);
      assert xs[|xs| - 1] !in init;
      assert init + [xs[|xs| - 1]] == xs;
    }
  }

  /**
   * De-duplicating a prefix gives a prefix of the de-duplicated list: elements appear in the
   * order of their first occurrence.
   */
  lemma {:induction false} DedupPrefix<T>(xs: seq<T>, k: nat)
    requires k <= |xs|
    ensures Dedup(xs[..k]) <= Dedup(xs)
    decreases |xs|
  {
    if k == |xs| {
      assert xs[..k] == xs;
    } else {
      var init := xs[..|xs| - 1];
      assert init[..k] == xs[..k];
      DedupPrefix(init, k);
    }
  }
}
