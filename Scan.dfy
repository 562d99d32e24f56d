/**
 * The scanning order shared by the label-directed extractors: lines in the outer
 * loop, labels in the inner loop, and the first (line, label) pair that yields a
 * value wins. A scan is described by its grid of outcomes, one row per line and
 * one cell per label; `FirstHit` is the value the nested loops return.
 */
module Scan {
  import opened Wrappers

  /** The first `Some` cell at or after row `i`, column `k`, in row-major order. */
  function FirstHit<T>(g: seq<seq<Option<T>>>, i: nat, k: nat): Option<T>
    decreases |g| - i, if i < |g| then |g[i]| - k else 0
  {
    if i >= |g| then None
    else if k >= |g[i]| then FirstHit(g, i + 1, 0)
    else if g[i][k].Some? then g[i][k]
    else FirstHit(g, i, k + 1)
  }

  /** Cell `(x, y)` exists and comes no earlier than `(i, k)` and strictly before `(a, b)`. */
  predicate Between<T>(g: seq<seq<Option<T>>>, i: nat, k: nat, x: nat, y: nat, a: nat, b: nat) {
    x < |g| && y < |g[x]|
    && (x > i || (x == i && y >= k))
    && (x < a || (x == a && y < b))
  }

  /** A found value sits in a cell at or after `(i, k)`, and every cell between is empty. */
  lemma {:induction false} FirstHitFound<T>(g: seq<seq<Option<T>>>, i: nat, k: nat) returns (a: nat, b: nat)
    requires FirstHit(g, i, k).Some?
    ensures a < |g| && b < |g[a]| && g[a][b] == FirstHit(g, i, k)
    ensures a > i || (a == i && b >= k)
    ensures forall x: nat, y: nat :: Between(g, i, k, x, y, a, b) ==> g[x][y].None?
    decreases |g| - i, if i < |g| then |g[i]| - k else 0
  {
    if k >= |g[i]| {
      a, b := FirstHitFound(g, i + 1, 0);
    } else if g[i][k].Some? {
      a, b := i, k;
    } else {
      a, b := FirstHitFound(g, i, k + 1);
    }
  }

  /** Nothing is found exactly when every cell at or after `(i, k)` is empty. */
  lemma {:induction false} FirstHitNone<T>(g: seq<seq<Option<T>>>, i: nat, k: nat)
    ensures FirstHit(g, i, k).None? <==>
      forall x: nat, y: nat :: x < |g| && y < |g[x]| && (x > i || (x == i && y >= k)) ==> g[x][y].None?
    decreases |g| - i, if i < |g| then |g[i]| - k else 0
  {
    if i < |g| {
      if k >= |g[i]| {
        FirstHitNone(g, i + 1, 0);
      } else if g[i][k].None? {
        FirstHitNone(g, i, k + 1);
      }
    }
  }

  /** A row whose remaining cells are all empty is passed over. */
  lemma {:induction false} FirstHitSkipRow<T>(g: seq<seq<Option<T>>>, i: nat, k: nat)
    requires i < |g|
    requires forall y :: k <= y < |g[i]| ==> g[i][y].None?
    ensures FirstHit(g, i, k) == FirstHit(g, i + 1, 0)
    decreases |g[i]| - k
  {
    if k < |g[i]| {
      FirstHitSkipRow(g, i, k + 1);
    }
  }

  /** The first `Some` cell of row `i` at or after column `k`. */
  function FirstInRow<T>(g: seq<seq<Option<T>>>, i: nat, k: nat): Option<T>
    requires i < |g|
    decreases |g[i]| - k
  {
    if k >= |g[i]| then None
    else if g[i][k].Some? then g[i][k]
    else FirstInRow(g, i, k + 1)
  }

  /** The scan from `(i, k)` returns the row's own hit if it has one, and otherwise goes on with the next row. */
  lemma {:induction false} FirstHitRowFrom<T>(g: seq<seq<Option<T>>>, i: nat, k: nat)
    requires i < |g|
    ensures FirstHit(g, i, k) == if FirstInRow(g, i, k).Some? then FirstInRow(g, i, k) else FirstHit(g, i + 1, 0)
    decreases |g[i]| - k
  {
    if k < |g[i]| && g[i][k].None? {
      FirstHitRowFrom(g, i, k + 1);
    }
  }

  lemma FirstHitRow<T>(g: seq<seq<Option<T>>>, i: nat)
    requires i < |g|
    ensures FirstHit(g, i, 0) == if FirstInRow(g, i, 0).Some? then FirstInRow(g, i, 0) else FirstHit(g, i + 1, 0)
  {
    FirstHitRowFrom(g, i, 0);
  }

  // ---- single loops over lines ----

  /** The first `Some` element at or after index `i` (a loop that returns at the first line with a value). */
  function FirstSome<T>(xs: seq<Option<T>>, i: nat): Option<T>
    decreases |xs| - i
  {
    if i >= |xs| then None
    else if xs[i].Some? then xs[i]
    else FirstSome(xs, i + 1)
  }

  /** A found value is element `h`, and every element before it from `i` on is `None`. */
  lemma {:induction false} FirstSomeFound<T>(xs: seq<Option<T>>, i: nat) returns (h: nat)
    requires FirstSome(xs, i).Some?
    ensures i <= h < |xs| && xs[h] == FirstSome(xs, i)
    ensures forall x :: i <= x < h ==> xs[x].None?
    decreases |xs| - i
  {
    if xs[i].Some? {
      h := i;
    } else {
      h := FirstSomeFound(xs, i + 1);
    }
  }

  /** The image under `f` of the first element whose image passes `ok` (a loop that returns at the first hit). */
  function FirstMapped(xs: seq<string>, f: string -> string, ok: string -> bool): Option<string> {
    if xs == [] then None
    else if ok(f(xs[0])) then Some(f(xs[0]))
    else FirstMapped(xs[1..], f, ok)
  }

  /** A hit is the image of an element, it passes the test, and no earlier image does. */
  lemma {:induction false} FirstMappedFrom(xs: seq<string>, f: string -> string, ok: string -> bool) returns (m: nat)
    requires FirstMapped(xs, f, ok).Some?
    ensures m < |xs| && FirstMapped(xs, f, ok) == Some(f(xs[m])) && ok(f(xs[m]))
    ensures forall k :: 0 <= k < m ==> !ok(f(xs[k]))
  {
    if ok(f(xs[0])) {
      m := 0;
    } else {
      m := FirstMappedFrom(xs[1..], f, ok);
      m := m + 1;
    }
  }

  /** Nothing is found exactly when no image passes. */
  lemma {:induction false} FirstMappedNone(xs: seq<string>, f: string -> string, ok: string -> bool)
    ensures FirstMapped(xs, f, ok).None? <==> forall k :: 0 <= k < |xs| ==> !ok(f(xs[k]))
  {
    if xs != [] {
      FirstMappedNone(xs[1..], f, ok);
      if !ok(f(xs[0])) {
        assert forall k :: 1 <= k < |xs| ==> xs[k] == xs[1..][k - 1];
      }
    }
  }

  method FindFirstMapped(xs: seq<string>, f: string -> string, ok: string -> bool) returns (r: Option<string>)
    ensures r == FirstMapped(xs, f, ok)
  {
    var n := 0;
    while n < |xs|
      invariant n <= |xs|
      invariant FirstMapped(xs[n..], f, ok) == FirstMapped(xs, f, ok)
    {
      var candidate := f(xs[n]);
      if ok(candidate) {
        return Some(candidate);
      }
      assert xs[n..][1..] == xs[n + 1..];
      n := n + 1;
    }
    return None;
  }

  /** The image under `f` of the first element that passes `taken`. */
  function FirstTaken(xs: seq<string>, taken: string -> bool, f: string -> string): Option<string> {
    if xs == [] then None
    else if taken(xs[0]) then Some(f(xs[0]))
    else FirstTaken(xs[1..], taken, f)
  }

  /** A hit is the image of an element that passes the test, and no earlier element does. */
  lemma {:induction false} FirstTakenFrom(xs: seq<string>, taken: string -> bool, f: string -> string) returns (m: nat)
    requires FirstTaken(xs, taken, f).Some?
    ensures m < |xs| && taken(xs[m]) && FirstTaken(xs, taken, f) == Some(f(xs[m]))
    ensures forall k :: 0 <= k < m ==> !taken(xs[k])
  {
    if taken(xs[0]) {
      m := 0;
    } else {
      m := FirstTakenFrom(xs[1..], taken, f);
      m := m + 1;
    }
  }

  /** The images under `f` that pass `ok`, in order (a loop that appends to a list). */
  function KeepMapped(xs: seq<string>, f: string -> string, ok: string -> bool): seq<string> {
    if xs == [] then []
    else
      var y := f(xs[|xs| - 1]);
      KeepMapped(xs[..|xs| - 1], f, ok) + (if ok(y) then [y] else [])
  }

  /** Every kept element is the image of an element of `xs` and passes the test. */
  lemma {:induction false} KeepMappedFrom(xs: seq<string>, f: string -> string, ok: string -> bool, m: nat) returns (k: nat)
    requires m < |KeepMapped(xs, f, ok)|
    ensures k < |xs| && KeepMapped(xs, f, ok)[m] == f(xs[k]) && ok(f(xs[k]))
  {
    var init := xs[..|xs| - 1];
    if m < |KeepMapped(init, f, ok)| {
      k := KeepMappedFrom(init, f, ok, m);
    } else {
      k := |xs| - 1;
    }
  }

  method CollectMapped(xs: seq<string>, f: string -> string, ok: string -> bool) returns (r: seq<string>)
    ensures r == KeepMapped(xs, f, ok)
  {
    r := [];
    var n := 0;
    while n < |xs|
      invariant n <= |xs|
      invariant r == KeepMapped(xs[..n], f, ok)
    {
      var y := f(xs[n]);
      assert xs[..n + 1][..n] == xs[..n];
      if ok(y) {
        r := r + [y];
      }
      n := n + 1;
    }
    assert xs[..n] == xs;
  }
}
