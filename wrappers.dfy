/** Option and Result, the two failure-carrying shapes every other module speaks. */
module Wrappers {

  datatype Option<+T> = None | Some(value: T) {
    function GetOr(default: T): T {
      match this
      case Some(v) => v
      case None => default
    }
  }

  /** A Rust `Result` / a Python exception: `Err` carries the error message. */
  datatype Result<+T, +E> = Ok(value: T) | Err(error: E)
}

/** File-system paths as sequences of components; `PathBuf::join` and `/` append one. */
module Paths {

  type Path = seq<string>

  function Join(p: Path, component: string): (r: Path)
    ensures |r| == |p| + 1 && r[..|p|] == p && r[|p|] == component
  {
    p + [component]
  }
}

/** Generic facts about sequences: order-preserving selection and stable sorting by a key. */
module Sequences {

  /** `xs` is `ys` with some elements left out, the rest kept in order. */
  predicate Subsequence<T(==)>(xs: seq<T>, ys: seq<T>)
    decreases |ys|
  {
    if xs == [] then true
    else if ys == [] then false
    else (xs[0] == ys[0] && Subsequence(xs[1..], ys[1..])) || Subsequence(xs, ys[1..])
  }

  /** Concatenation is associative. */
  lemma AppendAssoc<T>(a: seq<T>, b: seq<T>, c: seq<T>)
    ensures a + (b + c) == (a + b) + c
  {
  }

  /** `p` holds throughout `s` iff it holds throughout all but the last and on the last. */
  lemma AllSnoc<T>(s: seq<T>, front: seq<T>, p: T -> bool)
    requires s != [] && front == s[..|s| - 1]
    ensures (forall k | 0 <= k < |s| :: p(s[k])) <==>
      (forall k | 0 <= k < |front| :: p(front[k])) && p(s[|s| - 1])
  {
    assert forall k | 0 <= k < |front| :: front[k] == s[k];
  }

  /** A non-empty sequence is its front followed by its last element. */
  lemma FrontLast<T>(s: seq<T>)
    requires s != []
    ensures s[..|s| - 1] + [s[|s| - 1]] == s
  {
  }

  /** Two singletons concatenate into a pair. */
  lemma Pair<T>(a: T, b: T)
    ensures [a] + [b] == [a, b]
  {
  }

  /** A non-empty sequence is its head followed by its tail. */
  lemma HeadTail<T>(s: seq<T>)
    requires s != []
    ensures [s[0]] + s[1..] == s
  {
  }

  /** Non-decreasing by `key`. */
  predicate SortedBy<T>(xs: seq<T>, key: T -> real) {
    forall i, j | 0 <= i < j < |xs| :: key(xs[i]) <= key(xs[j])
  }

  /** Inserts `x` after every element whose key is not greater. */
  function InsertBy<T>(x: T, xs: seq<T>, key: T -> real): (r: seq<T>)
    requires SortedBy(xs, key)
    ensures SortedBy(r, key) && multiset(r) == multiset(xs) + multiset{x}
    ensures forall y | y in r :: y == x || y in xs
    decreases |xs|
  {
    if xs == [] then [x]
    else if key(x) < key(xs[0]) then
      ConsSorted(x, xs, key);
      [x] + xs
    else
      var rest := InsertBy(x, xs[1..], key);
      InsertAfterHead(x, xs, rest, key);
      [xs[0]] + rest
  }

  /** Putting the head back in front of `x` inserted into the tail inserts `x` into the whole. */
  lemma InsertAfterHead<T>(x: T, xs: seq<T>, rest: seq<T>, key: T -> real)
    requires |xs| >= 1 && SortedBy(xs, key) && key(xs[0]) <= key(x)
    requires SortedBy(rest, key) && multiset(rest) == multiset(xs[1..]) + multiset{x}
    requires forall y | y in rest :: y == x || y in xs[1..]
    ensures SortedBy([xs[0]] + rest, key) && multiset([xs[0]] + rest) == multiset(xs) + multiset{x}
    ensures forall y | y in [xs[0]] + rest :: y == x || y in xs
  {
    assert xs == [xs[0]] + xs[1..];
    HeadBelow(x, xs, rest, key);
    ConsSorted(xs[0], rest, key);
    assert multiset([xs[0]] + rest) == multiset{xs[0]} + multiset(rest);
    assert forall y | y in xs[1..] :: y in xs;
  }

  /** The head of a sorted sequence has a key no greater than any later element, or than `x`. */
  lemma HeadBelow<T>(x: T, xs: seq<T>, rest: seq<T>, key: T -> real)
    requires |xs| >= 1 && SortedBy(xs, key) && key(xs[0]) <= key(x)
    requires forall y | y in rest :: y == x || y in xs[1..]
    ensures forall y | y in rest :: key(xs[0]) <= key(y)
  {
    forall y | y in rest
      ensures key(xs[0]) <= key(y)
    {
      if y != x {
        var k :| 0 <= k < |xs| - 1 && xs[1..][k] == y;
        assert xs[k + 1] == y;
      }
    }
  }

  /** The tail of a sorted sequence is sorted, and its head bounds it from below. */
  lemma SortedTail<T>(xs: seq<T>, key: T -> real)
    requires xs != [] && SortedBy(xs, key)
    ensures SortedBy(xs[1..], key) && forall y | y in xs[1..] :: key(xs[0]) <= key(y)
  {
    forall y | y in xs[1..] ensures key(xs[0]) <= key(y) {
      var j :| 0 <= j < |xs[1..]| && xs[1..][j] == y;
      assert xs[j + 1] == y;
    }
  }

  lemma ConsSorted<T>(a: T, xs: seq<T>, key: T -> real)
    requires SortedBy(xs, key) && forall y | y in xs :: key(a) <= key(y)
    ensures SortedBy([a] + xs, key)
  {
    var r := [a] + xs;
    forall i, j | 0 <= i < j < |r| ensures key(r[i]) <= key(r[j]) {
      if i > 0 {
        assert r[i] == xs[i - 1] && r[j] == xs[j - 1];
      } else {
        assert r[j] == xs[j - 1] && r[j] in xs;
      }
    }
  }

  /**
   * Python's `sorted(xs, key=key)`: a stable insertion sort, each element
   * inserted after the equal keys already placed.
   */
  function SortBy<T>(xs: seq<T>, key: T -> real): (r: seq<T>)
    ensures SortedBy(r, key) && multiset(r) == multiset(xs) && |r| == |xs|
    decreases |xs|
  {
    if xs == [] then []
    else
      var n := |xs| - 1;
      var r := InsertBy(xs[n], SortBy(xs[..n], key), key);
      assert xs == xs[..n] + [xs[n]];
      assert multiset(xs) == multiset(xs[..n]) + multiset{xs[n]};
      assert |r| == |multiset(r)|;
      r
  }
}
