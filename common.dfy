/** Small helpers shared by the other modules. */
module Common {

  /** A value that may be missing: a dictionary key that may be absent. */
  datatype Option<+T> = None | Some(value: T) {

    /** The value, or `default` when missing: Python's `dict.get(key, default)`. */
    function GetOr(default: T): T {
      match this
      case Some(v) => v
      case None => default
    }
  }

  function Min(a: int, b: int): int {
    if a <= b then a else b
  }

  /** The blocks `f(x)` of the elements of `xs`, one after the other. */
  function FlatMap<T, U>(xs: seq<T>, f: T -> seq<U>): seq<U>
    decreases |xs|
  {
    if xs == [] then [] else FlatMap(xs[..|xs| - 1], f) + f(xs[|xs| - 1])
  }

  lemma {:induction false} FlatMapAppend<T, U>(a: seq<T>, b: seq<T>, f: T -> seq<U>)
    ensures FlatMap(a + b, f) == FlatMap(a, f) + FlatMap(b, f)
    decreases |b|
  {
    if b == [] {
      assert a + b == a;
    } else {
      var b' := b[..|b| - 1];
      assert (a + b)[..|a + b| - 1] == a + b';
      FlatMapAppend(a, b', f);
    }
  }

  lemma FlatMapSingle<T, U>(x: T, f: T -> seq<U>)
    ensures FlatMap([x], f) == f(x)
  {
    assert [x][..0] == [];
  }

  /** Block `i` of the flattening lies between the blocks before it and the blocks after it. */
  lemma FlatMapSplit<T, U>(xs: seq<T>, f: T -> seq<U>, i: nat)
    requires i < |xs|
    ensures FlatMap(xs, f) == FlatMap(xs[..i], f) + f(xs[i]) + FlatMap(xs[i + 1..], f)
  {
    var a, b := xs[..i], xs[i + 1..];
    assert xs == (a + [xs[i]]) + b;
    FlatMapAppend(a + [xs[i]], b, f);
    FlatMapAppend(a, [xs[i]], f);
    FlatMapSingle(xs[i], f);
  }

  /** When every block has `w` elements, the flattening has `w` per element. */
  lemma {:induction false} FlatMapLength<T, U>(xs: seq<T>, f: T -> seq<U>, w: nat)
    requires forall x :: |f(x)| == w
    ensures |FlatMap(xs, f)| == w * |xs|
    decreases |xs|
  {
    if xs != [] {
      FlatMapLength(xs[..|xs| - 1], f, w);
      assert w * |xs| == w * (|xs| - 1) + w;
    }
  }

  /** Appending a prefix of the elements and then the next one. */
  lemma FlatMapSnoc<T, U>(xs: seq<T>, f: T -> seq<U>, i: nat)
    requires i < |xs|
    ensures FlatMap(xs[..i + 1], f) == FlatMap(xs[..i], f) + f(xs[i])
  {
    assert xs[..i + 1][..i] == xs[..i];
  }

  /** Appending three elements one at a time appends the block of the three. */
  lemma AppendEach<U>(s: seq<U>, b: seq<U>)
    requires |b| == 3
    ensures s + [b[0]] + [b[1]] + [b[2]] == s + b
  {
  }

  lemma AppendAssoc<U>(a: seq<U>, b: seq<U>, c: seq<U>)
    ensures a + b + c == a + (b + c)
  {
  }
}
