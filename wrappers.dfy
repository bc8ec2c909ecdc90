/**
 * Option and Result values, the first-error-wins concatenation of results,
 * and the loop that applies an operation to each element of a sequence and
 * concatenates the outputs until the first failure.
 */
module Wrappers {

  /** A possibly absent value; stands for a Java reference that may be null. */
  datatype Option<+T> = None | Some(value: T)

  /** The outcome of an operation that either yields a value or throws. */
  datatype Result<+T, +E> = Ok(value: T) | Err(error: E)

  /**
   * Runs `a` then `b` and concatenates their outputs; the first failure
   * aborts, so an error of `a` hides whatever `b` would have produced.
   */
  function Concat<X, E>(a: Result<seq<X>, E>, b: Result<seq<X>, E>): Result<seq<X>, E>
  {
    match a
    case Err(e) => Err(e)
    case Ok(x) =>
      match b
      case Err(e) => Err(e)
      case Ok(y) => Ok(x + y)
  }

  /** Running three steps in a row does not depend on how they are grouped. */
  lemma ConcatAssoc<X, E>(a: Result<seq<X>, E>, b: Result<seq<X>, E>, c: Result<seq<X>, E>)
    ensures Concat(Concat(a, b), c) == Concat(a, Concat(b, c))
  {
    if a.Ok? && b.Ok? && c.Ok? {
      assert (a.value + b.value) + c.value == a.value + (b.value + c.value);
    }
  }

  /**
   * A loop that runs `f` on each element of `xs` in order, appending each
   * output; the first failing element aborts the loop with its error.
   */
  function ConcatMap<T, X, E>(f: T -> Result<seq<X>, E>, xs: seq<T>): Result<seq<X>, E>
  {
    if xs == [] then Ok([])
    else Concat(ConcatMap(f, xs[..|xs| - 1]), f(xs[|xs| - 1]))
  }

  /** Once a prefix of the loop has failed, the rest of the elements change nothing. */
  lemma {:induction false} ConcatMapPrefixError<T, X, E>(f: T -> Result<seq<X>, E>, xs: seq<T>, n: nat)
    requires n <= |xs| && ConcatMap(f, xs[..n]).Err?
    ensures ConcatMap(f, xs) == ConcatMap(f, xs[..n])
    decreases |xs| - n
  {
    if n < |xs| {
      assert xs[..n + 1][..n] == xs[..n];
      ConcatMapPrefixError(f, xs, n + 1);
    } else {
      assert xs[..n] == xs;
    }
  }

  /** The loop succeeds exactly when every element does. */
  lemma {:induction false} ConcatMapOkIff<T, X, E>(f: T -> Result<seq<X>, E>, xs: seq<T>)
    ensures ConcatMap(f, xs).Ok? <==> forall i :: 0 <= i < |xs| ==> f(xs[i]).Ok?
  {
    if xs != [] {
      var prefix := xs[..|xs| - 1];
      ConcatMapOkIff(f, prefix);
      assert forall i :: 0 <= i < |prefix| ==> prefix[i] == xs[i];
    }
  }

  /** The loop fails with the error of its first failing element. */
  lemma ConcatMapFirstError<T, X, E>(f: T -> Result<seq<X>, E>, xs: seq<T>, i: nat)
    requires i < |xs|
    requires forall j :: 0 <= j < i ==> f(xs[j]).Ok?
    requires f(xs[i]).Err?
    ensures ConcatMap(f, xs) == Err(f(xs[i]).error)
  {
    var prefix := xs[..i];
    assert forall j :: 0 <= j < |prefix| ==> prefix[j] == xs[j];
    ConcatMapOkIff(f, prefix);
    assert xs[..i + 1][..i] == prefix;
    ConcatMapPrefixError(f, xs, i + 1);
  }

  /** Running the loop over `a + b` is running it over `a`, then over `b`. */
  lemma {:induction false} ConcatMapAppend<T, X, E>(f: T -> Result<seq<X>, E>, a: seq<T>, b: seq<T>)
    ensures ConcatMap(f, a + b) == Concat(ConcatMap(f, a), ConcatMap(f, b))
    decreases |b|
  {
    if b == [] {
      assert a + b == a;
      assert ConcatMap(f, a).Ok? ==> ConcatMap(f, a).value + [] == ConcatMap(f, a).value;
    } else {
      var b' := b[..|b| - 1];
      assert (a + b)[..|a + b| - 1] == a + b';
      assert (a + b)[|a + b| - 1] == b[|b| - 1];
      ConcatMapAppend(f, a, b');
      ConcatAssoc(ConcatMap(f, a), ConcatMap(f, b'), f(b[|b| - 1]));
    }
  }

  /** A loop over a single element yields exactly what that element yields. */
  lemma ConcatMapSingle<T, X, E>(f: T -> Result<seq<X>, E>, x: T)
    ensures ConcatMap(f, [x]) == f(x)
  {
    assert [x][..0] == [];
    assert f(x).Ok? ==> [] + f(x).value == f(x).value;
  }
}
