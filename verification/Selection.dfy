/**
  Order-preserving selection from a sequence.  Histories of the session protocol are
  sequences that only grow at the end, so selection recurses on the last element.
 */
module Selection {

  datatype Option<+T> = None | Some(value: T)

  /** The elements of `xs` that satisfy `keep`, in order. */
  ghost function Select<T>(xs: seq<T>, keep: T -> bool): (r: seq<T>)
    ensures |r| <= |xs|
  {
    if xs == [] then []
    else
      var rest := Select(xs[..|xs| - 1], keep);
      if keep(xs[|xs| - 1]) then rest + [xs[|xs| - 1]] else rest
  }

  lemma SelectSnoc<T>(xs: seq<T>, x: T, keep: T -> bool)
    ensures Select(xs + [x], keep) == Select(xs, keep) + (if keep(x) then [x] else [])
  {
    assert (xs + [x])[..|xs|] == xs;
  }

  /** Selecting from one more element of a history adds that element or nothing. */
  lemma SelectNext<T>(xs: seq<T>, n: nat, keep: T -> bool)
    requires n < |xs|
    ensures Select(xs[..n + 1], keep) == Select(xs[..n], keep) + (if keep(xs[n]) then [xs[n]] else [])
  {
    assert xs[..n + 1] == xs[..n] + [xs[n]];
    SelectSnoc(xs[..n], xs[n], keep);
  }

  /** Selecting from a prefix yields a prefix of the selection. */
  lemma {:induction false} SelectPrefix<T>(xs: seq<T>, n: nat, keep: T -> bool)
    requires n <= |xs|
    ensures Select(xs[..n], keep) <= Select(xs, keep)
    decreases |xs|
  {
    if n == |xs| {
      assert xs[..n] == xs;
    } else {
      var init := xs[..|xs| - 1];
      assert init[..n] == xs[..n];
      SelectPrefix(init, n, keep);
    }
  }

  lemma {:induction false} SelectAll<T>(xs: seq<T>, keep: T -> bool)
    ensures forall i :: 0 <= i < |Select(xs, keep)| ==> keep(Select(xs, keep)[i])
    ensures forall x :: x in Select(xs, keep) <==> x in xs && keep(x)
  {
    if xs != [] {
      SelectAll(xs[..|xs| - 1], keep);
    }
  }

  lemma {:induction false} SelectNone<T>(xs: seq<T>, keep: T -> bool)
    requires forall i :: 0 <= i < |xs| ==> !keep(xs[i])
    ensures Select(xs, keep) == []
  {
    if xs != [] {
      SelectNone(xs[..|xs| - 1], keep);
    }
  }
}
