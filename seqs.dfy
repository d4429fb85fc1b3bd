/** Order-preserving selection from a sequence: the model of a pandas boolean
    mask (`df[mask]`) and of every "keep the elements that satisfy ..." step. */
module Seqs {

  /** The elements of `xs` that satisfy `keep`, in their original order. */
  function Where<T>(xs: seq<T>, keep: T -> bool): seq<T>
  {
    if xs == [] then []
    else (if keep(xs[0]) then [xs[0]] else []) + Where(xs[1..], keep)
  }

  /** The selection is a sub-list: every element kept satisfies the
      condition, and every element that satisfies it is kept. */
  lemma {:induction false} WhereSpec<T>(xs: seq<T>, keep: T -> bool)
    ensures |Where(xs, keep)| <= |xs|
    ensures forall x :: x in Where(xs, keep) ==> x in xs && keep(x)
    ensures forall x :: x in xs && keep(x) ==> x in Where(xs, keep)
  {
    if xs != [] {
      WhereSpec(xs[1..], keep);
      var head := if keep(xs[0]) then [xs[0]] else [];
      assert Where(xs, keep) == head + Where(xs[1..], keep);
      assert xs == [xs[0]] + xs[1..];
    }
  }

  /** Selection distributes over concatenation: it never reorders. */
  lemma {:induction false} WhereAppend<T>(a: seq<T>, b: seq<T>, keep: T -> bool)
    ensures Where(a + b, keep) == Where(a, keep) + Where(b, keep)
  {
    if a == [] {
      assert a + b == b;
    } else {
      var head := if keep(a[0]) then [a[0]] else [];
      assert (a + b)[0] == a[0] && (a + b)[1..] == a[1..] + b;
      assert Where(a + b, keep) == head + Where(a[1..] + b, keep);
      WhereAppend(a[1..], b, keep);
      assert Where(a, keep) == head + Where(a[1..], keep);
    }
  }

  /** Every element goes to exactly one side of a selection and its complement. */
  lemma {:induction false} WhereSplit<T>(xs: seq<T>, keep: T -> bool, drop: T -> bool)
    requires forall x :: drop(x) == !keep(x)
    ensures |Where(xs, keep)| + |Where(xs, drop)| == |xs|
  {
    if xs != [] {
      WhereSplit(xs[1..], keep, drop);
    }
  }

  /** Two selections in a row select the elements satisfying both conditions. */
  lemma {:induction false} WhereWhere<T>(xs: seq<T>, first: T -> bool, second: T -> bool, both: T -> bool)
    requires forall x :: both(x) == (first(x) && second(x))
    ensures Where(Where(xs, first), second) == Where(xs, both)
  {
    if xs != [] {
      var tail := Where(xs[1..], first);
      WhereWhere(xs[1..], first, second, both);
      if first(xs[0]) {
        assert Where(xs, first) == [xs[0]] + tail;
        assert ([xs[0]] + tail)[1..] == tail;
      } else {
        assert Where(xs, first) == tail;
      }
    }
  }

  /** A selection whose condition holds of nothing is empty. */
  lemma {:induction false} WhereNone<T>(xs: seq<T>, keep: T -> bool)
    requires forall i :: 0 <= i < |xs| ==> !keep(xs[i])
    ensures Where(xs, keep) == []
  {
    if xs != [] {
      WhereNone(xs[1..], keep);
    }
  }

  /** A selection whose condition holds of everything keeps everything. */
  lemma {:induction false} WhereEvery<T>(xs: seq<T>, keep: T -> bool)
    requires forall i :: 0 <= i < |xs| ==> keep(xs[i])
    ensures Where(xs, keep) == xs
  {
    if xs != [] {
      WhereEvery(xs[1..], keep);
    }
  }

  /** Selection from a sequence with a known first element. */
  lemma WhereCons<T>(x: T, xs: seq<T>, keep: T -> bool)
    ensures Where([x] + xs, keep) == (if keep(x) then [x] else []) + Where(xs, keep)
  {
    assert ([x] + xs)[1..] == xs;
  }

  /** Selecting from two elements that both qualify keeps both. */
  lemma WhereKeepsTwo<T>(b: T, c: T, keep: T -> bool)
    requires keep(b) && keep(c)
    ensures Where([b, c], keep) == [b, c]
  {
    WhereCons(c, [], keep);
    assert [c] + [] == [c];
    WhereCons(b, [c], keep);
    assert [b] + [c] == [b, c];
  }

  /** Selecting from three elements that all qualify keeps all three. */
  lemma WhereKeepsThree<T>(a: T, b: T, c: T, keep: T -> bool)
    requires keep(a) && keep(b) && keep(c)
    ensures Where([a, b, c], keep) == [a, b, c]
  {
    WhereKeepsTwo(b, c, keep);
    WhereCons(a, [b, c], keep);
    assert [a] + [b, c] == [a, b, c];
  }

  /** Selecting from four elements drops exactly the second when only it fails. */
  lemma WhereDropsSecond<T>(a: T, x: T, b: T, c: T, keep: T -> bool)
    requires keep(a) && !keep(x) && keep(b) && keep(c)
    ensures Where([a, x, b, c], keep) == [a, b, c]
  {
    WhereKeepsTwo(b, c, keep);
    WhereCons(x, [b, c], keep);
    assert [x] + [b, c] == [x, b, c];
    WhereCons(a, [x, b, c], keep);
    assert [a] + [x, b, c] == [a, x, b, c];
    assert [a] + [b, c] == [a, b, c];
  }
}
