/**
 Warning lists are built group by group in a fixed priority order, with at
 most one warning per group. `StrictlyRanked` states exactly that.
 */
module Ranking {

  /** Each element belongs to a strictly later group than every element before it. */
  predicate StrictlyRanked<T>(xs: seq<T>, group: T -> nat) {
    forall i, j :: 0 <= i < j < |xs| ==> group(xs[i]) < group(xs[j])
  }

  /** A strictly ranked list drawn from the groups lo..hi-1 holds at most hi - lo elements. */
  lemma {:induction false} RankedLengthBound<T>(xs: seq<T>, group: T -> nat, lo: nat, hi: nat)
    requires lo <= hi
    requires StrictlyRanked(xs, group)
    requires forall i :: 0 <= i < |xs| ==> lo <= group(xs[i]) < hi
    ensures |xs| <= hi - lo
  {
    if |xs| > 0 {
      var g := group(xs[0]);
      var tail := xs[1..];
      assert forall i :: 0 <= i < |tail| ==> tail[i] == xs[i + 1];
      assert forall i :: 0 <= i < |tail| ==> g + 1 <= group(tail[i]) < hi;
      RankedLengthBound(tail, group, g + 1, hi);
    }
  }

  /** Every element of `xs` is in group `g`, and there is at most one. */
  predicate AtMostOneOf<T>(xs: seq<T>, group: T -> nat, g: nat) {
    |xs| <= 1 && forall i :: 0 <= i < |xs| ==> group(xs[i]) == g
  }

  /** Appending a list of one later group keeps the ranking strict. */
  lemma RankedAppend<T>(xs: seq<T>, ys: seq<T>, group: T -> nat, g: nat)
    requires StrictlyRanked(xs, group)
    requires forall i :: 0 <= i < |xs| ==> group(xs[i]) < g
    requires AtMostOneOf(ys, group, g)
    ensures StrictlyRanked(xs + ys, group)
    ensures forall i :: 0 <= i < |xs + ys| ==> group((xs + ys)[i]) <= g
  {
  }

  /** An element of another group does not occur in a one-group list. */
  lemma NotInOtherGroup<T>(xs: seq<T>, group: T -> nat, g: nat, x: T)
    requires AtMostOneOf(xs, group, g)
    requires group(x) != g
    ensures x !in xs
  {
  }
}
