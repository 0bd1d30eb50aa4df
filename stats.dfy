/**
 * The running average of `updateDecibels`: `decibelValues.reduce(0, +)` divided by the
 * count. `Sum` folds from the left, starting at 0, as `reduce` does.
 */
module Stats {

  function Sum(s: seq<real>): real
  {
    if |s| == 0 then 0.0 else Sum(s[..|s| - 1]) + s[|s| - 1]
  }

  /** Arithmetic mean of a non-empty history. */
  function Mean(s: seq<real>): real
    requires |s| > 0
  {
    Sum(s) / (|s| as real)
  }

  /** Every element of `s` lies in [lo, hi]. */
  ghost predicate Within(s: seq<real>, lo: real, hi: real)
  {
    forall i :: 0 <= i < |s| ==> lo <= s[i] <= hi
  }

  /** A history of n readings in [lo, hi] sums to between n*lo and n*hi. */
  lemma {:induction false} SumBounds(s: seq<real>, lo: real, hi: real)
    requires Within(s, lo, hi)
    ensures (|s| as real) * lo <= Sum(s) <= (|s| as real) * hi
  {
    if |s| > 0 {
      var init := s[..|s| - 1];
      assert Within(init, lo, hi) by {
        forall i | 0 <= i < |init| ensures lo <= init[i] <= hi {
          assert init[i] == s[i];
        }
      }
      SumBounds(init, lo, hi);
      assert (|s| as real) * lo == (|init| as real) * lo + lo;
      assert (|s| as real) * hi == (|init| as real) * hi + hi;
    }
  }

  /** The mean of readings in [lo, hi] is itself in [lo, hi]. */
  lemma MeanBounds(s: seq<real>, lo: real, hi: real)
    requires |s| > 0
    requires Within(s, lo, hi)
    ensures lo <= Mean(s) <= hi
  {
    SumBounds(s, lo, hi);
    var n := |s| as real;
    assert Mean(s) * n == Sum(s);
  }

  /** Bounds of a whole sequence bound its last part. */
  lemma WithinSuffix(p: seq<real>, h: seq<real>, lo: real, hi: real)
    requires Within(p + h, lo, hi)
    ensures Within(h, lo, hi)
  {
    forall i | 0 <= i < |h| ensures lo <= h[i] <= hi {
      assert h[i] == (p + h)[|p| + i];
    }
  }

  /** Widening bounds to cover one more reading keeps every earlier reading inside them. */
  lemma AppendWithin(s: seq<real>, x: real, lo: real, hi: real, lo': real, hi': real)
    requires Within(s, lo, hi)
    requires lo' <= lo && hi <= hi' && lo' <= x <= hi'
    ensures Within(s + [x], lo', hi')
  {
    forall i | 0 <= i < |s + [x]| ensures lo' <= (s + [x])[i] <= hi' {
      if i < |s| {
        assert (s + [x])[i] == s[i];
      }
    }
  }

  /** The smallest reading, folded from the left as `minimum` is updated tick by tick. */
  function Least(s: seq<real>): real
    requires |s| > 0
  {
    if |s| == 1 then s[0]
    else var m := Least(s[..|s| - 1]); if s[|s| - 1] < m then s[|s| - 1] else m
  }

  /** The largest reading, folded from the left as `maximum` is updated tick by tick. */
  function Greatest(s: seq<real>): real
    requires |s| > 0
  {
    if |s| == 1 then s[0]
    else var m := Greatest(s[..|s| - 1]); if s[|s| - 1] > m then s[|s| - 1] else m
  }

  /** `Least` and `Greatest` are the extremes: readings of `s` that bound all of `s`. */
  lemma {:induction false} ExtremesOfSeq(s: seq<real>)
    requires |s| > 0
    ensures Least(s) in s && Greatest(s) in s
    ensures Within(s, Least(s), Greatest(s))
  {
    if |s| > 1 {
      var init := s[..|s| - 1];
      ExtremesOfSeq(init);
      assert s == init + [s[|s| - 1]];
      AppendWithin(init, s[|s| - 1], Least(init), Greatest(init), Least(s), Greatest(s));
    }
  }

  /** Adding a reading to the right folds it into the extremes. */
  lemma ExtremesAppend(s: seq<real>, x: real)
    requires |s| > 0
    ensures Least(s + [x]) == (if x < Least(s) then x else Least(s))
    ensures Greatest(s + [x]) == (if x > Greatest(s) then x else Greatest(s))
  {
    assert (s + [x])[..|s|] == s;
  }
}
