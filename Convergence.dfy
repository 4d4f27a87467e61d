/** `Nstop` in lorenzmie.py: how many multipole orders the partial-wave
    expansion keeps. The cube root `x ** (1/3)` and the modulus `abs(x*m)`
    are transcendental; they enter as the non-negative reals `cbrtX` and
    `absXM` that the caller computes. */
module Convergence {

  function Max(a: real, b: real): real {
    if a >= b then a else b
  }

  /** Wiscombe's (1980) estimate `ns`, chosen by the range of the size
      parameter: below 8, from 8 up to 4200, and from 4200 on. */
  function WiscombeTerms(x: real, cbrtX: real): int {
    if x < 8.0 then (x + 4.0 * cbrtX + 1.0).Floor
    else if x < 4200.0 then (x + 4.05 * cbrtX + 2.0).Floor
    else (x + 4.0 * cbrtX + 2.0).Floor  // the source's third guard, x > 4199, always holds here
  }

  /** Yang's (2003) correction: the larger of `ns` and |x m|, floored, plus
      a margin of 15 orders. */
  function Nstop(x: real, cbrtX: real, absXM: real): (n: int)
    requires cbrtX >= 0.0 && absXM >= 0.0
    ensures n >= 15
  {
    Max(WiscombeTerms(x, cbrtX) as real, absXM).Floor + 15
  }

  /** The estimate exceeds the size parameter itself whenever x >= 0. */
  lemma WiscombeExceedsSize(x: real, cbrtX: real)
    requires x >= 0.0 && cbrtX >= 0.0
    ensures WiscombeTerms(x, cbrtX) as real > x
    ensures WiscombeTerms(x, cbrtX) >= x.Floor + 1
  {
    var ns := WiscombeTerms(x, cbrtX);
    var arg := if x < 8.0 then x + 4.0 * cbrtX + 1.0
               else if x < 4200.0 then x + 4.05 * cbrtX + 2.0
               else x + 4.0 * cbrtX + 2.0;
    assert ns == arg.Floor;
    assert arg >= x + 1.0;
    assert ns as real > arg - 1.0;
  }

  /** The term count is the larger of the two estimates plus the margin:
      floor(max(ns, |x m|)) + 15 == max(ns, floor(|x m|)) + 15. */
  lemma NstopIsMaxOfEstimates(x: real, cbrtX: real, absXM: real)
    requires cbrtX >= 0.0 && absXM >= 0.0
    ensures var ns := WiscombeTerms(x, cbrtX);
            Nstop(x, cbrtX, absXM) == (if ns >= absXM.Floor then ns else absXM.Floor) + 15
  {
    var ns := WiscombeTerms(x, cbrtX);
    if ns as real >= absXM {
      assert (ns as real).Floor == ns;
      assert ns >= absXM.Floor;
    } else {
      assert ns <= absXM.Floor;
    }
  }

  /** Lower bounds promised by the construction: at least ns + 15, at least
      floor(|x m|) + 15, and at least 16 for a positive size parameter. */
  lemma NstopLowerBounds(x: real, cbrtX: real, absXM: real)
    requires cbrtX >= 0.0 && absXM >= 0.0
    ensures Nstop(x, cbrtX, absXM) >= WiscombeTerms(x, cbrtX) + 15
    ensures Nstop(x, cbrtX, absXM) >= absXM.Floor + 15
    ensures x > 0.0 ==> Nstop(x, cbrtX, absXM) >= 16
  {
    NstopIsMaxOfEstimates(x, cbrtX, absXM);
    if x > 0.0 {
      WiscombeExceedsSize(x, cbrtX);
    }
  }

  /** The count is not monotone in x: for a fixed relative index m with
      |m| < 1.01, and the true cube roots of 4199.9 and 4200, the switch of
      coefficient from 4.05 to 4 at x = 4200 makes the larger sphere get
      one order fewer. */
  lemma NstopDropsAt4200(r1: real, r2: real, absM: real)
    requires r1 >= 0.0 && r1 * r1 * r1 == 4199.9
    requires r2 >= 0.0 && r2 * r2 * r2 == 4200.0
    requires 0.0 <= absM < 1.01
    ensures Nstop(4199.9, r1, 4199.9 * absM) == 4267 + 15
    ensures Nstop(4200.0, r2, 4200.0 * absM) == 4266 + 15
  {
    CubeRootBounds(r1, 4199.9);
    CubeRootBounds(r2, 4200.0);
    assert WiscombeTerms(4199.9, r1) == 4267;
    assert WiscombeTerms(4200.0, r2) == 4266;
    assert 4199.9 * absM < 4266.0 && 4200.0 * absM < 4266.0;
    NstopIsMaxOfEstimates(4199.9, r1, 4199.9 * absM);
    NstopIsMaxOfEstimates(4200.0, r2, 4200.0 * absM);
  }

  /** Both 4199.9 and 4200 have their cube root between 16.13 and 16.14. */
  lemma CubeRootBounds(r: real, c: real)
    requires r >= 0.0 && r * r * r == c
    requires 4196.7 <= c <= 4204.3
    ensures 16.13 < r < 16.14
  {
  }
}
