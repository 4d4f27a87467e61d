/** `sphere_coefficients` in lorenzmie.py for a single homogeneous layer:
    the sizes of its work arrays, the index ranges its downward and upward
    recurrences write, the seeds they keep, and the 2 x (nmax+1) table `ab`
    of Lorenz-Mie coefficients with its zeroed column 0. Every entry is the
    expression of module Complex that the source evaluates for it. The size
    parameter x (it needs pi), cbrt(x), |x m| and the library values
    sin(x), exp(ix) and exp(2ix) are supplied by the caller. */
module MieCoefficients {
  import opened Complex
  import opened Convergence
  import opened Roll

  /** One column of `ab`: the pair (a_n, b_n). */
  datatype Coefficient = Coefficient(a: Complex, b: Complex)

  /** `ab` is a two-row array whose column n holds the pair t[n]. */
  ghost predicate Tabulates(ab: array2<Complex>, t: seq<Coefficient>)
    reads ab
  {
    ab.Length0 == 2 && ab.Length1 == |t| &&
    forall n :: 0 <= n < |t| ==> ab[0, n] == t[n].a && ab[1, n] == t[n].b
  }

  // ---------------------------------------------------------------------
  // Downward recurrence for the logarithmic derivative D1, Eqs. (16a), (16b)

  /** D1[n-1] computed from its upper neighbour D1[n]: n/z - 1/(D1[n] + n/z). */
  function LogDerivativeStep(n: nat, z: Complex, next: Complex): Complex {
    var nz := Div(FromReal(n as real), z);
    Sub(nz, Div(One, Add(next, nz)))
  }

  /** Entry k of D1 after the recurrence that starts from the zero seed at
      index `top`: zero at and above `top`, otherwise one step down from k+1. */
  function LogDerivativeAt(z: Complex, top: nat, k: nat): Complex
    decreases top - k
  {
    if k >= top then Zero else LogDerivativeStep(k + 1, z, LogDerivativeAt(z, top, k + 1))
  }

  /** The whole array D1 of length `len` after the downward recurrence. */
  function LogDerivatives(z: Complex, len: nat, top: nat): (d: seq<Complex>)
    requires top < len
    ensures |d| == len
    ensures forall k :: 0 <= k < len ==> d[k] == LogDerivativeAt(z, top, k)
  {
    seq(len, k requires 0 <= k => LogDerivativeAt(z, top, k))
  }

  /** The entries from `top` on keep their zero seed, and each entry below
      `top` is one step of (16b) from its upper neighbour. */
  lemma LogDerivativesSeedAndStep(z: Complex, len: nat, top: nat)
    requires top < len
    ensures forall k :: top <= k < len ==> LogDerivatives(z, len, top)[k] == Zero
    ensures forall k :: 0 <= k < top ==>
              LogDerivatives(z, len, top)[k] == LogDerivativeStep(k + 1, z, LogDerivatives(z, len, top)[k + 1])
  {
  }

  /** The loop `for n in reversed(range(1, top + 1)): D[n-1] = step(n, D[n])`
      over a zero-initialised array of length `len`: it writes exactly the
      indices 0 .. top-1, and the entries from `top` on keep the zero seed. */
  method DownwardRecurrence(z: Complex, len: nat, top: nat) returns (d: array<Complex>)
    requires top < len
    ensures d.Length == len
    ensures d[..] == LogDerivatives(z, len, top)
  {
    d := new Complex[len](_ => Zero);
    var n := top;
    while n >= 1
      invariant 0 <= n <= top
      invariant forall k :: n <= k < len ==> d[k] == LogDerivativeAt(z, top, k)
      invariant forall k :: 0 <= k < n ==> d[k] == Zero
    {
      ghost var next := LogDerivativeAt(z, top, n - 1);
      assert next == LogDerivativeStep(n, z, d[n]);
      d[n - 1] := LogDerivativeStep(n, z, d[n]);
      n := n - 1;
    }
    assert forall k :: 0 <= k < len ==> d[..][k] == LogDerivatives(z, len, top)[k];
  }

  // ---------------------------------------------------------------------
  // Upward recurrence for Psi, Zeta, PsiZeta and D3, Eqs. (18a), (18b)

  /** Entry n of the four arrays Psi, Zeta, PsiZeta and D3. */
  datatype Riccati = Riccati(psi: Complex, zeta: Complex, psiZeta: Complex, d3: Complex)

  const RiccatiZero: Riccati := Riccati(Zero, Zero, Zero, Zero)

  /** The closed forms at n = 0, Eq. (18a), for the real argument x:
      Psi0 = sin x, Zeta0 = -i exp(ix), PsiZeta0 = 0.5 (1 - exp(2ix)), D3_0 = i. */
  function RiccatiSeed(sinX: Complex, expIX: Complex, exp2IX: Complex): Riccati {
    Riccati(sinX, Mul(Literal(0.0, -1.0), expIX), Mul(FromReal(0.5), Sub(One, exp2IX)), I)
  }

  /** One order of the upward recurrence (18b): entry n from entry n-1 and
      the medium-side D1 at n-1 and n. */
  function RiccatiStep(n: nat, z: Complex, d1Prev: Complex, d1Here: Complex, p: Riccati): Riccati {
    var nz := Div(FromReal(n as real), z);
    var u := Sub(nz, d1Prev);
    var v := Sub(nz, p.d3);
    var pz := Mul(Mul(p.psiZeta, u), v);
    Riccati(Mul(p.psi, u), Mul(p.zeta, v), pz, Add(d1Here, Div(I, pz)))
  }

  /** Entry n of the upward recurrence driven by the medium-side D1. */
  function RiccatiAt(z: Complex, d1: seq<Complex>, sinX: Complex, expIX: Complex, exp2IX: Complex, n: nat): Riccati
    requires n < |d1|
  {
    if n == 0 then RiccatiSeed(sinX, expIX, exp2IX)
    else RiccatiStep(n, z, d1[n - 1], d1[n], RiccatiAt(z, d1, sinX, expIX, exp2IX, n - 1))
  }

  /** The four arrays, of length nmax+1, after the upward loop: seeds at 0,
      the recurrence at 1 .. nmax-1, and the zero initial value at nmax. */
  function RiccatiTable(z: Complex, d1: seq<Complex>, sinX: Complex, expIX: Complex, exp2IX: Complex, nmax: nat): (t: seq<Riccati>)
    requires 1 <= nmax <= |d1|
    ensures |t| == nmax + 1
    ensures t[0] == RiccatiSeed(sinX, expIX, exp2IX)
    ensures t[nmax] == RiccatiZero
    ensures forall n :: 0 <= n < nmax ==> t[n] == RiccatiAt(z, d1, sinX, expIX, exp2IX, n)
  {
    seq(nmax + 1, n requires 0 <= n <= nmax => if n < nmax then RiccatiAt(z, d1, sinX, expIX, exp2IX, n) else RiccatiZero)
  }

  /** The four arrays Psi, Zeta, PsiZeta and D3 of length nmax+1, zero
      initialised, seeded at index 0 by Eq. (18a) and then filled by the loop
      `for n in range(1, nmax)`: indices 1 .. nmax-1 hold the recurrence and
      index nmax is never written. `d1` is only read. */
  method UpwardRecurrence(z: Complex, d1: array<Complex>, nmax: nat, sinX: Complex, expIX: Complex, exp2IX: Complex)
    returns (psi: array<Complex>, zeta: array<Complex>, psiZeta: array<Complex>, d3: array<Complex>)
    requires 1 <= nmax <= d1.Length
    ensures psi.Length == nmax + 1 && zeta.Length == nmax + 1
    ensures psiZeta.Length == nmax + 1 && d3.Length == nmax + 1
    ensures forall n :: 0 <= n <= nmax ==>
              Riccati(psi[n], zeta[n], psiZeta[n], d3[n]) == RiccatiTable(z, d1[..], sinX, expIX, exp2IX, nmax)[n]
  {
    psi := new Complex[nmax + 1](_ => Zero);
    zeta := new Complex[nmax + 1](_ => Zero);
    psiZeta := new Complex[nmax + 1](_ => Zero);
    d3 := new Complex[nmax + 1](_ => Zero);
    var seed := RiccatiSeed(sinX, expIX, exp2IX);
    psi[0], zeta[0], psiZeta[0], d3[0] := seed.psi, seed.zeta, seed.psiZeta, I;
    RecurUpward(z, d1[..], nmax, sinX, expIX, exp2IX, psi, zeta, psiZeta, d3);
  }

  /** The loop `for n in range(1, nmax)` of Eq. (18b) over arrays whose
      index 0 holds the seeds and whose other entries are still zero. */
  method RecurUpward(z: Complex, d1: seq<Complex>, nmax: nat, ghost sinX: Complex, ghost expIX: Complex,
                     ghost exp2IX: Complex, psi: array<Complex>, zeta: array<Complex>,
                     psiZeta: array<Complex>, d3: array<Complex>)
    requires 1 <= nmax <= |d1|
    requires psi.Length == zeta.Length == psiZeta.Length == d3.Length == nmax + 1
    requires psi != zeta && psi != psiZeta && psi != d3 && zeta != psiZeta && zeta != d3 && psiZeta != d3
    requires Riccati(psi[0], zeta[0], psiZeta[0], d3[0]) == RiccatiSeed(sinX, expIX, exp2IX)
    requires forall k :: 1 <= k <= nmax ==> Riccati(psi[k], zeta[k], psiZeta[k], d3[k]) == RiccatiZero
    modifies psi, zeta, psiZeta, d3
    ensures forall n :: 0 <= n <= nmax ==>
              Riccati(psi[n], zeta[n], psiZeta[n], d3[n]) == RiccatiTable(z, d1, sinX, expIX, exp2IX, nmax)[n]
  {
    ghost var t := RiccatiTable(z, d1, sinX, expIX, exp2IX, nmax);
    for n := 1 to nmax
      invariant forall k :: 0 <= k < n ==> Riccati(psi[k], zeta[k], psiZeta[k], d3[k]) == t[k]
      invariant forall k :: n <= k <= nmax ==> Riccati(psi[k], zeta[k], psiZeta[k], d3[k]) == RiccatiZero
    {
      var next := RiccatiStep(n, z, d1[n - 1], d1[n], Riccati(psi[n - 1], zeta[n - 1], psiZeta[n - 1], d3[n - 1]));
      assert next == t[n];
      psi[n], zeta[n], psiZeta[n], d3[n] := next.psi, next.zeta, next.psiZeta, next.d3;
    }
  }

  // ---------------------------------------------------------------------
  // The coefficients, Eqs. (5) and (6)

  /** Eq. (5): a_n from Ha_n = D1_a[n], m, Psi_n, Psi_{n-1}, Zeta_n, Zeta_{n-1}. */
  function MieA(x: real, m: Complex, n: nat, ha: Complex,
                psi: Complex, psiPrev: Complex, zeta: Complex, zetaPrev: Complex): Complex
  {
    var f := Add(Div(ha, m), Div(FromReal(n as real), FromReal(x)));
    Div(Sub(Mul(f, psi), psiPrev), Sub(Mul(f, zeta), zetaPrev))
  }

  /** Eq. (6): b_n, the same ratio with Hb_n * m in place of Ha_n / m. */
  function MieB(x: real, m: Complex, n: nat, hb: Complex,
                psi: Complex, psiPrev: Complex, zeta: Complex, zetaPrev: Complex): Complex
  {
    var g := Add(Mul(hb, m), Div(FromReal(n as real), FromReal(x)));
    Div(Sub(Mul(g, psi), psiPrev), Sub(Mul(g, zeta), zetaPrev))
  }

  /** Column n of `ab` before column 0 is cleared: Eq. (5) and Eq. (6). */
  function CoefficientAt(x: real, m: Complex, n: nat, h: Complex,
                         psi: Complex, psiPrev: Complex, zeta: Complex, zetaPrev: Complex): Coefficient
  {
    Coefficient(MieA(x, m, n, h, psi, psiPrev, zeta, zetaPrev), MieB(x, m, n, h, psi, psiPrev, zeta, zetaPrev))
  }

  /** The Psi (or Zeta) entries of a Riccati-Bessel table, as one array. */
  function PsiColumn(r: seq<Riccati>): (s: seq<Complex>)
    ensures |s| == |r| && forall n :: 0 <= n < |r| ==> s[n] == r[n].psi
  {
    seq(|r|, n requires 0 <= n < |r| => r[n].psi)
  }

  function ZetaColumn(r: seq<Riccati>): (s: seq<Complex>)
    ensures |s| == |r| && forall n :: 0 <= n < |r| ==> s[n] == r[n].zeta
  {
    seq(|r|, n requires 0 <= n < |r| => r[n].zeta)
  }

  /** Columns 0 .. nmax of `ab` as the source's loop computes them: Ha and Hb
      are the inside-sphere D1, and the previous order's Psi and Zeta are
      read from the rolled arrays. Column 0 is cleared. */
  function BuildTable(x: real, m: Complex, inside: seq<Complex>, psi: seq<Complex>, rolledPsi: seq<Complex>,
                      zeta: seq<Complex>, rolledZeta: seq<Complex>, nmax: nat): (t: seq<Coefficient>)
    requires |inside| > nmax && |psi| == |rolledPsi| == |zeta| == |rolledZeta| == nmax + 1
    ensures |t| == nmax + 1
    ensures t[0] == Coefficient(Zero, Zero)
    ensures forall n {:trigger t[n]} :: 1 <= n <= nmax ==>
              t[n] == CoefficientAt(x, m, n, inside[n], psi[n], rolledPsi[n], zeta[n], rolledZeta[n])
  {
    seq(nmax + 1, n requires 0 <= n <= nmax =>
      if n == 0 then Coefficient(Zero, Zero)
      else CoefficientAt(x, m, n, inside[n], psi[n], rolledPsi[n], zeta[n], rolledZeta[n]))
  }

  /** The table `ab` that `sphere_coefficients` returns, as a sequence of
      columns: the inside-sphere D1 with its recurrence started at nmax, the
      medium-side D1 with its recurrence started at nmax-1, the Riccati-Bessel
      table built from the latter, and its Psi and Zeta rolled by one. */
  function CoefficientTable(x: real, nSphere: Complex, nm: Complex,
                            cbrtX: real, absXM: real, sinX: Complex, expIX: Complex, exp2IX: Complex): (t: seq<Coefficient>)
    requires cbrtX >= 0.0 && absXM >= 0.0
    ensures |t| == Nstop(x, cbrtX, absXM) + 1
    ensures t[0] == Coefficient(Zero, Zero)
  {
    var nmax := Nstop(x, cbrtX, absXM);
    var r := RiccatiTable(FromReal(x), LogDerivatives(FromReal(x), nmax + 2, nmax - 1), sinX, expIX, exp2IX, nmax);
    var psi, zeta := PsiColumn(r), ZetaColumn(r);
    BuildTable(x, Div(nSphere, nm), LogDerivatives(Mul(FromReal(x), Div(nSphere, nm)), nmax + 2, nmax),
               psi, Rotated(psi, 1), zeta, Rotated(zeta, 1), nmax)
  }

  /** Eq. (5) and Eq. (6) at order n >= 1 read Psi and Zeta at orders n and
      n-1: the roll by one puts order n-1 in slot n. */
  lemma ColumnUsesPreviousOrder(x: real, m: Complex, inside: seq<Complex>, r: seq<Riccati>, nmax: nat, n: nat)
    requires |inside| > nmax && |r| == nmax + 1 && 1 <= n <= nmax
    ensures var psi, zeta := PsiColumn(r), ZetaColumn(r);
            BuildTable(x, m, inside, psi, Rotated(psi, 1), zeta, Rotated(zeta, 1), nmax)[n]
              == CoefficientAt(x, m, n, inside[n], r[n].psi, r[n - 1].psi, r[n].zeta, r[n - 1].zeta)
  {
    var psi, zeta := PsiColumn(r), ZetaColumn(r);
    RotatedByOne(psi);
    RotatedByOne(zeta);
    assert Rotated(psi, 1)[n] == r[n - 1].psi;
    assert Rotated(zeta, 1)[n] == r[n - 1].zeta;
  }

  /** At an order whose Psi and Zeta are the never-written zeros (order nmax
      of the table) Eq. (5) and Eq. (6) collapse to Psi_{n-1} / Zeta_{n-1}:
      whatever Ha, Hb and m, as long as their factors have a value. The
      column does not depend on m or the inside D1: for a given nmax it
      depends on x alone, and nmax itself depends on |x m|. */
  lemma UnwrittenOrderColumn(x: real, m: Complex, n: nat, h: Complex, psiPrev: Complex, zetaPrev: Complex)
    ensures Eval(Add(Div(h, m), Div(FromReal(n as real), FromReal(x)))).Exact? ==>
              Eval(MieA(x, m, n, h, Zero, psiPrev, Zero, zetaPrev)) == Eval(Div(psiPrev, zetaPrev))
    ensures Eval(Add(Mul(h, m), Div(FromReal(n as real), FromReal(x)))).Exact? ==>
              Eval(MieB(x, m, n, h, Zero, psiPrev, Zero, zetaPrev)) == Eval(Div(psiPrev, zetaPrev))
  {
    CollapsedRatio(Add(Div(h, m), Div(FromReal(n as real), FromReal(x))), psiPrev, zetaPrev);
    CollapsedRatio(Add(Mul(h, m), Div(FromReal(n as real), FromReal(x))), psiPrev, zetaPrev);
  }

  /** (f 0 - p) / (f 0 - q) has the value of p / q when f has a value. */
  lemma CollapsedRatio(f: Complex, p: Complex, q: Complex)
    ensures Eval(f).Exact? ==> Eval(Div(Sub(Mul(f, Zero), p), Sub(Mul(f, Zero), q))) == Eval(Div(p, q))
  {
    var e := Eval(f);
    if e.Exact? {
      assert e.re * 0.0 - e.im * 0.0 == 0.0 && e.re * 0.0 + e.im * 0.0 == 0.0;
      assert Eval(Mul(f, Zero)) == Exact(0.0, 0.0);
      NegatedQuotient(Eval(p), Eval(q));
    }
  }

  /** Negating both operands leaves a quotient unchanged. */
  lemma NegatedQuotient(a: Exact, b: Exact)
    ensures Quotient(Minus(Exact(0.0, 0.0), a), Minus(Exact(0.0, 0.0), b)) == Quotient(a, b)
  {
    if a.Exact? && b.Exact? {
      assert (-b.re) * (-b.re) + (-b.im) * (-b.im) == b.re * b.re + b.im * b.im;
      assert (-a.re) * (-b.re) + (-a.im) * (-b.im) == a.re * b.re + a.im * b.im;
      assert (-a.im) * (-b.re) - (-a.re) * (-b.im) == a.im * b.re - a.re * b.im;
    }
  }

  /** Slot 0 of each rolled array wraps around to order nmax, which the
      upward loop never writes; it is zero, and column 0 is cleared anyway. */
  lemma RolledSlotZeroIsZero(z: Complex, d1: seq<Complex>, sinX: Complex, expIX: Complex, exp2IX: Complex, nmax: nat)
    requires 1 <= nmax <= |d1|
    ensures var r := RiccatiTable(z, d1, sinX, expIX, exp2IX, nmax);
            Rotated(PsiColumn(r), 1)[0] == Zero && Rotated(ZetaColumn(r), 1)[0] == Zero
  {
    var r := RiccatiTable(z, d1, sinX, expIX, exp2IX, nmax);
    RotatedByOne(PsiColumn(r));
    RotatedByOne(ZetaColumn(r));
  }

  /** `sphere_coefficients`: a 2 x (nmax+1) table with nmax = Nstop(x, m),
      both entries of column 0 zero, and column n the Lorenz-Mie pair of
      order n. */
  method SphereCoefficients(x: real, nSphere: Complex, nm: Complex,
                            cbrtX: real, absXM: real, sinX: Complex, expIX: Complex, exp2IX: Complex)
    returns (ab: array2<Complex>)
    requires cbrtX >= 0.0 && absXM >= 0.0
    ensures ab.Length0 == 2 && ab.Length1 == Nstop(x, cbrtX, absXM) + 1
    ensures ab[0, 0] == Zero && ab[1, 0] == Zero
    ensures Tabulates(ab, CoefficientTable(x, nSphere, nm, cbrtX, absXM, sinX, expIX, exp2IX))
  {
    var m := Div(nSphere, nm);
    var nmax: nat := Nstop(x, cbrtX, absXM);
    ghost var medium := LogDerivatives(FromReal(x), nmax + 2, nmax - 1);
    ghost var r := RiccatiTable(FromReal(x), medium, sinX, expIX, exp2IX, nmax);

    // inside the sphere: argument x m, loop from n = nmax down to 1
    var d1a := DownwardRecurrence(Mul(FromReal(x), m), nmax + 2, nmax);
    // in the medium: argument x, loop from n = nmax - 1 down to 1
    var d1 := DownwardRecurrence(FromReal(x), nmax + 2, nmax - 1);

    var psi, zeta, psiZeta, d3 := UpwardRecurrence(FromReal(x), d1, nmax, sinX, expIX, exp2IX);
    assert psi[..] == PsiColumn(r);
    assert zeta[..] == ZetaColumn(r);
    ab := FillTable(x, m, nmax, d1a, psi, zeta, LogDerivatives(Mul(FromReal(x), m), nmax + 2, nmax),
                    PsiColumn(r), ZetaColumn(r));
    CoefficientTableStages(x, nSphere, nm, cbrtX, absXM, sinX, expIX, exp2IX);
  }

  /** The stages of `CoefficientTable`, as `SphereCoefficients` runs them. */
  lemma CoefficientTableStages(x: real, nSphere: Complex, nm: Complex,
                               cbrtX: real, absXM: real, sinX: Complex, expIX: Complex, exp2IX: Complex)
    requires cbrtX >= 0.0 && absXM >= 0.0
    ensures var nmax, m := Nstop(x, cbrtX, absXM), Div(nSphere, nm);
            var r := RiccatiTable(FromReal(x), LogDerivatives(FromReal(x), nmax + 2, nmax - 1), sinX, expIX, exp2IX, nmax);
            CoefficientTable(x, nSphere, nm, cbrtX, absXM, sinX, expIX, exp2IX)
              == BuildTable(x, m, LogDerivatives(Mul(FromReal(x), m), nmax + 2, nmax),
                            PsiColumn(r), Rotated(PsiColumn(r), 1), ZetaColumn(r), Rotated(ZetaColumn(r), 1), nmax)
  {
  }

  /** The roll by one of Psi and Zeta and the loop `for n in range(nmax+1)`
      that fills `ab` from Eq. (5) and Eq. (6), then `ab[:, 0] = 0`. Ha and
      Hb are both the first nmax+1 entries of the inside-sphere D1. */
  method FillTable(x: real, m: Complex, nmax: nat, d1a: array<Complex>, psi: array<Complex>, zeta: array<Complex>,
                   ghost inside: seq<Complex>, ghost p: seq<Complex>, ghost q: seq<Complex>)
    returns (ab: array2<Complex>)
    requires d1a.Length > nmax && psi.Length == zeta.Length == nmax + 1
    requires d1a[..] == inside && psi[..] == p && zeta[..] == q
    ensures Tabulates(ab, BuildTable(x, m, inside, p, Rotated(p, 1), q, Rotated(q, 1), nmax))
  {
    var shiftPsi := Shift(psi, 1);
    var shiftZeta := Shift(zeta, 1);
    ab := Columns(x, m, nmax, d1a[..], psi[..], shiftPsi[..], zeta[..], shiftZeta[..]);
  }

  /** The loop of Eq. (5) and Eq. (6) over the orders 0 .. nmax, reading the
      order-n and rolled entries, followed by `ab[:, 0] = 0`. */
  method Columns(x: real, m: Complex, nmax: nat, h: seq<Complex>, psi: seq<Complex>, shiftPsi: seq<Complex>,
                 zeta: seq<Complex>, shiftZeta: seq<Complex>)
    returns (ab: array2<Complex>)
    requires |h| > nmax && |psi| == |shiftPsi| == |zeta| == |shiftZeta| == nmax + 1
    ensures Tabulates(ab, BuildTable(x, m, h, psi, shiftPsi, zeta, shiftZeta, nmax))
  {
    ghost var t := BuildTable(x, m, h, psi, shiftPsi, zeta, shiftZeta, nmax);
    ab := new Complex[2, nmax + 1]((_, _) => Zero);
    for n := 0 to nmax + 1
      invariant forall k :: 1 <= k < n ==> ab[0, k] == t[k].a && ab[1, k] == t[k].b
    {
      var c := CoefficientAt(x, m, n, h[n], psi[n], shiftPsi[n], zeta[n], shiftZeta[n]);
      assert n >= 1 ==> c == t[n];
      ab[0, n], ab[1, n] := c.a, c.b;
    }
    ab[0, 0], ab[1, 0] := Zero, Zero;
  }
}
