/** The multipole sum of `sphericalfield` in lorenzmie.py, at one pixel.
    The source evaluates every pixel at once with numpy arrays of length
    npts; each array operation there is elementwise, so the model follows a
    single pixel, given by cos(theta), kr = k r and the library values
    sin(kr) and cos(kr). The result is the scattered field in spherical
    components before the geometric factors are put back. */
module MultipoleField {
  import opened Complex
  import opened MieCoefficients

  /** The components [r, theta, phi] of one pixel of Mo1n, Ne1n or Es. */
  datatype Spherical = Spherical(r: Complex, theta: Complex, phi: Complex)

  const ZeroVector: Spherical := Spherical(Zero, Zero, Zero)

  /** What the loop carries from one order to the next: pi_{n-1}, pi_n,
      xi_{n-2}, xi_{n-1} and the partial sum Es. */
  datatype Series = Series(piPrev: Complex, pi: Complex, xiPrev2: Complex, xiPrev: Complex, es: Spherical)

  /** xi_{-1}(kr) = cos kr + i sin kr. */
  function XiMinusOne(sinKr: Complex, cosKr: Complex): Complex {
    Add(cosKr, Mul(I, sinKr))
  }

  /** xi_0(kr) = sin kr - i cos kr. */
  function XiZero(sinKr: Complex, cosKr: Complex): Complex {
    Sub(sinKr, Mul(I, cosKr))
  }

  /** The state before order 1: pi_0 = 0, pi_1 = 1, xi_{-1}, xi_0, Es = 0. */
  function Start(sinKr: Complex, cosKr: Complex): Series {
    Series(Zero, One, XiMinusOne(sinKr, cosKr), XiZero(sinKr, cosKr), ZeroVector)
  }

  /** xi_n(kr) = (2n - 1) xi_{n-1} / kr - xi_{n-2}. */
  function XiStep(n: nat, kr: Complex, xiPrev2: Complex, xiPrev: Complex): Complex {
    Sub(Div(Mul(FromReal((2 * n - 1) as real), xiPrev), kr), xiPrev2)
  }

  /** pi_{n+1} by Wiscombe's form: s + ((n+1)/n) (s - pi_{n-1}), s = pi_n cos(theta). */
  function PiStep(n: nat, cosTheta: Complex, piPrev: Complex, pi: Complex): Complex
    requires n >= 1
  {
    var swisc := Mul(pi, cosTheta);
    Add(swisc, Mul(FromReal((n + 1) as real / n as real), Sub(swisc, piPrev)))
  }

  /** The prefactor E_n = i^n (2n + 1) / n / (n + 1). */
  function Prefactor(n: nat): Complex {
    Div(Div(Mul(IPow(n), FromReal((2 * n + 1) as real)), FromReal(n as real)), FromReal((n + 1) as real))
  }

  /** `Es += (En i a_n) Ne1n - (En b_n) Mo1n`, component by component. */
  function Accumulate(es: Spherical, x: Complex, ne: Spherical, y: Complex, mo: Spherical): Spherical {
    Spherical(Add(es.r, Sub(Mul(x, ne.r), Mul(y, mo.r))),
              Add(es.theta, Sub(Mul(x, ne.theta), Mul(y, mo.theta))),
              Add(es.phi, Sub(Mul(x, ne.phi), Mul(y, mo.phi))))
  }

  /** One pass of the loop body at order n with the coefficient pair c. The
      r component of Mo1n is never assigned and stays zero. */
  function OrderStep(n: nat, c: Coefficient, cosTheta: Complex, kr: Complex, s: Series): Series
    requires n >= 1
  {
    var twisc := Sub(Mul(s.pi, cosTheta), s.piPrev);
    var tau := Sub(s.piPrev, Mul(FromReal(n as real), twisc));
    var xi := XiStep(n, kr, s.xiPrev2, s.xiPrev);
    var mo := Spherical(Zero, Mul(s.pi, xi), Mul(tau, xi));
    var dn := Sub(Div(Mul(FromReal(n as real), xi), kr), s.xiPrev);
    var ne := Spherical(Mul(Mul(FromReal((n * (n + 1)) as real), s.pi), xi), Mul(tau, dn), Mul(s.pi, dn));
    var en := Prefactor(n);
    Series(s.pi, PiStep(n, cosTheta, s.piPrev, s.pi), s.xiPrev, xi,
           Accumulate(s.es, Mul(Mul(en, I), c.a), ne, Mul(en, c.b), mo))
  }

  /** The state at the top of the loop for order n: orders 1 .. n-1 summed. */
  function Before(cols: seq<Coefficient>, cosTheta: Complex, kr: Complex, sinKr: Complex, cosKr: Complex, n: nat): Series
    requires 1 <= n && (n == 1 || n <= |cols|)
    decreases n
  {
    if n == 1 then Start(sinKr, cosKr)
    else OrderStep(n - 1, cols[n - 1], cosTheta, kr, Before(cols, cosTheta, kr, sinKr, cosKr, n - 1))
  }

  /** The loop `for n in range(1, nc)` with nc = |cols| - 1: orders 1 .. nc-1,
      none at all when nc <= 1. */
  function LastOrder(cols: seq<Coefficient>): (n: nat)
    ensures 1 <= n && (n == 1 || n <= |cols|)
  {
    if |cols| >= 2 then |cols| - 1 else 1
  }

  /** Es at one pixel for the coefficient columns `cols`. */
  function ScatteredField(cols: seq<Coefficient>, cosTheta: Complex, kr: Complex, sinKr: Complex, cosKr: Complex): Spherical {
    Before(cols, cosTheta, kr, sinKr, cosKr, LastOrder(cols)).es
  }

  /** `sphericalfield` at one pixel, up to the geometric factors: the loop
      over orders 1 .. nc-1 with nc = (number of columns of ab) - 1. */
  method SphericalField(ab: array2<Complex>, ghost cols: seq<Coefficient>,
                        cosTheta: Complex, kr: Complex, sinKr: Complex, cosKr: Complex)
    returns (es: Spherical)
    requires Tabulates(ab, cols)
    ensures es == ScatteredField(cols, cosTheta, kr, sinKr, cosKr)
  {
    var nc := ab.Length1 - 1;
    var piPrev, pi := Zero, One;
    var xiPrev2, xiPrev := XiMinusOne(sinKr, cosKr), XiZero(sinKr, cosKr);
    var mo, ne := ZeroVector, ZeroVector;
    es := ZeroVector;
    var n := 1;
    while n < nc
      invariant 1 <= n && (n == 1 || n <= nc)
      invariant mo.r == Zero
      invariant Series(piPrev, pi, xiPrev2, xiPrev, es) == Before(cols, cosTheta, kr, sinKr, cosKr, n)
    {
      var swisc := Mul(pi, cosTheta);
      var twisc := Sub(swisc, piPrev);
      var tau := Sub(piPrev, Mul(FromReal(n as real), twisc));
      var xi := XiStep(n, kr, xiPrev2, xiPrev);
      mo := mo.(theta := Mul(pi, xi), phi := Mul(tau, xi));
      var dn := Sub(Div(Mul(FromReal(n as real), xi), kr), xiPrev);
      ne := Spherical(Mul(Mul(FromReal((n * (n + 1)) as real), pi), xi), Mul(tau, dn), Mul(pi, dn));
      var en := Prefactor(n);
      es := Accumulate(es, Mul(Mul(en, I), ab[0, n]), ne, Mul(en, ab[1, n]), mo);
      piPrev, pi := pi, PiStep(n, cosTheta, piPrev, pi);
      xiPrev2, xiPrev := xiPrev, xi;
      n := n + 1;
    }
  }

  // ---------------------------------------------------------------------
  // Reference recurrences and what the sum reads

  /** The angular function pi_n(cos theta) by its own recurrence. */
  function AngularPi(n: nat, cosTheta: Complex): Complex
    decreases n
  {
    if n == 0 then Zero
    else if n == 1 then One
    else PiStep(n - 1, cosTheta, AngularPi(n - 2, cosTheta), AngularPi(n - 1, cosTheta))
  }

  /** The Riccati-Bessel function xi_j(kr), j >= -1, by its own recurrence. */
  function RadialXi(j: int, kr: Complex, sinKr: Complex, cosKr: Complex): Complex
    requires j >= -1
    decreases j + 1
  {
    if j == -1 then XiMinusOne(sinKr, cosKr)
    else if j == 0 then XiZero(sinKr, cosKr)
    else XiStep(j, kr, RadialXi(j - 2, kr, sinKr, cosKr), RadialXi(j - 1, kr, sinKr, cosKr))
  }

  /** At the top of the loop for order n the carried variables are pi_{n-1},
      pi_n, xi_{n-2} and xi_{n-1}, whatever the coefficients. */
  lemma {:induction false} BeforeCarriesRecurrences(cols: seq<Coefficient>, cosTheta: Complex, kr: Complex,
                                                    sinKr: Complex, cosKr: Complex, n: nat)
    requires 1 <= n && (n == 1 || n <= |cols|)
    ensures var s := Before(cols, cosTheta, kr, sinKr, cosKr, n);
            s.piPrev == AngularPi(n - 1, cosTheta) && s.pi == AngularPi(n, cosTheta) &&
            s.xiPrev2 == RadialXi(n - 2, kr, sinKr, cosKr) && s.xiPrev == RadialXi(n - 1, kr, sinKr, cosKr)
    decreases n
  {
    if n > 1 {
      BeforeCarriesRecurrences(cols, cosTheta, kr, sinKr, cosKr, n - 1);
    }
  }

  /** The sum at order n depends only on columns 1 .. n-1. */
  lemma {:induction false} BeforeReadsEarlierColumns(c1: seq<Coefficient>, c2: seq<Coefficient>, cosTheta: Complex,
                                                     kr: Complex, sinKr: Complex, cosKr: Complex, n: nat)
    requires 1 <= n && (n == 1 || (n <= |c1| && n <= |c2|))
    requires forall k :: 1 <= k < n ==> c1[k] == c2[k]
    ensures Before(c1, cosTheta, kr, sinKr, cosKr, n) == Before(c2, cosTheta, kr, sinKr, cosKr, n)
    decreases n
  {
    if n > 1 {
      BeforeReadsEarlierColumns(c1, c2, cosTheta, kr, sinKr, cosKr, n - 1);
    }
  }

  /** The field reads only columns 1 .. nc-1 of ab: column 0 and the last
      column nc may hold anything. With the table of `sphere_coefficients`
      (nc = nmax) this leaves out column nmax, the one built from the
      never-written Psi[nmax] and Zeta[nmax]. */
  lemma FieldReadsInteriorColumnsOnly(c1: seq<Coefficient>, c2: seq<Coefficient>, cosTheta: Complex,
                                      kr: Complex, sinKr: Complex, cosKr: Complex)
    requires |c1| == |c2|
    requires forall k :: 1 <= k < |c1| - 1 ==> c1[k] == c2[k]
    ensures ScatteredField(c1, cosTheta, kr, sinKr, cosKr) == ScatteredField(c2, cosTheta, kr, sinKr, cosKr)
  {
    BeforeReadsEarlierColumns(c1, c2, cosTheta, kr, sinKr, cosKr, LastOrder(c1));
  }

  /** With two columns or fewer (nc <= 1) no order is summed and Es stays zero. */
  lemma NoOrdersNoField(cols: seq<Coefficient>, cosTheta: Complex, kr: Complex, sinKr: Complex, cosKr: Complex)
    requires |cols| <= 2
    ensures ScatteredField(cols, cosTheta, kr, sinKr, cosKr) == ZeroVector
  {
  }
}
