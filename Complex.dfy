/** Double-precision complex values as the arithmetic expressions that
    lorenzmie.py evaluates. A value is a tree whose leaves are literals
    (inputs, constants, results of library calls such as `np.sin`) and whose
    nodes are the four operations; two entries are equal exactly when the
    source computes them by the same formula from the same leaves. `Eval`
    gives the exact value of a tree; rounding is not modelled, and a zero
    divisor, which is an error or a NaN in the source, evaluates to
    `Undefined`. */
module Complex {

  datatype Complex =
    | Literal(re: real, im: real)
    | Add(left: Complex, right: Complex)
    | Sub(left: Complex, right: Complex)
    | Mul(left: Complex, right: Complex)
    | Div(left: Complex, right: Complex)

  const Zero: Complex := Literal(0.0, 0.0)
  const One: Complex := Literal(1.0, 0.0)
  /** The imaginary unit, `dcomplex(0, 1)` in the source. */
  const I: Complex := Literal(0.0, 1.0)

  /** A float64, or an integer promoted to one, used as a complex operand. */
  function FromReal(r: real): Complex {
    Literal(r, 0.0)
  }

  /** `ci ** n`, taken exactly (rounding of the complex power is not
      modelled): the powers of the imaginary unit cycle with period four. */
  function IPow(n: nat): Complex {
    QuarterTurn(n % 4)
  }

  /** i^k for k = 0, 1, 2, 3. */
  function QuarterTurn(k: nat): Complex
    requires k < 4
  {
    if k == 0 then One
    else if k == 1 then I
    else if k == 2 then Literal(-1.0, 0.0)
    else Literal(0.0, -1.0)
  }

  /** The exact value of an expression, or `Undefined` after a zero divisor. */
  datatype Exact = Exact(re: real, im: real) | Undefined

  function Eval(c: Complex): Exact {
    match c
    case Literal(re, im) => Exact(re, im)
    case Add(l, r) => Plus(Eval(l), Eval(r))
    case Sub(l, r) => Minus(Eval(l), Eval(r))
    case Mul(l, r) => Times(Eval(l), Eval(r))
    case Div(l, r) => Quotient(Eval(l), Eval(r))
  }

  function Plus(a: Exact, b: Exact): Exact {
    if a.Undefined? || b.Undefined? then Undefined else Exact(a.re + b.re, a.im + b.im)
  }

  function Minus(a: Exact, b: Exact): Exact {
    if a.Undefined? || b.Undefined? then Undefined else Exact(a.re - b.re, a.im - b.im)
  }

  function Times(a: Exact, b: Exact): Exact {
    if a.Undefined? || b.Undefined? then Undefined
    else Exact(a.re * b.re - a.im * b.im, a.re * b.im + a.im * b.re)
  }

  /** The quotient, `Undefined` when |b|^2 is zero. */
  function Quotient(a: Exact, b: Exact): Exact {
    if a.Undefined? || b.Undefined? then Undefined
    else
      var d := b.re * b.re + b.im * b.im;
      if d == 0.0 then Undefined
      else Exact((a.re * b.re + a.im * b.im) / d, (a.im * b.re - a.re * b.im) / d)
  }

  /** The cyclic table of `IPow` agrees with repeated multiplication by i. */
  lemma IPowStep(n: nat)
    ensures Eval(IPow(0)) == Exact(1.0, 0.0)
    ensures Eval(IPow(n + 1)) == Eval(Mul(IPow(n), I))
  {
    var k := n % 4;
    assert (n + 1) % 4 == (k + 1) % 4;
    QuarterTurnStep(k);
    var a, b := IPow(n), IPow(n + 1);
    assert Eval(a) == Exact(a.re, a.im);
    assert Eval(b) == Exact(b.re, b.im);
  }

  /** Multiplying i^k by i turns (re, im) into (-im, re). */
  lemma QuarterTurnStep(k: nat)
    requires k < 4
    ensures var a, b := QuarterTurn(k), QuarterTurn((k + 1) % 4);
            a.Literal? && b.Literal? && b.re == -a.im && b.im == a.re
  {
  }
}
