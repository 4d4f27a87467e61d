# Lorenz-Mie scattering core, modelled in Dafny

This project models the core of `shampoo/model/lorenzmie.py`, which computes the light field that a homogeneous sphere scatters. The model covers these parts:

- **`shift`**: the replacement for `numpy.roll`. It is a generic array method, proved against a reference rotation `Roll.Rotated`.
- **`meshgrid`**: the replacement for `numpy.meshgrid`. It is a method over `array2<real>`.
- **`Nstop`**: the number of multipole orders kept. It combines Wiscombe's (1980) estimate, chosen by the range of x (x < 8, 8 <= x < 4200, otherwise), with Yang's (2003) correction `floor(max(ns, |x m|)) + 15`.
- **`sphere_coefficients`** for one layer:
  - the inside-sphere and medium-side downward recurrences for the logarithmic derivative D1;
  - the upward recurrence for Psi, Zeta, PsiZeta and D3;
  - the roll by one of Psi and Zeta;
  - the loop of Eqs. (5) and (6) that fills the 2 x (nmax+1) table `ab`, followed by the zeroing of column 0.
- **`sphericalfield`**: the multipole sum over orders 1 .. nc-1, where nc = (columns of `ab`) - 1. It covers the upward recurrences for pi_n and xi_n and the accumulation of Es in spherical components at one pixel.

## How complex values are modelled

Complex values are modelled as the expressions the source evaluates: module `Complex` has literals and the four operations.

- Two entries of an array are equal in the model exactly when the source computes them by the same formula from the same inputs.
- `Complex.Eval` gives the exact value of an expression.
- A division by an exact zero evaluates to `Undefined`.
- Transcendental values enter as parameters (literals): x, which needs pi; cbrt(x); |x m|; sin x; exp(ix); exp(2ix); sin kr; cos kr.

The model follows the arrays and loops of the source:

- the sizes of the work arrays (nmax+2 for D1, nmax+1 for the rest);
- the index ranges each loop writes;
- the zero seeds the loops rely on;
- the entry that is never written;
- which columns of `ab` the field reads.

## Notes on the code

- The inside-sphere D1 recurrence, the loop `range(1, nmax+1)` reversed, starts from the zero seed at index nmax; index nmax+1 of the nmax+2 entries is never read.
- The medium-side loop `range(1, nmax)` reversed seeds D1 one order lower still, at index nmax-1 (`MieCoefficients.SphereCoefficients` uses tops nmax and nmax-1).
- The term count is not monotone in x: `Convergence.NstopDropsAt4200` shows that at x = 4200 the Wiscombe coefficient drops from 4.05 to 4, so for a fixed relative index m with |m| < 1.01 a sphere with x = 4200 gets one order fewer than one with x = 4199.9.
- The upward loop `range(1, nmax)` never writes Psi[nmax] or Zeta[nmax]. They stay zero, so the rolled arrays hold zero in slot 0. Column nmax of `ab` is therefore built from these zeros. `sphericalfield` never reads that column, because its loop stops at nc - 1 = nmax - 1.

## Model

| member | source | states |
|---|---|---|
| Roll.Shift | shampoo/model/lorenzmie.py:429-442 | the result has the length of `a` and equals `a` rotated right by `steps` (the last `steps` elements first); `a` is only read |
| Roll.RotatedAt | shampoo/model/lorenzmie.py:436-441 | slot i of the rolled sequence holds element (i - steps) mod len of the original, for every i |
| Roll.RotatedTrivial | shampoo/model/lorenzmie.py:436-441 | a roll by 0 or by the full length leaves the sequence unchanged |
| Roll.RotatedByOne | shampoo/model/lorenzmie.py:511-512 | a roll by one puts the last element in slot 0 and element i-1 in slot i |
| Roll.RotatedInverse | shampoo/model/lorenzmie.py:436-441 | rolling by steps and then by len - steps gives back the original sequence |
| Grid.Meshgrid | shampoo/model/lorenzmie.py:76-89 | both outputs have |yrange| rows and |xrange| columns; every row of x is xrange and every column of y is yrange |
| Convergence.Nstop | shampoo/model/lorenzmie.py:411-426 | the term count is at least 15 for every input |
| Convergence.WiscombeExceedsSize | shampoo/model/lorenzmie.py:416-422 | for x >= 0 Wiscombe's estimate is strictly larger than x and at least floor(x) + 1, on each of the three branches |
| Convergence.NstopIsMaxOfEstimates | shampoo/model/lorenzmie.py:424-426 | the count equals max(ns, floor(|x m|)) + 15, the larger of the two estimates plus the margin |
| Convergence.NstopLowerBounds | shampoo/model/lorenzmie.py:416-426 | the count is at least ns + 15, at least floor(|x m|) + 15, and at least 16 when x > 0 |
| Convergence.NstopDropsAt4200 | shampoo/model/lorenzmie.py:419-426 | with the true cube roots and one relative index m with |m| < 1.01 for both sizes, x = 4199.9 gives 4282 orders and x = 4200 gives 4281: the count is not monotone in x |
| MieCoefficients.DownwardRecurrence | shampoo/model/lorenzmie.py:484-485 | the zero-initialised array after the downward loop from `top` equals the reference `LogDerivatives`: entries below `top` follow Eq. (16b) and the rest stay zero |
| MieCoefficients.LogDerivativesSeedAndStep | shampoo/model/lorenzmie.py:497-498 | entries from `top` on keep the zero seed; each entry below `top` is n/z - 1/(D1[n] + n/z) of its upper neighbour |
| MieCoefficients.UpwardRecurrence | shampoo/model/lorenzmie.py:500-509 | the four arrays have length nmax+1 and hold, entry by entry, the reference `RiccatiTable`: the Eq. (18a) seeds at 0, Eq. (18b) at 1 .. nmax-1, zero at nmax |
| MieCoefficients.RecurUpward | shampoo/model/lorenzmie.py:505-509 | from arrays seeded at 0 and zero elsewhere, the loop leaves every entry 0 .. nmax equal to the reference table |
| MieCoefficients.ColumnUsesPreviousOrder | shampoo/model/lorenzmie.py:511-521 | with the arrays rolled by one, column n >= 1 of `ab` is Eqs. (5)-(6) at Psi_n, Psi_{n-1}, Zeta_n, Zeta_{n-1} |
| MieCoefficients.RolledSlotZeroIsZero | shampoo/model/lorenzmie.py:505-512 | slot 0 of the rolled Psi and Zeta is the never-written entry nmax, so it is zero |
| MieCoefficients.Columns | shampoo/model/lorenzmie.py:514-523 | the loop over orders 0 .. nmax and the clearing of column 0 leave `ab` equal to the reference table, column by column |
| MieCoefficients.FillTable | shampoo/model/lorenzmie.py:511-523 | after rolling Psi and Zeta by one, `ab` is the reference table built from the inside D1 and the rolled arrays |
| MieCoefficients.SphereCoefficients | shampoo/model/lorenzmie.py:458-525 | `ab` has 2 rows and Nstop + 1 columns, column 0 is zero in both rows, and every column equals `CoefficientTable` (inside D1 from nmax, medium D1 from nmax-1, Riccati table, rolled by one) |
| MultipoleField.SphericalField | shampoo/model/lorenzmie.py:313-388 | the loop over orders 1 .. nc-1 with nc = columns - 1 returns the reference sum `ScatteredField` of the columns that `ab` holds |
| MultipoleField.BeforeCarriesRecurrences | shampoo/model/lorenzmie.py:339-388 | at the top of the loop for order n the carried variables are pi_{n-1}, pi_n, xi_{n-2}, xi_{n-1} of the independent recurrences `AngularPi` and `RadialXi`, whatever the coefficients |
| MultipoleField.BeforeReadsEarlierColumns | shampoo/model/lorenzmie.py:354-378 | the partial sum before order n depends only on columns 1 .. n-1 |
| MultipoleField.FieldReadsInteriorColumnsOnly | shampoo/model/lorenzmie.py:313-378 | two tables of the same width that agree on columns 1 .. nc-1 give the same field: column 0 and column nc are never read |
| MultipoleField.NoOrdersNoField | shampoo/model/lorenzmie.py:351-354 | a table with at most two columns (nc <= 1) sums no order and the field stays zero |
| Complex.IPowStep | shampoo/model/lorenzmie.py:375 | the cyclic table for `ci ** n` starts at 1 and agrees with one more multiplication by i at every n |
| MieCoefficients.UnwrittenOrderColumn | shampoo/model/lorenzmie.py:517-521 | at an order whose Psi and Zeta are the never-written zeros, both a_n and b_n have the value Psi_{n-1} / Zeta_{n-1}, whatever Ha, Hb and m (when their factors have a value): column nmax does not depend on the sphere's refractive index through m or the inside D1; for a given nmax it depends on x alone, and nmax itself depends on |x m| |

## Left out

- Rounding. Values are exact expressions; float64 rounding, NaN, infinity and the errors a zero divisor can raise are not modelled. A zero divisor evaluates to `Undefined`, and `ci ** n` is taken exactly.
- Transcendental and library values are parameters of the model: the size parameter x (it needs pi), cbrt(x), |x m|, sin x, exp(ix), exp(2ix), sin kr and cos kr.
- `Convergence.Nstop` takes cbrt(x) and |x m| as non-negative reals computed by the caller. It does not model the float-to-int conversion beyond `Floor`.
- `MultipoleField.SphericalField` models one pixel. The source applies every operation elementwise to arrays of length npts, so the pixels do not interact.
- The geometric factors and the Cartesian projection at lines 390-405 of `sphericalfield` are not modelled.
- The spherical coordinates of each pixel (lines 315-332) are not modelled; cos(theta) and kr are parameters.
- `MultipoleField.SphericalField` takes the coefficient table as a ghost sequence that `ab` tabulates. The loop reads `ab` itself.
- `MieCoefficients.Columns` and `MieCoefficients.RecurUpward` take arrays they only read as sequences (`array[..]`). Their callers pass these contents, so aliasing between those read-only inputs and the written arrays is not modelled.
- `MieCoefficients.UpwardRecurrence` keeps D3 and PsiZeta as the source does. The inside-sphere PsiZeta_a and D3_a seeds (lines 487-489) are never read afterwards and are not modelled.
- Ha and Hb (lines 492-493) are both the first nmax+1 entries of the inside-sphere D1. The model passes that array as both.
- The multi-layer arrays are not modelled: the source fixes nlayers = 1.
- `suppress_hologram`, `gaussian_kernel`, the `lorenz_mie_field_*` glue and the `dcomplex*` allocation helpers are not modelled.
- Numba compilation is not modelled.
- `Roll.Shift`: generic over the element type with a default value, rather than always producing a complex array (`zeros_like(..., dtype=COMPLEX_DTYPE)`). It requires steps <= len, the range in which every index the source computes is non-negative; for len < steps <= 2·len the source depends on Python's negative indexing, which the model does not cover.
