/** The circular shift that stands in for `numpy.roll` in lorenzmie.py. */
module Roll {

  /** Reference definition: `numpy.roll(s, steps)` for 0 <= steps <= |s|,
      that is the last `steps` elements moved to the front. */
  function Rotated<T>(s: seq<T>, steps: nat): (r: seq<T>)
    requires steps <= |s|
    ensures |r| == |s|
  {
    s[|s| - steps..] + s[..|s| - steps]
  }

  /** Every element moves `steps` places to the right, wrapping around. */
  lemma RotatedAt<T>(s: seq<T>, steps: nat, i: int)
    requires steps <= |s| && 0 <= i < |s|
    ensures Rotated(s, steps)[i] == s[(i - steps) % |s|]
  {
    var n := |s|;
    WrapIndex(i - steps, n);
    if i < steps {
      assert Rotated(s, steps)[i] == s[n - steps..][i];
    } else {
      assert Rotated(s, steps)[i] == s[..n - steps][i - steps];
    }
  }

  /** An index at most one period below zero wraps around once. */
  lemma WrapIndex(j: int, n: int)
    requires 0 < n && -n <= j < n
    ensures j % n == if j < 0 then j + n else j
  {
    var q, r := j / n, j % n;
    assert j == q * n + r && 0 <= r < n;
    assert q == 0 || q == -1;
  }

  /** Rolling by nothing or by the full length leaves the sequence as it was. */
  lemma RotatedTrivial<T>(s: seq<T>)
    ensures Rotated(s, 0) == s
    ensures Rotated(s, |s|) == s
  {
    assert s[|s|..] + s[..|s|] == s;
    assert s[0..] + s[..0] == s;
  }

  /** The form used to align Riccati-Bessel terms: a roll by one puts the
      last element first and every other element one slot later. */
  lemma RotatedByOne<T>(s: seq<T>)
    requires |s| >= 1
    ensures Rotated(s, 1)[0] == s[|s| - 1]
    ensures forall i :: 1 <= i < |s| ==> Rotated(s, 1)[i] == s[i - 1]
  {
  }

  /** Rolling by `steps` and then by the remaining `|s| - steps` restores `s`. */
  lemma RotatedInverse<T>(s: seq<T>, steps: nat)
    requires steps <= |s|
    ensures Rotated(Rotated(s, steps), |s| - steps) == s
  {
    var r := Rotated(s, steps);
    var n := |s|;
    assert r[n - (n - steps)..] == s[..n - steps];
    assert r[..n - (n - steps)] == s[n - steps..];
  }

  /** `shift(a, steps)`: fills `b` slot by slot; `a` is only read. The
      contract does not promise that `b` is a new array. */
  method Shift<T(0)>(a: array<T>, steps: nat) returns (b: array<T>)
    requires steps <= a.Length
    ensures b.Length == a.Length
    ensures b[..] == Rotated(a[..], steps)
  {
    b := new T[a.Length];
    var lenA := a.Length;
    for i := 0 to lenA
      invariant forall k :: 0 <= k < i ==> b[k] == Rotated(a[..], steps)[k]
    {
      if i >= steps {
        b[i] := a[i - steps];
      }
      if i < steps {
        var offset := b.Length - steps;
        b[i] := a[i + offset];
      }
    }
  }
}
