/** What the plug-in takes from `math` and `numpy` beyond plain arithmetic.

    Samples, frequencies and gains are `real`: floating-point rounding, NaN and
    infinities are outside the model. The square root, the power function and
    the discrete Fourier transform pair belong to foreign libraries; they are
    not defined here but handed to the operations that use them as a
    `Library` value, so every property proved holds for whatever functions
    the library supplies (and, where a property needs more, the lemma states
    the assumption about the library explicitly). */
module Numerics {

  /** A numpy complex number; the spectral filters only scale and add bins. */
  datatype Complex = Complex(re: real, im: real)
  {
    function Plus(other: Complex): Complex
    {
      Complex(re + other.re, im + other.im)
    }

    /** Multiplication by a real factor. */
    function Scale(k: real): Complex
    {
      Complex(re * k, im * k)
    }
  }

  const ZeroBin := Complex(0.0, 0.0)

  /** The foreign numeric routines: `math.sqrt`, `math.pow`, `np.fft.fft`, and
      `np.real(np.fft.ifft(...))`. */
  datatype Library = Library(
    sqrt: real -> real,
    pow: (real, real) -> real,
    fft: seq<real> -> seq<Complex>,
    ifftReal: seq<Complex> -> seq<real>)

  function Abs(x: real): (r: real)
    ensures r >= 0.0 && (r == x || r == -x)
  {
    if x < 0.0 then -x else x
  }

  /** Every entry of a sample block multiplied by the same factor, as numpy
      broadcasts `samples * k`. */
  function ScaleAll(s: seq<real>, k: real): (r: seq<real>)
    ensures |r| == |s|
  {
    seq(|s|, i requires 0 <= i < |s| => s[i] * k)
  }

  /** `np.zeros(n)`. */
  function Zeros(n: nat): (r: seq<real>)
    ensures |r| == n
  {
    seq(n, i => 0.0)
  }

  predicate AllZero(s: seq<real>)
  {
    forall i :: 0 <= i < |s| ==> s[i] == 0.0
  }

  predicate Silent(spectrum: seq<Complex>)
  {
    forall i :: 0 <= i < |spectrum| ==> spectrum[i] == ZeroBin
  }

  /** What every linear transform pair satisfies, and the Fourier pair in
      particular: silence in, silence out. Lemmas that need it say so. */
  ghost predicate KeepsSilence(lib: Library)
  {
    && (forall s: seq<real> :: AllZero(s) ==> Silent(lib.fft(s)))
    && (forall spectrum: seq<Complex> :: Silent(spectrum) ==> AllZero(lib.ifftReal(spectrum)))
  }

  /** The transforms keep a block's length, as numpy's `fft` and `ifft` of a
      one-dimensional array do. */
  ghost predicate LengthPreserving(lib: Library)
  {
    && (forall s: seq<real> :: |lib.fft(s)| == |s|)
    && (forall spectrum: seq<Complex> :: |lib.ifftReal(spectrum)| == |spectrum|)
  }

  function Min(a: int, b: int): int
  {
    if a < b then a else b
  }

  /** A multiple of a positive number strictly inside (-n, n) is 0. */
  lemma SmallMultiple(n: int, x: int)
    requires n > 0 && -n < x * n < n
    ensures x == 0
  {
  }

  /** Quotient and remainder are the unique pair with `a == q * n + r` and
      `0 <= r < n`. */
  lemma DivModUnique(a: int, n: int, q: int, r: int)
    requires n > 0 && a == q * n + r && 0 <= r < n
    ensures a / n == q && a % n == r
  {
    var q', r' := a / n, a % n;
    assert a == q' * n + r';
    assert (q - q') * n == r' - r;
    SmallMultiple(n, q - q');
  }

  /** A `QPoint`: integer pixel coordinates. */
  datatype Point = Point(x: int, y: int)
  {
    /** `QPoint.__sub__`. */
    function Minus(other: Point): Point
    {
      Point(x - other.x, y - other.y)
    }
  }

  /** `math.sqrt(p.x() ** 2 + p.y() ** 2)`. */
  function Length(p: Point, lib: Library): real
  {
    lib.sqrt((p.x * p.x + p.y * p.y) as real)
  }
}
