/**
  Exact complex arithmetic over `real`, standing in for `std::complex<double>`.
  Rounding is not modelled: every identity below is an identity of the reals.
 */
module ComplexNumbers {

  datatype Complex = Complex(re: real, im: real)

  const Zero: Complex := Complex(0.0, 0.0)
  const One: Complex := Complex(1.0, 0.0)

  /** The trigonometric functions the generator relies on, left uninterpreted. */
  datatype Trig = Trig(cos: real -> real, sin: real -> real)

  /** `std::polar(rho, theta)`: the complex number of magnitude `rho` at angle `theta`. */
  function Polar(trig: Trig, rho: real, theta: real): Complex
  {
    Complex(rho * trig.cos(theta), rho * trig.sin(theta))
  }

  /** The law `cos^2 + sin^2 = 1` at one angle. */
  predicate PythagoreanAt(trig: Trig, theta: real)
  {
    trig.cos(theta) * trig.cos(theta) + trig.sin(theta) * trig.sin(theta) == 1.0
  }

  /** Complex multiplication, `(a + bi)(c + di) = (ac - bd) + (ad + bc)i`. */
  function Mul(a: Complex, b: Complex): Complex
  {
    Complex(a.re * b.re - a.im * b.im, a.re * b.im + a.im * b.re)
  }

  /** Multiplication of a complex number by a real scalar. */
  function Scale(a: Complex, k: real): Complex
  {
    Complex(a.re * k, a.im * k)
  }

  function Add(a: Complex, b: Complex): Complex
  {
    Complex(a.re + b.re, a.im + b.im)
  }

  /** The squared magnitude `re^2 + im^2`. */
  function NormSq(a: Complex): (r: real)
    ensures r >= 0.0
  {
    a.re * a.re + a.im * a.im
  }

  lemma MulOneLeft(a: Complex)
    ensures Mul(One, a) == a
  {
  }

  lemma MulOneRight(a: Complex)
    ensures Mul(a, One) == a
  {
  }

  lemma AddZeroLeft(a: Complex)
    ensures Add(Zero, a) == a
  {
  }

  /** The magnitude of a product is the product of the magnitudes. */
  lemma NormSqMul(a: Complex, b: Complex)
    ensures NormSq(Mul(a, b)) == NormSq(a) * NormSq(b)
  {
    var p := Mul(a, b);
    calc {
      NormSq(p);
    ==
      (a.re * b.re - a.im * b.im) * (a.re * b.re - a.im * b.im)
      + (a.re * b.im + a.im * b.re) * (a.re * b.im + a.im * b.re);
    ==
      a.re * a.re * (b.re * b.re + b.im * b.im) + a.im * a.im * (b.re * b.re + b.im * b.im);
    ==
      NormSq(a) * NormSq(b);
    }
  }

  lemma MulAssoc(a: Complex, b: Complex, c: Complex)
    ensures Mul(Mul(a, b), c) == Mul(a, Mul(b, c))
  {
  }

  /** `z^n` by repeated multiplication. */
  function Pow(z: Complex, n: nat): Complex
  {
    if n == 0 then One else Mul(Pow(z, n - 1), z)
  }

  lemma NormSqScale(a: Complex, k: real)
    ensures NormSq(Scale(a, k)) == k * k * NormSq(a)
  {
  }

  /** `std::polar(1, theta)` lies on the unit circle wherever `cos^2 + sin^2 = 1`. */
  lemma PolarUnit(trig: Trig, theta: real)
    requires PythagoreanAt(trig, theta)
    ensures NormSq(Polar(trig, 1.0, theta)) == 1.0
  {
  }
}
