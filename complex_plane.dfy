/** `System.Numerics.Complex` as far as the escape-time loop uses it:
    construction, `z * z + c` and the test `Complex.Abs(z) > 2`. Doubles are
    modelled as exact reals. */
module ComplexPlane {

  datatype Complex = Complex(re: real, im: real)

  const ZERO: Complex := Complex(0.0, 0.0)

  function Add(a: Complex, b: Complex): Complex {
    Complex(a.re + b.re, a.im + b.im)
  }

  /** Complex multiplication, (a + bi)(c + di) = (ac - bd) + (ad + bc)i. */
  function Mul(a: Complex, b: Complex): Complex {
    Complex(a.re * b.re - a.im * b.im, a.re * b.im + a.im * b.re)
  }

  /** |z|^2. */
  function NormSq(z: Complex): (r: real)
    ensures r >= 0.0
  {
    z.re * z.re + z.im * z.im
  }

  /** One update of the loop body: z := z * z + c. */
  function Step(z: Complex, c: Complex): Complex {
    Add(Mul(z, z), c)
  }

  /** `Complex.Abs(z) > 2`. Both sides are non-negative, so over the reals this
      is exactly |z|^2 > 4; no square root is needed. */
  predicate Escaped(z: Complex) {
    NormSq(z) > 4.0
  }

  /** Squaring follows (a + bi)^2 = (a^2 - b^2) + 2abi, and squares the modulus. */
  lemma SquareFormula(z: Complex)
    ensures Mul(z, z) == Complex(z.re * z.re - z.im * z.im, 2.0 * z.re * z.im)
    ensures NormSq(Mul(z, z)) == NormSq(z) * NormSq(z)
  {
    var a, b := z.re, z.im;
    calc {
      NormSq(Mul(z, z));
      (a * a - b * b) * (a * a - b * b) + (2.0 * a * b) * (2.0 * a * b);
      (a * a) * (a * a) + 2.0 * (a * a) * (b * b) + (b * b) * (b * b);
      (a * a + b * b) * (a * a + b * b);
    }
  }
}
