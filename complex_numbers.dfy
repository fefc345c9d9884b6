/** Complex arithmetic over `real`, as used through std::complex<double> by the
    azimuthal-mode interpolator: products, real parts, conjugates, moduli and
    integer powers built by repeated multiplication. */
module ComplexNumbers {

  datatype Complex = Complex(re: real, im: real)

  const One: Complex := Complex(1.0, 0.0)

  function Add(a: Complex, b: Complex): Complex {
    Complex(a.re + b.re, a.im + b.im)
  }

  function Mul(a: Complex, b: Complex): Complex {
    Complex(a.re * b.re - a.im * b.im, a.re * b.im + a.im * b.re)
  }

  function Conj(a: Complex): Complex {
    Complex(a.re, -a.im)
  }

  /** Squared modulus |a|^2. */
  function Norm2(a: Complex): real {
    a.re * a.re + a.im * a.im
  }

  /** z^m, formed the way a running accumulator forms it: one more factor z per step. */
  function Pow(z: Complex, m: nat): Complex {
    if m == 0 then One else Mul(Pow(z, m - 1), z)
  }

  /** The modulus is multiplicative. */
  lemma Norm2Mul(a: Complex, b: Complex)
    ensures Norm2(Mul(a, b)) == Norm2(a) * Norm2(b)
  {
    var p, q, u, v := a.re, a.im, b.re, b.im;
    calc {
      Norm2(Mul(a, b));
      (p * u - q * v) * (p * u - q * v) + (p * v + q * u) * (p * v + q * u);
      { assert (p * u - q * v) * (p * u - q * v) == p * p * u * u - 2.0 * p * q * u * v + q * q * v * v;
        assert (p * v + q * u) * (p * v + q * u) == p * p * v * v + 2.0 * p * q * u * v + q * q * u * u; }
      p * p * u * u + q * q * v * v + p * p * v * v + q * q * u * u;
      (p * p + q * q) * (u * u + v * v);
    }
  }

  /** Every power of a number on the unit circle stays on the unit circle. */
  lemma {:induction false} UnitPow(z: Complex, m: nat)
    requires Norm2(z) == 1.0
    ensures Norm2(Pow(z, m)) == 1.0
  {
    if m > 0 {
      UnitPow(z, m - 1);
      Norm2Mul(Pow(z, m - 1), z);
    }
  }
}
