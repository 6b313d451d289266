/** Complex numbers as pairs of reals, standing in for numpy's complex128. */
module ComplexNumbers {

  datatype Complex = Complex(re: real, im: real)

  const Zero: Complex := Complex(0.0, 0.0)
  const One: Complex := Complex(1.0, 0.0)

  /** A real number seen as a complex one, as Python's `complex(x, 0)`. */
  function FromReal(x: real): Complex {
    Complex(x, 0.0)
  }

  function Add(a: Complex, b: Complex): Complex {
    Complex(a.re + b.re, a.im + b.im)
  }

  function Sub(a: Complex, b: Complex): Complex {
    Complex(a.re - b.re, a.im - b.im)
  }

  function Neg(a: Complex): Complex {
    Complex(-a.re, -a.im)
  }

  function Mul(a: Complex, b: Complex): Complex {
    Complex(a.re * b.re - a.im * b.im, a.re * b.im + a.im * b.re)
  }

  function Conj(a: Complex): Complex {
    Complex(a.re, -a.im)
  }

  /** The squared magnitude |a|^2. */
  function NormSq(a: Complex): real {
    a.re * a.re + a.im * a.im
  }

  /** Multiplication distributes over addition on the left operand. */
  lemma MulAddLeft(a: Complex, b: Complex, v: Complex)
    ensures Mul(Add(a, b), v) == Add(Mul(a, v), Mul(b, v))
  {
    assert (a.re + b.re) * v.re == a.re * v.re + b.re * v.re;
    assert (a.im + b.im) * v.im == a.im * v.im + b.im * v.im;
    assert (a.re + b.re) * v.im == a.re * v.im + b.re * v.im;
    assert (a.im + b.im) * v.re == a.im * v.re + b.im * v.re;
  }
}
