/** The C library the generator calls: `sin`, `tan`, `pow` and `M_PI`. Their
    values are not part of the model, so every operation that uses them takes
    a `Libm` value and every property proved here holds whatever they are. */
module MathLib {

  datatype Libm = Libm(sin: real -> real, tan: real -> real, pow: (real, real) -> real, pi: real)
}
