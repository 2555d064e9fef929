/**
 * Real-number stand-ins for the floating-point library calls made by the
 * storage models. Values are mathematical reals; the calls whose exact values
 * the model does not compute are bundled in a `Library` that every operation
 * using them takes as a parameter.
 */
module Numerics {

  datatype Option<T> = None | Some(value: T)

  /**
   * One interpretation of the library:
   *   exp             -- math.exp
   *   pow             -- the built-in pow(base, e) for a non-integer exponent e
   *   round2          -- round(v, 2)
   *   expOverflows    -- math.exp(v) raises OverflowError
   *   squareOverflows -- pow(v, 2) raises OverflowError
   */
  datatype Library = Library(
    exp: real -> real,
    pow: (real, real) -> real,
    round2: real -> real,
    expOverflows: real -> bool,
    squareOverflows: real -> bool)

  /** What the proofs assume of the exponential: exp(0) = 1, and it cannot overflow at a non-positive argument. */
  ghost predicate Lawful(m: Library) {
    && m.exp(0.0) == 1.0
    && (forall r :: r <= 0.0 ==> !m.expOverflows(r))
  }

  function Abs(v: real): (r: real)
    ensures 0.0 <= r && (r == v || r == -v)
  {
    if v < 0.0 then -v else v
  }

  lemma AbsOfProduct(u: real, v: real)
    ensures Abs(u * v) == Abs(u) * Abs(v)
  {
    if u < 0.0 && v < 0.0 {
      assert u * v == (-u) * (-v);
    } else if u < 0.0 {
      assert -(u * v) == (-u) * v;
    } else if v < 0.0 {
      assert -(u * v) == u * (-v);
    }
  }

  /** Python's pow(v, 2) on a float: the square, or None where it raises OverflowError. */
  function Square(m: Library, v: real): (r: Option<real>)
    ensures r.None? <==> m.squareOverflows(v)
    ensures r.Some? ==> r.value == Abs(v) * Abs(v)
  {
    if m.squareOverflows(v) then None else Some(v * v)
  }
}
