/** The Python scalars that flow through the resolver and the two forward models. */
module Values {
  import opened Wrappers

  /** A Python `float`: a real number, an infinity, or NaN. Rounding is not modelled. */
  datatype Float = Finite(r: real) | Infinity(negative: bool) | NaN

  /** What `np.isnan` tests. */
  predicate IsNaN(x: Float) {
    x.NaN?
  }

  /** A value of a parameter dictionary: a float, an int (`yerr_rv` is the int 10) or a string. */
  datatype Value = Number(x: Float) | Integer(i: int) | Text(s: string)

  /** Python's `x / 1000` on a float: infinities keep their sign, NaN stays NaN. */
  function DivThousand(x: Float): (r: Float)
    ensures r.Finite? <==> x.Finite?
    ensures r.Finite? ==> r.r * 1000.0 == x.r
    ensures IsNaN(r) <==> IsNaN(x)
    ensures r.Infinity? ==> r == x
  {
    match x
    case Finite(v) => Finite(v / 1000.0)
    case _ => x
  }

  /**
   * The smallest integer magnitude that `float(i)` cannot represent, 2^1024 - 2^970: from
   * here on the nearest double (ties to even) is 2^1024 itself, and Python raises
   * OverflowError.
   */
  const IntOverflow: int := 0xffff_ffff_ffff_fc00_0000_0000_0000_0000_0000_0000_0000_0000_0000_0000_0000_0000_0000_0000_0000_0000_0000_0000_0000_0000_0000_0000_0000_0000_0000_0000_0000_0000_0000_0000_0000_0000_0000_0000_0000_0000_0000_0000_0000_0000_0000_0000_0000_0000_0000_0000_0000_0000_0000_0000_0000_0000_0000_0000_0000_0000_0000_0000_0000_0000

  /**
   * Python's `float(v)`. A float converts to itself; an int converts to the same number
   * unless its magnitude overflows a double (None: OverflowError); what `float` makes of a
   * string is given by `parseText` (None: it raises ValueError).
   */
  function ToFloat(v: Value, parseText: string -> Option<Float>): (r: Option<Float>)
    ensures v.Number? ==> r == Some(v.x)
    ensures v.Integer? ==> (r.Some? <==> -IntOverflow < v.i < IntOverflow)
    ensures v.Integer? && r.Some? ==> r.value.Finite? && r.value.r == v.i as real
  {
    match v
    case Number(x) => Some(x)
    case Integer(i) => if -IntOverflow < i < IntOverflow then Some(Finite(i as real)) else None
    case Text(s) => parseText(s)
  }
}
