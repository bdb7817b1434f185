/** Values shared by every part of the model: optional values, the numbers the
    browser code coerces with `||`, and the two rounding rules the project uses
    (Python's `round` in the backend, `Math.round` in the frontend). Costs are
    exact reals; floating point is not modelled. */
module Common {

  datatype Option<+T> = None | Some(value: T) {
    function GetOr(default: T): T {
      match this
      case Some(v) => v
      case None => default
    }
  }

  /** An `HTTPException` the backend raises: status code and detail text. */
  datatype HttpError = HttpError(status: int, detail: string)

  /** The outcome of a backend operation that may raise an `HTTPException`. */
  datatype Result<T> = Ok(value: T) | Err(error: HttpError)

  /** A JavaScript number as it reaches the cost code: `None` stands for the
      falsy non-numbers (`NaN`, `null`, `undefined`), `Some(x)` for a number. */
  type Num = Option<real>

  /** JavaScript truthiness of a number: present and not zero. */
  predicate Truthy(x: Num) {
    x.Some? && x.value != 0.0
  }

  /** JavaScript `x || d` on a number: `d` when `x` is falsy (zero or not a number). */
  function Or(x: Num, d: real): (r: real)
    ensures Truthy(x) ==> r == x.value
    ensures !Truthy(x) ==> r == d
  {
    if x.Some? && x.value != 0.0 then x.value else d
  }

  /** JavaScript `n || d` on an optional integer such as `completed_units`
      (also Python's `x.get(k, 0) or 0` when `d` is 0). */
  function IntOr(x: Option<int>, d: int): (r: int)
    ensures x.Some? && x.value != 0 ==> r == x.value
    ensures x.None? || x.value == 0 ==> r == d
  {
    if x.Some? && x.value != 0 then x.value else d
  }

  /** `parseInt` applied to a number written in plain decimal notation: the
      integer part, truncated toward zero. */
  function Trunc(x: real): (r: int)
    ensures x >= 0.0 ==> r as real <= x < r as real + 1.0
    ensures x < 0.0 ==> r as real - 1.0 < x <= r as real
  {
    if x >= 0.0 then x.Floor else -((-x).Floor)
  }

  /** `parseInt(x)` when `x` is already a JavaScript number (or `NaN`) that
      JavaScript prints in plain decimal notation; `parseInt` reads the
      number's text, so one printed with an exponent is not covered. */
  function ParseIntOfNum(x: Num): (r: Num)
    ensures r.None? <==> x.None?
    ensures x.Some? ==> r == Some(Trunc(x.value) as real)
  {
    match x
    case None => None
    case Some(v) => Some(Trunc(v) as real)
  }

  function Min(a: int, b: int): (r: int)
    ensures r <= a && r <= b && (r == a || r == b)
  {
    if a <= b then a else b
  }

  function Max(a: int, b: int): (r: int)
    ensures r >= a && r >= b && (r == a || r == b)
  {
    if a >= b then a else b
  }

  function MaxReal(a: real, b: real): (r: real)
    ensures r >= a && r >= b && (r == a || r == b)
  {
    if a >= b then a else b
  }

  function MinReal(a: real, b: real): (r: real)
    ensures r <= a && r <= b && (r == a || r == b)
  {
    if a <= b then a else b
  }

  /** Python's `round(num / den)` on the exact rational: the nearest integer,
      ties to the even neighbour. */
  function RoundHalfEven(num: int, den: int): (r: int)
    requires den > 0
    ensures -den <= 2 * (r * den - num) <= den
    ensures 2 * (r * den - num) == den || 2 * (r * den - num) == -den ==> r % 2 == 0
  {
    var q, m := num / den, num % den;
    if 2 * m < den then q
    else if 2 * m > den then q + 1
    else if q % 2 == 0 then q
    else q + 1
  }

  /** JavaScript's `Math.round(num / den)` on the exact rational: the nearest
      integer, ties upward (`floor(x + 0.5)`). */
  function RoundHalfUp(num: int, den: int): (r: int)
    requires den > 0
    ensures -den < 2 * (r * den - num) <= den
  {
    var q, m := num / den, num % den;
    if 2 * m >= den then q + 1 else q
  }

  /** Both roundings are monotone in the numerator. */
  lemma {:induction false} RoundHalfUpMonotone(n1: int, n2: int, den: int)
    requires den > 0 && n1 <= n2
    ensures RoundHalfUp(n1, den) <= RoundHalfUp(n2, den)
  {
    var r1, r2 := RoundHalfUp(n1, den), RoundHalfUp(n2, den);
    assert (r1 - r2) * den == r1 * den - r2 * den;
    BelowOneMultiple(r1 - r2, den);
  }

  lemma {:induction false} RoundHalfEvenMonotone(n1: int, n2: int, den: int)
    requires den > 0 && n1 <= n2
    ensures RoundHalfEven(n1, den) <= RoundHalfEven(n2, den)
  {
    if n1 < n2 {
      var r1, r2 := RoundHalfEven(n1, den), RoundHalfEven(n2, den);
      assert (r1 - r2) * den == r1 * den - r2 * den;
      BelowOneMultiple(r1 - r2, den);
    }
  }

  /** A multiple of a positive `den` that stays below `den` has a factor of at most 0. */
  lemma BelowOneMultiple(k: int, den: int)
    requires den > 0 && k * den < den
    ensures k <= 0
  {
    if k >= 1 {
      MulAtLeast(k, den);
    }
  }

  /** Of two multiples of a positive `den`, the smaller has the smaller factor. */
  lemma FactorLess(a: int, b: int, den: int)
    requires den > 0 && a * den < b * den
    ensures a < b
  {
    assert (b - a) * den == b * den - a * den;
  }

  lemma MulAtLeast(k: int, den: int)
    requires k >= 1 && den > 0
    ensures k * den >= den
  {
  }

  /** Rounding a quotient that is at least (at most) an integer keeps it so. */
  lemma {:induction false} RoundHalfUpAtLeast(num: int, den: int, lo: int)
    requires den > 0 && lo * den <= num
    ensures lo <= RoundHalfUp(num, den)
  {
    var r := RoundHalfUp(num, den);
    assert (lo - r) * den == lo * den - r * den;
    BelowOneMultiple(lo - r, den);
  }

  lemma {:induction false} RoundHalfUpAtMost(num: int, den: int, hi: int)
    requires den > 0 && num <= hi * den
    ensures RoundHalfUp(num, den) <= hi
  {
    var r := RoundHalfUp(num, den);
    assert (r - hi) * den == r * den - hi * den;
    BelowOneMultiple(r - hi, den);
  }

  lemma {:induction false} RoundHalfEvenAtLeast(num: int, den: int, lo: int)
    requires den > 0 && lo * den <= num
    ensures lo <= RoundHalfEven(num, den)
  {
    var r := RoundHalfEven(num, den);
    assert (lo - r) * den == lo * den - r * den;
    BelowOneMultiple(lo - r, den);
  }

  lemma {:induction false} RoundHalfEvenAtMost(num: int, den: int, hi: int)
    requires den > 0 && num <= hi * den
    ensures RoundHalfEven(num, den) <= hi
  {
    var r := RoundHalfEven(num, den);
    assert (r - hi) * den == r * den - hi * den;
    BelowOneMultiple(r - hi, den);
  }

  /** The two rules agree except on exact ties, where Python may round down. */
  lemma {:induction false} RoundingsAgreeOffTies(num: int, den: int)
    requires den > 0 && 2 * (num % den) != den
    ensures RoundHalfEven(num, den) == RoundHalfUp(num, den)
  {
  }

  /** 12.5% (one unit out of eight) is such a tie: the backend shows 12, the
      dashboard's rule would show 13. */
  lemma RoundingsDifferOnTie()
    ensures RoundHalfEven(100, 8) == 12 && RoundHalfUp(100, 8) == 13
  {
  }
}
