/**
 The few Python built-ins the scoring code leans on: truthiness of a
 numeric argument, `dict.get` with a default, `min`, `max` and `round`.
 Python floats are modelled as exact reals.
 */
module PyBuiltins {

  /** A numeric argument as Python sees it: `None` or a number. */
  datatype PyNum = PyNone | Num(v: real)

  /** Python truthiness of a numeric value: `None` and zero are falsy. */
  predicate Truthy(x: PyNum) {
    x.Num? && x.v != 0.0
  }

  /** `float(x) if x else default`: a falsy argument is replaced by the default. */
  function OrDefault(x: PyNum, default: real): (r: real)
    ensures Truthy(x) ==> r == x.v
    ensures !Truthy(x) ==> r == default
  {
    if Truthy(x) then x.v else default
  }

  /** Falsy arguments, `None` and `0`, both fall back to the default. */
  lemma FalsyUsesDefault(default: real)
    ensures OrDefault(PyNone, default) == default
    ensures OrDefault(Num(0.0), default) == default
  {
  }

  /** `d.get(key, default)`. */
  function Get<K, V>(d: map<K, V>, key: K, default: V): (r: V)
    ensures key in d ==> r == d[key]
    ensures key !in d ==> r == default
  {
    if key in d then d[key] else default
  }

  function Min(a: real, b: real): (r: real)
    ensures r <= a && r <= b
    ensures r == a || r == b
  {
    if a <= b then a else b
  }

  function Max(a: real, b: real): (r: real)
    ensures r >= a && r >= b
    ensures r == a || r == b
  {
    if a >= b then a else b
  }

  /** The integer nearest to `y`, ties going to the even neighbour. */
  function RoundHalfEven(y: real): (n: int)
    ensures n as real - 0.5 <= y <= n as real + 0.5
  {
    var k := y.Floor;
    var frac := y - k as real;
    if frac < 0.5 then k
    else if frac > 0.5 then k + 1
    else if k % 2 == 0 then k
    else k + 1
  }

  lemma RoundHalfEvenOfInteger(k: int)
    ensures RoundHalfEven(k as real) == k
  {
  }

  lemma RoundHalfEvenMonotone(x: real, y: real)
    requires x <= y
    ensures RoundHalfEven(x) <= RoundHalfEven(y)
  {
  }

  /** The precisions the scorer rounds to: one or two decimal places. */
  datatype Digits = One | Two {
    function Scale(): real {
      match this
      case One => 10.0
      case Two => 100.0
    }
  }

  /** `round(x, 1)`: the nearest multiple of 0.1, ties to even. */
  function Round1(x: real): (r: real)
    ensures x - 0.05 <= r <= x + 0.05
  {
    RoundHalfEven(x * 10.0) as real / 10.0
  }

  /** `round(x, 2)`: the nearest multiple of 0.01, ties to even. */
  function Round2(x: real): (r: real)
    ensures x - 0.005 <= r <= x + 0.005
  {
    RoundHalfEven(x * 100.0) as real / 100.0
  }

  /**
   `round(x, digits)` for either precision. The second `ensures` spells out
   the scaled rounding so that the `RoundTo*` lemmas below can reason on it.
   */
  function RoundTo(x: real, digits: Digits): (r: real)
    ensures x - 0.5 / digits.Scale() <= r <= x + 0.5 / digits.Scale()
    ensures r == RoundHalfEven(x * digits.Scale()) as real / digits.Scale()
  {
    match digits
    case One => Round1(x)
    case Two => Round2(x)
  }

  lemma RoundToMonotone(x: real, y: real, digits: Digits)
    requires x <= y
    ensures RoundTo(x, digits) <= RoundTo(y, digits)
  {
    RoundHalfEvenMonotone(x * digits.Scale(), y * digits.Scale());
  }

  /** A value that already has the target precision is left unchanged. */
  lemma RoundToExact(k: int, digits: Digits)
    ensures RoundTo(k as real / digits.Scale(), digits) == k as real / digits.Scale()
  {
    assert k as real / digits.Scale() * digits.Scale() == k as real;
    RoundHalfEvenOfInteger(k);
  }

  /** Rounding twice to the same precision is rounding once. */
  lemma RoundToIdempotent(x: real, digits: Digits)
    ensures RoundTo(RoundTo(x, digits), digits) == RoundTo(x, digits)
  {
    RoundToExact(RoundHalfEven(x * digits.Scale()), digits);
  }

  /** Rounding never crosses a whole-number upper bound. */
  lemma RoundToAtMost(x: real, hi: int, digits: Digits)
    requires x <= hi as real
    ensures RoundTo(x, digits) <= hi as real
  {
    RoundToMonotone(x, hi as real, digits);
    var s := if digits == One then 10 else 100;
    assert s as real == digits.Scale();
    assert hi as real == (hi * s) as real / digits.Scale();
    RoundToExact(hi * s, digits);
  }

  /** Rounding never crosses a whole-number lower bound. */
  lemma RoundToAtLeast(x: real, lo: int, digits: Digits)
    requires lo as real <= x
    ensures lo as real <= RoundTo(x, digits)
  {
    RoundToMonotone(lo as real, x, digits);
    var s := if digits == One then 10 else 100;
    assert s as real == digits.Scale();
    assert lo as real == (lo * s) as real / digits.Scale();
    RoundToExact(lo * s, digits);
  }

  /** Rounding never leaves an interval whose ends are whole numbers. */
  lemma RoundToWithin(x: real, lo: int, hi: int, digits: Digits)
    requires lo as real <= x <= hi as real
    ensures lo as real <= RoundTo(x, digits) <= hi as real
  {
    RoundToAtLeast(x, lo, digits);
    RoundToAtMost(x, hi, digits);
  }

  /** Rounding keeps a value between two numbers that already have the target precision. */
  lemma RoundToBetweenRounded(x: real, a: real, b: real, digits: Digits)
    requires a == RoundTo(a, digits) && b == RoundTo(b, digits)
    requires a <= x <= b
    ensures a <= RoundTo(x, digits) <= b
  {
    RoundToMonotone(a, x, digits);
    RoundToMonotone(x, b, digits);
  }
}
