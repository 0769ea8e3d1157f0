/** Bitwise operators on non-negative integers of any size, bit by bit. */
module Bits {

  function ShiftLeft(a: nat, k: nat): nat {
    if k == 0 then a else 2 * ShiftLeft(a, k - 1)
  }

  function ShiftRight(a: nat, k: nat): nat {
    if k == 0 then a else ShiftRight(a / 2, k - 1)
  }

  function Or(a: nat, b: nat): nat {
    if a == 0 then b else if b == 0 then a
    else 2 * Or(a / 2, b / 2) + if a % 2 == 1 || b % 2 == 1 then 1 else 0
  }

  function And(a: nat, b: nat): nat {
    if a == 0 || b == 0 then 0
    else 2 * And(a / 2, b / 2) + if a % 2 == 1 && b % 2 == 1 then 1 else 0
  }

  lemma {:induction false} ShiftLeftScales(a: nat, k: nat)
    ensures ShiftLeft(a, k) == a * ShiftLeft(1, k) && 0 < ShiftLeft(1, k)
  {
    if k > 0 {
      ShiftLeftScales(a, k - 1);
    }
  }

  // Nothing overlaps below the shift, so OR is a sum.
  lemma {:induction false} OrBelowShift(a: nat, k: nat, b: nat)
    requires b < ShiftLeft(1, k)
    ensures Or(ShiftLeft(a, k), b) == ShiftLeft(a, k) + b
  {
    if k > 0 && ShiftLeft(a, k) != 0 && b != 0 {
      OrBelowShift(a, k - 1, b / 2);
      assert ShiftLeft(a, k) / 2 == ShiftLeft(a, k - 1);
    }
  }

  lemma {:induction false} ShiftRightDivides(a: nat, k: nat)
    ensures 0 < ShiftLeft(1, k) && ShiftRight(a, k) == a / ShiftLeft(1, k)
  {
    if k > 0 {
      ShiftRightDivides(a / 2, k - 1);
      Halving(a, ShiftLeft(1, k - 1));
    }
  }

  // A mask of the lowest k bits keeps the remainder.
  lemma {:induction false} MaskIsRemainder(a: nat, k: nat)
    ensures 0 < ShiftLeft(1, k) && And(a, ShiftLeft(1, k) - 1) == a % ShiftLeft(1, k)
  {
    if k > 0 {
      MaskIsRemainder(a / 2, k - 1);
      var half := ShiftLeft(1, k - 1);
      assert (ShiftLeft(1, k) - 1) / 2 == half - 1 && (ShiftLeft(1, k) - 1) % 2 == 1;
      Halving(a, half);
    }
  }

  lemma Halving(a: nat, half: nat)
    requires 0 < half
    ensures a / (2 * half) == a / 2 / half && a % (2 * half) == 2 * (a / 2 % half) + a % 2
  {
    var q, r := a / 2 / half, a / 2 % half;
    assert a == 2 * (q * half + r) + a % 2 == q * (2 * half) + (2 * r + a % 2);
    assert 0 <= 2 * r + a % 2 < 2 * half;
    DivisionIs(a, 2 * half, q, 2 * r + a % 2);
  }

  lemma DivisionIs(a: nat, b: nat, q: nat, r: nat)
    requires a == q * b + r && r < b
    ensures a / b == q && a % b == r
  {
    var d := q - a / b;
    assert a == a / b * b + a % b;
    assert d * b == a % b - r;
    ScaledIsFarther(d, b);
  }

  lemma ScaledIsFarther(d: int, b: int)
    requires 0 <= b
    ensures d >= 1 ==> d * b >= b
    ensures d <= -1 ==> d * b <= -b
  {
    if d >= 1 {
      assert d * b == b + (d - 1) * b;
    }
    if d <= -1 {
      assert -d * b == b + (-d - 1) * b;
    }
  }
}
