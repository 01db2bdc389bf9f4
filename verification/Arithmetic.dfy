/** Shifting numbers to the right, bit by bit. */
module Arithmetic {

  /** x >> n */
  function Shift(x: nat, n: nat): nat
    decreases n
  {
    if n == 0 then x else Shift(x / 2, n - 1)
  }

  function Twos(n: nat): nat {
    if n == 0 then 1 else 2 * Twos(n - 1)
  }

  lemma {:induction false} ShiftTwice(x: nat, a: nat, b: nat)
    ensures Shift(x, a + b) == Shift(Shift(x, a), b)
    decreases a
  {
    if a > 0 {
      ShiftTwice(x / 2, a - 1, b);
    }
  }

  lemma {:induction false} ShiftMonotone(x: nat, y: nat, n: nat)
    requires x <= y
    ensures Shift(x, n) <= Shift(y, n)
    decreases n
  {
    if n > 0 {
      ShiftMonotone(x / 2, y / 2, n - 1);
    }
  }

  /** Shifting off as many bits as the upper part was shifted on leaves it, and shifts the lower part. */
  lemma {:induction false} ShiftSum(upper: nat, low: nat, n: nat)
    ensures Shift(upper * Twos(n) + low, n) == upper + Shift(low, n)
    decreases n
  {
    if n > 0 {
      var t := Twos(n - 1);
      assert upper * (2 * t) == 2 * (upper * t);
      ShiftSum(upper, low / 2, n - 1);
    }
  }

  lemma TwosInByte(v: nat, n: nat)
    requires n <= 8
    ensures v * Twos(8 - n) * Twos(n) == v * 256
  {
    assert Twos(4) == 16 && Twos(8) == 256;
    match n
    case 0 =>
    case 1 => assert Twos(7) == 128 && Twos(1) == 2;
    case 2 => assert Twos(6) == 64 && Twos(2) == 4;
    case 3 => assert Twos(5) == 32 && Twos(3) == 8;
    case 4 =>
    case 5 => assert Twos(3) == 8 && Twos(5) == 32;
    case 6 => assert Twos(2) == 4 && Twos(6) == 64;
    case 7 => assert Twos(1) == 2 && Twos(7) == 128;
    case 8 =>
  }

  lemma {:induction false} SmallShift(x: nat, n: nat)
    requires x < Twos(n)
    ensures Shift(x, n) == 0
    decreases n
  {
    if n > 0 {
      SmallShift(x / 2, n - 1);
    }
  }

  /** A digit to the base 256 is shifted out. */
  lemma ShiftDigitOut(v: nat, digit: nat, n: nat)
    requires digit < 256
    ensures Shift(v * 256 + digit, 8 + n) == Shift(v, n)
  {
    TwosInByte(v, 8);
    ShiftSum(v, digit, 8);
    SmallShift(digit, 8);
    ShiftTwice(v * 256 + digit, 8, n);
  }

  lemma UpperPart(v: nat, a: nat, n: nat)
    requires a < 256 && n <= 8
    ensures Shift(Shift(v * 256 + a, n), 8 - n) == v
  {
    ShiftTwice(v * 256 + a, n, 8 - n);
    ShiftDigitOut(v, a, 0);
  }

  lemma LowerPart(v: nat, a: nat, n: nat)
    requires a < 256 && n <= 8
    ensures Shift(v * 256 + a, n) == v * Twos(8 - n) + Shift(a, n)
  {
    TwosInByte(v, n);
    ShiftSum(v * Twos(8 - n), a, n);
  }

  /** Fewer than eight bits off a number leave its upper part and the rest of its last digit. */
  lemma ShiftInDigit(v: nat, a: nat, w: nat, b: nat, n: nat)
    requires a < 256 && b < 256 && n <= 8
    ensures Shift(v * 256 + a, n) == Shift(w * 256 + b, n) <==> v == w && Shift(a, n) == Shift(b, n)
  {
    UpperPart(v, a, n);
    UpperPart(w, b, n);
    if v == w {
      LowerPart(v, a, n);
      LowerPart(v, b, n);
    }
  }
}
