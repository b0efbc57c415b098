/** The two kinds of swapped neighbours that the check can miss outside Ireland do
    occur. */
module IbanSwaps {
  import opened Iban
  import opened IbanChecks

  // ----- a letter and a digit of the BBAN

  lemma SameNumber()
    ensures AllAlphanumeric("B1AA85") && Num("B1AA85") == 111101085
    ensures AllAlphanumeric("1BAA85") && Num("1BAA85") == 111101085
  {
    hide Num;
    EmptyIsZero();
    Next("", 0, 'B', "B");
    Next("B", 11, '1', "B1");
    Next("B1", 111, 'A', "B1A");
    Next("B1A", 11110, 'A', "B1AA");
    Next("B1AA", 1111010, '8', "B1AA8");
    Next("B1AA8", 11110108, '5', "B1AA85");
    Next("", 0, '1', "1");
    Next("1", 1, 'B', "1B");
    Next("1B", 111, 'A', "1BA");
    Next("1BA", 11110, 'A', "1BAA");
    Next("1BAA", 1111010, '8', "1BAA8");
    Next("1BAA8", 11110108, '5', "1BAA85");
  }

  /** B1 and 1B are the same three digits. */
  lemma LetterAndDigitCanSwap()
    ensures Accepted("AA85B1") && Accepted("AA851B") && Swap("AA85B1", 4) == "AA851B"
  {
    hide Num;
    SameNumber();
    assert Rearranged("AA85B1") == "B1AA85" && Rearranged("AA851B") == "1BAA85";
    assert "AA85B1"[4..] == "B1" && "AA851B"[4..] == "1B" && "AA85B1"[0..2] == "AA" == "AA851B"[0..2];
    assert "AA85B1"[2..4] == "85" == "AA851B"[2..4];
  }

  // ----- the two ends of the number

  lemma {:induction false} PowAdd(j: nat, k: nat)
    ensures Pow10(j + k) == Pow10(j) * Pow10(k)
  {
    if j > 0 {
      PowAdd(j - 1, k);
      Regroup10(Pow10(j - 1), Pow10(k));
    }
  }

  lemma Regroup10(p: int, q: int)
    ensures 10 * (p * q) == (10 * p) * q
  {
  }

  lemma MulMod(a: nat, b: nat)
    ensures (a * b) % 97 == ((a % 97) * (b % 97)) % 97
  {
    var q, r, t := a / 97, a % 97, b % 97;
    var p := b / 97;
    Expand2(q, r, p, t);
    SameRemainderAfterShift(97 * (q * p) + q * t + r * p, r * t);
  }

  lemma Expand2(q: int, r: int, p: int, t: int)
    ensures (97 * q + r) * (97 * p + t) == 97 * (97 * (q * p) + q * t + r * p) + r * t
  {
    Spread(97 * q + r, 97 * p, t);
    Spread2(97 * q, r, 97 * p);
    Spread2(97 * q, r, t);
  }

  lemma Spread(x: int, y: int, z: int)
    ensures x * (y + z) == x * y + x * z
  {
  }

  lemma Spread2(x: int, y: int, z: int)
    ensures (x + y) * z == x * z + y * z
  {
  }

  /** What 10 to the k leaves. */
  predicate Leaves(k: nat, r: nat) {
    Pow10(k) % 97 == r
  }

  lemma PowMod(j: nat, k: nat, r: nat, t: nat, q: nat, rest: nat)
    requires Leaves(j, r) && Leaves(k, t) && r * t == 97 * q + rest && rest < 97
    ensures Leaves(j + k, rest)
  {
    hide Pow10;
    PowAdd(j, k);
    MulMod(Pow10(j), Pow10(k));
    SameRemainderAfterShift(q, rest);
  }

  /** 10 has order 96 modulo 97: the doubled powers, and then 96 = 64 + 32. */
  lemma OrderOfTen()
    ensures Pow10(96) % 97 == 1
  {
    TenSquared();
    assert Leaves(96, 1) by {
      hide Leaves;
      PowMod(2, 2, 3, 3, 0, 9);
      PowMod(4, 4, 9, 9, 0, 81);
      PowMod(8, 8, 81, 81, 67, 62);
      PowMod(16, 16, 62, 62, 39, 61);
      PowMod(32, 32, 61, 61, 38, 35);
      PowMod(64, 32, 35, 61, 22, 1);
    }
  }

  lemma TenSquared()
    ensures Leaves(2, 3)
  {
    assert Pow10(1) == 10 && Pow10(2) == 100;
  }

  /** So a digit that far to the left counts like the last one. */
  lemma FarDigit(v: nat)
    ensures Lift(v, 96) % 97 == v % 97
  {
    hide Pow10;
    OrderOfTen();
    MulMod(v, Pow10(96));
  }

  function Zeros(k: nat): string {
    seq(k, _ => '0')
  }

  /** An IBAN of 95 characters whose number starts with `a` and ends with `c`. */
  function Long(c: char, a: char): string {
    "AA7" + [c] + [a] + Zeros(90)
  }

  lemma {:induction false} ZerosWidth(k: nat, y: string)
    ensures Width(Zeros(k) + y) == k + Width(y)
    decreases |y|, k
  {
    if y != "" {
      ZerosWidth(k, y[..|y| - 1]);
      assert (Zeros(k) + y)[..k + |y| - 1] == Zeros(k) + y[..|y| - 1];
    } else if k > 0 {
      ZerosWidth(k - 1, "");
      assert (Zeros(k) + "")[..k - 1] == Zeros(k - 1) + "";
    } else {
      assert Zeros(0) + "" == "";
    }
  }

  lemma TailNumber(c: char)
    requires IsDigit(c)
    ensures var y := "AA7" + [c];
            AllAlphanumeric(y) && Num(y) == 101070 + ValueOf(c) && Width(y) == 6
  {
    hide Num;
    EmptyIsZero();
    Next("", 0, 'A', "A");
    Next("A", 10, 'A', "AA");
    Next("AA", 1010, '7', "AA7");
    Next("AA7", 10107, c, "AA7" + [c]);
    TailWidth(c);
  }

  lemma TailWidth(c: char)
    requires IsDigit(c)
    ensures Width("AA7" + [c]) == 6
  {
    WidthOne('A');
    assert "AA"[..1] == "A" && "AA7"[..2] == "AA" && ("AA7" + [c])[..3] == "AA7";
    assert Width("AA") == 4 && Width("AA7") == 5;
  }

  /** What the number leaves, whichever of the two digits is in front. */
  lemma LongRemainder(c: char, a: char)
    requires IsDigit(c) && IsDigit(a)
    ensures var s := [a] + (Zeros(90) + ("AA7" + [c]));
            AllAlphanumeric(s) && Num(s) % 97 == (ValueOf(a) + 101070 + ValueOf(c)) % 97
  {
    hide Num, Width, Lift;
    var y := "AA7" + [c];
    var z := Zeros(90) + y;
    TailNumber(c);
    ZerosThen(90, y);
    ZerosWidth(90, y);
    NumOne(a);
    NumConcat([a], z);
    FarDigit(ValueOf(a));
    AddMod(Lift(ValueOf(a), 96), ValueOf(a), Num(z), Num(y));
  }

  lemma AddMod(x: int, x': int, y: int, y': int)
    requires x % 97 == x' % 97 && y % 97 == y' % 97
    ensures (x + y) % 97 == (x' + y') % 97
  {
    SameRemainderAfterShift(x / 97 + y / 97, x % 97 + y % 97);
    SameRemainderAfterShift(x' / 97 + y' / 97, x' % 97 + y' % 97);
  }

  lemma LongIsAccepted(c: char, a: char)
    requires IsDigit(c) && IsDigit(a) && ValueOf(c) + ValueOf(a) == 5
    ensures Accepted(Long(c, a))
  {
    hide Num;
    var n := Long(c, a);
    LongRemainder(c, a);
    assert n[0..2] == "AA" && n[2..4] == "7" + [c] && n[4..] == [a] + Zeros(90);
    assert Rearranged(n) == [a] + (Zeros(90) + ("AA7" + [c]));
  }

  /** The last check digit and the first digit of the BBAN weigh the same when the
      number has 97 digits, so swapping them goes unnoticed. */
  lemma EndsCanSwap()
    ensures Accepted(Long('3', '2')) && Accepted(Long('2', '3')) && Swap(Long('3', '2'), 3) == Long('2', '3')
  {
    hide Check;
    LongIsAccepted('3', '2');
    LongIsAccepted('2', '3');
  }
}
