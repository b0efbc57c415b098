/** What the MOD 97-10 check catches, and what it lets through. */
module IbanChecks {
  import opened Iban

  // ----- weights

  function Pow10(k: nat): nat {
    if k == 0 then 1 else 10 * Pow10(k - 1)
  }

  /** How many decimal digits the string expands to. */
  function Width(s: string): nat {
    if s == "" then 0 else Width(s[..|s| - 1]) + if IsDigit(s[|s| - 1]) then 1 else 2
  }

  /** `n` followed by `k` more digits' room. */
  function Lift(n: int, k: nat): int {
    n * Pow10(k)
  }

  lemma Distribute(a: int, b: int, p: int, shift: int)
    ensures (a * p + b) * shift == a * (p * shift) + b * shift
  {
  }

  lemma Difference(left: int, m: int, m': int, p: int, rest: int)
    ensures (left + m) * p + rest - ((left + m') * p + rest) == (m - m') * p
  {
  }

  lemma PowWidth(y: string)
    requires y != ""
    ensures Pow10(Width(y)) == Pow10(Width(y[..|y| - 1])) * Shift(y[|y| - 1])
  {
    var w := Width(y[..|y| - 1]);
    var p := Pow10(w);
    assert Pow10(w + 1) == 10 * p && Pow10(w + 2) == 100 * p;
    hide Pow10;
    if IsDigit(y[|y| - 1]) { assert p * 10 == 10 * p; } else { assert p * 100 == 100 * p; }
  }

  /** The number of a concatenation: the left part is shifted by the right's width. */
  lemma {:induction false} NumConcat(x: string, y: string)
    requires AllAlphanumeric(x) && AllAlphanumeric(y)
    ensures AllAlphanumeric(x + y) && Num(x + y) == Lift(Num(x), Width(y)) + Num(y)
  {
    if y == "" {
      assert x + y == x;
    } else {
      var rest, c := y[..|y| - 1], y[|y| - 1];
      NumConcat(x, rest);
      assert (x + y)[..|x + y| - 1] == x + rest;
      var a, b, p := Num(x), Num(rest), Pow10(Width(rest));
      PowWidth(y);
      Distribute(a, b, p, Shift(c));
      hide Pow10, Width, Shift;
    }
  }

  lemma NumOne(c: char)
    requires IsLetter(c) || IsDigit(c)
    ensures AllAlphanumeric([c]) && Num([c]) == ValueOf(c)
  {
    assert [c][..0] == "";
    assert Num("") == 0;
  }

  // ----- 10 is invertible modulo 97

  predicate Divides97(n: int) {
    n % 97 == 0
  }

  lemma TenCancels(x: int)
    requires Divides97(10 * x)
    ensures Divides97(x)
  {
    var q := 10 * x / 97;
    assert 10 * x == 97 * q;
    assert x == 97 * (68 * q - 7 * x);
  }

  lemma {:induction false} PowerOfTenCancels(x: int, k: nat)
    requires Divides97(x * Pow10(k))
    ensures Divides97(x)
  {
    if k > 0 {
      assert x * Pow10(k) == 10 * (x * Pow10(k - 1));
      TenCancels(x * Pow10(k - 1));
      PowerOfTenCancels(x, k - 1);
    }
  }

  lemma SameRemainder(a: int, b: int)
    requires a % 97 == b % 97
    ensures Divides97(a - b)
  {
  }

  // ----- one character, or two neighbours, inside a number

  predicate SameClass(a: char, b: char) {
    (IsLetter(a) && IsLetter(b)) || (IsDigit(a) && IsDigit(b))
  }

  lemma SplitNum(x: string, m: string, y: string)
    requires AllAlphanumeric(x) && AllAlphanumeric(m) && AllAlphanumeric(y)
    ensures AllAlphanumeric(x + m + y)
    ensures Num(x + m + y) == Lift(Lift(Num(x), Width(m)) + Num(m), Width(y)) + Num(y)
  {
    hide Num, Lift, Width;
    NumConcat(x, m);
    NumConcat(x + m, y);
  }

  lemma Congruent(left: int, m: int, m': int, k: nat, rest: int, n: int, n': int)
    requires n == Lift(left + m, k) + rest && n' == Lift(left + m', k) + rest && n % 97 == n' % 97
    ensures Divides97(m - m')
  {
    hide Pow10;
    SameRemainder(n, n');
    Difference(left, m, m', Pow10(k), rest);
    assert n - n' == (m - m') * Pow10(k);
    PowerOfTenCancels(m - m', k);
  }

  /** Two middles of the same width that leave the same remainder are congruent. */
  lemma MiddlesAgree(x: string, m: string, m': string, y: string)
    requires AllAlphanumeric(x) && AllAlphanumeric(m) && AllAlphanumeric(m') && AllAlphanumeric(y) && Width(m) == Width(m')
    requires AllAlphanumeric(x + m + y) && AllAlphanumeric(x + m' + y) && Num(x + m + y) % 97 == Num(x + m' + y) % 97
    ensures Divides97(Num(m) - Num(m'))
  {
    hide Num, Lift, Width;
    SplitNum(x, m, y);
    SplitNum(x, m', y);
    Congruent(Lift(Num(x), Width(m)), Num(m), Num(m'), Width(y), Num(y), Num(x + m + y), Num(x + m' + y));
  }

  lemma OneCharacter(x: string, a: char, b: char, y: string)
    requires AllAlphanumeric(x) && AllAlphanumeric(y) && SameClass(a, b)
    requires AllAlphanumeric(x + [a] + y) && AllAlphanumeric(x + [b] + y)
    requires Num(x + [a] + y) % 97 == Num(x + [b] + y) % 97
    ensures a == b
  {
    NumOne(a);
    NumOne(b);
    WidthOne(a);
    WidthOne(b);
    MiddlesAgree(x, [a], [b], y);
  }

  lemma WidthOne(c: char)
    ensures Width([c]) == if IsDigit(c) then 1 else 2
  {
    assert [c][..0] == "";
    assert Width("") == 0;
  }

  lemma PairFacts(a: char, b: char)
    requires SameClass(a, b)
    ensures AllAlphanumeric([a, b])
    ensures Num([a, b]) == if IsDigit(a) then 10 * ValueOf(a) + ValueOf(b) else 100 * ValueOf(a) + ValueOf(b)
    ensures Width([a, b]) == if IsDigit(a) then 2 else 4
  {
    NumOne(a);
    WidthOne(a);
    assert [a, b][..1] == [a];
  }

  lemma TwoNeighbours(x: string, a: char, b: char, y: string)
    requires AllAlphanumeric(x) && AllAlphanumeric(y) && SameClass(a, b)
    requires AllAlphanumeric(x + [a, b] + y) && AllAlphanumeric(x + [b, a] + y)
    requires Num(x + [a, b] + y) % 97 == Num(x + [b, a] + y) % 97
    ensures a == b
  {
    PairFacts(a, b);
    PairFacts(b, a);
    MiddlesAgree(x, [a, b], [b, a], y);
    hide Num;
    NoSwapDivides(ValueOf(a), ValueOf(b));
  }

  lemma NoSwapDivides(u: nat, v: nat)
    ensures u <= 9 && v <= 9 && Divides97(10 * u + v - (10 * v + u)) ==> u == v
    ensures u <= 35 && v <= 35 && Divides97(100 * u + v - (100 * v + u)) ==> u == v
  {
  }

  // ----- accepted IBANs

  /** The class of character the check requires at each place of an Irish IBAN. */
  predicate LetterPlace(p: nat) {
    p < 2 || 4 <= p < 8
  }

  lemma IrishClasses(n: string, p: nat)
    requires Accepted(n) && Irish(n) && p < |n|
    ensures |n| == IE_LENGTH
    ensures if LetterPlace(p) then IsLetter(n[p]) else IsDigit(n[p])
  {
    if p < 2 { assert n[p] == n[0..2][p]; }
    else if p < 4 { assert n[p] == n[2..4][p - 2]; }
    else if p < 8 { assert n[p] == n[4..8][p - 4]; }
    else if p < 14 { assert n[p] == n[8..14][p - 8]; }
    else { assert n[p] == n[14..][p - 14]; }
  }

  lemma AnyClasses(n: string, p: nat)
    requires Accepted(n) && p < |n| && p < 4
    ensures if p < 2 then IsLetter(n[p]) else IsDigit(n[p])
  {
    if p < 2 { assert n[p] == n[0..2][p]; } else { assert n[p] == n[2..4][p - 2]; }
  }

  /** Where place `p` lands in the rearranged string. */
  function Landing(n: string, p: nat): nat
    requires 4 <= |n| && p < |n|
  {
    if p < 4 then |n| - 4 + p else p - 4
  }

  lemma Lands(n: string, p: nat)
    requires 4 <= |n| && p < |n|
    ensures Landing(n, p) < |n| == |Rearranged(n)| && Rearranged(n)[Landing(n, p)] == n[p]
  {
  }

  /** Equal but for one place; equal places land in equal places. */
  lemma SubstitutionSplits(n: string, m: string, p: nat)
    requires 4 <= |n| == |m| && p < |n| && forall i :: 0 <= i < |n| && i != p ==> n[i] == m[i]
    ensures var k := Landing(n, p); var x, y := Rearranged(n)[..k], Rearranged(n)[k + 1..];
            Rearranged(n) == x + [n[p]] + y && Rearranged(m) == x + [m[p]] + y
  {
    var k := Landing(n, p);
    Lands(n, p);
    Lands(m, p);
    forall i | 0 <= i < |n| && i != k ensures Rearranged(n)[i] == Rearranged(m)[i] {
      var q := if i < |n| - 4 then i + 4 else i - (|n| - 4);
      Lands(n, q);
      Lands(m, q);
    }
    assert Rearranged(m)[..k] == Rearranged(n)[..k] && Rearranged(m)[k + 1..] == Rearranged(n)[k + 1..];
  }

  /** A letter for a letter, or a digit for a digit, is always noticed. */
  lemma SameClassSubstitution(n: string, m: string, p: nat)
    requires Accepted(n) && Accepted(m) && |n| == |m| && p < |n| && SameClass(n[p], m[p])
    requires forall i :: 0 <= i < |n| && i != p ==> n[i] == m[i]
    ensures n == m
  {
    SubstitutionSplits(n, m, p);
    RearrangedIsAlphanumeric(n);
    var k := Landing(n, p);
    OneCharacter(Rearranged(n)[..k], n[p], m[p], Rearranged(n)[k + 1..]);
  }

  /** Country, check digits and the Irish layout leave no choice of class. */
  lemma SubstitutionKeepsClass(n: string, m: string, p: nat)
    requires Accepted(n) && Accepted(m) && |n| == |m| && p < |n|
    requires forall i :: 0 <= i < |n| && i != p ==> n[i] == m[i]
    ensures p < 4 || Irish(n) || Irish(m) ==> SameClass(n[p], m[p])
  {
    if p < 4 {
      AnyClasses(n, p);
      AnyClasses(m, p);
    } else {
      assert m[0..2] == n[0..2];
      if Irish(n) {
        IrishClasses(n, p);
        IrishClasses(m, p);
      }
    }
  }

  /** Main result: two accepted IBANs of one length that differ in one character
      only do so inside the BBAN of another country than Ireland, by a letter in one
      and a digit in the other. In particular none of them is Irish. */
  lemma SubstitutionIsDetected(s: string, t: string, p: nat)
    requires var n, m := Normalize(s), Normalize(t);
             && Accepted(n) && Accepted(m) && |n| == |m| && p < |n|
             && forall i :: 0 <= i < |n| && i != p ==> n[i] == m[i]
    ensures var n, m := Normalize(s), Normalize(t);
            n == m || (p >= 4 && !Irish(n) && !Irish(m) && !SameClass(n[p], m[p]))
  {
    var n, m := Normalize(s), Normalize(t);
    SubstitutionKeepsClass(n, m, p);
    if SameClass(n[p], m[p]) { SameClassSubstitution(n, m, p); }
  }

  function Swap(n: string, p: nat): string
    requires p + 1 < |n|
  {
    n[p := n[p + 1]][p + 1 := n[p]]
  }

  lemma SwapSplits(n: string, p: nat)
    requires 4 <= |n| && p + 1 < |n| && p != 3
    ensures var k := Landing(n, p); var x, y, m := Rearranged(n)[..k], Rearranged(n)[k + 2..], Swap(n, p);
            Rearranged(n) == x + [n[p], n[p + 1]] + y && Rearranged(m) == x + [n[p + 1], n[p]] + y
  {
    var k, m := Landing(n, p), Swap(n, p);
    Lands(n, p);
    Lands(n, p + 1);
    Lands(m, p);
    Lands(m, p + 1);
    forall i | 0 <= i < |n| && i != k && i != k + 1 ensures Rearranged(n)[i] == Rearranged(m)[i] {
      var q := if i < |n| - 4 then i + 4 else i - (|n| - 4);
      Lands(n, q);
      Lands(m, q);
    }
    assert Rearranged(m)[..k] == Rearranged(n)[..k] && Rearranged(m)[k + 2..] == Rearranged(n)[k + 2..];
  }

  /** Unequal neighbours of one class, in the number too, cannot be swapped unnoticed. */
  lemma SameClassSwap(n: string, p: nat)
    requires Accepted(n) && p + 1 < |n| && p != 3 && Accepted(Swap(n, p)) && SameClass(n[p], n[p + 1])
    ensures n[p] == n[p + 1]
  {
    hide Num;
    SwapSplits(n, p);
    RearrangedIsAlphanumeric(n);
    var k := Landing(n, p);
    TwoNeighbours(Rearranged(n)[..k], n[p], n[p + 1], Rearranged(n)[k + 2..]);
  }

  /** In country and check digits, and everywhere in an Irish IBAN, a swap that is
      accepted at all is of one class and not across the two ends of the number. */
  lemma SwapKeepsClass(n: string, p: nat)
    requires Accepted(n) && p + 1 < |n| && Accepted(Swap(n, p))
    ensures p < 3 ==> SameClass(n[p], n[p + 1])
    ensures Irish(n) && p >= 3 ==> p != 3 && SameClass(n[p], n[p + 1])
  {
    var m := Swap(n, p);
    if p < 4 {
      AnyClasses(n, p);
      AnyClasses(m, p);
    }
    if Irish(n) {
      IrishClasses(n, p);
      IrishClasses(n, p + 1);
      if p >= 4 {
        assert m[0..2] == n[0..2];
        IrishClasses(m, p);
      }
    }
  }

  lemma SwapBack(n: string, p: nat)
    requires p + 1 < |n|
    ensures Swap(Swap(n, p), p) == n
    ensures p >= 2 && |n| >= 4 ==> (Irish(Swap(n, p)) <==> Irish(n))
  {
    var m := Swap(n, p);
    assert p >= 2 ==> m[0..2] == n[0..2];
  }

  /** Main result: two accepted IBANs that differ by one swap of unequal neighbours
      only do so in another country than Ireland: by swapping a letter and a digit of
      the BBAN, or the last check digit and the first digit of the BBAN, which stand
      at the two ends of the number. */
  lemma TranspositionIsDetected(s: string, t: string, p: nat)
    requires var n, m := Normalize(s), Normalize(t);
             Accepted(n) && Accepted(m) && p + 1 < |n| && m == Swap(n, p)
    ensures var n, m := Normalize(s), Normalize(t);
            n == m || (!Irish(n) && !Irish(m) && p >= 3 && (p == 3 || !SameClass(n[p], n[p + 1])))
  {
    var n, m := Normalize(s), Normalize(t);
    SwapKeepsClass(n, p);
    SwapBack(n, p);
    if p != 3 && SameClass(n[p], n[p + 1]) { SameClassSwap(n, p); }
  }

  /** The Irish layout is needed: elsewhere a digit may stand for a letter, and then
      the check can miss a single wrong character. */
  lemma OtherCountriesCanCollide()
    ensures Accepted("AA151A") && Accepted("AA1513")
  {
    hide Num;
    assert Rearranged("AA151A") == "1AAA15" && Rearranged("AA1513") == "13AA15";
    CollidingNumbers();
    assert "AA151A"[4..] == "1A" && "AA1513"[4..] == "13" && "AA151A"[0..2] == "AA" == "AA1513"[0..2];
    assert "AA151A"[2..4] == "15" == "AA1513"[2..4];
  }

  lemma CollidingNumbers()
    ensures AllAlphanumeric("1AAA15") && Num("1AAA15") == 110101015
    ensures AllAlphanumeric("13AA15") && Num("13AA15") == 13101015
  {
    hide Num;
    EmptyIsZero();
    Next("", 0, '1', "1");
    Next("1", 1, 'A', "1A");
    Next("1A", 110, 'A', "1AA");
    Next("1AA", 11010, 'A', "1AAA");
    Next("1AAA", 1101010, '1', "1AAA1");
    Next("1AAA1", 11010101, '5', "1AAA15");
    Next("1", 1, '3', "13");
    Next("13", 13, 'A', "13A");
    Next("13A", 1310, 'A', "13AA");
    Next("13AA", 131010, '1', "13AA1");
    Next("13AA1", 1310101, '5', "13AA15");
  }

  lemma EmptyIsZero()
    ensures Num("") == 0
  {
  }

  lemma Next(s: string, n: nat, c: char, t: string)
    requires AllAlphanumeric(s) && (IsLetter(c) || IsDigit(c)) && t == s + [c] && Num(s) == n
    ensures AllAlphanumeric(t) && Num(t) == n * Shift(c) + ValueOf(c)
  {
    StepNum(s, c);
  }

  lemma StepNum(s: string, c: char)
    requires AllAlphanumeric(s) && (IsLetter(c) || IsDigit(c))
    ensures AllAlphanumeric(s + [c]) && Num(s + [c]) == Num(s) * Shift(c) + ValueOf(c)
  {
    assert (s + [c])[..|s|] == s;
  }

  // ----- generated IBANs

  lemma BbanIsAlphanumeric(bank: string, sort: string, account: string)
    requires GoodParts(bank, sort, account)
    ensures var bban := UpperAll(bank) + sort + account;
            |bban| == 18 && AllAlphanumeric(bban) && bban[..4] == UpperAll(bank) && bban[4..10] == sort && bban[10..] == account
  {
  }

  /** Writing the check digits adds exactly their value. */
  lemma CheckDigitsAdd(s: string, n: nat)
    requires AllAlphanumeric(s) && n < 100
    ensures AllAlphanumeric(s + TwoDigits(n)) && Num(s + TwoDigits(n)) == Num(s) * 100 + n
  {
    var tens, units := Digit(n / 10), Digit(n % 10);
    StepNum(s, tens);
    StepNum(s + [tens], units);
    assert s + TwoDigits(n) == s + [tens] + [units];
  }

  /** A number is completed to remainder 1 by the digits 98 - r, and by those that
      differ from them by 97. */
  lemma Completes(b: nat, cd: nat)
    requires cd < 100
    ensures (b + cd) % 97 == 1 <==> cd == 98 - b % 97 || cd == 98 - b % 97 - 97 || cd == 98 - b % 97 + 97
  {
    SameRemainderAfterShift(b / 97, b % 97 + cd);
    CompletesSmall(b % 97, cd);
  }

  lemma CompletesSmall(r: nat, cd: nat)
    requires r < 97 && cd < 100
    ensures (r + cd) % 97 == 1 <==> r + cd == 1 || r + cd == 98 || r + cd == 195
  {
  }

  lemma SameRemainderAfterShift(q: int, x: int)
    ensures (97 * q + x) % 97 == x % 97
  {
  }

  /** The shape shared by every IBAN of these parts. */
  function Assembled(cd: nat, bban: string): string
    requires cd < 100
  {
    "IE" + TwoDigits(cd) + bban
  }

  /** Exactly which check digits Validate accepts for given Irish parts. */
  lemma AcceptedCheckDigits(bank: string, sort: string, account: string, cd: nat)
    requires GoodParts(bank, sort, account) && cd < 100
    ensures var bban := UpperAll(bank) + sort + account;
            AllAlphanumeric(bban + "IE" + "00") &&
            var made := 98 - Num(bban + "IE" + "00") % 97;
            Accepted(Assembled(cd, bban)) <==> cd == made || cd == made - 97 || cd == made + 97
  {
    var bban := UpperAll(bank) + sort + account;
    var n := Assembled(cd, bban);
    BbanIsAlphanumeric(bank, sort, account);
    var base := bban + "IE";
    CheckDigitsAdd(base, 0);
    CheckDigitsAdd(base, cd);
    assert TwoDigits(0) == "00";
    assert n[0..2] == "IE" && n[2..4] == TwoDigits(cd) && n[4..] == bban;
    assert n[4..8] == UpperAll(bank) && n[8..14] == sort && n[14..] == account;
    assert Rearranged(n) == base + TwoDigits(cd);
    Completes(Num(base) * 100, cd);
  }

  /** Main result: what Generate returns is accepted, and is in normal form. */
  lemma GeneratedIsAccepted(bank: string, sort: string, account: string)
    requires GoodParts(bank, sort, account)
    ensures var n := Made(bank, sort, account); Accepted(n) && Irish(n) && Normalize(n) == n
  {
    var bban := UpperAll(bank) + sort + account;
    BbanIsAlphanumeric(bank, sort, account);
    var made := 98 - Num(bban + "IE" + "00") % 97;
    AcceptedCheckDigits(bank, sort, account, made);
    var n := Made(bank, sort, account);
    assert n == Assembled(made, bban);
    RearrangedIsAlphanumeric(n);
    NormalStays(n);
  }

  /** Main result: an accepted Irish IBAN is the generated one of its own parts
      exactly when its check digits lie in 02..98; 00, 01 and 99 are accepted twins. */
  lemma CanonicalIff(n: string)
    requires Accepted(n) && Irish(n)
    ensures |n| == IE_LENGTH && GoodParts(n[4..8], n[8..14], n[14..])
    ensures n == Made(n[4..8], n[8..14], n[14..]) <==> n[2..4] != "00" && n[2..4] != "01" && n[2..4] != "99"
  {
    IrishClasses(n, 0);
    var bank, sort, account := n[4..8], n[8..14], n[14..];
    forall p | 2 <= p < 8 ensures IsLetter(n[p]) || IsDigit(n[p]) { IrishClasses(n, p); }
    assert UpperAll(bank) == bank;
    var cd := ValueOf(n[2]) * 10 + ValueOf(n[3]);
    IrishClasses(n, 2);
    IrishClasses(n, 3);
    assert n[2..4] == TwoDigits(cd);
    var bban := bank + sort + account;
    assert n == Assembled(cd, bban);
    AcceptedCheckDigits(bank, sort, account, cd);
    var made := 98 - Num(bban + "IE" + "00") % 97;
    assert Made(bank, sort, account) == Assembled(made, bban);
    assert TwoDigits(0) == "00" && TwoDigits(1) == "01" && TwoDigits(99) == "99";
    SameDigits(cd, made);
    SameDigits(cd, 0);
    SameDigits(cd, 1);
    SameDigits(cd, 99);
    assert n == Assembled(made, bban) <==> cd == made by {
      assert n[2..4] == TwoDigits(cd) && Assembled(made, bban)[2..4] == TwoDigits(made);
    }
  }

  lemma SameDigits(a: nat, b: nat)
    requires a < 100 && b < 100
    ensures TwoDigits(a) == TwoDigits(b) <==> a == b
  {
    assert TwoDigits(a)[0] == Digit(a / 10) && TwoDigits(a)[1] == Digit(a % 10);
    assert TwoDigits(b)[0] == Digit(b / 10) && TwoDigits(b)[1] == Digit(b % 10);
  }

  const TwinBban := "AIBK" + "000000" + "00000032"

  /** Such twins exist: this BBAN is accepted with 97 and with 00. */
  lemma TwinsExist()
    ensures GoodParts("AIBK", "000000", "00000032")
    ensures Accepted(Assembled(0, TwinBban)) && Accepted(Assembled(97, TwinBban))
  {
    hide Num, Check;
    assert UpperAll("AIBK") == "AIBK";
    TwinRemainder();
    AcceptedCheckDigits("AIBK", "000000", "00000032", 0);
    AcceptedCheckDigits("AIBK", "000000", "00000032", 97);
  }

  lemma MultipleOf97Lead(x: string, y: string)
    requires AllAlphanumeric(x) && AllAlphanumeric(y) && Num(x) % 97 == 0
    ensures AllAlphanumeric(x + y) && Num(x + y) % 97 == Num(y) % 97
  {
    NumConcat(x, y);
    hide Num, Width;
    MultipleVanishes(Num(x), Pow10(Width(y)), Num(y));
  }

  lemma MultipleVanishes(a: int, p: int, y: int)
    requires a % 97 == 0
    ensures (a * p + y) % 97 == y % 97
  {
    var q := a / 97;
    assert a * p == 97 * (q * p) by { assert a == 97 * q; Regroup(q, p); }
    SameRemainderAfterShift(q * p, y);
  }

  lemma Regroup(q: int, p: int)
    ensures 97 * q * p == 97 * (q * p)
  {
  }

  lemma ZerosLead(y: string)
    requires AllAlphanumeric(y)
    ensures AllAlphanumeric("0" + y) && Num("0" + y) % 97 == Num(y) % 97
  {
    hide Num;
    EmptyIsZero();
    Next("", 0, '0', "0");
    MultipleOf97Lead("0", y);
  }

  lemma TwinTail()
    ensures AllAlphanumeric("32IE00") && Num("32IE00") % 97 == 1
  {
    hide Num;
    EmptyIsZero();
    Next("", 0, '3', "3");
    Next("3", 3, '2', "32");
    Next("32", 32, 'I', "32I");
    Next("32I", 3218, 'E', "32IE");
    Next("32IE", 321814, '0', "32IE0");
    Next("32IE0", 3218140, '0', "32IE00");
  }

  lemma {:induction false} ZerosThen(k: nat, y: string)
    requires AllAlphanumeric(y)
    ensures var s := seq(k, _ => '0') + y; AllAlphanumeric(s) && Num(s) % 97 == Num(y) % 97
  {
    if k == 0 {
      assert seq(0, _ => '0') + y == y;
    } else {
      ZerosThen(k - 1, y);
      ZerosLead(seq(k - 1, _ => '0') + y);
      assert seq(k, _ => '0') + y == "0" + (seq(k - 1, _ => '0') + y);
    }
  }

  lemma TwinRemainder()
    ensures AllAlphanumeric(TwinBban + "IE" + "00") && Num(TwinBban + "IE" + "00") % 97 == 1
  {
    hide Num;
    EmptyIsZero();
    Next("", 0, 'A', "A");
    Next("A", 10, 'I', "AI");
    Next("AI", 1018, 'B', "AIB");
    Next("AIB", 101811, 'K', "AIBK");
    TwinTail();
    ZerosThen(12, "32IE00");
    MultipleOf97Lead("AIBK", seq(12, _ => '0') + "32IE00");
    assert "AIBK" + (seq(12, _ => '0') + "32IE00") == TwinBban + "IE" + "00";
  }

  // ----- account numbers

  const PREFIX := "NB"

  /** "NB" and ten digits. */
  predicate IsAccountNumber(s: string) {
    |s| == 12 && s[..2] == PREFIX && AllDigits(s[2..])
  }

  /** ibanPartsFromAccountNumber. */
  function SortCodeOf(s: string): string
    requires IsAccountNumber(s)
  {
    "0000" + s[2..4]
  }

  function AccountOf(s: string): string
    requires IsAccountNumber(s)
  {
    s[4..12]
  }

  lemma PartsAreGood(bank: string, s: string)
    requires |bank| == BANK_CODE && AllLetters(UpperAll(bank)) && IsAccountNumber(s)
    ensures GoodParts(bank, SortCodeOf(s), AccountOf(s))
  {
    forall i | 2 <= i < 12 ensures IsDigit(s[i]) { assert s[i] == s[2..][i - 2]; }
  }

  /** The IBAN of an account shows its number: four zeros and then its ten digits. */
  lemma IbanShowsAccountNumber(bank: string, s: string)
    requires |bank| == BANK_CODE && AllLetters(UpperAll(bank)) && IsAccountNumber(s)
    ensures GoodParts(bank, SortCodeOf(s), AccountOf(s))
    ensures var n := Made(bank, SortCodeOf(s), AccountOf(s));
            |n| == 22 && n[..2] == "IE" && n[4..8] == UpperAll(bank) && n[8..12] == "0000" && n[12..] == s[2..]
  {
    PartsAreGood(bank, s);
  }

  /** Main result: under one bank code, different account numbers give different IBANs. */
  lemma AccountNumbersGiveDistinctIbans(bank: string, s: string, t: string)
    requires |bank| == BANK_CODE && AllLetters(UpperAll(bank)) && IsAccountNumber(s) && IsAccountNumber(t)
    requires GoodParts(bank, SortCodeOf(s), AccountOf(s)) && GoodParts(bank, SortCodeOf(t), AccountOf(t))
    requires Made(bank, SortCodeOf(s), AccountOf(s)) == Made(bank, SortCodeOf(t), AccountOf(t))
    ensures s == t
  {
    var n, m := Made(bank, SortCodeOf(s), AccountOf(s)), Made(bank, SortCodeOf(t), AccountOf(t));
    assert n[12..14] == s[2..4] && n[14..22] == s[4..12];
    assert m[12..14] == t[2..4] && m[14..22] == t[4..12];
    assert s == s[..2] + s[2..4] + s[4..12] && t == t[..2] + t[2..4] + t[4..12];
  }
}
