/** pkg/iban: generation and validation of IBANs with the MOD 97-10 check of
    ISO 7064, over ASCII text; and accounts-svc's mapping of account numbers. */
module Iban {
  import opened Options

  // ----- characters

  predicate IsLetter(c: char) {
    'A' <= c <= 'Z'
  }

  predicate IsDigit(c: char) {
    '0' <= c <= '9'
  }

  predicate AllLetters(s: string) {
    s != "" && forall i :: 0 <= i < |s| ==> IsLetter(s[i])
  }

  predicate AllDigits(s: string) {
    s != "" && forall i :: 0 <= i < |s| ==> IsDigit(s[i])
  }

  predicate AllAlphanumeric(s: string) {
    forall i :: 0 <= i < |s| ==> IsLetter(s[i]) || IsDigit(s[i])
  }

  method IsAllLetters(s: string) returns (r: bool)
    ensures r <==> AllLetters(s)
  {
    if s == "" { return false; }
    for i := 0 to |s|
      invariant forall j :: 0 <= j < i ==> IsLetter(s[j])
    {
      if s[i] < 'A' || s[i] > 'Z' { return false; }
    }
    return true;
  }

  method IsAllDigits(s: string) returns (r: bool)
    ensures r <==> AllDigits(s)
  {
    if s == "" { return false; }
    for i := 0 to |s|
      invariant forall j :: 0 <= j < i ==> IsDigit(s[j])
    {
      if s[i] < '0' || s[i] > '9' { return false; }
    }
    return true;
  }

  method IsAllLettersOrDigits(s: string) returns (r: bool)
    ensures r <==> AllAlphanumeric(s)
  {
    for i := 0 to |s|
      invariant forall j :: 0 <= j < i ==> IsLetter(s[j]) || IsDigit(s[j])
    {
      if !('A' <= s[i] <= 'Z') && !('0' <= s[i] <= '9') { return false; }
    }
    return true;
  }

  // ----- canonical and display forms

  function UpperChar(c: char): char {
    if 'a' <= c <= 'z' then (c as int - 32) as char else c
  }

  /** Without spaces, in upper case. */
  function Normalize(s: string): string {
    if s == "" then "" else Normalize(s[..|s| - 1]) + if s[|s| - 1] == ' ' then "" else [UpperChar(s[|s| - 1])]
  }

  predicate IsNormal(s: string) {
    forall i :: 0 <= i < |s| ==> s[i] != ' ' && UpperChar(s[i]) == s[i]
  }

  lemma {:induction false} NormalizeIsNormal(s: string)
    ensures IsNormal(Normalize(s))
  {
    if s != "" { NormalizeIsNormal(s[..|s| - 1]); }
  }

  lemma {:induction false} NormalStays(s: string)
    requires IsNormal(s)
    ensures Normalize(s) == s
  {
    if s != "" { NormalStays(s[..|s| - 1]); }
  }

  lemma {:induction false} NormalizeConcat(s: string, t: string)
    ensures Normalize(s + t) == Normalize(s) + Normalize(t)
  {
    if t == "" {
      assert s + t == s;
    } else {
      assert (s + t)[..|s + t| - 1] == s + t[..|t| - 1];
      NormalizeConcat(s, t[..|t| - 1]);
    }
  }

  /** What becomes of each character: spaces go, small letters become capital. */
  lemma NormalizeMeans(s: string, c: char, t: string)
    ensures Normalize("") == ""
    ensures Normalize(s + [c] + t) ==
            Normalize(s) + (if c == ' ' then "" else if 'a' <= c <= 'z' then [(c as int - 'a' as int + 'A' as int) as char] else [c]) +
            Normalize(t)
  {
    NormalizeConcat(s + [c], t);
    NormalizeConcat(s, [c]);
    assert [c][..0] == "";
  }

  /** Blocks of four, separated by single spaces. */
  function Grouped(n: string): string
    decreases |n|
  {
    if |n| <= 4 then n else n[..4] + " " + Grouped(n[4..])
  }

  lemma {:induction false} GroupedNormalizes(n: string)
    requires IsNormal(n)
    ensures Normalize(Grouped(n)) == n
    decreases |n|
  {
    if |n| <= 4 {
      NormalStays(n);
    } else {
      GroupedNormalizes(n[4..]);
      NormalStays(n[..4]);
      NormalizeConcat(n[..4], " ");
      NormalizeConcat(n[..4] + " ", Grouped(n[4..]));
      assert Normalize("") == "" && Normalize(" ") == "";
      assert n == n[..4] + n[4..];
    }
  }

  /** Every fifth character is a space, the others are the normal form in order, and
      there is no space at the end. */
  predicate IsSpaced(r: string, n: string) {
    && |r| == |n| + (if n == "" then 0 else (|n| - 1) / 4)
    && forall i :: 0 <= i < |r| ==>
         if i % 5 == 4 then r[i] == ' ' else i - i / 5 < |n| && r[i] == n[i - i / 5]
  }

  lemma {:induction false} GroupedIsSpaced(n: string)
    ensures IsSpaced(Grouped(n), n)
    decreases |n|
  {
    if |n| > 4 {
      var rest, r := n[4..], Grouped(n);
      GroupedIsSpaced(rest);
      forall i | 0 <= i < |r|
        ensures if i % 5 == 4 then r[i] == ' ' else i - i / 5 < |n| && r[i] == n[i - i / 5]
      {
        if i >= 5 {
          assert r[i] == Grouped(rest)[i - 5];
          assert (i - 5) % 5 == i % 5 && (i - 5) / 5 == i / 5 - 1;
        }
      }
    }
  }

  /** Format's loop, block by block. */
  method WriteBlocks(n: string) returns (r: string)
    ensures r == Grouped(n)
  {
    r := "";
    var i := 0;
    while i < |n|
      invariant 0 <= i && (i % 4 == 0 || i >= |n|)
      invariant i < |n| ==> (if i == 0 then Grouped(n) else r + " " + Grouped(n[i..])) == Grouped(n)
      invariant i >= |n| ==> r == Grouped(n)
      invariant i == 0 ==> r == ""
    {
      if i > 0 { r := r + " "; }
      var end := i + 4;
      if end > |n| { end := |n|; }
      assert i + 4 < |n| ==> n[i..][..4] == n[i..end] && n[i..][4..] == n[end..];
      assert i == 0 ==> n[i..] == n;
      r := r + n[i..end];
      i := i + 4;
    }
  }

  method Format(s: string) returns (r: string)
    ensures r == Grouped(Normalize(s))
    ensures IsSpaced(r, Normalize(s))
  {
    GroupedIsSpaced(Normalize(s));
    r := WriteBlocks(Normalize(s));
  }

  /** Main result: formatting loses nothing, and formatting twice changes nothing. */
  lemma FormatRoundTrip(s: string)
    ensures Normalize(Grouped(Normalize(s))) == Normalize(s)
    ensures Grouped(Normalize(Grouped(Normalize(s)))) == Grouped(Normalize(s))
  {
    NormalizeIsNormal(s);
    GroupedNormalizes(Normalize(s));
  }

  // ----- the number behind a string

  /** A=10 .. Z=35, digits as themselves. */
  function ValueOf(c: char): nat
    requires IsLetter(c) || IsDigit(c)
  {
    if IsDigit(c) then c as int - '0' as int else c as int - 'A' as int + 10
  }

  function Shift(c: char): nat {
    if IsDigit(c) then 10 else 100
  }

  /** The ISO 7064 numeric form, read left to right. */
  function Num(s: string): nat
    requires AllAlphanumeric(s)
  {
    if s == "" then 0 else Num(s[..|s| - 1]) * Shift(s[|s| - 1]) + ValueOf(s[|s| - 1])
  }

  function Digit(d: nat): char
    requires d < 10
  {
    (d + '0' as int) as char
  }

  /** One character's digits: "%d" of its value. */
  function Spelled(c: char): string
    requires IsLetter(c) || IsDigit(c)
  {
    if IsDigit(c) then [c] else [Digit(ValueOf(c) / 10), Digit(ValueOf(c) % 10)]
  }

  function Expand(s: string): string
    requires AllAlphanumeric(s)
  {
    if s == "" then "" else Expand(s[..|s| - 1]) + Spelled(s[|s| - 1])
  }

  /** big.Int.SetString(digits, 10). */
  function Decimal(digits: string): nat
    requires DigitsOnly(digits)
  {
    if digits == "" then 0 else Decimal(digits[..|digits| - 1]) * 10 + ValueOf(digits[|digits| - 1])
  }

  predicate DigitsOnly(s: string) {
    forall i :: 0 <= i < |s| ==> IsDigit(s[i])
  }

  lemma DecimalAppend(digits: string, c: char)
    requires DigitsOnly(digits) && IsDigit(c)
    ensures DigitsOnly(digits + [c]) && Decimal(digits + [c]) == Decimal(digits) * 10 + ValueOf(c)
  {
    assert (digits + [c])[..|digits|] == digits;
  }

  lemma DecimalSpelled(digits: string, c: char)
    requires DigitsOnly(digits) && (IsLetter(c) || IsDigit(c))
    ensures DigitsOnly(digits + Spelled(c)) && Decimal(digits + Spelled(c)) == Decimal(digits) * Shift(c) + ValueOf(c)
  {
    if IsDigit(c) {
      DecimalAppend(digits, c);
    } else {
      var tens, units := Spelled(c)[0], Spelled(c)[1];
      DecimalAppend(digits, tens);
      DecimalAppend(digits + [tens], units);
      assert digits + Spelled(c) == digits + [tens] + [units];
    }
  }

  lemma {:induction false} ExpandIsNum(s: string)
    requires AllAlphanumeric(s)
    ensures DigitsOnly(Expand(s)) && Decimal(Expand(s)) == Num(s) && |Expand(s)| >= |s|
  {
    if s != "" {
      ExpandIsNum(s[..|s| - 1]);
      DecimalSpelled(Expand(s[..|s| - 1]), s[|s| - 1]);
    }
  }

  method LettersToDigits(s: string) returns (r: Option<string>)
    ensures r.Some? <==> AllAlphanumeric(s)
    ensures r.Some? ==> r.value == Expand(s)
  {
    var b := "";
    for i := 0 to |s|
      invariant AllAlphanumeric(s[..i]) && b == Expand(s[..i])
    {
      var c := s[i];
      assert s[..i + 1] == s[..i] + [c] && s[..i + 1][..i] == s[..i];
      if '0' <= c <= '9' {
        b := b + [c];
      } else if 'A' <= c <= 'Z' {
        b := b + Spelled(c);
      } else {
        return None;
      }
    }
    assert s[..|s|] == s;
    return Some(b);
  }

  /** An error for a character that is neither letter nor digit, and for "". */
  method Mod97Remainder(s: string) returns (r: Option<nat>)
    ensures r.Some? <==> AllAlphanumeric(s) && s != ""
    ensures r.Some? ==> r.value == Num(s) % 97
  {
    var digits := LettersToDigits(s);
    if digits.None? { return None; }
    ExpandIsNum(s);
    if digits.value == "" { return None; }
    return Some(Decimal(digits.value) % 97);
  }

  // ----- generate and validate

  const BANK_CODE := 4
  const SORT_CODE := 6
  const ACCOUNT := 8
  const IE_LENGTH := 22

  function UpperAll(s: string): string {
    seq(|s|, i requires 0 <= i < |s| => UpperChar(s[i]))
  }

  predicate GoodParts(bank: string, sort: string, account: string) {
    && |bank| == BANK_CODE && AllLetters(UpperAll(bank))
    && |sort| == SORT_CODE && AllDigits(sort)
    && |account| == ACCOUNT && AllDigits(account)
  }

  /** "%02d" for numbers below 100. */
  function TwoDigits(n: nat): string
    requires n < 100
  {
    [Digit(n / 10), Digit(n % 10)]
  }

  /** The IBAN of these parts. */
  function Made(bank: string, sort: string, account: string): string
    requires GoodParts(bank, sort, account)
  {
    var bban := UpperAll(bank) + sort + account;
    "IE" + TwoDigits(98 - Num(bban + "IE" + "00") % 97) + bban
  }

  method Generate(bank: string, sort: string, account: string) returns (r: Option<string>)
    ensures r.Some? <==> GoodParts(bank, sort, account)
    ensures r.Some? ==> r.value == Made(bank, sort, account)
  {
    var code := UpperAll(bank);
    var letters := IsAllLetters(code);
    if |code| != BANK_CODE || !letters { return None; }
    var digits := IsAllDigits(sort);
    if |sort| != SORT_CODE || !digits { return None; }
    digits := IsAllDigits(account);
    if |account| != ACCOUNT || !digits { return None; }
    var bban := code + sort + account;
    var remainder := Mod97Remainder(bban + "IE" + "00");
    if remainder.None? { return None; }
    return Some("IE" + TwoDigits(98 - remainder.value) + bban);
  }

  datatype Verdict =
    | Valid | TooShort | BadCountry | BadCheckDigits | BadCharacters | BadLength
    | BadBankCode | BadSortCode | BadAccountNumber | BadChecksum

  /** BBAN, country, check digits: the order in which the number is read. */
  function Rearranged(n: string): string
    requires |n| >= 4
  {
    n[4..] + n[..4]
  }

  /** Validate on a normalized string. */
  function Check(n: string): Verdict {
    if |n| < 4 then TooShort
    else if !AllLetters(n[0..2]) then BadCountry
    else if !AllDigits(n[2..4]) then BadCheckDigits
    else if !AllAlphanumeric(n[4..]) then BadCharacters
    else if n[0..2] == "IE" && |n| != IE_LENGTH then BadLength
    else if n[0..2] == "IE" && !AllLetters(n[4..8]) then BadBankCode
    else if n[0..2] == "IE" && !AllDigits(n[8..14]) then BadSortCode
    else if n[0..2] == "IE" && !AllDigits(n[14..]) then BadAccountNumber
    else
      RearrangedIsAlphanumeric(n);
      if Num(Rearranged(n)) % 97 != 1 then BadChecksum else Valid
  }

  lemma RearrangedIsAlphanumeric(n: string)
    requires |n| >= 4 && AllLetters(n[0..2]) && AllDigits(n[2..4]) && AllAlphanumeric(n[4..])
    ensures AllAlphanumeric(Rearranged(n)) && AllAlphanumeric(n)
  {
    assert n == n[0..2] + n[2..4] + n[4..];
    assert n[..4] == n[0..2] + n[2..4];
  }

  method Validate(s: string) returns (v: Verdict)
    ensures v == Check(Normalize(s))
    ensures var n := Normalize(s);
            && (v == TooShort <==> |n| < 4)
            && (|n| >= 4 ==>
                  var letters := AllLetters(n[0..2]);
                  var digits := letters && AllDigits(n[2..4]);
                  var shaped := digits && AllAlphanumeric(n[4..]);
                  var irish := shaped && n[0] == 'I' && n[1] == 'E';
                  && (v == BadCountry <==> !letters)
                  && (v == BadCheckDigits <==> letters && !digits)
                  && (v == BadCharacters <==> digits && !shaped)
                  && (v == BadLength <==> irish && |n| != 22)
                  && (v == BadBankCode <==> irish && |n| == 22 && !AllLetters(n[4..8]))
                  && (v == BadSortCode <==> irish && |n| == 22 && AllLetters(n[4..8]) && !AllDigits(n[8..14]))
                  && (v == BadAccountNumber <==>
                        irish && |n| == 22 && AllLetters(n[4..8]) && AllDigits(n[8..14]) && !AllDigits(n[14..])))
  {
    var n := Normalize(s);
    if |n| < 4 { return TooShort; }
    var country, checkDigits, bban := n[0..2], n[2..4], n[4..];
    var ok := IsAllLetters(country);
    if !ok { return BadCountry; }
    ok := IsAllDigits(checkDigits);
    if !ok { return BadCheckDigits; }
    ok := IsAllLettersOrDigits(bban);
    if !ok { return BadCharacters; }
    if country == "IE" {
      if |n| != IE_LENGTH { return BadLength; }
      assert bban[0..4] == n[4..8] && bban[4..10] == n[8..14] && bban[10..] == n[14..];
      ok := IsAllLetters(bban[0..4]);
      if !ok { return BadBankCode; }
      ok := IsAllDigits(bban[4..10]);
      if !ok { return BadSortCode; }
      ok := IsAllDigits(bban[10..]);
      if !ok { return BadAccountNumber; }
    }
    assert bban + country + checkDigits == Rearranged(n);
    RearrangedIsAlphanumeric(n);
    var remainder := Mod97Remainder(bban + country + checkDigits);
    if remainder != Some(1) { return BadChecksum; }
    return Valid;
  }

  predicate Accepted(n: string) {
    Check(n).Valid?
  }

  predicate Irish(n: string) {
    |n| >= 2 && n[0..2] == "IE"
  }
}
