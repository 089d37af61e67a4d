/** Decimal numbers as Rust's `str::parse` reads them and `to_string` prints them. */
module Numbers {
  import opened Text

  const U32_MAX := 0xFFFF_FFFF
  const I64_MAX := 0x7FFF_FFFF_FFFF_FFFF

  predicate AllDigits(s: string) {
    forall i :: 0 <= i < |s| ==> IsDigit(s[i])
  }

  function Value(s: string): nat
    requires AllDigits(s)
    decreases |s|
  {
    if s == "" then 0 else 10 * Value(s[..|s| - 1]) + (s[|s| - 1] as int - '0' as int)
  }

  function Magnitude(s: string, max: nat): Option<nat> {
    if s == "" || !AllDigits(s) || Value(s) > max then None else Some(Value(s))
  }

  /** `parse::<u32>()`: an optional plus sign, digits, and no overflow. */
  function ParseU32(s: string): Option<nat> {
    Magnitude(if s != "" && s[0] == '+' then s[1..] else s, U32_MAX)
  }

  /** `parse::<i64>()`: an optional sign, digits, and no overflow on either side. */
  function ParseI64(s: string): Option<int> {
    if s != "" && s[0] == '-' then
      var m := Magnitude(s[1..], I64_MAX + 1);
      if m.Some? then Some(0 - m.value as int) else None
    else
      Magnitude(if s != "" && s[0] == '+' then s[1..] else s, I64_MAX)
  }

  function Digit(n: nat): char
    requires n < 10
  {
    ('0' as int + n) as char
  }

  function ShowNat(n: nat): string {
    if n < 10 then [Digit(n)] else ShowNat(n / 10) + [Digit(n % 10)]
  }

  function ShowInt(i: int): string {
    if i < 0 then ['-'] + ShowNat(-i) else ShowNat(i)
  }

  predicate NoLeadingZero(s: string) {
    s != "" && '1' <= s[0] <= '9' && AllDigits(s)
  }

  /** The spelling `to_string` uses: no plus sign, no leading zero, no negative zero. */
  predicate Canonical(s: string) {
    || s == ['0']
    || NoLeadingZero(s)
    || (s != "" && s[0] == '-' && NoLeadingZero(s[1..]))
  }

  lemma {:induction false} ShownIsCanonical(n: nat)
    ensures ShowNat(n) == ['0'] || NoLeadingZero(ShowNat(n))
    ensures n > 0 ==> NoLeadingZero(ShowNat(n))
  {
    if n >= 10 {
      ShownIsCanonical(n / 10);
    }
  }

  lemma {:induction false} ShowValue(s: string)
    requires NoLeadingZero(s)
    ensures Value(s) > 0 && ShowNat(Value(s)) == s
    decreases |s|
  {
    var front := s[..|s| - 1];
    if front == "" {
      assert Value(front) == 0;
      assert s == [s[0]];
    } else {
      ShowValue(front);
      assert s == front + [s[|s| - 1]];
    }
  }

  /** Parsing and printing give the spelling back exactly when it was canonical. */
  lemma PrintsBack(s: string)
    requires ParseI64(s).Some?
    ensures ShowInt(ParseI64(s).value) == s <==> Canonical(s)
  {
    var i := ParseI64(s).value;
    ShownIsCanonical(if i < 0 then -i else i);
    if Canonical(s) {
      if s == ['0'] {
        assert s[..0] == "";
        assert Value(s) == 0;
      } else if s[0] == '-' {
        ShowValue(s[1..]);
        assert s == ['-'] + s[1..];
      } else {
        ShowValue(s);
      }
    }
  }

  // ----- What is read, and what is out of range -----

  lemma {:induction false} ShownValue(n: nat)
    ensures AllDigits(ShowNat(n)) && ShowNat(n) != ""
    ensures Value(ShowNat(n)) == n
  {
    var s := ShowNat(n);
    if n < 10 {
      assert s[..0] == "" && Value("") == 0;
    } else {
      ShownValue(n / 10);
      assert s[..|s| - 1] == ShowNat(n / 10);
    }
  }

  /** Numbers of 32 bits without a sign: what is printed is read, with or without a plus, up to the largest. */
  lemma ReadsU32(n: nat)
    ensures var r := if n <= 4294967295 then Some(n) else None;
      ParseU32(ShowNat(n)) == r && ParseU32("+" + ShowNat(n)) == r && ParseU32("-" + ShowNat(n)) == None
  {
    ShownValue(n);
    assert ("+" + ShowNat(n))[1..] == ShowNat(n);
    assert !IsDigit(("-" + ShowNat(n))[0]);
  }

  /** Numbers of 64 bits with a sign: what is printed is read, from the smallest to the largest. */
  lemma ReadsI64(i: int)
    ensures ParseI64(ShowInt(i)) ==
      if -9223372036854775808 <= i <= 9223372036854775807 then Some(i) else None
    ensures i >= 0 ==> ParseI64("+" + ShowInt(i)) == ParseI64(ShowInt(i))
  {
    var n := if i < 0 then -i else i;
    ShownValue(n);
    if i < 0 {
      assert ShowInt(i)[1..] == ShowNat(n);
    } else {
      assert ("+" + ShowNat(n))[1..] == ShowNat(n);
    }
  }

  lemma {:induction false} LeadingZero(s: string)
    requires AllDigits(s)
    ensures Value("0" + s) == Value(s)
    decreases |s|
  {
    var t := "0" + s;
    if s == "" {
      assert t[..0] == "";
    } else {
      LeadingZero(s[..|s| - 1]);
      assert t[..|t| - 1] == "0" + s[..|s| - 1];
    }
  }

  /** Zeros in front do not count, and anything but a digit behind the sign is no number. */
  lemma ZerosAndLetters(s: string)
    ensures s != "" && AllDigits(s) ==> ParseU32("0" + s) == ParseU32(s) && ParseI64("0" + s) == ParseI64(s)
    ensures s == "" || (exists i :: 0 <= i < |s| && !IsDigit(s[i]) && (i > 0 || (s[0] != '+' && s[0] != '-'))) ==>
      ParseU32(s) == None && ParseI64(s) == None
  {
    if s != "" && AllDigits(s) {
      LeadingZero(s);
      assert IsDigit(s[0]);
      assert AllDigits("0" + s);
    }
    if i :| 0 <= i < |s| && !IsDigit(s[i]) && (i > 0 || (s[0] != '+' && s[0] != '-')) {
      assert i > 0 ==> s[1..][i - 1] == s[i];
    }
  }
}
