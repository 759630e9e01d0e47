/** Hexadecimal as `{:x}` prints it and `u64::from_str_radix` reads it. */
module HexNumber {
  import opened Options

  const U64_MAX := 0xFFFF_FFFF_FFFF_FFFF

  function Digit(v: nat): (c: char)
    requires v < 16
    ensures DigitValue(c) == Some(v) && IsLower(c)
  {
    if v < 10 then ('0' as int + v) as char else ('a' as int + (v - 10)) as char
  }

  predicate IsLower(c: char) {
    '0' <= c <= '9' || 'a' <= c <= 'f'
  }

  function DigitValue(c: char): (v: Option<nat>)
    ensures v.Some? ==> v.value < 16
  {
    if '0' <= c <= '9' then Some(c as int - '0' as int)
    else if 'a' <= c <= 'f' then Some(c as int - 'a' as int + 10)
    else if 'A' <= c <= 'F' then Some(c as int - 'A' as int + 10)
    else None
  }

  function Print(n: nat): (text: string)
    ensures text != "" && forall i :: 0 <= i < |text| ==> IsLower(text[i])
  {
    if n < 16 then [Digit(n)] else Print(n / 16) + [Digit(n % 16)]
  }

  /** Digits of either case, at most one leading plus, and no more than 64 bits. */
  function Parse(text: string): Option<nat> {
    var digits := if text != "" && text[0] == '+' then text[1..] else text;
    if digits == "" then None else ParseDigits(digits)
  }

  function ParseDigits(digits: string): (n: Option<nat>)
    ensures n.Some? ==> n.value <= U64_MAX
  {
    if digits == "" then Some(0)
    else
      var front, d := ParseDigits(digits[..|digits| - 1]), DigitValue(digits[|digits| - 1]);
      if front.None? || d.None? || front.value * 16 + d.value > U64_MAX then None
      else Some(front.value * 16 + d.value)
  }

  lemma NextDigit(high: nat, power: nat, low: nat, d: nat)
    ensures (high * power + low) * 16 + d == high * (16 * power) + (low * 16 + d)
  {
  }

  /** Digits count from the left: a number is its front times a power of sixteen plus its end. */
  lemma {:induction false} DigitsArePositional(front: string, end: string)
    requires ParseDigits(front + end).Some?
    ensures ParseDigits(front).Some? && ParseDigits(end).Some?
    ensures ParseDigits(front + end).value == ParseDigits(front).value * Power16(|end|) + ParseDigits(end).value
  {
    if end == "" {
      assert front + end == front;
    } else {
      var most, last := end[..|end| - 1], end[|end| - 1];
      assert (front + end)[..|front + end| - 1] == front + most;
      DigitsArePositional(front, most);
      var high, power, low, d := ParseDigits(front).value, Power16(|most|), ParseDigits(most).value, DigitValue(last);
      NextDigit(high, power, low, d.value);
      Bounded(high, power, low);
      assert Power16(|end|) == 16 * power;
    }
  }

  lemma Bounded(high: nat, power: nat, low: nat)
    ensures low <= high * power + low
  {
  }

  /** And these are the digits. */
  lemma DigitsAre(v: nat)
    requires v < 16
    ensures Digit(v) == "0123456789abcdef"[v] && DigitValue(Digit(v)) == Some(v)
    ensures v >= 10 ==> DigitValue("ABCDEF"[v - 10]) == Some(v)
  {
  }

  /** One plus in front is read over; nothing, and a plus alone, is no number. */
  lemma OnePlusIsReadOver(text: string)
    ensures Parse("") == None == Parse("+")
    ensures text != "" ==> Parse("+" + text) == ParseDigits(text)
    ensures text != "" && text[0] != '+' ==> Parse(text) == ParseDigits(text)
  {
    assert ("+" + text)[1..] == text;
  }

  lemma {:induction false} DigitsOfPrint(n: nat)
    requires n <= U64_MAX
    ensures ParseDigits(Print(n)) == Some(n)
  {
    if n < 16 {
      assert Print(n)[..0] == "";
    } else {
      DigitsOfPrint(n / 16);
      assert Print(n)[..|Print(n)| - 1] == Print(n / 16);
    }
  }

  lemma ParseInvertsPrint(n: nat)
    requires n <= U64_MAX
    ensures Parse(Print(n)) == Some(n)
  {
    DigitsOfPrint(n);
  }

  function Power16(k: nat): nat {
    if k == 0 then 1 else 16 * Power16(k - 1)
  }

  lemma {:induction false} PrintIsShort(n: nat, k: nat)
    requires 0 < k && n < Power16(k)
    ensures |Print(n)| <= k
  {
    assert Power16(1) == 16;
    if n >= 16 {
      PrintIsShort(n / 16, k - 1);
    }
  }

  lemma PrintFitsSixteen(n: nat)
    requires n <= U64_MAX
    ensures |Print(n)| <= 16
  {
    assert Power16(4) == 0x1_0000;
    assert Power16(8) == 0x1_0000_0000 by {
      assert Power16(6) == 0x100_0000;
    }
    assert Power16(12) == 0x1_0000_0000_0000 by {
      assert Power16(10) == 0x100_0000_0000;
    }
    assert Power16(16) == 0x1_0000_0000_0000_0000 by {
      assert Power16(14) == 0x100_0000_0000_0000;
    }
    PrintIsShort(n, 16);
  }

  /** The one way `Print` writes a number: lower case, no sign, no needless zero. */
  predicate Canonical(text: string) {
    text != "" && (forall i :: 0 <= i < |text| ==> IsLower(text[i])) && (text[0] == '0' ==> |text| == 1)
  }

  lemma {:induction false} PrintIsCanonical(n: nat)
    ensures Canonical(Print(n)) && (n > 0 ==> Print(n)[0] != '0')
  {
    if n >= 16 {
      PrintIsCanonical(n / 16);
      assert Print(n)[0] == Print(n / 16)[0];
    }
  }

  lemma {:induction false} CanonicalIsPositive(digits: string)
    requires Canonical(digits) && digits[0] != '0' && ParseDigits(digits).Some?
    ensures ParseDigits(digits).value > 0
  {
    var front := digits[..|digits| - 1];
    if |digits| == 1 {
      assert front == "";
    } else {
      assert front[0] == digits[0];
      CanonicalIsPositive(front);
    }
  }

  lemma {:induction false} PrintOfDigits(digits: string)
    requires Canonical(digits) && ParseDigits(digits).Some?
    ensures Print(ParseDigits(digits).value) == digits
  {
    var front, last := digits[..|digits| - 1], digits[|digits| - 1];
    LowerDigit(last);
    assert digits == front + [last];
    if |digits| == 1 {
      assert front == "";
    } else {
      assert front[0] == digits[0];
      PrintOfDigits(front);
      CanonicalIsPositive(front);
    }
  }

  lemma LowerDigit(c: char)
    requires IsLower(c)
    ensures DigitValue(c).Some? && Digit(DigitValue(c).value) == c
  {
  }

  /** Reading is looser than printing: what is read prints back as it was exactly when it was
      canonical. */
  lemma PrintInvertsParseIff(text: string)
    requires Parse(text).Some?
    ensures Print(Parse(text).value) == text <==> Canonical(text)
  {
    PrintIsCanonical(Parse(text).value);
    if Canonical(text) {
      PrintOfDigits(text);
    }
  }
}
