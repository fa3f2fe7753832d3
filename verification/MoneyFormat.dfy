/** Amounts in minor units, written with a currency, grouped digits and two decimals. */
module MoneyFormat {
  const INT64_MIN := -0x8000_0000_0000_0000
  const INT64_MAX := 0x7FFF_FFFF_FFFF_FFFF

  function DigitChar(d: nat): char
    requires d < 10
  {
    '0' + d as char
  }

  /** `%d` of a natural number. */
  function Digits(n: nat): string {
    if n < 10 then [DigitChar(n)] else Digits(n / 10) + [DigitChar(n % 10)]
  }

  predicate IsDigit(c: char) { '0' <= c <= '9' }
  predicate AllDigits(s: string) { forall c | c in s :: IsDigit(c) }

  /** A comma before every group of three digits, counted from the right. */
  function Grouped(s: string): string {
    if |s| <= 3 then s else Grouped(s[..|s| - 3]) + "," + s[|s| - 3..]
  }

  method FormatGroupedInteger(value: nat) returns (digits: string)
    ensures digits == Grouped(Digits(value))
  {
    digits := Digits(value);
    ghost var s, tail := digits, "";
    var position := |digits| - 3;
    assert s[..|s|] == s;
    while position > 0
      invariant 0 <= position + 3 <= |s| && digits == s[..position + 3] + tail
      invariant Grouped(s) == Grouped(s[..position + 3]) + tail
      decreases position
    {
      ghost var head := s[..position + 3];
      assert head[..|head| - 3] == s[..position] && head[|head| - 3..] == s[position..position + 3];
      assert digits[..position] == s[..position] && digits[position..] == s[position..position + 3] + tail;
      digits := digits[..position] + "," + digits[position..];
      tail := "," + s[position..position + 3] + tail;
      position := position - 3;
    }
  }

  function Cents(n: nat): string
    requires n < 100
  {
    [DigitChar(n / 10), DigitChar(n % 10)]
  }

  function Body(magnitude: nat): string { Grouped(Digits(magnitude / 100)) + "." + Cents(magnitude % 100) }

  // ---- reading it back ----

  function Value(s: string): int { if s == "" then 0 else 10 * Value(s[..|s| - 1]) + (s[|s| - 1] as int - '0' as int) }

  function Strip(s: string): string {
    if s == "" then "" else Strip(s[..|s| - 1]) + if s[|s| - 1] == ',' || s[|s| - 1] == '.' then "" else [s[|s| - 1]]
  }

  /** Removes the currency, the commas and the point, and reads the digits with the sign. */
  function Parse(s: string, currency: string): int {
    if currency + " " <= s then Value(Strip(s[|currency| + 1..]))
    else if "-" + currency + " " <= s then -Value(Strip(s[|currency| + 2..]))
    else 0
  }

  lemma {:induction false} DigitsAreRead(n: nat)
    ensures AllDigits(Digits(n)) && Value(Digits(n)) == n && Digits(n) != ""
  {
    if n < 10 {
      assert [DigitChar(n)][..0] == "";
    } else {
      DigitsAreRead(n / 10);
      assert Digits(n)[..|Digits(n)| - 1] == Digits(n / 10);
    }
  }

  lemma {:induction false} StripAppend(s: string, t: string)
    ensures Strip(s + t) == Strip(s) + Strip(t)
  {
    if t == "" {
      assert s + t == s;
    } else {
      assert (s + t)[..|s + t| - 1] == s + t[..|t| - 1];
      StripAppend(s, t[..|t| - 1]);
    }
  }

  lemma StripJoin(s: string, separator: char, t: string)
    requires separator == ',' || separator == '.'
    ensures Strip(s + [separator] + t) == Strip(s) + Strip(t)
  {
    StripAppend(s + [separator], t);
    assert (s + [separator])[..|s|] == s;
  }

  lemma {:induction false} StripDigits(s: string)
    requires AllDigits(s)
    ensures Strip(s) == s
  {
    if s != "" {
      assert s == s[..|s| - 1] + [s[|s| - 1]] && s[|s| - 1] in s;
      StripDigits(s[..|s| - 1]);
    }
  }

  lemma {:induction false} StripGrouped(s: string)
    requires AllDigits(s)
    ensures Strip(Grouped(s)) == s
  {
    if |s| <= 3 {
      StripDigits(s);
    } else {
      var head, group := s[..|s| - 3], s[|s| - 3..];
      StripGrouped(head);
      StripJoin(Grouped(head), ',', group);
      StripDigits(group);
      assert s == head + group;
    }
  }

  lemma BodyIsRead(n: nat)
    ensures Value(Strip(Body(n))) == n
  {
    var major, cents := Digits(n / 100), Cents(n % 100);
    DigitsAreRead(n / 100);
    StripGrouped(major);
    StripJoin(Grouped(major), '.', cents);
    StripDigits(cents);
    assert Strip(Body(n)) == major + cents;
    TwoMoreDigits(major, cents);
  }

  lemma TwoMoreDigits(s: string, t: string)
    requires |t| == 2
    ensures Value(s + t) == 100 * Value(s) + 10 * (t[0] as int - '0' as int) + (t[1] as int - '0' as int)
  {
    assert (s + t)[..|s| + 1] == s + [t[0]] && (s + [t[0]])[..|s|] == s;
  }

  /** The sign cannot be mistaken for the currency, whatever the currency. */
  lemma SignIsClear(currency: string, rest: string)
    requires currency != ""
    ensures !(currency + " " <= "-" + currency + " " + rest)
  {
    var s := "-" + currency + " " + rest;
    if currency + " " <= s {
      assert s[|currency|] == currency[|currency| - 1];
      assert (currency + " ")[|currency|] == ' ';
      DashesOnly(currency, s, |currency| - 1);
    }
  }

  lemma {:induction false} DashesOnly(currency: string, s: string, i: nat)
    requires i < |currency| && currency + " " <= s && s[..|currency| + 1] == "-" + currency
    ensures currency[i] == '-'
  {
    assert s[i] == (currency + " ")[i] == currency[i];
    if i > 0 {
      DashesOnly(currency, s, i - 1);
      assert s[i] == ("-" + currency)[i] == currency[i - 1];
    } else {
      assert s[0] == ("-" + currency)[0];
    }
  }

  function Formatted(amount: int, currency: string): string {
    if amount < 0 then "-" + (currency + " " + Body(-amount)) else currency + " " + Body(amount)
  }

  /** Reading a formatted amount returns the amount, for every int64 and every currency. */
  lemma FormatRoundTrip(amount: int, currency: string)
    requires currency != ""
    ensures Parse(Formatted(amount, currency), currency) == amount
  {
    var n := if amount < 0 then -amount else amount;
    BodyIsRead(n);
    if amount < 0 {
      var s := "-" + (currency + " " + Body(n));
      assert s == "-" + currency + " " + Body(n);
      SignIsClear(currency, Body(n));
      assert s[|currency| + 2..] == Body(n);
      assert "-" + currency + " " <= s;
    } else {
      var s := currency + " " + Body(n);
      assert s[|currency| + 1..] == Body(n);
      assert currency + " " <= s;
    }
  }

  method FormatMagnitude(magnitude: nat) returns (number: string)
    ensures number == Body(magnitude)
  {
    var major := FormatGroupedInteger(magnitude / 100);
    number := major + "." + Cents(magnitude % 100);
  }

  method FormatSigned(amount: int, currency: string) returns (formatted: string)
    requires INT64_MIN <= amount <= INT64_MAX
    ensures formatted == Formatted(amount, currency)
  {
    var negative := amount < 0;
    var magnitude: nat;
    if negative {
      assert 0 <= -(amount + 1) <= INT64_MAX;  // fits before the conversion, even for the minimum
      magnitude := -(amount + 1) + 1;
    } else {
      magnitude := amount;
    }
    var number := FormatMagnitude(magnitude);
    formatted := currency + " " + number;
    if negative { formatted := "-" + formatted; }
  }

  method FormatFinancialAmount(amount: int, currency: string) returns (formatted: string)
    requires INT64_MIN <= amount <= INT64_MAX
    ensures currency == "" ==> formatted == ""
    ensures currency != "" ==> formatted == Formatted(amount, currency) && Parse(formatted, currency) == amount
  {
    if currency == "" { return ""; }
    formatted := FormatSigned(amount, currency);
    FormatRoundTrip(amount, currency);
  }

  predicate CommaFromRight(g: string, r: nat)
    requires r < |g|
  {
    g[|g| - 1 - r] == ','
  }

  lemma OneMoreGroup(s: string, r: nat)
    requires AllDigits(s) && |s| > 3 && r < |Grouped(s)|
    ensures |Grouped(s)| == |Grouped(s[..|s| - 3])| + 4
    ensures if r <= 3 then CommaFromRight(Grouped(s), r) <==> r == 3 else CommaFromRight(Grouped(s), r) <==> CommaFromRight(Grouped(s[..|s| - 3]), r - 4)
  {
    if r < 3 {
      assert Grouped(s)[|Grouped(s)| - 1 - r] == s[|s| - 1 - r] && s[|s| - 1 - r] in s;
    }
  }

  lemma NoCommaYet(s: string, r: nat)
    requires AllDigits(s) && |s| <= 3 && r < |Grouped(s)|
    ensures !CommaFromRight(Grouped(s), r) && r < 3
  {
    assert s[|s| - 1 - r] in s;
  }

  lemma FourBack(r: nat)
    requires r >= 4
    ensures r % 4 == (r - 4) % 4
  {}

  /** Counted from the right, exactly every fourth character is a comma. */
  lemma {:induction false} CommasEveryThree(s: string, r: nat)
    requires AllDigits(s) && r < |Grouped(s)|
    ensures CommaFromRight(Grouped(s), r) <==> r % 4 == 3
  {
    if |s| <= 3 {
      NoCommaYet(s, r);
    } else {
      OneMoreGroup(s, r);
      if r >= 4 {
        CommasEveryThree(s[..|s| - 3], r - 4);
        FourBack(r);
      }
    }
  }

  /** One comma for each full group of three digits to the right of the first digit, which stays first. */
  lemma {:induction false} GroupedLength(s: string)
    requires s != ""
    ensures |Grouped(s)| == |s| + (|s| - 1) / 3 && Grouped(s)[0] == s[0]
  {
    if |s| > 3 {
      GroupedLength(s[..|s| - 3]);
    }
  }

  lemma {:induction false} NoLeadingZero(n: nat)
    ensures Digits(n) != "" && (Digits(n)[0] == '0' ==> n == 0 && |Digits(n)| == 1)
  {
    if n >= 10 {
      NoLeadingZero(n / 10);
    }
  }

  /** How the text looks: a sign only if negative, the currency, a space, the major part with a comma before each group of
      three digits and no leading zero, a point, and two digits. */
  lemma FormatShape(amount: int, currency: string) returns (major: string, cents: string)
    requires currency != ""
    ensures Formatted(amount, currency) == (if amount < 0 then "-" else "") + currency + " " + major + "." + cents
    ensures |cents| == 2 && AllDigits(cents)
    ensures major != "" && (major[0] == '0' ==> |major| == 1)
    ensures forall r | 0 <= r < |major| :: if r % 4 == 3 then major[|major| - 1 - r] == ',' else IsDigit(major[|major| - 1 - r])
  {
    var n := if amount < 0 then -amount else amount;
    var digits := Digits(n / 100);
    major, cents := Grouped(digits), Cents(n % 100);
    DigitsAreRead(n / 100);
    NoLeadingZero(n / 100);
    GroupedLength(digits);
    forall r | 0 <= r < |major|
      ensures if r % 4 == 3 then major[|major| - 1 - r] == ',' else IsDigit(major[|major| - 1 - r])
    {
      CommasEveryThree(digits, r);
      GroupedChars(digits, |major| - 1 - r);
    }
    PutTogether(if amount < 0 then "-" else "", currency, major, cents);
  }

  lemma {:induction false} GroupedChars(s: string, i: nat)
    requires AllDigits(s) && i < |Grouped(s)|
    ensures Grouped(s)[i] == ',' || IsDigit(Grouped(s)[i])
  {
    if |s| > 3 {
      var head := s[..|s| - 3];
      if i < |Grouped(head)| {
        GroupedChars(head, i);
      } else if i > |Grouped(head)| {
        assert Grouped(s)[i] == s[|s| - 3 + (i - |Grouped(head)| - 1)] && s[|s| - 3 + (i - |Grouped(head)| - 1)] in s;
      }
    } else {
      assert s[i] in s;
    }
  }

  lemma PutTogether(sign: string, currency: string, major: string, cents: string)
    ensures sign + (currency + " " + (major + "." + cents)) == sign + currency + " " + major + "." + cents
    ensures currency + " " + (major + "." + cents) == "" + currency + " " + major + "." + cents
  {}
}
