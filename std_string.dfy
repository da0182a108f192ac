/**
 * The three pieces of the C++ standard library that the benchmark helpers
 * rely on, stated over `string == seq<char>`:
 *  - `s.find(sub) != std::string::npos`, written `Contains(s, sub)`;
 *  - `std::stoi`, written `Stoi`, which yields `None` exactly where the
 *    library function throws;
 *  - printing an `int` through `operator<<`, written `IntToDecimal`.
 */
module StdString {
  import opened Wrappers

  /** A C++ `int` (32 bits, two's complement). */
  newtype int32 = x: int | -0x8000_0000 <= x < 0x8000_0000

  /** `sub` occurs in `s` starting at index `i`. */
  ghost predicate OccursAt(s: string, sub: string, i: int)
  {
    0 <= i && i + |sub| <= |s| && s[i..i + |sub|] == sub
  }

  /**
   * `s.find(sub) != std::string::npos`: a scan that tries every start
   * position from the left. The empty string is found in every string.
   */
  function Contains(s: string, sub: string): bool
    decreases |s|
  {
    if |sub| > |s| then false
    else if s[..|sub|] == sub then true
    else Contains(s[1..], sub)
  }

  /** The scan finds `sub` exactly when `sub` occurs somewhere in `s`. */
  lemma {:induction false} ContainsIff(s: string, sub: string)
    ensures Contains(s, sub) <==> exists i :: OccursAt(s, sub, i)
    decreases |s|
  {
    if |sub| > |s| {
    } else if s[..|sub|] == sub {
      assert OccursAt(s, sub, 0);
    } else {
      ContainsIff(s[1..], sub);
      if Contains(s[1..], sub) {
        var j :| OccursAt(s[1..], sub, j);
        assert s[1..][j..j + |sub|] == s[j + 1..j + 1 + |sub|];
        assert OccursAt(s, sub, j + 1);
      } else {
        forall i | OccursAt(s, sub, i)
          ensures false
        {
          if i != 0 {
            assert s[1..][i - 1..i - 1 + |sub|] == s[i..i + |sub|];
            assert OccursAt(s[1..], sub, i - 1);
          }
        }
      }
    }
  }

  /** `isspace` in the "C" locale: space, \t, \n, \v, \f, \r. */
  predicate IsSpace(c: char)
  {
    c == ' ' || '\t' <= c <= '\r'
  }

  predicate IsDigit(c: char)
  {
    '0' <= c <= '9'
  }

  predicate AllDigits(s: string)
  {
    forall i :: 0 <= i < |s| ==> IsDigit(s[i])
  }

  /** What `strtol` skips before the number. */
  function SkipSpaces(s: string): string
    decreases |s|
  {
    if |s| > 0 && IsSpace(s[0]) then SkipSpaces(s[1..]) else s
  }

  /** The length of the longest run of decimal digits at the start of `s`. */
  function DigitRun(s: string): (n: nat)
    ensures n <= |s|
    ensures AllDigits(s[..n])
    ensures n < |s| ==> !IsDigit(s[n])
    decreases |s|
  {
    if |s| > 0 && IsDigit(s[0]) then 1 + DigitRun(s[1..]) else 0
  }

  /** The number a string of decimal digits denotes. */
  function DigitsValue(ds: string): nat
    requires AllDigits(ds)
    decreases |ds|
  {
    if |ds| == 0 then 0
    else 10 * DigitsValue(ds[..|ds| - 1]) + (ds[|ds| - 1] as int - '0' as int)
  }

  /**
   * `std::stoi(s)` (base 10): skip leading white space, accept one optional
   * sign, then read the longest run of digits; anything after it is ignored.
   * `None` stands for the two exceptions: `std::invalid_argument` when there
   * is no digit, `std::out_of_range` when the value does not fit an `int`.
   */
  function Stoi(s: string): Option<int32>
  {
    var t := SkipSpaces(s);
    var negative := |t| > 0 && t[0] == '-';
    var u := if |t| > 0 && (t[0] == '-' || t[0] == '+') then t[1..] else t;
    var n := DigitRun(u);
    if n == 0 then None
    else
      var magnitude: int := DigitsValue(u[..n]);
      var v: int := if negative then -magnitude else magnitude;
      if -0x8000_0000 <= v < 0x8000_0000 then Some(v as int32) else None
  }

  function DigitChar(d: nat): (c: char)
    requires d < 10
  {
    ('0' as int + d) as char
  }

  /** The decimal digits of `n`, without leading zeros. */
  function NatToDecimal(n: nat): (s: string)
    ensures |s| > 0 && AllDigits(s)
    decreases n
  {
    if n < 10 then [DigitChar(n)] else NatToDecimal(n / 10) + [DigitChar(n % 10)]
  }

  /** How `std::ostream << int` writes a number. */
  function IntToDecimal(n: int): string
  {
    if n < 0 then "-" + NatToDecimal(-n) else NatToDecimal(n)
  }

  /** Reading back the digits of `n` gives `n`. */
  lemma {:induction false} DigitsValueOfDecimal(n: nat)
    ensures DigitsValue(NatToDecimal(n)) == n
    decreases n
  {
    if n >= 10 {
      var s := NatToDecimal(n);
      assert s[..|s| - 1] == NatToDecimal(n / 10);
      DigitsValueOfDecimal(n / 10);
    }
  }

  /** The run of digits stops where the digits stop. */
  lemma {:induction false} DigitRunOfDigits(ds: string, rest: string)
    requires AllDigits(ds)
    requires rest == [] || !IsDigit(rest[0])
    ensures DigitRun(ds + rest) == |ds|
    decreases |ds|
  {
    if ds == [] {
      assert ds + rest == rest;
    } else {
      assert (ds + rest)[1..] == ds[1..] + rest;
      DigitRunOfDigits(ds[1..], rest);
    }
  }

  /**
   * `std::stoi` reads back every `int` that `operator<<` writes, whatever
   * non-digit text follows it.
   */
  lemma StoiOfDecimal(n: int32, rest: string)
    requires rest == [] || !IsDigit(rest[0])
    ensures Stoi(IntToDecimal(n as int) + rest) == Some(n)
  {
    if n < 0 {
      StoiOfNegative(n, rest);
    } else {
      StoiOfNonNegative(n, rest);
    }
  }

  lemma StoiOfNonNegative(n: int32, rest: string)
    requires n >= 0
    requires rest == [] || !IsDigit(rest[0])
    ensures Stoi(NatToDecimal(n as int) + rest) == Some(n)
  {
    var digits := NatToDecimal(n as int);
    DigitsValueOfDecimal(n as int);
    DigitRunOfDigits(digits, rest);
    var s := digits + rest;
    assert SkipSpaces(s) == s;
    assert s[..|digits|] == digits;
  }

  lemma StoiOfNegative(n: int32, rest: string)
    requires n < 0
    requires rest == [] || !IsDigit(rest[0])
    ensures Stoi("-" + NatToDecimal(-(n as int)) + rest) == Some(n)
  {
    var digits := NatToDecimal(-(n as int));
    DigitsValueOfDecimal(-(n as int));
    DigitRunOfDigits(digits, rest);
    var s := "-" + digits + rest;
    assert SkipSpaces(s) == s;
    assert s[1..] == digits + rest;
    assert (digits + rest)[..|digits|] == digits;
  }

  /** The round trip proper: `std::stoi(std::to_string(n)) == n`. */
  lemma StoiRoundTrip(n: int32)
    ensures Stoi(IntToDecimal(n as int)) == Some(n)
  {
    StoiOfDecimal(n, []);
    assert IntToDecimal(n as int) + [] == IntToDecimal(n as int);
  }

  /** Leading white space does not change what `std::stoi` reads. */
  lemma StoiSkipsSpace(c: char, s: string)
    requires IsSpace(c)
    ensures Stoi([c] + s) == Stoi(s)
  {
    assert ([c] + s)[1..] == s;
  }

  /** A string without any digit (such as a missing key, read as "") does not parse. */
  lemma StoiNeedsADigit(s: string)
    requires forall i :: 0 <= i < |s| ==> !IsDigit(s[i])
    ensures Stoi(s).None?
  {
    var t := SkipSpaces(s);
    SkipSpacesIsSuffix(s);
    var u := if |t| > 0 && (t[0] == '-' || t[0] == '+') then t[1..] else t;
    assert |u| > 0 ==> u[0] == s[|s| - |u|];
  }

  lemma {:induction false} SkipSpacesIsSuffix(s: string)
    ensures |SkipSpaces(s)| <= |s| && SkipSpaces(s) == s[|s| - |SkipSpaces(s)|..]
    decreases |s|
  {
    if |s| > 0 && IsSpace(s[0]) {
      SkipSpacesIsSuffix(s[1..]);
    }
  }
}
