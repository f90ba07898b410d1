/** The two Python string operations the configuration code relies on:
    `str.split(sep)` and `int(text)` / `str(int)` for decimal integers. */
module Text {
  import opened Common

  /** `s.split(sep)` for a one-character separator: the pieces between
      separators, keeping empty pieces ("a::b" gives "a", "", "b"). */
  function Split(s: string, sep: char): (parts: seq<string>)
    ensures |parts| >= 1
    ensures forall i :: 0 <= i < |parts| ==> sep !in parts[i]
    decreases |s|
  {
    if |s| == 0 then [""]
    else
      var rest := Split(s[1..], sep);
      if s[0] == sep then [""] + rest
      else [[s[0]] + rest[0]] + rest[1..]
  }

  /** `sep.join(parts)`, the inverse of Split. */
  function Join(parts: seq<string>, sep: char): string
    requires |parts| >= 1
  {
    if |parts| == 1 then parts[0] else parts[0] + [sep] + Join(parts[1..], sep)
  }

  lemma {:induction false} JoinSplit(s: string, sep: char)
    ensures Join(Split(s, sep), sep) == s
    decreases |s|
  {
    if |s| > 0 {
      JoinSplit(s[1..], sep);
      var rest := Split(s[1..], sep);
      if s[0] == sep {
        assert Split(s, sep)[1..] == rest;
      } else {
        var parts := Split(s, sep);
        if |rest| == 1 {
          assert parts == [[s[0]] + rest[0]];
        } else {
          assert parts[1..] == rest[1..];
          assert Join(rest, sep) == rest[0] + [sep] + Join(rest[1..], sep);
        }
      }
    }
  }

  lemma {:induction false} SplitPrefix(a: string, b: string, sep: char)
    requires sep !in a
    ensures Split(a + [sep] + b, sep) == [a] + Split(b, sep)
    decreases |a|
  {
    if |a| == 0 {
      assert a + [sep] + b == [sep] + b;
      assert ([sep] + b)[1..] == b;
    } else {
      assert (a + [sep] + b)[1..] == a[1..] + [sep] + b;
      SplitPrefix(a[1..], b, sep);
      assert [a[0]] + a[1..] == a;
    }
  }

  lemma {:induction false} SplitWhole(a: string, sep: char)
    requires sep !in a
    ensures Split(a, sep) == [a]
    decreases |a|
  {
    if |a| > 0 {
      SplitWhole(a[1..], sep);
      assert [a[0]] + a[1..] == a;
    }
  }

  /** Split undoes Join when no piece contains the separator. */
  lemma {:induction false} SplitJoin(parts: seq<string>, sep: char)
    requires |parts| >= 1
    requires forall i :: 0 <= i < |parts| ==> sep !in parts[i]
    ensures Split(Join(parts, sep), sep) == parts
    decreases |parts|
  {
    if |parts| == 1 {
      SplitWhole(parts[0], sep);
    } else {
      SplitJoin(parts[1..], sep);
      SplitPrefix(parts[0], Join(parts[1..], sep), sep);
      assert [parts[0]] + parts[1..] == parts;
    }
  }

  predicate IsDigit(c: char)
  {
    '0' <= c <= '9'
  }

  function DigitChar(d: nat): (c: char)
    requires d < 10
    ensures IsDigit(c) && c as int - '0' as int == d
  {
    ('0' as int + d) as char
  }

  /** The value of a non-empty run of ASCII decimal digits, or None. */
  function ParseDigits(s: string): (r: Option<nat>)
    ensures r.Some? <==> |s| > 0 && forall i :: 0 <= i < |s| ==> IsDigit(s[i])
    decreases |s|
  {
    if |s| == 0 || !IsDigit(s[|s| - 1]) then None
    else if |s| == 1 then Some(s[0] as int - '0' as int)
    else match ParseDigits(s[..|s| - 1])
      case None => None
      case Some(high) => Some(high * 10 + (s[|s| - 1] as int - '0' as int))
  }

  /** A leading zero does not change the value of a numeral, as "0502" is read as 502. */
  lemma {:induction false} LeadingZeroIgnored(d: string)
    requires |d| > 0 && forall i :: 0 <= i < |d| ==> IsDigit(d[i])
    ensures ParseDigits("0" + d) == ParseDigits(d)
    decreases |d|
  {
    var z := "0" + d;
    assert z[..|z| - 1] == "0" + d[..|d| - 1];
    if |d| > 1 {
      LeadingZeroIgnored(d[..|d| - 1]);
    }
  }

  /** The digits of a numeral: what follows one leading sign, if there is one. */
  function Unsigned(s: string): (d: string)
    ensures |s| > 0 && (s[0] == '-' || s[0] == '+') ==> d == s[1..]
    ensures |s| == 0 || (s[0] != '-' && s[0] != '+') ==> d == s
  {
    if |s| > 0 && (s[0] == '-' || s[0] == '+') then s[1..] else s
  }

  /** `int(s)` for an optionally signed decimal numeral; None where Python raises ValueError. */
  function ParseInt(s: string): (r: Option<int>)
    // accepted exactly when an optional sign is followed by a non-empty run of digits
    ensures r.Some? <==> |Unsigned(s)| > 0 && forall i :: 0 <= i < |Unsigned(s)| ==> IsDigit(Unsigned(s)[i])
    // the value is that of the digits, negated under a minus sign
    ensures r.Some? ==> r.value == if s[0] == '-' then -(ParseDigits(Unsigned(s)).value as int) else ParseDigits(Unsigned(s)).value
    // the empty string and a lone sign are not numerals
    ensures |s| == 0 || s == "-" || s == "+" ==> r.None?
    // a numeral without a minus sign is never negative
    ensures r.Some? && s[0] != '-' ==> r.value >= 0
    // a character that is neither a digit nor a leading sign makes int() raise
    ensures (exists i :: 0 < i < |s| && !IsDigit(s[i])) ==> r.None?
  {
    if |s| > 0 && s[0] == '-' then
      match ParseDigits(s[1..])
      case None => None
      case Some(n) => Some(-(n as int))
    else if |s| > 0 && s[0] == '+' then
      match ParseDigits(s[1..])
      case None => None
      case Some(n) => Some(n)
    else
      match ParseDigits(s)
      case None => None
      case Some(n) => Some(n)
  }

  function NatToString(n: nat): (s: string)
    ensures |s| >= 1
    ensures forall i :: 0 <= i < |s| ==> IsDigit(s[i])
    // only zero itself is written with a leading '0'
    ensures s[0] == '0' <==> n == 0
    ensures |s| >= 2 ==> s[0] != '0'
  {
    if n < 10 then [DigitChar(n)] else NatToString(n / 10) + [DigitChar(n % 10)]
  }

  /** `str(i)` for an integer. */
  function IntToString(i: int): (s: string)
    ensures |s| >= 1
    ensures s[0] == '-' <==> i < 0
    ensures forall k :: 0 < k < |s| ==> IsDigit(s[k])
    // no leading zeros, with or without a minus sign
    ensures |s| >= 2 && s[0] != '-' ==> s[0] != '0'
    ensures i < 0 ==> |s| >= 2 && s[1] != '0'
  {
    if i < 0 then "-" + NatToString(-i) else NatToString(i)
  }

  lemma {:induction false} ParseNatToString(n: nat)
    ensures ParseDigits(NatToString(n)) == Some(n)
  {
    if n >= 10 {
      ParseNatToString(n / 10);
      var s := NatToString(n);
      assert s[..|s| - 1] == NatToString(n / 10);
    }
  }

  /** Python's `int(str(i)) == i`. */
  lemma ParseIntToString(i: int)
    ensures ParseInt(IntToString(i)) == Some(i)
  {
    if i < 0 {
      ParseNatToString(-i);
      assert IntToString(i)[1..] == NatToString(-i);
    } else {
      ParseNatToString(i);
    }
  }

  /** A formatted integer is a minus sign and digits, so it never holds a ':' separator. */
  lemma IntToStringHasNoColon(i: int)
    ensures ':' !in IntToString(i)
  {
  }
}
