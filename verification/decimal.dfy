/** `String(n)` for the integers the bot writes into text: HTTP status codes,
    token budgets and user ids, together with the decimal reading that undoes it. */
module Decimal {
  import opened JsCore
  import opened JsString

  predicate IsDigit(c: char)
  {
    '0' <= c <= '9'
  }

  function DigitChar(d: nat): (c: char)
    requires d < 10
    ensures IsDigit(c)
  {
    ('0' as int + d) as char
  }

  function DigitValue(c: char): (d: nat)
    requires IsDigit(c)
    ensures d < 10 && DigitChar(d) == c
  {
    c as int - '0' as int
  }

  /** The decimal digits of `n`, most significant first, without leading zeros. */
  function NatToString(n: nat): (r: string)
    ensures |r| >= 1
    ensures forall i :: 0 <= i < |r| ==> IsDigit(r[i])
    ensures |r| > 1 ==> r[0] != '0'
  {
    if n < 10 then [DigitChar(n)] else NatToString(n / 10) + [DigitChar(n % 10)]
  }

  /** `String(i)` for an integer `i`. */
  function IntToString(i: int): (r: string)
    ensures |r| >= 1
    ensures i < 0 <==> r[0] == '-'
  {
    if i < 0 then "-" + NatToString(-i) else NatToString(i)
  }

  /** `String(i)` is made of digits and a leading minus sign. */
  lemma IntToStringChars(i: int)
    ensures forall k :: 0 <= k < |IntToString(i)| ==> IsDigit(IntToString(i)[k]) || IntToString(i)[k] == '-'
  {
    if i < 0 {
      assert IntToString(i) == "-" + NatToString(-i);
    }
  }

  /** Reads a non-empty run of decimal digits; anything else is `None`. */
  function ParseNat(s: string): Option<nat>
    decreases |s|
  {
    if s == [] || !IsDigit(s[|s| - 1]) then None
    else if |s| == 1 then Some(DigitValue(s[0]))
    else match ParseNat(s[..|s| - 1])
      case None => None
      case Some(p) => Some(p * 10 + DigitValue(s[|s| - 1]))
  }

  /** Reads an optionally negative decimal integer. */
  function ParseInt(s: string): Option<int>
  {
    var negative := |s| > 0 && s[0] == '-';
    match ParseNat(if negative then s[1..] else s)
      case None => None
      case Some(n) => Some(if negative then -(n as int) else n as int)
  }

  /** Reading back the digits of `n` gives `n`. */
  lemma {:induction false} ParseNatToString(n: nat)
    ensures ParseNat(NatToString(n)) == Some(n)
  {
    if n >= 10 {
      var s := NatToString(n);
      assert s[..|s| - 1] == NatToString(n / 10);
      ParseNatToString(n / 10);
    }
  }

  /** `String(i)` loses nothing: reading it back gives `i`. */
  lemma {:induction false} ParseIntToString(i: int)
    ensures ParseInt(IntToString(i)) == Some(i)
  {
    var s := IntToString(i);
    if i < 0 {
      var digits := NatToString(-i);
      assert s[1..] == digits;
      ParseNatToString(-i);
    } else {
      assert s[0] != '-';
      ParseNatToString(i);
    }
  }

  /** Different integers print differently. */
  lemma IntToStringInjective(i: int, j: int)
    requires IntToString(i) == IntToString(j)
    ensures i == j
  {
    ParseIntToString(i);
    ParseIntToString(j);
  }

  /** The status code an error message carries right after `prefix`: the
      digits up to the next space or the end of the message. */
  function StatusAfter(message: string, prefix: string): Option<int>
  {
    if StartsWith(message, prefix) then ParseInt(FirstSegment(message[|prefix|..], ' ')) else None
  }

  /** A message built as `prefix + String(status) + rest`, where `rest` is
      empty or starts with a space, names its status code. */
  lemma {:induction false} StatusAfterMessage(prefix: string, status: int, rest: string)
    requires rest == [] || rest[0] == ' '
    ensures StatusAfter(prefix + IntToString(status) + rest, prefix) == Some(status)
  {
    var digits := IntToString(status);
    var message := prefix + digits + rest;
    assert message[..|prefix|] == prefix;
    assert message[|prefix|..] == digits + rest;
    assert ' ' !in digits by {
      if status < 0 {
        assert digits == "-" + NatToString(-status);
      }
    }
    if rest == [] {
      assert digits + rest == digits;
      FirstSegmentNoSep(digits, ' ');
    } else {
      assert digits + rest == digits + [' '] + rest[1..];
      FirstSegmentOfJoin(digits, ' ', rest[1..]);
    }
    ParseIntToString(status);
  }
}
