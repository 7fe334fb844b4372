/**
 * `parseInt(name, 10)`, the rule that decides whether a directory names a chain:
 * leading white space is skipped, one sign is allowed, and the longest run of
 * decimal digits that follows is read; without any digit the result is NaN (None).
 */
module JsParseInt {
  import opened Wrappers
  import opened Json

  /** The white space `parseInt` skips (ECMAScript's StrWhiteSpaceChar). */
  predicate IsWhiteSpace(c: char)
  {
    || c == '\t' || c == '\n' || c == '\U{000B}' || c == '\U{000C}' || c == '\r' || c == ' '
    || c == '\U{00A0}' || c == '\U{1680}' || ('\U{2000}' <= c <= '\U{200A}')
    || c == '\U{2028}' || c == '\U{2029}' || c == '\U{202F}' || c == '\U{205F}'
    || c == '\U{3000}' || c == '\U{FEFF}'
  }

  predicate IsDigit(c: char)
  {
    '0' <= c <= '9'
  }

  predicate AllDigits(s: string)
  {
    forall i :: 0 <= i < |s| ==> IsDigit(s[i])
  }

  function TrimStart(s: string): string
  {
    if |s| > 0 && IsWhiteSpace(s[0]) then TrimStart(s[1..]) else s
  }

  /** The longest prefix of `s` made of decimal digits. */
  function LeadingDigits(s: string): (d: string)
    ensures AllDigits(d) && d <= s
    ensures |d| < |s| ==> !IsDigit(s[|d|])
  {
    if |s| > 0 && IsDigit(s[0]) then [s[0]] + LeadingDigits(s[1..]) else []
  }

  /** The number written by a string of decimal digits. */
  function DigitsValue(d: string): nat
    requires AllDigits(d)
  {
    if d == [] then 0 else DigitsValue(d[..|d| - 1]) * 10 + (d[|d| - 1] as int - '0' as int)
  }

  /** `t` without its sign, if it starts with one. */
  function Unsigned(t: string): (u: string)
    ensures u == t || (|t| > 0 && u == t[1..] && (t[0] == '-' || t[0] == '+'))
  {
    if |t| > 0 && (t[0] == '-' || t[0] == '+') then t[1..] else t
  }

  /** `parseInt(s, 10)`, with NaN as None. */
  function ParseInt(s: string): Option<int>
  {
    var t := TrimStart(s);
    var negative := |t| > 0 && t[0] == '-';
    var unsigned := Unsigned(t);
    var digits := LeadingDigits(unsigned);
    var magnitude: int := if digits == [] then 0 else DigitsValue(digits);
    if digits == [] then None
    else if negative then Some(-magnitude)
    else Some(magnitude)
  }

  predicate AllWhiteSpace(ws: string)
  {
    forall i :: 0 <= i < |ws| ==> IsWhiteSpace(ws[i])
  }

  lemma {:induction false} TrimStartSkips(ws: string, t: string)
    requires AllWhiteSpace(ws)
    requires t == [] || !IsWhiteSpace(t[0])
    ensures TrimStart(ws + t) == t
  {
    if ws == [] {
      assert ws + t == t;
    } else {
      assert (ws + t)[0] == ws[0];
      assert (ws + t)[1..] == ws[1..] + t;
      TrimStartSkips(ws[1..], t);
    }
  }

  /** `TrimStart` drops a prefix of white space and stops at the first other character. */
  lemma {:induction false} TrimStartSplits(s: string) returns (ws: string)
    ensures AllWhiteSpace(ws) && s == ws + TrimStart(s)
    ensures TrimStart(s) == [] || !IsWhiteSpace(TrimStart(s)[0])
  {
    if |s| > 0 && IsWhiteSpace(s[0]) {
      var tail := TrimStartSplits(s[1..]);
      ws := [s[0]] + tail;
      assert s == [s[0]] + s[1..];
    } else {
      ws := [];
      assert s == ws + s;
    }
  }

  /**
   * The converse of `ParseIntOfWrittenForm`: a name that is not NaN is white
   * space, an optional sign, digits, and then anything that does not start
   * with a digit, and its value is that of the digits, negated after a minus.
   * Together the two say which directory names are chains.
   */
  /** `s` is written as `ws`, then `sign`, then `d`, then `rest`. */
  predicate WrittenForm(s: string, ws: string, sign: string, d: string, rest: string)
  {
    s == ws + sign + d + rest
  }

  lemma ParseIntNeedsWrittenForm(s: string)
    requires ParseInt(s).Some?
    ensures exists ws, sign, d, rest ::
      && AllWhiteSpace(ws)
      && (sign == "" || sign == "+" || sign == "-")
      && d != [] && AllDigits(d)
      && (rest == [] || !IsDigit(rest[0]))
      && WrittenForm(s, ws, sign, d, rest)
      && ParseInt(s).value == (if sign == "-" then 0 - DigitsValue(d) else DigitsValue(d))
  {
    var ws := TrimStartSplits(s);
    var sign := SignSplits(TrimStart(s));
    var d := LeadingDigits(Unsigned(TrimStart(s)));
    var rest := DigitsSplit(Unsigned(TrimStart(s)));
    Regroup(s, ws, TrimStart(s), sign, Unsigned(TrimStart(s)), d, rest);
    ParseIntOfWrittenForm(ws, sign, d, rest);
  }

  /** Splits `u` after its leading digits. */
  lemma DigitsSplit(u: string) returns (rest: string)
    ensures u == LeadingDigits(u) + rest
    ensures LeadingDigits(u) == [] || rest == [] || !IsDigit(rest[0])
  {
    rest := u[|LeadingDigits(u)|..];
  }

  /** The three splits of `s` chained into its written form. */
  lemma Regroup(s: string, ws: string, t: string, sign: string, u: string, d: string, rest: string)
    requires s == ws + t && t == sign + u && u == d + rest
    ensures WrittenForm(s, ws, sign, d, rest)
  {
    assert s == ws + (sign + (d + rest));
  }

  /** `Unsigned` drops exactly the optional sign in front of `t`. */
  lemma SignSplits(t: string) returns (sign: string)
    ensures sign == "" || sign == "+" || sign == "-"
    ensures t == sign + Unsigned(t)
    ensures (|t| > 0 && t[0] == '-') <==> sign == "-"
  {
    if |t| > 0 && (t[0] == '-' || t[0] == '+') {
      sign := [t[0]];
      assert t == [t[0]] + t[1..];
    } else {
      sign := "";
      assert t == "" + t;
    }
  }

  /**
   * A name written as white space, an optional sign, digits and anything that
   * does not start with a digit parses to the digits' value, negated after a
   * minus sign: " -12px" reads as -12, "+7" as 7.
   */
  lemma ParseIntOfWrittenForm(ws: string, sign: string, d: string, rest: string)
    requires AllWhiteSpace(ws)
    requires sign == "" || sign == "+" || sign == "-"
    requires d != [] && AllDigits(d)
    requires rest == [] || !IsDigit(rest[0])
    ensures ParseInt(ws + sign + d + rest) == Some(if sign == "-" then 0 - DigitsValue(d) else DigitsValue(d))
  {
    var s := ws + sign + d + rest;
    var t := sign + d + rest;
    assert s == ws + t;
    SignedStart(sign, d, rest);
    TrimStartSkips(ws, t);
    LeadingDigitsOfDigits(d, rest);
    assert TrimStart(s) == t;
    assert LeadingDigits(Unsigned(t)) == d;
  }

  /** An optional sign before digits: not white space, and `Unsigned` drops just the sign. */
  lemma SignedStart(sign: string, d: string, rest: string)
    requires sign == "" || sign == "+" || sign == "-"
    requires d != [] && AllDigits(d)
    ensures var t := sign + d + rest;
      && t != [] && !IsWhiteSpace(t[0])
      && Unsigned(t) == d + rest
      && (t[0] == '-' <==> sign == "-")
  {
    var t := sign + d + rest;
    if sign == "" {
      assert t == d + rest;
      assert t[0] == d[0];
    } else {
      assert t[0] == sign[0];
      assert t[1..] == d + rest;
    }
  }

  /**
   * A name that starts with digits is read up to its first non-digit, whatever
   * follows: "1abc" names chain 1.
   */
  lemma ParseIntReadsLeadingDigits(d: string, rest: string)
    requires d != [] && AllDigits(d)
    requires rest == [] || !IsDigit(rest[0])
    ensures ParseInt(d + rest) == Some(DigitsValue(d))
  {
    var s := d + rest;
    assert TrimStart(s) == s by { assert s[0] == d[0]; }
    assert Unsigned(s) == s;
    LeadingDigitsOfDigits(d, rest);
  }

  lemma {:induction false} LeadingDigitsOfDigits(d: string, rest: string)
    requires AllDigits(d)
    requires rest == [] || !IsDigit(rest[0])
    ensures LeadingDigits(d + rest) == d
  {
    if d == [] {
      assert d + rest == rest;
    } else {
      assert (d + rest)[1..] == d[1..] + rest;
      LeadingDigitsOfDigits(d[1..], rest);
    }
  }

  lemma {:induction false} NatToStringDigits(n: nat)
    ensures NatToString(n) != [] && AllDigits(NatToString(n))
    ensures DigitsValue(NatToString(n)) == n
    decreases n
  {
    if n >= 10 {
      NatToStringDigits(n / 10);
      var s := NatToString(n);
      assert s[..|s| - 1] == NatToString(n / 10);
    }
  }

  lemma TrimStartKeeps(s: string)
    requires |s| > 0 && (s[0] == '-' || IsDigit(s[0]))
    ensures TrimStart(s) == s
  {
  }

  /** An unsigned run of digits parses to the number it writes. */
  lemma ParseIntOfDigits(d: string)
    requires d != [] && AllDigits(d)
    ensures ParseInt(d) == Some(DigitsValue(d))
  {
    TrimStartKeeps(d);
    assert LeadingDigits(d) == d by {
      LeadingDigitsOfDigits(d, []);
      assert d + [] == d;
    }
  }

  /** A minus sign followed by a run of digits parses to the negated number. */
  lemma ParseIntOfNegativeDigits(d: string)
    requires d != [] && AllDigits(d)
    ensures ParseInt("-" + d) == Some(0 - DigitsValue(d))
  {
    ParseIntOfWrittenForm("", "-", d, "");
    assert "" + "-" + d + "" == "-" + d;
  }

  /**
   * Round trip: the name `String(n)` of any chain id `n` parses back to `n`, so
   * the output file `<n>.json` and the directory `<n>` name the same chain.
   */
  lemma ParseIntOfIntToString(n: int)
    ensures ParseInt(IntToString(n)) == Some(n)
  {
    if n < 0 {
      NatToStringDigits(-n);
      ParseIntOfNegativeDigits(NatToString(-n));
    } else {
      NatToStringDigits(n);
      ParseIntOfDigits(NatToString(n));
    }
  }

  /** Distinct integers are written differently. */
  lemma IntToStringInjective(x: int, y: int)
    requires IntToString(x) == IntToString(y)
    ensures x == y
  {
    ParseIntOfIntToString(x);
    ParseIntOfIntToString(y);
  }
}
