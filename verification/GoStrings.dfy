/** The parts of Go's `strings` and `strconv` packages that the platform relies on. A Go string is a
    sequence of bytes; here each byte is one character. */
module GoStrings {
  import opened Prelude

  /** strings.Split with a one-byte separator. */
  function Split(s: string, sep: char): (parts: seq<string>)
    ensures |parts| >= 1
  {
    if s == "" then [""]
    else
      var rest := Split(s[1..], sep);
      if s[0] == sep then [""] + rest else [[s[0]] + rest[0]] + rest[1..]
  }

  function Join(parts: seq<string>, sep: char): string
    requires |parts| >= 1
  {
    if |parts| == 1 then parts[0] else parts[0] + [sep] + Join(parts[1..], sep)
  }

  /** Position of the first c, or the length of s when there is none. */
  function IndexOf(s: string, c: char): (i: nat)
    ensures i <= |s| && c !in s[..i]
    ensures i < |s| ==> s[i] == c
    ensures i == |s| <==> c !in s
  {
    if s == "" then 0
    else if s[0] == c then 0
    else
      var i := 1 + IndexOf(s[1..], c);
      assert s[..i] == [s[0]] + s[1..][..i - 1];
      i
  }

  predicate HasPrefix(s: string, prefix: string) { prefix <= s }

  predicate HasSuffix(s: string, suffix: string) {
    |suffix| <= |s| && s[|s| - |suffix|..] == suffix
  }

  function TrimSuffix(s: string, suffix: string): string {
    if HasSuffix(s, suffix) then s[..|s| - |suffix|] else s
  }

  lemma {:induction false} SplitPartsAreFree(s: string, sep: char)
    ensures forall i :: 0 <= i < |Split(s, sep)| ==> sep !in Split(s, sep)[i]
  {
    if s != "" { SplitPartsAreFree(s[1..], sep); }
  }

  lemma {:induction false} JoinSplit(s: string, sep: char)
    ensures Join(Split(s, sep), sep) == s
  {
    if s != "" {
      var rest := Split(s[1..], sep);
      JoinSplit(s[1..], sep);
      if s[0] == sep {
        assert ([""] + rest)[1..] == rest;
      } else {
        var parts := [[s[0]] + rest[0]] + rest[1..];
        assert parts[1..] == rest[1..];
      }
    }
  }

  lemma {:induction false} SplitFree(s: string, sep: char)
    requires sep !in s
    ensures Split(s, sep) == [s]
  {
    if s != "" {
      SplitFree(s[1..], sep);
      assert [s[0]] + s[1..] == s;
    }
  }

  /** Splitting distributes over a separator. */
  lemma {:induction false} SplitConcat(a: string, b: string, sep: char)
    ensures Split(a + [sep] + b, sep) == Split(a, sep) + Split(b, sep)
  {
    if a == "" {
      assert a + [sep] + b == [sep] + b;
      assert ([sep] + b)[1..] == b;
    } else {
      var tail := a[1..] + [sep] + b;
      var whole := a + [sep] + b;
      assert whole[1..] == tail && whole[0] == a[0];
      SplitConcat(a[1..], b, sep);
    }
  }

  lemma {:induction false} JoinConcat(a: seq<string>, b: seq<string>, sep: char)
    requires |a| >= 1 && |b| >= 1
    ensures Join(a + b, sep) == Join(a, sep) + [sep] + Join(b, sep)
  {
    if |a| == 1 {
      assert (a + b)[1..] == b;
    } else {
      assert (a + b)[1..] == a[1..] + b;
      JoinConcat(a[1..], b, sep);
    }
  }

  /** Two ways of cutting the same text at its first separator agree. */
  lemma FirstCutIsUnique(a: string, b: string, a': string, b': string, sep: char)
    requires sep !in a && sep !in a'
    requires a + [sep] + b == a' + [sep] + b'
    ensures a == a' && b == b'
  {
    IndexOfCut(a, b, sep);
    IndexOfCut(a', b', sep);
    var s := a + [sep] + b;
    assert s[..|a|] == a && s[..|a|] == a';
    assert s[|a| + 1..] == b && s[|a| + 1..] == b';
  }

  lemma IndexOfCut(a: string, b: string, sep: char)
    requires sep !in a
    ensures IndexOf(a + [sep] + b, sep) == |a|
  {
    var s := a + [sep] + b;
    var i := IndexOf(s, sep);
    assert s[|a|] == sep;
    assert forall k :: 0 <= k < |a| ==> s[k] == a[k];
    assert forall k :: 0 <= k < i ==> s[..i][k] == s[k] && s[k] != sep;
  }

  // Decimal integers -----------------------------------------------------------------------------

  function DigitChar(d: nat): char
    requires d < 10
  {
    "0123456789"[d]
  }

  predicate IsDigit(c: char) { '0' <= c <= '9' }

  function DigitValue(c: char): (d: nat)
    requires IsDigit(c)
    ensures d < 10
  {
    c as int - '0' as int
  }

  function Digits(n: nat): (s: string)
    ensures |s| >= 1 && forall i :: 0 <= i < |s| ==> IsDigit(s[i])
  {
    if n < 10 then [DigitChar(n)] else Digits(n / 10) + [DigitChar(n % 10)]
  }

  /** The verb %d. */
  function Decimal(n: int): string {
    if n < 0 then "-" + Digits(-n) else Digits(n)
  }

  predicate AllDigits(s: string) { forall i :: 0 <= i < |s| ==> IsDigit(s[i]) }

  function Magnitude(s: string): nat
    requires AllDigits(s)
  {
    if s == "" then 0 else 10 * Magnitude(s[..|s| - 1]) + DigitValue(s[|s| - 1])
  }

  /** strconv.ParseInt(s, 10, 64): an optional sign, at least one digit, nothing else, and in range. */
  function ParseInt(s: string): (r: Option<int64>) {
    var unsigned := if s != "" && (s[0] == '+' || s[0] == '-') then s[1..] else s;
    if unsigned == "" || !AllDigits(unsigned) then None
    else
      var magnitude: int := Magnitude(unsigned);
      var value := if s[0] == '-' then -magnitude else magnitude;
      if INT64_MIN <= value <= INT64_MAX then Some(value) else None
  }

  lemma {:induction false} MagnitudeOfDigits(n: nat)
    ensures Magnitude(Digits(n)) == n
  {
    if n >= 10 {
      MagnitudeOfDigits(n / 10);
      var s := Digits(n);
      assert s[..|s| - 1] == Digits(n / 10);
    } else {
      assert Digits(n)[..0] == "";
    }
  }

  /** The text is this sign before these digits, and n its value. */
  predicate Denotes(s: string, sign: string, digits: string, n: int) {
    && s == sign + digits && digits != "" && AllDigits(digits)
    && ((sign == "-" && n == 0 - Magnitude(digits)) || ((sign == "" || sign == "+") && n == Magnitude(digits)))
  }

  /** Reading digits, with or without a sign before them. */
  lemma ParseSigned(s: string, sign: string, digits: string, n: int)
    requires Denotes(s, sign, digits, n)
    ensures ParseInt(s) == if INT64_MIN <= n <= INT64_MAX then Some(n) else None
  {
    if sign == "" {
      assert s == digits;
      assert IsDigit(s[0]);
    } else {
      assert s[0] == sign[0] && s[1..] == digits;
    }
  }

  lemma ParsedDenotes(s: string)
    requires ParseInt(s).Some?
    ensures exists sign, digits :: Denotes(s, sign, digits, ParseInt(s).value)
  {
    if s[0] == '+' || s[0] == '-' {
      assert s == [s[0]] + s[1..];
      assert Denotes(s, [s[0]], s[1..], ParseInt(s).value);
    } else {
      assert s == "" + s;
      assert Denotes(s, "", s, ParseInt(s).value);
    }
  }

  /** What can be read: an optional sign, one or more digits, and a value that fits. */
  lemma ParseIntInFull(s: string, n: int64)
    ensures ParseInt(s) == Some(n) <==> exists sign, digits :: Denotes(s, sign, digits, n)
  {
    if ParseInt(s) == Some(n) {
      ParsedDenotes(s);
    }
    if sign, digits :| Denotes(s, sign, digits, n) {
      ParseSigned(s, sign, digits, n);
    }
  }

  lemma DigitInFull(d: nat)
    requires d < 10
    ensures DigitChar(d) as int == '0' as int + d && DigitValue(DigitChar(d)) == d
  {
  }

  /** Printing and reading back every 64-bit integer, the most negative one included. */
  lemma ParseDecimal(n: int64)
    ensures ParseInt(Decimal(n)) == Some(n)
  {
    var magnitude := if n < 0 then -(n as int) else n as int;
    MagnitudeOfDigits(magnitude);
    ParseSigned(Decimal(n), if n < 0 then "-" else "", Digits(magnitude), n);
  }

  lemma DecimalHasNoPunctuation(n: int)
    ensures ',' !in Decimal(n) && '=' !in Decimal(n) && '.' !in Decimal(n)
  {
  }
}
