/** internal/delivery/signer.go: the "t=...,v1=..." signature header and its check. */
module Signer {
  import opened Prelude
  import opened GoStrings

  newtype byte = b: int | 0 <= b < 256

  /** HMAC-SHA256 (section 2 of RFC 2104) is left opaque: any keyed function to 32 bytes. */
  type Digest = d: seq<byte> | |d| == 32 witness seq(32, i => 0)
  type Mac = (string, string) -> Digest

  datatype Signature = Signature(timestamp: int64, v1: string)

  function Header(sig: Signature): string {
    "t=" + Decimal(sig.timestamp) + ",v1=" + sig.v1
  }

  // Lower-case hexadecimal, section 8 of RFC 4648.
  function Hex(bytes: seq<byte>): string {
    if bytes == [] then ""
    else [Nibble(bytes[0] as int / 16), Nibble(bytes[0] as int % 16)] + Hex(bytes[1..])
  }

  function Nibble(n: int): char
    requires 0 <= n < 16
  {
    "0123456789abcdef"[n]
  }

  function SignedText(timestamp: int64, payload: string): string {
    Decimal(timestamp) + "." + payload
  }

  function Sign(mac: Mac, payload: string, secret: string, timestamp: int64): Signature {
    Signature(timestamp, Hex(mac(secret, SignedText(timestamp, payload))))
  }

  predicate Verify(mac: Mac, payload: string, secret: string, sig: Signature) {
    Sign(mac, payload, secret, sig.timestamp).v1 == sig.v1
  }

  // Parsing --------------------------------------------------------------------------------------

  /** strings.SplitN(part, "=", 2): the key before the first '=', if there is one. */
  function KeyOf(part: string): Option<string> {
    if '=' in part then Some(part[..IndexOf(part, '=')]) else None
  }

  function ValueOf(part: string): string
    requires '=' in part
  {
    part[IndexOf(part, '=') + 1..]
  }

  /** Every value given for a key, in order. */
  function Values(parts: seq<string>, key: string): seq<string> {
    if parts == [] then []
    else
      var front := Values(parts[..|parts| - 1], key);
      var part := parts[|parts| - 1];
      if KeyOf(part) == Some(key) then front + [ValueOf(part)] else front
  }

  function Last<T>(values: seq<T>, default: T): T {
    if values == [] then default else values[|values| - 1]
  }

  /** The timestamps are all readable. */
  predicate Readable(parts: seq<string>) {
    forall i :: 0 <= i < |Values(parts, "t")| ==> ParseInt(Values(parts, "t")[i]).Some?
  }

  function LastTimestamp(parts: seq<string>): int64
    requires Readable(parts)
  {
    var ts := Values(parts, "t");
    if ts == [] then 0 else ParseInt(ts[|ts| - 1]).value
  }

  /** What a header means, without a loop: every t must be readable, the last t and the last v1 win, and
      neither may be left at its zero value. Unknown keys and parts without '=' are ignored. */
  function Meaning(header: string): Result<Signature> {
    var parts := Split(header, ',');
    if !Readable(parts) then Err
    else
      var sig := Signature(LastTimestamp(parts), Last(Values(parts, "v1"), ""));
      if sig.timestamp == 0 || sig.v1 == "" then Err else Ok(sig)
  }

  method ParseSignature(header: string) returns (r: Result<Signature>)
    ensures r == Meaning(header)
  {
    var parts := Split(header, ',');
    var sig := Signature(0, "");
    var n := |parts|;
    for i := 0 to n
      invariant ReadSoFar(parts[..i], sig)
    {
      var part := parts[i];
      assert parts[..i + 1] == parts[..i] + [part];
      ReadOneMore(parts[..i], part, sig);
      if '=' in part {
        var key := part[..IndexOf(part, '=')];
        var value := part[IndexOf(part, '=') + 1..];
        if key == "t" {
          var ts := ParseInt(value);
          if ts.None? {
            UnreadableStays(parts, i + 1);
            return Err;
          }
          sig := sig.(timestamp := ts.value);
        } else if key == "v1" {
          sig := sig.(v1 := value);
        }
      }
    }
    assert parts[..n] == parts;
    if sig.timestamp == 0 || sig.v1 == "" {
      return Err;
    }
    return Ok(sig);
  }

  /** The fields after the loop has seen these parts. */
  predicate ReadSoFar(parts: seq<string>, sig: Signature) {
    Readable(parts) && sig.timestamp == LastTimestamp(parts) && sig.v1 == Last(Values(parts, "v1"), "")
  }

  lemma ValuesOneMore(parts: seq<string>, part: string, key: string)
    ensures Values(parts + [part], key) ==
            Values(parts, key) + if KeyOf(part) == Some(key) then [ValueOf(part)] else []
  {
    assert (parts + [part])[..|parts|] == parts;
    assert Values(parts, key) + [] == Values(parts, key);
  }

  /** What one more part means for the fields. */
  lemma ReadOneMore(parts: seq<string>, part: string, sig: Signature)
    requires ReadSoFar(parts, sig)
    ensures KeyOf(part) == Some("t") ==>
      && (ParseInt(ValueOf(part)).Some? ==>
            ReadSoFar(parts + [part], sig.(timestamp := ParseInt(ValueOf(part)).value)))
      && (ParseInt(ValueOf(part)).None? ==> !Readable(parts + [part]))
    ensures KeyOf(part) == Some("v1") ==> ReadSoFar(parts + [part], sig.(v1 := ValueOf(part)))
    ensures KeyOf(part) != Some("t") && KeyOf(part) != Some("v1") ==> ReadSoFar(parts + [part], sig)
  {
    assert "t" != "v1";
    ValuesOneMore(parts, part, "t");
    ValuesOneMore(parts, part, "v1");
    var ts := Values(parts + [part], "t");
    if KeyOf(part) == Some("t") {
      assert ts[|ts| - 1] == ValueOf(part);
    }
  }

  lemma UnreadableStays(parts: seq<string>, i: nat)
    requires i <= |parts| && !Readable(parts[..i])
    ensures !Readable(parts)
  {
    ValuesGrow(parts, i, "t");
    var j :| 0 <= j < |Values(parts[..i], "t")| && ParseInt(Values(parts[..i], "t")[j]).None?;
    assert Values(parts, "t")[j] == Values(parts[..i], "t")[j];
  }

  lemma {:induction false} ValuesGrow(parts: seq<string>, i: nat, key: string)
    requires i <= |parts|
    ensures Values(parts[..i], key) <= Values(parts, key)
    decreases |parts|
  {
    if i == |parts| {
      assert parts[..i] == parts;
    } else {
      var front := parts[..|parts| - 1];
      assert front[..i] == parts[..i];
      ValuesGrow(front, i, key);
    }
  }

  lemma {:induction false} ValuesAreFree(parts: seq<string>, key: string, c: char)
    requires forall i :: 0 <= i < |parts| ==> c !in parts[i]
    ensures forall i :: 0 <= i < |Values(parts, key)| ==> c !in Values(parts, key)[i]
  {
    if parts != [] {
      ValuesAreFree(parts[..|parts| - 1], key, c);
    }
  }

  // One part more at a time ------------------------------------------------------------------------

  lemma PartAppended(header: string, part: string)
    requires ',' !in part
    ensures Split(header + "," + part, ',') == Split(header, ',') + [part]
  {
    assert header + "," + part == header + [','] + part;
    SplitConcat(header, part, ',');
    SplitFree(part, ',');
  }

  /** A part that is neither "t=..." nor "v1=...", whether it has a '=' or not, changes nothing. */
  lemma UnknownPartIsIgnored(header: string, part: string)
    requires ',' !in part
    requires !HasPrefix(part, "t=") && !HasPrefix(part, "v1=")
    ensures Meaning(header + "," + part) == Meaning(header)
  {
    PartAppended(header, part);
    ValuesOneMore(Split(header, ','), part, "t");
    ValuesOneMore(Split(header, ','), part, "v1");
    KeyMeansPrefix(part, "t");
    KeyMeansPrefix(part, "v1");
  }

  lemma KeyMeansPrefix(part: string, key: string)
    requires '=' !in key
    ensures KeyOf(part) == Some(key) <==> HasPrefix(part, key + "=")
  {
    if HasPrefix(part, key + "=") {
      assert part == key + "=" + part[|key| + 1..];
      KeyValue(key, part[|key| + 1..]);
    } else if '=' in part {
      var i := IndexOf(part, '=');
      assert part[..i + 1] == part[..i] + "=";
      assert HasPrefix(part, part[..i] + "=");
    }
  }

  /** A later v1 replaces an earlier one. */
  lemma LaterCodeWins(header: string, v1: string)
    requires ',' !in v1 && Meaning(header).Ok? && v1 != ""
    ensures Meaning(header + ",v1=" + v1) == Ok(Meaning(header).value.(v1 := v1))
  {
    var part := "v1=" + v1;
    assert header + ",v1=" + v1 == header + "," + part;
    PartAppended(header, part);
    assert part == "v1" + "=" + v1;
    KeyValue("v1", v1);
    var parts := Split(header, ',');
    ReadOneMore(parts, part, Signature(LastTimestamp(parts), Last(Values(parts, "v1"), "")));
  }

  /** A later timestamp replaces an earlier one if it can be read, and spoils the header if not, or if it is 0. */
  lemma LaterTimestampWins(header: string, ts: string)
    requires ',' !in ts && Meaning(header).Ok?
    ensures Meaning(header + ",t=" + ts) ==
            match ParseInt(ts)
            case Some(n) => if n == 0 then Err else Ok(Meaning(header).value.(timestamp := n))
            case None => Err
  {
    var parts, part := Split(header, ','), "t=" + ts;
    assert header + ",t=" + ts == header + "," + part;
    PartAppended(header, part);
    assert part == "t" + "=" + ts;
    KeyValue("t", ts);
    assert "t" != "v1";
    ValuesOneMore(parts, part, "v1");
    ReadOneMore(parts, part, Signature(LastTimestamp(parts), Last(Values(parts, "v1"), "")));
  }

  // Round trips ----------------------------------------------------------------------------------

  predicate Printable(sig: Signature) {
    sig.timestamp != 0 && sig.v1 != "" && ',' !in sig.v1
  }

  lemma HeaderParts(sig: Signature)
    requires ',' !in sig.v1
    ensures Split(Header(sig), ',') == ["t=" + Decimal(sig.timestamp), "v1=" + sig.v1]
  {
    var a := "t=" + Decimal(sig.timestamp);
    var b := "v1=" + sig.v1;
    DecimalHasNoPunctuation(sig.timestamp);
    assert Header(sig) == a + [','] + b;
    SplitConcat(a, b, ',');
    SplitFree(a, ',');
    SplitFree(b, ',');
  }

  lemma KeyValue(key: string, value: string)
    requires '=' !in key
    ensures KeyOf(key + "=" + value) == Some(key) && ValueOf(key + "=" + value) == value
  {
    var part := key + ['='] + value;
    assert part == key + "=" + value;
    assert part[|key|] == '=';
    IndexOfCut(key, value, '=');
    assert part[..|key|] == key && part[|key| + 1..] == value;
  }

  lemma PairValues(t: string, v1: string)
    ensures Values(["t=" + t, "v1=" + v1], "t") == [t]
    ensures Values(["t=" + t, "v1=" + v1], "v1") == [v1]
  {
    var a, b := "t=" + t, "v1=" + v1;
    KeyValue("t", t);
    KeyValue("v1", v1);
    assert a == "t" + "=" + t && b == "v1" + "=" + v1;
    assert [a, b][..1] == [a] && [a][..0] == [];
    assert KeyOf(a) == Some("t") && KeyOf(b) == Some("v1");
    assert "t" != "v1";
    assert Values([], "t") == [] && Values([], "v1") == [];
    assert Values([a], "v1") == [];
  }

  lemma MeaningOfHeader(sig: Signature)
    requires ',' !in sig.v1
    ensures Meaning(Header(sig)) == if sig.timestamp == 0 || sig.v1 == "" then Err else Ok(sig)
  {
    HeaderParts(sig);
    PairValues(Decimal(sig.timestamp), sig.v1);
    ParseDecimal(sig.timestamp);
  }

  /** Printing and parsing a signature gives it back exactly when its timestamp is not zero and its code
      is non-empty and free of commas. */
  lemma RoundTrip(sig: Signature)
    ensures Meaning(Header(sig)) == Ok(sig) <==> Printable(sig)
  {
    if ',' in sig.v1 {
      AcceptedIsPrintable(Header(sig));
    } else {
      MeaningOfHeader(sig);
    }
  }

  lemma AcceptedIsPrintable(header: string)
    ensures Meaning(header).Ok? ==> Printable(Meaning(header).value)
  {
    var parts := Split(header, ',');
    SplitPartsAreFree(header, ',');
    ValuesAreFree(parts, "v1", ',');
  }

  /** Whatever header was accepted, printing the result and parsing again changes nothing. */
  lemma ReparseIsIdentity(header: string)
    requires Meaning(header).Ok?
    ensures Meaning(Header(Meaning(header).value)) == Meaning(header)
  {
    AcceptedIsPrintable(header);
    RoundTrip(Meaning(header).value);
  }

  lemma {:induction false} HexShape(bytes: seq<byte>)
    ensures |Hex(bytes)| == 2 * |bytes| && ',' !in Hex(bytes)
  {
    if bytes != [] { HexShape(bytes[1..]); }
  }

  lemma {:induction false} HexInjective(a: seq<byte>, b: seq<byte>)
    requires Hex(a) == Hex(b)
    ensures a == b
  {
    HexShape(a);
    HexShape(b);
    if a != [] {
      NibbleInjective(a[0] as int / 16, b[0] as int / 16);
      NibbleInjective(a[0] as int % 16, b[0] as int % 16);
      assert Hex(a)[2..] == Hex(a[1..]) && Hex(b)[2..] == Hex(b[1..]);
      HexInjective(a[1..], b[1..]);
      assert a == [a[0]] + a[1..] && b == [b[0]] + b[1..];
    }
  }

  /** The value of a hexadecimal digit in lower case. */
  function DigitOf(c: char): Option<int> {
    if '0' <= c <= '9' then Some(c as int - '0' as int)
    else if 'a' <= c <= 'f' then Some(c as int - 'a' as int + 10)
    else None
  }

  /** Two lower-case digits a byte, the higher one first. */
  lemma {:induction false} HexInFull(bytes: seq<byte>, i: nat)
    requires i < |bytes|
    ensures |Hex(bytes)| == 2 * |bytes|
    ensures var hi, lo := DigitOf(Hex(bytes)[2 * i]), DigitOf(Hex(bytes)[2 * i + 1]);
            hi.Some? && lo.Some? && 16 * hi.value + lo.value == bytes[i] as int
  {
    HexShape(bytes);
    var b := bytes[0] as int;
    assert Hex(bytes)[..2] == [Nibble(b / 16), Nibble(b % 16)] && Hex(bytes)[2..] == Hex(bytes[1..]);
    if i == 0 {
      NibbleInFull(b / 16);
      NibbleInFull(b % 16);
      assert Hex(bytes)[0] == Hex(bytes)[..2][0] && Hex(bytes)[1] == Hex(bytes)[..2][1];
    } else {
      HexInFull(bytes[1..], i - 1);
      assert Hex(bytes)[2 * i] == Hex(bytes)[2..][2 * i - 2] && Hex(bytes)[2 * i + 1] == Hex(bytes)[2..][2 * i - 1];
    }
  }

  lemma NibbleInFull(n: int)
    requires 0 <= n < 16
    ensures DigitOf(Nibble(n)) == Some(n)
  {
  }

  lemma NibbleInjective(m: int, n: int)
    requires 0 <= m < 16 && 0 <= n < 16
    ensures Nibble(m) == Nibble(n) <==> m == n
  {
  }

  /** The signed text determines both the timestamp and the payload, whatever bytes the payload holds. */
  lemma SignedTextInjective(t: int64, payload: string, t': int64, payload': string)
    requires SignedText(t, payload) == SignedText(t', payload')
    ensures t == t' && payload == payload'
  {
    DecimalHasNoPunctuation(t);
    DecimalHasNoPunctuation(t');
    FirstCutIsUnique(Decimal(t), payload, Decimal(t'), payload', '.');
    ParseDecimal(t);
    ParseDecimal(t');
  }

  lemma SignedHeaderMeans(mac: Mac, payload: string, secret: string, t: int64)
    requires t != 0
    ensures Meaning(Header(Sign(mac, payload, secret, t))) == Ok(Sign(mac, payload, secret, t))
  {
    HexShape(mac(secret, SignedText(t, payload)));
    MeaningOfHeader(Sign(mac, payload, secret, t));
  }

  /** A header made by Sign is accepted again after printing and parsing exactly when t is not zero. */
  lemma SignedHeaderVerifies(mac: Mac, payload: string, secret: string, t: int64)
    ensures var r := Meaning(Header(Sign(mac, payload, secret, t)));
            (r.Ok? && Verify(mac, payload, secret, r.value)) <==> t != 0
  {
    var sig := Sign(mac, payload, secret, t);
    HexShape(mac(secret, SignedText(t, payload)));
    MeaningOfHeader(sig);
  }

  /** A signature made for one message is accepted for another message or another time exactly when the
      two signed texts, which then differ, have the same authentication code. */
  lemma ForgeryNeedsCollision(mac: Mac, secret: string, payload: string, t: int64, payload': string, t': int64)
    requires payload != payload' || t != t'
    ensures SignedText(t, payload) != SignedText(t', payload')
    ensures Verify(mac, payload', secret, Signature(t', Sign(mac, payload, secret, t).v1)) <==>
            mac(secret, SignedText(t, payload)) == mac(secret, SignedText(t', payload'))
  {
    if SignedText(t, payload) == SignedText(t', payload') {
      SignedTextInjective(t, payload, t', payload');
    }
    var code, code' := mac(secret, SignedText(t, payload)), mac(secret, SignedText(t', payload'));
    if Hex(code) == Hex(code') {
      HexInjective(code, code');
    }
  }
}
