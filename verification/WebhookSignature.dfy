/**
  Signing and verifying webhook deliveries. The HMAC of RFC 2104 is an uninterpreted function `mac`
  from a secret and a text to 32 bytes, as SHA-256 gives them.
*/
module WebhookSignature {
  import opened Options
  import opened Decimals
  import opened JsText

  type byte = b: nat | b < 256

  const MAC_LENGTH: nat := 32
  const DEFAULT_REPLAY_WINDOW: int := 300
  const SCHEME: string := "sha256="

  type Mac = (string, string) -> seq<byte>

  ghost predicate IsMac(mac: Mac) {
    forall secret, text :: |mac(secret, text)| == MAC_LENGTH
  }

  // ---- hexadecimal ----

  function HexChar(d: nat): char
    requires d < 16
  {
    if d < 10 then '0' + d as char else 'a' + (d - 10) as char
  }

  /** digest('hex') */
  function Hex(bytes: seq<byte>): string {
    if bytes == [] then "" else [HexChar(bytes[0] / 16), HexChar(bytes[0] % 16)] + Hex(bytes[1..])
  }

  predicate IsHexChar(c: char) {
    '0' <= c <= '9' || 'a' <= c <= 'f' || 'A' <= c <= 'F'
  }

  function HexValue(c: char): (d: nat)
    requires IsHexChar(c)
    ensures d < 16
  {
    if c <= '9' then (c - '0') as nat else if c <= 'F' then (c - 'A') as nat + 10 else (c - 'a') as nat + 10
  }

  /** The test /^[0-9a-f]+$/i. */
  predicate IsHex(s: string) {
    s != "" && forall k :: 0 <= k < |s| ==> IsHexChar(s[k])
  }

  /** Buffer.from(s, 'hex') on a string of hexadecimal digits: a last digit without a partner is dropped. */
  function FromHex(s: string): seq<byte>
    requires forall k :: 0 <= k < |s| ==> IsHexChar(s[k])
  {
    if |s| < 2 then [] else [(HexValue(s[0]) * 16 + HexValue(s[1])) as byte] + FromHex(s[2..])
  }

  // ---- numbers in headers ----

  function SkipSpaces(s: string): string {
    if s != "" && IsJsSpace(s[0]) then SkipSpaces(s[1..]) else s
  }

  /** The longest prefix of digits. */
  function DigitPrefix(s: string): (p: string)
    ensures forall k :: 0 <= k < |p| ==> IsDigit(p[k])
  {
    if s == "" || !IsDigit(s[0]) then "" else [s[0]] + DigitPrefix(s[1..])
  }

  /** Number.parseInt(s, 10); None is NaN. */
  function ParseInt(s: string): Option<int> {
    var t := SkipSpaces(s);
    var negative := t != "" && t[0] == '-';
    var digits := DigitPrefix(if t != "" && (t[0] == '-' || t[0] == '+') then t[1..] else t);
    if digits == "" then None else
      var n: int := Value(digits);
      Some(if negative then -n else n)
  }

  /** A number in a template string. */
  function IntText(n: int): string {
    if n < 0 then "-" + Decimal(-n) else Decimal(n)
  }

  // ---- signer and verifier ----

  function SignPayload(mac: Mac, secret: string, payload: string): string {
    Hex(mac(secret, payload))
  }

  function Canonical(timestamp: int, body: string): string {
    IntText(timestamp) + "." + body
  }

  datatype DeliveryHeaders = DeliveryHeaders(signature: string, timestamp: string)

  /** The two headers that deliverClaimedWebhook computes. */
  function SignDelivery(mac: Mac, secret: string, body: string, timestamp: nat): DeliveryHeaders {
    DeliveryHeaders(SCHEME + SignPayload(mac, secret, Decimal(timestamp) + "." + body), Decimal(timestamp))
  }

  datatype Input = Input(
    secret: string,
    body: string,
    signatureHeader: Option<string>,
    timestampHeader: Option<string>,
    nowSeconds: Option<int>,
    replayWindowSeconds: Option<int>)

  datatype Reason = MissingHeader | InvalidTimestamp | ReplayWindow | InvalidSignature

  datatype Verdict = Accept | Reject(reason: Reason)

  function Absolute(n: int): nat {
    if n < 0 then -n else n
  }

  function StripScheme(s: string): string {
    if SCHEME <= s then s[|SCHEME|..] else s
  }

  predicate TimingSafeHexEqual(left: string, right: string) {
    IsHex(left) && IsHex(right) && FromHex(left) == FromHex(right)
  }

  predicate Missing(header: Option<string>) {
    header.None? || header.value == ""
  }

  function Verify(mac: Mac, clock: int, input: Input): Verdict {
    var window := if input.replayWindowSeconds.Some? then input.replayWindowSeconds.value else DEFAULT_REPLAY_WINDOW;
    if Missing(input.signatureHeader) || Missing(input.timestampHeader) then Reject(MissingHeader)
    else
      match ParseInt(input.timestampHeader.value)
      case None => Reject(InvalidTimestamp)
      case Some(timestamp) =>
        var now := if input.nowSeconds.Some? then input.nowSeconds.value else clock;
        if Absolute(now - timestamp) > window then Reject(ReplayWindow)
        else
          var signature := StripScheme(input.signatureHeader.value);
          var expected := SignPayload(mac, input.secret, Canonical(timestamp, input.body));
          if TimingSafeHexEqual(signature, expected) then Accept else Reject(InvalidSignature)
  }

  // ---- round trips ----

  lemma {:induction false} HexRoundTrip(bytes: seq<byte>)
    ensures |Hex(bytes)| == 2 * |bytes|
    ensures forall k :: 0 <= k < |Hex(bytes)| ==> IsHexChar(Hex(bytes)[k])
    ensures FromHex(Hex(bytes)) == bytes
  {
    if bytes != [] {
      HexRoundTrip(bytes[1..]);
      var s := Hex(bytes);
      assert s[2..] == Hex(bytes[1..]);
    }
  }

  lemma {:induction false} HexPair(bytes: seq<byte>, k: nat)
    requires k < |bytes|
    ensures |Hex(bytes)| == 2 * |bytes|
    ensures Hex(bytes)[2 * k] == HexChar(bytes[k] / 16) && Hex(bytes)[2 * k + 1] == HexChar(bytes[k] % 16)
  {
    hide HexChar, FromHex, IsHexChar;
    HexRoundTrip(bytes);
    if k > 0 {
      HexPair(bytes[1..], k - 1);
      assert Hex(bytes)[2..] == Hex(bytes[1..]);
    }
  }

  /** Two digits for each byte, the greater half first. */
  lemma HexAt(bytes: seq<byte>, k: nat)
    requires k < |bytes|
    ensures |Hex(bytes)| == 2 * |bytes| && Hex(bytes)[2 * k] == "0123456789abcdef"[bytes[k] / 16]
    ensures Hex(bytes)[2 * k + 1] == "0123456789abcdef"[bytes[k] % 16]
  {
    hide Hex;
    HexPair(bytes, k);
    HexDigit(bytes[k] / 16);
    HexDigit(bytes[k] % 16);
  }

  lemma HexDigit(d: nat)
    requires d < 16
    ensures HexChar(d) == "0123456789abcdef"[d]
  {
  }

  lemma HexDigitOf(c: char)
    requires IsHexChar(c)
    ensures "0123456789abcdef"[HexValue(c)] == c || "0123456789ABCDEF"[HexValue(c)] == c
  {
  }

  /** Digits of either case, and nothing else. */
  lemma HexDigits(c: char)
    ensures IsHexChar(c) <==> exists d :: 0 <= d < 16 && ("0123456789abcdef"[d] == c || "0123456789ABCDEF"[d] == c)
    ensures IsHexChar(c) ==> "0123456789abcdef"[HexValue(c)] == c || "0123456789ABCDEF"[HexValue(c)] == c
  {
    if IsHexChar(c) {
      HexDigitOf(c);
      assert 0 <= HexValue(c) < 16;
    }
  }

  lemma {:induction false} DigitPrefixOfDigits(s: string, rest: string)
    requires forall k :: 0 <= k < |s| ==> IsDigit(s[k])
    requires rest == "" || !IsDigit(rest[0])
    ensures DigitPrefix(s + rest) == s
  {
    if s != "" {
      assert (s + rest)[1..] == s[1..] + rest;
      DigitPrefixOfDigits(s[1..], rest);
    } else {
      assert s + rest == rest;
    }
  }

  predicate Spaces(s: string) {
    forall k :: 0 <= k < |s| ==> IsJsSpace(s[k])
  }

  lemma {:induction false} SkipAll(spaces: string, rest: string)
    requires Spaces(spaces) && (rest == "" || !IsJsSpace(rest[0]))
    ensures SkipSpaces(spaces + rest) == rest
  {
    if spaces == "" {
      assert spaces + rest == rest;
    } else {
      assert (spaces + rest)[1..] == spaces[1..] + rest;
      SkipAll(spaces[1..], rest);
    }
  }

  lemma ParseDigits(spaces: string, sign: string, digits: string, rest: string)
    requires Spaces(spaces) && sign in {"", "+", "-"} && digits != "" && (forall k :: 0 <= k < |digits| ==> IsDigit(digits[k]))
    requires rest == "" || !IsDigit(rest[0])
    ensures ParseInt(spaces + (sign + (digits + rest))) == Some(if sign == "-" then -(Value(digits) as int) else Value(digits))
  {
    hide SkipSpaces, Value, DigitPrefix, IsJsSpace, Spaces;
    FirstOf(sign, digits, rest);
    SkipAll(spaces, sign + (digits + rest));
    DigitPrefixOfDigits(digits, rest);
  }

  lemma FirstOf(sign: string, digits: string, rest: string)
    requires sign in {"", "+", "-"} && digits != "" && IsDigit(digits[0])
    ensures var t := sign + (digits + rest);
      && t != "" && !IsJsSpace(t[0])
      && if sign == "" then t == digits + rest && t[0] != '-' && t[0] != '+' else t[0] == sign[0] && t[1..] == digits + rest
  {
  }

  /** A printed number is read back with its sign, whatever white space precedes it and whatever non-digit follows it. */
  lemma ParsePrinted(spaces: string, n: nat, rest: string)
    requires Spaces(spaces) && (rest == "" || !IsDigit(rest[0]))
    ensures ParseInt(spaces + (Decimal(n) + rest)) == Some(n)
    ensures ParseInt(spaces + ("+" + (Decimal(n) + rest))) == Some(n)
    ensures var m: int := -(n as int); ParseInt(spaces + ("-" + (Decimal(n) + rest))) == Some(m)
  {
    hide ParseInt;
    ValueOfDecimal(n);
    assert "" + (Decimal(n) + rest) == Decimal(n) + rest;
    ParseDigits(spaces, "", Decimal(n), rest);
    ParseDigits(spaces, "+", Decimal(n), rest);
    ParseDigits(spaces, "-", Decimal(n), rest);
  }

  /** Without a digit after white space and one optional sign there is no number. */
  lemma ParseNothing(spaces: string, sign: string, rest: string)
    requires Spaces(spaces) && sign in {"", "+", "-"} && (rest == "" || !IsDigit(rest[0]))
    requires sign == "" && rest != "" ==> !IsJsSpace(rest[0]) && rest[0] != '+' && rest[0] != '-'
    ensures ParseInt(spaces + (sign + rest)) == None
  {
    SkipAll(spaces, sign + rest);
    assert sign == "" ==> sign + rest == rest;
    assert sign != "" ==> (sign + rest)[1..] == rest;
  }

  lemma StripOwnScheme(s: string)
    ensures StripScheme(SCHEME + s) == s
  {
    assert (SCHEME + s)[|SCHEME|..] == s;
  }

  lemma HexHasNoScheme(bytes: seq<byte>)
    ensures !(SCHEME <= Hex(bytes))
  {
    HexRoundTrip(bytes);
    assert Hex(bytes) != "" ==> Hex(bytes)[0] != SCHEME[0];
  }

  /** What the worker sends is accepted exactly inside the replay window, of 300 seconds unless told otherwise, with its prefix or without. */
  lemma SignerMeetsVerifier(mac: Mac, clock: int, secret: string, body: string, timestamp: nat, now: Option<int>, window: Option<int>)
    requires IsMac(mac)
    ensures var headers := SignDelivery(mac, secret, body, timestamp);
      var bare := Hex(mac(secret, Decimal(timestamp) + "." + body));
      var at := if now.Some? then now.value else clock;
      var limit := if window.Some? then window.value else 300;
      var verdict := if -limit <= at - timestamp <= limit then Accept else Reject(ReplayWindow);
      && headers == DeliveryHeaders("sha256=" + bare, Decimal(timestamp))
      && verdict == Verify(mac, clock, Input(secret, body, Some(headers.signature), Some(headers.timestamp), now, window))
      && verdict == Verify(mac, clock, Input(secret, body, Some(bare), Some(headers.timestamp), now, window))
  {
    var payload := Decimal(timestamp) + "." + body;
    var bare := Hex(mac(secret, payload));
    hide ParseInt, Decimal, Hex, FromHex, IsHexChar;
    HexRoundTrip(mac(secret, payload));
    HexHasNoScheme(mac(secret, payload));
    assert "" + (Decimal(timestamp) + "") == Decimal(timestamp);
    ParsePrinted("", timestamp, "");
    StripOwnScheme(bare);
  }

  lemma StripsPrefix(header: string)
    ensures StripScheme(header) == if |header| >= 7 && header[..7] == "sha256=" then header[7..] else header
  {
    if SCHEME <= header {
      assert header[..7] == SCHEME;
    }
  }

  lemma ComparesDecoded(signature: string, expected: seq<byte>)
    requires expected != []
    ensures TimingSafeHexEqual(signature, Hex(expected)) <==> IsHex(signature) && FromHex(signature) == expected
  {
    HexRoundTrip(expected);
  }

  /**
    The verdict on any input. A delivery is accepted exactly when both headers are there, the timestamp is a number
    inside the window and the signature, without its prefix, decodes to the HMAC of the timestamp, a period and the body;
    otherwise the first of these that fails is the reason.
  */
  lemma VerdictIs(mac: Mac, clock: int, input: Input)
    requires IsMac(mac)
    ensures Verify(mac, clock, input) ==
      if input.signatureHeader in {None, Some("")} || input.timestampHeader in {None, Some("")} then Reject(MissingHeader)
      else if ParseInt(input.timestampHeader.value).None? then Reject(InvalidTimestamp)
      else
        var timestamp, header := ParseInt(input.timestampHeader.value).value, input.signatureHeader.value;
        var age := (if input.nowSeconds.Some? then input.nowSeconds.value else clock) - timestamp;
        var window := if input.replayWindowSeconds.Some? then input.replayWindowSeconds.value else 300;
        var signature := if |header| >= 7 && header[..7] == "sha256=" then header[7..] else header;
        if age < -window || age > window then Reject(ReplayWindow)
        else if IsHex(signature) && FromHex(signature) == mac(input.secret, IntText(timestamp) + "." + input.body) then Accept
        else Reject(InvalidSignature)
  {
    hide ParseInt, IntText, Decimal, StripScheme, TimingSafeHexEqual, IsHex, FromHex, Hex;
    if input.signatureHeader.Some? && input.timestampHeader.Some? && ParseInt(input.timestampHeader.value).Some? {
      var header, timestamp := input.signatureHeader.value, ParseInt(input.timestampHeader.value).value;
      StripsPrefix(header);
      ComparesDecoded(StripScheme(header), mac(input.secret, Canonical(timestamp, input.body)));
    }
  }

  // ---- what the signature binds ----

  lemma TextHasNoPeriod(n: int)
    ensures '.' !in IntText(n)
  {
  }

  lemma SignShows(n: int)
    ensures IntText(n)[0] == '-' <==> n < 0
  {
    if n >= 0 {
      assert IsDigit(Decimal(n)[0]);
    }
  }

  lemma TextDetermines(t: int, u: int)
    requires IntText(t) == IntText(u)
    ensures t == u
  {
    SignShows(t);
    SignShows(u);
    ValueOfDecimal(if t < 0 then -t else t);
    ValueOfDecimal(if u < 0 then -u else u);
    if t < 0 {
      assert IntText(t)[1..] == Decimal(-t) && IntText(u)[1..] == Decimal(-u);
    }
  }

  lemma SplitAtPeriod(a: string, x: string, b: string, y: string)
    requires '.' !in a && '.' !in b && a + "." + x == b + "." + y
    ensures a == b && x == y
  {
    var s := a + "." + x;
    assert s[|a|] == '.' && s[|b|] == '.';
    assert forall i :: 0 <= i < |a| ==> s[i] == a[i];
    assert forall i :: 0 <= i < |b| ==> s[i] == b[i];
    assert a == s[..|a|] && b == s[..|b|];
    assert x == s[|a| + 1..] && y == s[|b| + 1..];
  }

  /** The signed text determines both of its parts: no other timestamp and body have the same text. */
  lemma CanonicalDetermines(t: int, a: string, u: int, b: string)
    requires Canonical(t, a) == Canonical(u, b)
    ensures t == u && a == b
  {
    hide IntText;
    TextHasNoPeriod(t);
    TextHasNoPeriod(u);
    SplitAtPeriod(IntText(t), a, IntText(u), b);
    TextDetermines(t, u);
  }

  // ---- which spellings of a signature are accepted ----

  function Lower(s: string): string
    requires forall k :: 0 <= k < |s| ==> IsHexChar(s[k])
  {
    seq(|s|, k requires 0 <= k < |s| => HexChar(HexValue(s[k])))
  }

  lemma PairRoundTrip(v: nat, w: nat)
    requires v < 16 && w < 16
    ensures (v * 16 + w) / 16 == v && (v * 16 + w) % 16 == w
  {
  }

  lemma LowerOfPair(s: string, n: nat)
    requires forall k :: 0 <= k < |s| ==> IsHexChar(s[k])
    requires 2 <= n <= |s|
    ensures Lower(s[..n]) == [HexChar(HexValue(s[0])), HexChar(HexValue(s[1]))] + Lower(s[2..][..n - 2])
  {
    assert s[..n] == s[..2] + s[2..][..n - 2];
  }

  lemma EmptyLower(s: string)
    requires forall k :: 0 <= k < |s| ==> IsHexChar(s[k])
    ensures Lower(s[..0]) == ""
  {
  }

  lemma {:induction false} HexOfDecoded(s: string)
    requires forall k :: 0 <= k < |s| ==> IsHexChar(s[k])
    ensures |FromHex(s)| == |s| / 2
    ensures Hex(FromHex(s)) == Lower(s[..2 * (|s| / 2)])
  {
    hide HexChar, HexValue, Lower;
    if |s| < 2 {
      EmptyLower(s);
    } else {
      HexOfDecoded(s[2..]);
      PairRoundTrip(HexValue(s[0]), HexValue(s[1]));
      LowerOfPair(s, 2 * (|s| / 2));
      assert FromHex(s)[1..] == FromHex(s[2..]);
    }
  }

  /**
    The comparison accepts a signature exactly when its first 64 digits spell the expected ones in either case
    and at most one further hexadecimal digit follows: Buffer.from drops a digit without a partner.
  */
  lemma AcceptedSpellings(signature: string, expected: seq<byte>)
    requires |expected| == MAC_LENGTH
    ensures TimingSafeHexEqual(signature, Hex(expected)) <==>
      && IsHex(signature)
      && (|signature| == 2 * MAC_LENGTH || |signature| == 2 * MAC_LENGTH + 1)
      && Lower(signature[..2 * MAC_LENGTH]) == Hex(expected)
  {
    HexRoundTrip(expected);
    if IsHex(signature) {
      HexOfDecoded(signature);
      if |signature| / 2 == MAC_LENGTH && Lower(signature[..2 * MAC_LENGTH]) == Hex(expected) {
        assert Hex(FromHex(signature)) == Hex(expected);
        HexRoundTrip(FromHex(signature));
      }
    }
  }
}
