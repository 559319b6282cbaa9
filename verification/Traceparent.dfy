/**
 The `traceparent` header, version 00 of section 3.2 of W3C Trace Context, as the backend prints and parses
 it and as the frontend emits and extracts it. The backend holds ids as integers, the frontend as strings.
 */
module Traceparent {
  import opened Options

  // ---------------------------------------------------------------------------
  // Lower-case hexadecimal

  predicate IsHex(c: char) { '0' <= c <= '9' || 'a' <= c <= 'f' }

  predicate AllHex(s: string) { forall i :: 0 <= i < |s| ==> IsHex(s[i]) }

  function DigitOf(d: nat): char
    requires d < 16
  {
    if d < 10 then '0' + d as char else 'a' + (d - 10) as char
  }

  function ValueOf(c: char): nat
    requires IsHex(c)
  {
    if c <= '9' then c as int - '0' as int else c as int - 'a' as int + 10
  }

  /** At least `width` digits, padded with zeros. */
  function Hex(n: nat, width: nat): string
    decreases n + width
  {
    if width == 0 && n == 0 then "" else Hex(n / 16, if width == 0 then 0 else width - 1) + [DigitOf(n % 16)]
  }

  function Number(s: string): nat
    requires AllHex(s)
  {
    if s == "" then 0 else Number(s[..|s| - 1]) * 16 + ValueOf(s[|s| - 1])
  }

  function Power(width: nat): nat {
    if width == 0 then 1 else 16 * Power(width - 1)
  }

  lemma DigitRoundTrip(d: nat)
    requires d < 16
    ensures IsHex(DigitOf(d)) && ValueOf(DigitOf(d)) == d
  {
  }

  lemma ValueRoundTrip(c: char)
    requires IsHex(c)
    ensures ValueOf(c) < 16 && DigitOf(ValueOf(c)) == c
  {
  }

  /** Printing in a width that suffices has exactly that many digits and reads back. */
  lemma {:induction false} HexReadsBack(n: nat, width: nat)
    requires n < Power(width)
    ensures |Hex(n, width)| == width && AllHex(Hex(n, width)) && Number(Hex(n, width)) == n
  {
    if width > 0 {
      HexReadsBack(n / 16, width - 1);
      DigitRoundTrip(n % 16);
      var s := Hex(n, width);
      assert s[..|s| - 1] == Hex(n / 16, width - 1) && s[|s| - 1] == DigitOf(n % 16);
    }
  }

  lemma {:induction false} NumberPrintsBack(s: string)
    requires AllHex(s)
    ensures Number(s) < Power(|s|) && Hex(Number(s), |s|) == s
  {
    if s != "" {
      var rest, c := s[..|s| - 1], s[|s| - 1];
      NumberPrintsBack(rest);
      ValueRoundTrip(c);
      assert Number(s) / 16 == Number(rest) && Number(s) % 16 == ValueOf(c);
      assert s == rest + [c];
    }
  }

  /** More than the width can hold takes more digits. */
  lemma {:induction false} HexOverflows(n: nat, width: nat)
    requires n >= Power(width)
    ensures |Hex(n, width)| > width
    decreases n + width
  {
    if width > 0 {
      HexOverflows(n / 16, width - 1);
    } else {
      assert Hex(n, 0) == Hex(n / 16, 0) + [DigitOf(n % 16)];
    }
  }

  // ---------------------------------------------------------------------------
  // The backend

  datatype SpanContext = SpanContext(traceId: nat, spanId: nat, flags: nat)

  predicate IsValid(c: SpanContext) {
    0 < c.traceId < Power(32) && 0 < c.spanId < Power(16)
  }

  predicate Shaped(s: string) {
    && |s| == 55 && s[..3] == "00-" && AllHex(s[3..35]) && s[35] == '-' && AllHex(s[36..52]) && s[52] == '-' && AllHex(s[53..55])
  }

  function Parse(s: string): Option<SpanContext> {
    if !Shaped(s) then None else
      var context := SpanContext(Number(s[3..35]), Number(s[36..52]), Number(s[53..55]));
      if IsValid(context) then Some(context) else None
  }

  function Printed(c: SpanContext): string {
    "00-" + Hex(c.traceId, 32) + "-" + Hex(c.spanId, 16) + "-" + Hex(c.flags, 2)
  }

  /** The header of the current span, unless it is not recording or cannot be sent. */
  function Capture(recording: bool, c: SpanContext): Option<string> {
    if !recording || !IsValid(c) then None
    else if Parse(Printed(c)).Some? then Some(Printed(c)) else None
  }

  lemma Parts(t: string, p: string, f: string)
    requires |t| == 32 && |p| == 16
    ensures var s := "00-" + t + "-" + p + "-" + f;
            |s| == 53 + |f| && s[..3] == "00-" && s[3..35] == t && s[35] == '-' && s[36..52] == p && s[52] == '-' && s[53..] == f
  {
  }

  lemma PrintThenParse(c: SpanContext)
    requires IsValid(c) && c.flags < 256
    ensures Parse(Printed(c)) == Some(c)
  {
    hide Hex, Number, AllHex, Power;
    Flags(c.flags);
    HexReadsBack(c.traceId, 32);
    HexReadsBack(c.spanId, 16);
    HexReadsBack(c.flags, 2);
    Parts(Hex(c.traceId, 32), Hex(c.spanId, 16), Hex(c.flags, 2));
    assert Printed(c)[53..55] == Printed(c)[53..];
  }

  lemma Flags(flags: nat)
    ensures flags < 256 <==> flags < Power(2)
  {
    assert Power(2) == 256;
  }

  lemma ParseThenPrint(s: string)
    requires Parse(s).Some?
    ensures Printed(Parse(s).value) == s && IsValid(Parse(s).value) && Parse(s).value.flags < 256
  {
    hide Hex, Number, AllHex, Power;
    NumberPrintsBack(s[3..35]);
    NumberPrintsBack(s[36..52]);
    NumberPrintsBack(s[53..55]);
    Flags(Number(s[53..55]));
    assert s == s[..3] + s[3..35] + [s[35]] + s[36..52] + [s[52]] + s[53..55];
  }

  /** A span is captured exactly when it is recording, valid and its flags fit in a byte; the header reads back as it. */
  lemma CaptureIsFaithful(recording: bool, c: SpanContext)
    ensures Capture(recording, c).Some? <==> recording && IsValid(c) && c.flags < 256
    ensures Capture(recording, c).Some? ==> Parse(Capture(recording, c).value) == Some(c)
  {
    hide Parse, Printed;
    if IsValid(c) && c.flags < 256 {
      PrintThenParse(c);
    } else if IsValid(c) {
      TooManyFlags(c);
    }
  }

  lemma TooManyFlags(c: SpanContext)
    requires IsValid(c) && c.flags >= 256
    ensures Parse(Printed(c)).None?
  {
    hide Hex, Number, AllHex, Power;
    Flags(c.flags);
    HexReadsBack(c.traceId, 32);
    HexReadsBack(c.spanId, 16);
    HexOverflows(c.flags, 2);
    Parts(Hex(c.traceId, 32), Hex(c.spanId, 16), Hex(c.flags, 2));
  }

  // ---------------------------------------------------------------------------
  // The frontend

  datatype BrowserContext = BrowserContext(traceId: string, spanId: string, flags: nat)

  predicate AllZero(s: string) { forall i :: 0 <= i < |s| ==> s[i] == '0' }

  predicate AnyCaseHex(s: string) {
    forall i :: 0 <= i < |s| ==> IsHex(s[i]) || 'A' <= s[i] <= 'F'
  }

  /** The library's own check, which ignores case. */
  predicate IsBrowserValid(c: BrowserContext) {
    && |c.traceId| == 32 && AnyCaseHex(c.traceId) && !AllZero(c.traceId)
    && |c.spanId| == 16 && AnyCaseHex(c.spanId) && !AllZero(c.spanId)
  }

  /** Anywhere in the header: a dash, sixteen zeros, a dash. */
  predicate HasZeroSpan(s: string) {
    exists i :: 0 <= i && i + 17 < |s| && s[i] == '-' && AllZero(s[i + 1..i + 17]) && s[i + 17] == '-'
  }

  predicate ValidTraceparent(s: string) {
    && Shaped(s) && s[53] == '0' && (s[54] == '0' || s[54] == '1')
    && !AllZero(s[3..35]) && !HasZeroSpan(s)
  }

  function Extract(s: string): Option<BrowserContext> {
    if ValidTraceparent(s) then Some(BrowserContext(s[3..35], s[36..52], Number(s[53..]))) else None
  }

  /** What the API client attaches for a destination it trusts. */
  function Header(c: BrowserContext): Option<string> {
    if !IsBrowserValid(c) then None else
      var value := "00-" + c.traceId + "-" + c.spanId + "-" + (if c.flags % 2 == 1 then "01" else "00");
      if ValidTraceparent(value) then Some(value) else None
  }

  lemma {:induction false} ZeroNumber(s: string)
    requires AllHex(s)
    ensures Number(s) == 0 <==> AllZero(s)
  {
    if s != "" {
      var rest, c := s[..|s| - 1], s[|s| - 1];
      ZeroNumber(rest);
      ValueRoundTrip(c);
      assert s == rest + [c];
      if AllZero(rest) && c == '0' { assert AllZero(s); }
      if AllZero(s) { assert AllZero(rest); }
    }
  }

  /** In a header of the right shape only the span id lies between two dashes sixteen apart. */
  lemma ZeroSpanIsSpanId(s: string)
    requires Shaped(s)
    ensures HasZeroSpan(s) <==> AllZero(s[36..52])
  {
    if AllZero(s[36..52]) {
      assert s[35] == '-' && s[36..52] == s[35 + 1..35 + 17] && s[35 + 17] == '-';
    }
    if HasZeroSpan(s) {
      var i :| 0 <= i && i + 17 < |s| && s[i] == '-' && AllZero(s[i + 1..i + 17]) && s[i + 17] == '-';
      Dashes(s, i);
    }
  }

  lemma Dashes(s: string, i: nat)
    requires Shaped(s) && i + 17 < |s| && s[i] == '-' && s[i + 17] == '-'
    ensures i == 35
  {
    assert s[0] == s[..3][0] && s[1] == s[..3][1] && s[2] == s[..3][2];
    forall k | 3 <= k < 35 || 36 <= k < 52 || 53 <= k < 55
      ensures s[k] != '-'
    {
      if k < 35 { assert s[k] == s[3..35][k - 3]; } else if k < 52 { assert s[k] == s[36..52][k - 36]; } else { assert s[k] == s[53..55][k - 53]; }
    }
  }

  /** The two ends agree: the frontend accepts exactly the headers the backend accepts with flags 00 or 01, and reads the same ids. */
  lemma EndsAgree(s: string)
    ensures ValidTraceparent(s) <==> Parse(s).Some? && Parse(s).value.flags <= 1
    ensures ValidTraceparent(s) ==> Parse(s) == Some(SpanContext(Number(s[3..35]), Number(s[36..52]), Number(s[53..])))
  {
    if Shaped(s) {
      hide Number, AllZero, Power, Hex, AllHex, HasZeroSpan;
      assert s[53..] == s[53..55];
      ZeroNumber(s[3..35]);
      ZeroNumber(s[36..52]);
      ZeroSpanIsSpanId(s);
      NumberPrintsBack(s[3..35]);
      NumberPrintsBack(s[36..52]);
      FlagDigits(s[53..55]);
    }
  }

  lemma FlagDigits(f: string)
    requires |f| == 2 && AllHex(f)
    ensures Number(f) <= 1 <==> f[0] == '0' && (f[1] == '0' || f[1] == '1')
  {
    ValueRoundTrip(f[0]);
    ValueRoundTrip(f[1]);
    TwoDigits(f);
  }

  /** A header is emitted exactly for lower-case contexts that are valid. */
  lemma HeaderIsAccepted(c: BrowserContext)
    ensures Header(c).Some? <==> IsBrowserValid(c) && AllHex(c.traceId) && AllHex(c.spanId)
    ensures Header(c).Some? ==>
              && Parse(Header(c).value) == Some(SpanContext(Number(c.traceId), Number(c.spanId), c.flags % 2))
              && Extract(Header(c).value) == Some(BrowserContext(c.traceId, c.spanId, c.flags % 2))
  {
    hide Number, Power, Hex, HasZeroSpan, AllZero, AnyCaseHex, Parse, AllHex;
    if IsBrowserValid(c) {
      var f := if c.flags % 2 == 1 then "01" else "00";
      var s := "00-" + c.traceId + "-" + c.spanId + "-" + f;
      Parts(c.traceId, c.spanId, f);
      FlagText(c.flags);
      assert s[53..55] == f && s[53] == f[0] && s[54] == f[1];
      if AllHex(c.traceId) && AllHex(c.spanId) {
        ZeroSpanIsSpanId(s);
        EndsAgree(s);
      }
    }
  }

  lemma FlagText(flags: nat)
    ensures var f := if flags % 2 == 1 then "01" else "00"; AllHex(f) && Number(f) == flags % 2
  {
    var f := if flags % 2 == 1 then "01" else "00";
    TwoDigits(f);
  }

  lemma TwoDigits(f: string)
    requires |f| == 2 && AllHex(f)
    ensures Number(f) == ValueOf(f[0]) * 16 + ValueOf(f[1])
  {
    var high := f[..1];
    assert high[0] == f[0] && high[..0] == "" && Number("") == 0;
    assert Number(high) == Number(high[..0]) * 16 + ValueOf(high[0]);
  }
}
