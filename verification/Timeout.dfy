/**
 The timeout on the wire: a header in seconds becomes a duration in nanoseconds, which is
 written as decimal text, read back by the server, and becomes its own timeout.
 */
module Timeout {
  import opened Prelude

  const MaxInt64: int := 0x7fff_ffff_ffff_ffff
  const MinInt64: int := -0x8000_0000_0000_0000
  const TwoTo64: int := 0x1_0000_0000_0000_0000
  const Second: int := 1_000_000_000

  predicate IsInt64(n: int) { MinInt64 <= n <= MaxInt64 }

  /** Two's-complement wrap-around to 64 bits. */
  function Wrap(n: int): (r: int)
    ensures IsInt64(r) && (r - n) % TwoTo64 == 0
    ensures IsInt64(n) ==> r == n
  {
    var m := n % TwoTo64;
    if m > MaxInt64 then m - TwoTo64 else m
  }

  // ---- decimal text ---------------------------------------------------------

  predicate IsDigit(c: char) { '0' <= c <= '9' }

  predicate AllDigits(s: string) { forall c | c in s :: IsDigit(c) }

  function Digit(d: nat): (c: char)
    requires d < 10
    ensures IsDigit(c) && DigitValue(c) == d
  {
    '0' + d as char
  }

  function DigitValue(c: char): (d: nat)
    requires IsDigit(c)
    ensures d < 10
  {
    (c - '0') as nat
  }

  function Digits(n: nat): (s: string)
    ensures s != "" && AllDigits(s)
  {
    if n < 10 then [Digit(n)] else Digits(n / 10) + [Digit(n % 10)]
  }

  /** Signed decimal text, as the "%d" verb prints it. */
  function Decimal(n: int): string { if n < 0 then "-" + Digits(-n) else Digits(n) }

  function Value(s: string): nat
    requires AllDigits(s)
  {
    if s == "" then 0 else 10 * Value(s[..|s| - 1]) + DigitValue(s[|s| - 1])
  }

  function Unsigned(digits: string, sign: int): Option<int> {
    if digits == "" || !AllDigits(digits) || !IsInt64(sign * Value(digits)) then None else Some(sign * Value(digits))
  }

  /** An optional sign and digits, within 64 bits. */
  function Atoi(s: string): Option<int> {
    if s == "" then None
    else if s[0] == '-' then Unsigned(s[1..], -1)
    else if s[0] == '+' then Unsigned(s[1..], 1)
    else Unsigned(s, 1)
  }

  /** Digits only, within 64 unsigned bits. */
  function ParseUint(s: string): Option<int> {
    if s == "" || !AllDigits(s) || Value(s) >= TwoTo64 then None else Some(Value(s))
  }

  lemma {:induction false} ValueOfDigits(n: nat)
    ensures Value(Digits(n)) == n
  {
    if n >= 10 {
      ValueOfDigits(n / 10);
      assert Digits(n)[..|Digits(n)| - 1] == Digits(n / 10);
    } else {
      assert Digits(n)[..0] == "";
    }
  }

  // ---- client and server ----------------------------------------------------

  /** The timeout of a call in nanoseconds: the deadline's, else the header's, else the default. */
  function ClientTimeout(left: Option<int>, header: Option<string>, default: int): int {
    if left.Some? then left.value
    else if header.None? || Atoi(header.value).None? then default
    else Wrap(Second * Atoi(header.value).value)
  }

  /** The header the client sends. */
  function Written(duration: int): string { Decimal(duration) }

  /** The timeout the server sets on its context, if any. */
  function ServerTimeout(header: string): Option<int> {
    if header == "" || ParseUint(header).None? then None else Some(Wrap(ParseUint(header).value))
  }

  /** The server reads back exactly the durations that are not negative; others set no timeout. */
  lemma WireRoundTrip(duration: int)
    requires IsInt64(duration)
    ensures ServerTimeout(Written(duration)) == if duration >= 0 then Some(duration) else None
  {
    if duration >= 0 {
      ValueOfDigits(duration);
    } else {
      assert '-' in Written(duration) by {
        assert Written(duration)[0] == '-';
      }
      assert !IsDigit('-');
    }
  }

  /** A header of `n` seconds arrives as that many seconds exactly when it fits in 64 bits and is not negative. */
  lemma SecondsArrive(text: string, n: int, default: int)
    requires Atoi(text) == Some(n)
    ensures var sent := ClientTimeout(None, Some(text), default);
            ServerTimeout(Written(sent)) == Some(Second * n) <==> 0 <= n <= 9_223_372_036
  {
    var sent := ClientTimeout(None, Some(text), default);
    WireRoundTrip(sent);
  }

  /** Decimal text of any 64-bit number is read as that number. */
  lemma AtoiOfDecimal(n: int)
    requires IsInt64(n)
    ensures Atoi(Decimal(n)) == Some(n)
  {
    if n < 0 {
      ValueOfDigits(-n);
      assert Decimal(n)[0] == '-' && Decimal(n)[1..] == Digits(-n);
    } else {
      ValueOfDigits(n);
      assert IsDigit(Digits(n)[0]);
    }
  }

  /** In whole: `s` seconds in the caller's header are `s` seconds on the server. */
  lemma HeaderSeconds(s: nat, default: int)
    requires s <= 9_223_372_036
    ensures ServerTimeout(Written(ClientTimeout(None, Some(Decimal(s)), default))) == Some(s * 1_000_000_000)
  {
    AtoiOfDecimal(s);
    SecondsArrive(Decimal(s), s, default);
  }

  // ---- the headers around it ------------------------------------------------

  type Header = map<string, string>

  function Lookup(h: Header, key: string): Option<string> { if key in h then Some(h[key]) else None }

  function Or(v: Option<string>, default: string): string { if v.Some? then v.value else default }

  const DefaultContentType := "application/grpc"

  /** What the client sends for a call with `left` nanoseconds to its deadline, if it has one. */
  function Sent(header: Header, left: Option<int>, default: int): Header {
    header["timeout" := Written(ClientTimeout(left, Lookup(header, "timeout"), default))]
          ["x-content-type" := Or(Lookup(header, "x-content-type"), DefaultContentType)]
  }

  method StampHeader(header: Header, left: Option<int>, default: int) returns (out: Header, timeout: int)
    ensures timeout == ClientTimeout(left, Lookup(header, "timeout"), default)
    ensures out == Sent(header, left, default)
  {
    out, timeout := header, default;
    var xContentType := DefaultContentType;
    if "x-content-type" in out {
      xContentType := out["x-content-type"];
    }
    if left.None? {
      if "timeout" in out {
        var n := Atoi(out["timeout"]);
        if n.Some? {
          timeout := Wrap(Second * n.value);
        }
      }
    } else {
      timeout := left.value;
    }
    out := out["timeout" := Written(timeout)];
    out := out["x-content-type" := xContentType];
  }

  /** What the client sends for a stream: the caller's header, timeout text included, and the content type. */
  function SentByStream(header: Header): Header {
    header["x-content-type" := Or(Lookup(header, "x-content-type"), DefaultContentType)]
  }

  method StampStreamHeader(header: Header) returns (out: Header)
    ensures out == SentByStream(header)
  {
    var xContentType := DefaultContentType;
    if "x-content-type" in header {
      xContentType := header["x-content-type"];
    }
    out := header["x-content-type" := xContentType];
  }

  /** What arrives on the wire: each key may have several values. */
  type Incoming = map<string, seq<string>>

  function Joined(values: seq<string>): string {
    if values == [] then ""
    else if |values| == 1 then values[0]
    else values[0] + ", " + Joined(values[1..])
  }

  function Flat(wire: Incoming): Header { map key | key in wire :: Joined(wire[key]) }

  method Flatten(wire: Incoming) returns (md: Header)
    ensures md == Flat(wire)
  {
    md := map[];
    var keys := wire.Keys;
    while keys != {}
      invariant keys <= wire.Keys && md.Keys == wire.Keys - keys
      invariant forall key | key in md :: md[key] == Joined(wire[key])
    {
      var key :| key in keys;
      md := md[key := Joined(wire[key])];
      keys := keys - {key};
    }
  }

  /** What the server makes of it: the metadata it passes on, its timeout, and the two content types. */
  datatype Received = Received(md: Header, timeout: Option<int>, xct: string, ct: string)

  function Receive(wire: Incoming, peer: Option<string>): Received {
    var md := Flat(wire);
    var sent := Lookup(md, "content-type");
    var xct := Or(Lookup(md, "x-content-type"), Or(sent, DefaultContentType));
    var kept := md["content-type" := Or(sent, xct)] - {"timeout", "x-content-type"};
    Received(if peer.Some? then kept["Remote" := peer.value] else kept,
             ServerTimeout(Or(Lookup(md, "timeout"), "")), xct, Or(sent, xct))
  }

  /** The header of an incoming call; `peer` is the address of its connection, if known. */
  method ReadHeader(wire: Incoming, peer: Option<string>)
    returns (md: Header, timeout: Option<int>, xct: string, ct: string)
    ensures Received(md, timeout, xct, ct) == Receive(wire, peer)
  {
    md := Flatten(wire);
    var to := "";
    if "timeout" in md {
      to := md["timeout"];
    }
    xct := DefaultContentType;
    if "x-content-type" in md {
      xct := md["x-content-type"];
    } else if "content-type" in md {
      xct := md["content-type"];
    }
    ct := xct;
    if "content-type" in md {
      ct := md["content-type"];
    }
    md := md["content-type" := ct];
    md := md - {"timeout"};
    md := md - {"x-content-type"};
    if peer.Some? {
      md := md["Remote" := peer.value];
    }
    timeout := None;
    if |to| > 0 {
      var n := ParseUint(to);
      if n.Some? {
        timeout := Some(Wrap(n.value));
      }
    }
  }

  /** The transport carries a key as it was sent: its one value, or not at all. */
  predicate Carried(sent: Header, wire: Incoming, key: string) {
    if key in sent then key in wire && wire[key] == [sent[key]] else key !in wire
  }

  /**
   A header crosses the wire with its timeout and its content type, if the transport carries
   those two keys, whatever it does to the others. Neither key reaches the handler, the peer's
   address and a content type are added, and any other key reaches it as sent if it is carried.
   */
  lemma HeaderCrosses(header: Header, left: Option<int>, default: int, wire: Incoming, peer: Option<string>, key: string)
    requires IsInt64(default) && (left.Some? ==> IsInt64(left.value))
    requires Carried(Sent(header, left, default), wire, "timeout")
    requires Carried(Sent(header, left, default), wire, "x-content-type")
    ensures var timeout := ClientTimeout(left, Lookup(header, "timeout"), default);
            var got := Receive(wire, peer);
            && got.timeout == (if timeout >= 0 then Some(timeout) else None)
            && got.xct == Or(Lookup(header, "x-content-type"), DefaultContentType)
            && got.ct == (if "content-type" in wire then Joined(wire["content-type"]) else got.xct)
            && (Carried(Sent(header, left, default), wire, key) ==>
                  Lookup(got.md, key) == if key == "Remote" && peer.Some? then peer
                                         else if key == "timeout" || key == "x-content-type" then None
                                         else if key == "content-type" then Some(got.ct)
                                         else Lookup(header, key))
  {
    WireRoundTrip(ClientTimeout(left, Lookup(header, "timeout"), default));
  }

  // ---- streams ----------------------------------------------------------------

  lemma AtoiIsValue(text: string, n: int)
    requires Atoi(text) == Some(n)
    ensures text != ""
    ensures AllDigits(text) ==> n == Value(text)
  {
    if AllDigits(text) {
      assert IsDigit(text[0]);
    }
  }

  /**
   NewStream sends the caller's text as it is, and the server takes it for nanoseconds: a text
   of n seconds arrives as n nanoseconds if it has no sign, and not at all otherwise. So it
   arrives as n seconds exactly when it is an unsigned zero.
   */
  lemma StreamSecondsArrive(header: Header, n: int, wire: Incoming, peer: Option<string>)
    requires "timeout" in header && Atoi(header["timeout"]) == Some(n)
    requires Carried(SentByStream(header), wire, "timeout")
    ensures var got := Receive(wire, peer).timeout;
            && got == (if AllDigits(header["timeout"]) then Some(n) else None)
            && (got == Some(Second * n) <==> n == 0 && AllDigits(header["timeout"]))
  {
    AtoiIsValue(header["timeout"], n);
  }

  /** Five seconds on a call are five nanoseconds on a stream. */
  lemma FiveSeconds(default: int)
    ensures ServerTimeout(Written(ClientTimeout(None, Some("5"), default))) == Some(5 * Second)
    ensures SentByStream(map["timeout" := "5"])["timeout"] == "5" && ServerTimeout("5") == Some(5)
  {
    assert Value("") == 0 && "5"[..0] == "";
    assert AllDigits("5") && Value("5") == 5;
    assert Atoi("5") == Some(5);
    SecondsArrive("5", 5, default);
  }

  // ---- every case of it -------------------------------------------------------

  /** Text of a sign and digits is a number, if 64 bits hold it. */
  lemma AtoiReads(digits: string)
    requires digits != "" && AllDigits(digits)
    ensures var n: int := Value(digits);
            && Atoi(digits) == Atoi("+" + digits) == (if n <= 9223372036854775807 then Some(n) else None)
            && Atoi("-" + digits) == if n <= 9223372036854775808 then Some(-n) else None
  {
    assert ("+" + digits)[1..] == digits && ("-" + digits)[1..] == digits;
    assert IsDigit(digits[0]);
  }

  /** Any other text is none. */
  lemma AtoiRejects(text: string)
    requires forall digits | digits != "" && AllDigits(digits) :: text != digits && text != "+" + digits && text != "-" + digits
    ensures Atoi(text) == None
  {
    if text != "" {
      assert text == [text[0]] + text[1..];
    }
  }

  /** Which timeout the text of a header means to the server: none if it is no number of 64 unsigned bits. */
  lemma ServerReads(n: nat)
    ensures ServerTimeout(Digits(n)) ==
            if n <= MaxInt64 then Some(n) else if n < TwoTo64 then Some(n - TwoTo64) else None
  {
    ValueOfDigits(n);
  }

  lemma ServerRejects(text: string)
    requires text == "" || !AllDigits(text)
    ensures ServerTimeout(text) == None
  {
  }

  /**
   The timeout that arrives from a unary call: what is left to its deadline if it has one, else
   the seconds of its header if they are a number, else the default; none if that is negative.
   */
  lemma TimeoutArrives(header: Header, left: Option<int>, default: int, wire: Incoming, peer: Option<string>)
    requires IsInt64(default) && (left.Some? ==> IsInt64(left.value))
    requires Carried(Sent(header, left, default), wire, "timeout")
    requires Carried(Sent(header, left, default), wire, "x-content-type")
    ensures var got := Receive(wire, peer).timeout;
            && (left.Some? ==> got == if left.value >= 0 then left else None)
            && (left.None? && ("timeout" !in header || Atoi(header["timeout"]).None?) ==>
                  got == if default >= 0 then Some(default) else None)
            && (left.None? && "timeout" in header && Atoi(header["timeout"]).Some? ==>
                  (got == Some(Second * Atoi(header["timeout"]).value) <==> 0 <= Atoi(header["timeout"]).value <= 9_223_372_036))
  {
    HeaderCrosses(header, left, default, wire, peer, "timeout");
    if left.None? && "timeout" in header && Atoi(header["timeout"]).Some? {
      SecondsArrive(header["timeout"], Atoi(header["timeout"]).value, default);
    }
  }

  /** A stream's header crosses as a call's does, but for the timeout. */
  lemma StreamHeaderCrosses(header: Header, wire: Incoming, peer: Option<string>, key: string)
    requires Carried(SentByStream(header), wire, "timeout")
    requires Carried(SentByStream(header), wire, "x-content-type")
    ensures var got := Receive(wire, peer);
            && got.timeout == (if "timeout" in header then ServerTimeout(header["timeout"]) else None)
            && got.xct == (if "x-content-type" in header then header["x-content-type"] else "application/grpc")
            && got.ct == (if "content-type" in wire then Joined(wire["content-type"]) else got.xct)
            && (Carried(SentByStream(header), wire, key) ==>
                  Lookup(got.md, key) == if key == "Remote" && peer.Some? then peer
                                         else if key == "timeout" || key == "x-content-type" then None
                                         else if key == "content-type" then Some(got.ct)
                                         else Lookup(header, key))
  {
  }

  /** A caller that is no client of this library, and sends no content type of its own: what the transport's says, or the default. */
  lemma ForeignCaller(wire: Incoming, peer: Option<string>)
    requires "x-content-type" !in wire
    ensures var got := Receive(wire, peer);
            got.xct == got.ct == if "content-type" in wire then Joined(wire["content-type"]) else "application/grpc"
  {
  }

  /** The values of a key are joined in order, with a comma and a blank between each two. */
  lemma {:induction false} JoinedConcat(a: seq<string>, b: seq<string>)
    requires a != [] && b != []
    ensures Joined(a + b) == Joined(a) + ", " + Joined(b)
  {
    if |a| == 1 {
      assert (a + b)[0] == a[0] && (a + b)[1..] == b;
    } else {
      JoinedConcat(a[1..], b);
      assert (a + b)[0] == a[0] && (a + b)[1..] == a[1..] + b;
    }
  }

  lemma JoinedOne(value: string)
    ensures Joined([value]) == value && Joined([]) == ""
  {
  }
}
