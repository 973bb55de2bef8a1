/** The bridge's records (internal/model/model.go) and the texts that identify them. */
module Model {
  import opened Wrappers
  import opened Text
  import opened Timestamp
  import Framing

  type uint32 = n: int | 0 <= n < 0x1_0000_0000

  /** A mesh packet as it is archived. Radio metrics that are only stored are left out. */
  datatype Packet = Packet(
    from: uint32,
    to: uint32,
    meshPacketID: uint32,
    channel: uint32,
    port: int,
    encrypted: bool,
    receivedAt: Instant,
    radioRxTime: Option<Instant>,
    rawPacket: Framing.bytes,
    rawPayload: Framing.bytes,
    parseStatus: string,
    parseError: string)

  /** A node's position; coordinates count units of 1e-7 degrees. */
  datatype Position = Position(
    packetID: nat,
    sourceNode: uint32,
    meshPacketID: uint32,
    sourcePort: int,
    callsign: string,
    deviceCallsign: string,
    latitude: int,
    longitude: int,
    altitude: Option<int>,
    speed: Option<int>,
    course: Option<int>,
    locationSource: string,
    precisionBits: nat,
    sourceTime: Instant,
    receivedAt: Instant)
  {
    function SourceID(): string {
      NodeID(sourceNode)
    }
  }

  const LATITUDE_LIMIT := 900_000_000
  const LONGITUDE_LIMIT := 1_800_000_000

  predicate OnEarth(latitude: int, longitude: int) {
    -LATITUDE_LIMIT <= latitude <= LATITUDE_LIMIT && -LONGITUDE_LIMIT <= longitude <= LONGITUDE_LIMIT
  }

  // ------------------------------------------------------------------ node identifiers

  function Pow16(n: nat): (p: nat)
    ensures p >= 1
  {
    if n == 0 then 1 else 16 * Pow16(n - 1)
  }

  function HexDigit(d: nat): (c: char)
    requires d < 16
    ensures '0' <= c <= '9' || 'a' <= c <= 'f'
  {
    "0123456789abcdef"[d]
  }

  lemma HexDigitInjective(d: nat, e: nat)
    requires d < 16 && e < 16 && HexDigit(d) == HexDigit(e)
    ensures d == e
  {
  }

  /** The low `width` hexadecimal digits of a number. */
  function Hex(n: nat, width: nat): (s: string)
    ensures |s| == width
  {
    if width == 0 then "" else Hex(n / 16, width - 1) + [HexDigit(n % 16)]
  }

  lemma {:induction false} HexInjective(a: nat, b: nat, width: nat)
    requires a < Pow16(width) && b < Pow16(width)
    requires Hex(a, width) == Hex(b, width)
    ensures a == b
  {
    if width > 0 {
      var x, y := Hex(a / 16, width - 1), Hex(b / 16, width - 1);
      assert Hex(a, width)[..width - 1] == x && Hex(b, width)[..width - 1] == y;
      HexInjective(a / 16, b / 16, width - 1);
      assert Hex(a, width)[width - 1] == Hex(b, width)[width - 1];
      HexDigitInjective(a % 16, b % 16);
    }
  }

  function NodeID(node: uint32): string {
    "!" + Hex(node, 8)
  }

  lemma NodeIDInjective(a: uint32, b: uint32)
    ensures NodeID(a) == NodeID(b) <==> a == b
  {
    assert NodeID(a)[1..] == Hex(a, 8) && NodeID(b)[1..] == Hex(b, 8);
    assert Pow16(8) == 0x1_0000_0000;
    if NodeID(a) == NodeID(b) {
      HexInjective(a, b, 8);
    }
  }

  /** An identifier is an exclamation mark and eight digits from which the number can be read back. */
  lemma NodeIDReads(node: uint32)
    ensures |NodeID(node)| == 9 && NodeID(node)[0] == '!'
    ensures AllHex(NodeID(node)[1..]) && HexValue(NodeID(node)[1..]) == node
  {
    assert NodeID(node)[1..] == Hex(node, 8);
    assert Pow16(8) == 0x1_0000_0000;
    HexReads(node, 8);
  }

  predicate AllHex(s: string) {
    forall i | 0 <= i < |s| :: '0' <= s[i] <= '9' || 'a' <= s[i] <= 'f'
  }

  /** The number that hexadecimal digits, in lower case, stand for. */
  function HexValue(s: string): nat
    requires AllHex(s)
  {
    if s == "" then 0
    else
      var c := s[|s| - 1];
      16 * HexValue(s[..|s| - 1]) + (if c <= '9' then c - '0' else c - 'a' + 10 as char) as nat
  }

  lemma {:induction false} HexReads(n: nat, width: nat)
    requires n < Pow16(width)
    ensures AllHex(Hex(n, width)) && HexValue(Hex(n, width)) == n
  {
    if width > 0 {
      HexReads(n / 16, width - 1);
      assert Hex(n, width)[..width - 1] == Hex(n / 16, width - 1);
      HexDigitReads(n % 16);
    }
  }

  lemma HexDigitReads(d: nat)
    requires d < 16
    ensures var c := HexDigit(d); (if c <= '9' then c - '0' else c - 'a' + 10 as char) as nat == d
  {
  }

  /** `NodeID` fills a nine-byte buffer from the right while shifting the node number. */
  method WriteNodeID(node: uint32) returns (id: string)
    ensures id == NodeID(node)
  {
    var buf := new char[9](_ => '!');
    var i, rest: nat := 8, node;
    while i > 0
      invariant 0 <= i <= 8
      invariant buf[0] == '!'
      invariant Hex(node, 8) == Hex(rest, i) + buf[i + 1..]
    {
      assert Hex(rest, i) == Hex(rest / 16, i - 1) + [HexDigit(rest % 16)];
      ghost var written := buf[i + 1..];
      buf[i] := HexDigit(rest % 16);
      assert buf[i..] == [HexDigit(rest % 16)] + written;
      rest := rest / 16;
      i := i - 1;
    }
    assert buf[..] == [buf[0]] + buf[1..];
    return buf[..];
  }

  // ------------------------------------------------------------------ the deduplication key

  function Decimal(n: nat): (s: string)
    ensures |s| >= 1
    ensures AllDigits(s)
  {
    if n < 10 then [Digit(n)] else Decimal(n / 10) + [Digit(n % 10)]
  }

  lemma DecimalParts(n: nat)
    ensures var s := Decimal(n);
            && s[|s| - 1] == Digit(n % 10) && (|s| == 1 <==> n < 10)
            && (n >= 10 ==> s[..|s| - 1] == Decimal(n / 10))
  {
  }

  lemma {:induction false} DecimalInjective(a: nat, b: nat)
    requires Decimal(a) == Decimal(b)
    ensures a == b
  {
    hide Decimal, Digit;
    DecimalParts(a);
    DecimalParts(b);
    assert DigitValue(Digit(a % 10)) == DigitValue(Digit(b % 10));
    if a >= 10 {
      DecimalInjective(a / 10, b / 10);
    }
  }

  const DEGREE := 10_000_000

  /** The verb %.7f applied to a coordinate. */
  function Degrees(v: int): string {
    if v < 0 then "-" + Magnitude(-v) else Magnitude(v)
  }

  function Magnitude(v: nat): string {
    Decimal(v / DEGREE) + ("." + Pad(v % DEGREE, 7))
  }

  lemma MagnitudeInjective(a: nat, b: nat)
    requires Magnitude(a) == Magnitude(b)
    ensures a == b
  {
    var m, n := |Decimal(a / DEGREE)|, |Decimal(b / DEGREE)|;
    assert |Magnitude(a)| == m + 8 && |Magnitude(b)| == n + 8;
    assert Magnitude(a)[..m] == Decimal(a / DEGREE) && Magnitude(b)[..n] == Decimal(b / DEGREE);
    DecimalInjective(a / DEGREE, b / DEGREE);
    assert Magnitude(a)[m + 1..] == Pad(a % DEGREE, 7) && Magnitude(b)[n + 1..] == Pad(b % DEGREE, 7);
    assert Pow10(7) == DEGREE;
    PadInjective(a % DEGREE, b % DEGREE, 7);
  }

  lemma DegreesInjective(v: int, w: int)
    ensures Degrees(v) == Degrees(w) <==> v == w
  {
    if Degrees(v) == Degrees(w) {
      assert Degrees(v)[0] == '-' <==> v < 0;
      assert Degrees(w)[0] == '-' <==> w < 0;
      if v < 0 {
        assert Degrees(v)[1..] == Magnitude(-v) && Degrees(w)[1..] == Magnitude(-w);
        MagnitudeInjective(-v, -w);
      } else {
        MagnitudeInjective(v, w);
      }
    }
  }

  predicate NoColon(s: string) {
    forall i | 0 <= i < |s| :: s[i] != ':'
  }

  lemma DegreesHasNoColon(v: int)
    ensures NoColon(Degrees(v))
  {
  }

  lemma {:induction false} FirstColon(a: string, b: string, s: string, t: string)
    requires NoColon(a) && NoColon(b)
    requires a + (":" + s) == b + (":" + t)
    ensures a == b && s == t
  {
    var x, y := a + (":" + s), b + (":" + t);
    assert x[|a|] == ':' && y[|b|] == ':';
    assert |a| == |b|;
    assert x[..|a|] == a && y[..|b|] == b;
    assert x[|a| + 1..] == s && y[|b| + 1..] == t;
  }

  /** The text `positionKey` hashes. SHA-256 is taken to be injective, so the text is the key. */
  function KeyText(node: uint32, latitude: int, longitude: int, sourceTime: string): string {
    Hex(node, 8) + (":" + (Degrees(latitude) + (":" + (Degrees(longitude) + (":" + sourceTime)))))
  }

  function PositionKey(p: Position): string {
    KeyText(p.sourceNode, p.latitude, p.longitude, FormatTime(p.sourceTime))
  }

  lemma KeyTextInjective(m: uint32, n: uint32, lat: int, lat': int, lon: int, lon': int, time: string, time': string)
    ensures KeyText(m, lat, lon, time) == KeyText(n, lat', lon', time')
       <==> m == n && lat == lat' && lon == lon' && time == time'
  {
    if KeyText(m, lat, lon, time) == KeyText(n, lat', lon', time') {
      var s, s' := Degrees(lon) + (":" + time), Degrees(lon') + (":" + time');
      HexField(m, n, Degrees(lat) + (":" + s), Degrees(lat') + (":" + s'));
      DegreesField(lat, lat', s, s');
      DegreesField(lon, lon', time, time');
    }
  }

  lemma HexField(m: uint32, n: uint32, s: string, t: string)
    requires Hex(m, 8) + (":" + s) == Hex(n, 8) + (":" + t)
    ensures m == n && s == t
  {
    assert (Hex(m, 8) + (":" + s))[..8] == Hex(m, 8) && (Hex(n, 8) + (":" + t))[..8] == Hex(n, 8);
    assert (Hex(m, 8) + (":" + s))[9..] == s && (Hex(n, 8) + (":" + t))[9..] == t;
    assert Pow16(8) == 0x1_0000_0000;
    HexInjective(m, n, 8);
  }

  lemma DegreesField(v: int, w: int, s: string, t: string)
    requires Degrees(v) + (":" + s) == Degrees(w) + (":" + t)
    ensures v == w && s == t
  {
    DegreesHasNoColon(v);
    DegreesHasNoColon(w);
    FirstColon(Degrees(v), Degrees(w), s, t);
    DegreesInjective(v, w);
  }

  /** Two positions share a key exactly when node, coordinates and source time agree. */
  lemma KeyExact(p: Position, q: Position)
    ensures PositionKey(p) == PositionKey(q)
       <==> p.sourceNode == q.sourceNode && p.latitude == q.latitude && p.longitude == q.longitude
            && p.sourceTime == q.sourceTime
  {
    KeyTextInjective(p.sourceNode, q.sourceNode, p.latitude, q.latitude, p.longitude, q.longitude,
                     FormatTime(p.sourceTime), FormatTime(q.sourceTime));
    FormatInjective(p.sourceTime, q.sourceTime);
  }
}
