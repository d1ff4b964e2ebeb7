/** The binary frame both ends of the daemon channel speak, little-endian:
    MAGIC(4) | type(2) | length(4) | body. The body stays bytes here. */
module FrameCodec {
  type byte = x: int | 0 <= x < 256

  const MAGIC: seq<byte> := [0xA1, 0xD1, 0x0C, 0x01]
  const HEADER := 10

  datatype Frame = Frame(kind: nat, body: seq<byte>)

  datatype DecodeError = ShorterThanHeader | BadMagic | Truncated

  datatype Decoded = Accepted(frame: Frame) | Refused(error: DecodeError)

  /** `width` bytes of `n`, least significant first; higher bytes are cut off. */
  function LittleEndian(n: nat, width: nat): seq<byte>
    decreases width
  {
    if width == 0 then [] else [n % 256] + LittleEndian(n / 256, width - 1)
  }

  function FromLittleEndian(s: seq<byte>): nat {
    if s == [] then 0 else s[0] + 256 * FromLittleEndian(s[1..])
  }

  function Power256(width: nat): (p: nat)
    ensures p > 0
  {
    if width == 0 then 1 else 256 * Power256(width - 1)
  }

  lemma {:induction false} LittleEndianLength(n: nat, width: nat)
    ensures |LittleEndian(n, width)| == width
  {
    if width > 0 {
      LittleEndianLength(n / 256, width - 1);
    }
  }

  lemma {:induction false} LittleEndianRoundTrip(n: nat, width: nat)
    ensures FromLittleEndian(LittleEndian(n, width)) == n % Power256(width)
    ensures n < Power256(width) ==> FromLittleEndian(LittleEndian(n, width)) == n
  {
    if width > 0 {
      LittleEndianRoundTrip(n / 256, width - 1);
      var rest := LittleEndian(n / 256, width - 1);
      assert ([n % 256] + rest)[1..] == rest;
      LowByte(n, Power256(width - 1));
      Small(n, Power256(width));
    }
  }

  lemma Small(n: nat, m: nat)
    requires m > 0
    ensures n < m ==> n % m == n
  {
    if n < m {
      Remainder(m, 0, n, n);
    }
  }

  lemma LowByte(n: nat, m: nat)
    requires m > 0
    ensures n % (256 * m) == n % 256 + 256 * (n / 256 % m)
  {
    var h := n / 256;
    var q, r := h / m, h % m;
    assert h == m * q + r;
    assert 256 * (m * q) == (256 * m) * q;
    Remainder(256 * m, q, 256 * r + n % 256, n);
  }

  lemma Remainder(m: nat, q: nat, r: nat, n: nat)
    requires m > 0 && r < m && n == m * q + r
    ensures n % m == r
  {
    var d: int := n / m - q;
    assert m * d + m * q == m * (n / m);
    Multiple(m, d);
  }

  lemma Multiple(m: nat, d: int)
    ensures d >= 1 ==> m * d >= m
    ensures d <= -1 ==> m * d + m <= 0
  {
    if d >= 1 {
      assert m * d == m + m * (d - 1);
    } else if d <= -1 {
      assert m * d == m * (d + 1) - m;
    }
  }

  // ---- the daemon's side ----

  datatype Packed = Bytes(bytes: seq<byte>) | OutOfRange

  /** struct.pack("<4sHI", ...) refuses a type or a length that does not fit its field. */
  function EncodeDaemon(kind: nat, body: seq<byte>): Packed {
    if kind >= 0x1_0000 || |body| >= 0x1_0000_0000 then OutOfRange
    else Bytes(MAGIC + LittleEndian(kind, 2) + LittleEndian(|body|, 4) + body)
  }

  function DecodeDaemon(buf: seq<byte>): Decoded {
    if |buf| < HEADER then Refused(ShorterThanHeader)
    else if buf[..4] != MAGIC then Refused(BadMagic)
    else
      var length := FromLittleEndian(buf[6..10]);
      var end := if HEADER + length <= |buf| then HEADER + length else |buf|;
      var body := buf[HEADER..end];
      if |body| < length then Refused(Truncated)
      else Accepted(Frame(FromLittleEndian(buf[4..6]), body))
  }

  // ---- the browser's side, writing into and reading from one byte array ----

  /** DataView.setUint16 / setUint32 with the little-endian flag: the value is cut to the field. */
  method SetUint(bytes: array<byte>, at: nat, width: nat, value: nat)
    requires at + width <= bytes.Length
    modifies bytes
    ensures bytes[at..at + width] == LittleEndian(value, width)
    ensures bytes[..at] == old(bytes[..at]) && bytes[at + width..] == old(bytes[at + width..])
  {
    LittleEndianLength(value, width);
    var i, rest := 0, value;
    while i < width
      invariant 0 <= i <= width
      invariant |LittleEndian(rest, width - i)| == width - i
      invariant LittleEndian(value, width) == bytes[at..at + i] + LittleEndian(rest, width - i)
      invariant bytes[..at] == old(bytes[..at]) && bytes[at + width..] == old(bytes[at + width..])
    {
      ghost var before := bytes[at..at + i];
      bytes[at + i] := rest % 256;
      LittleEndianLength(rest / 256, width - i - 1);
      assert bytes[at..at + i + 1] == before + [rest % 256];
      i, rest := i + 1, rest / 256;
    }
  }

  method SetBytes(bytes: array<byte>, at: nat, source: seq<byte>)
    requires at + |source| <= bytes.Length
    modifies bytes
    ensures bytes[at..at + |source|] == source
    ensures bytes[..at] == old(bytes[..at]) && bytes[at + |source|..] == old(bytes[at + |source|..])
  {
    var i := 0;
    while i < |source|
      invariant 0 <= i <= |source|
      invariant bytes[at..at + i] == source[..i]
      invariant bytes[..at] == old(bytes[..at]) && bytes[at + |source|..] == old(bytes[at + |source|..])
    {
      ghost var before := bytes[at..at + i];
      bytes[at + i] := source[i];
      assert bytes[at..at + i + 1] == before + [source[i]];
      i := i + 1;
    }
  }

  /** What the browser puts on the wire: the same layout, with oversized fields cut. */
  function BrowserBytes(kind: nat, body: seq<byte>): seq<byte> {
    MAGIC + LittleEndian(kind, 2) + LittleEndian(|body|, 4) + body
  }

  method EncodeBrowser(kind: nat, body: seq<byte>) returns (bytes: array<byte>)
    ensures fresh(bytes) && bytes[..] == BrowserBytes(kind, body)
  {
    bytes := new byte[HEADER + |body|](_ => 0);
    LittleEndianLength(kind, 2);
    LittleEndianLength(|body|, 4);
    SetBytes(bytes, 0, MAGIC);
    assert bytes[..4] == bytes[0..4];
    SetUint(bytes, 4, 2, kind);
    assert bytes[..6] == bytes[..4] + bytes[4..6];
    SetUint(bytes, 6, 4, |body|);
    assert bytes[..10] == bytes[..6] + bytes[6..10];
    SetBytes(bytes, HEADER, body);
    assert bytes[..] == bytes[..10] + bytes[10..10 + |body|];
  }

  /** DataView.getUint with the little-endian flag: bytes are added from the last to the first. */
  method GetUint(bytes: array<byte>, at: nat, width: nat) returns (value: nat)
    requires at + width <= bytes.Length
    ensures value == FromLittleEndian(bytes[at..at + width])
  {
    value := 0;
    var i := width;
    while i > 0
      invariant 0 <= i <= width
      invariant value == FromLittleEndian(bytes[at + i..at + width])
    {
      assert bytes[at + i - 1..at + width][1..] == bytes[at + i..at + width];
      i := i - 1;
      value := bytes[at + i] + 256 * value;
    }
  }

  method DecodeBrowser(bytes: array<byte>) returns (r: Decoded)
    ensures r == DecodeDaemon(bytes[..])
  {
    if bytes.Length < HEADER {
      return Refused(ShorterThanHeader);
    }
    if !(bytes[0] == 0xA1 && bytes[1] == 0xD1 && bytes[2] == 0x0C && bytes[3] == 0x01) {
      assert bytes[..][..4][0] == bytes[0] && bytes[..][..4][1] == bytes[1];
      assert bytes[..][..4][2] == bytes[2] && bytes[..][..4][3] == bytes[3];
      return Refused(BadMagic);
    }
    assert bytes[..][..4] == [bytes[0], bytes[1], bytes[2], bytes[3]];
    var kind := GetUint(bytes, 4, 2);
    var length := GetUint(bytes, 6, 4);
    assert bytes[..][4..6] == bytes[4..6] && bytes[..][6..10] == bytes[6..10];
    var end := if HEADER + length <= bytes.Length then HEADER + length else bytes.Length;
    var body := bytes[HEADER..end];
    assert bytes[..][HEADER..end] == body;
    if |body| < length {
      return Refused(Truncated);
    }
    r := Accepted(Frame(kind, body));
  }

  // ---- the two ends agree ----

  lemma FieldSizes()
    ensures Power256(2) == 0x1_0000 && Power256(4) == 0x1_0000_0000
  {
    Widens(0);
    Widens(1);
    Widens(2);
    Widens(3);
  }

  lemma Widens(width: nat)
    ensures Power256(width + 1) == 256 * Power256(width)
  {
  }

  lemma HeaderParts(kind: nat, body: seq<byte>, tail: seq<byte>)
    ensures var buf := BrowserBytes(kind, body) + tail;
      && |buf| == HEADER + |body| + |tail|
      && buf[..4] == MAGIC
      && FromLittleEndian(buf[4..6]) == kind % 0x1_0000
      && FromLittleEndian(buf[6..10]) == |body| % 0x1_0000_0000
      && buf[10..] == body + tail
  {
    var k, l := LittleEndian(kind, 2), LittleEndian(|body|, 4);
    LittleEndianLength(kind, 2);
    LittleEndianLength(|body|, 4);
    LittleEndianRoundTrip(kind, 2);
    LittleEndianRoundTrip(|body|, 4);
    FieldSizes();
    var buf := BrowserBytes(kind, body) + tail;
    assert buf == MAGIC + k + l + (body + tail);
    FourParts(MAGIC, k, l, body + tail);
  }

  lemma FourParts(a: seq<byte>, b: seq<byte>, c: seq<byte>, d: seq<byte>)
    requires |a| == 4 && |b| == 2 && |c| == 4
    ensures var s := a + b + c + d;
      s[..4] == a && s[4..6] == b && s[6..10] == c && s[10..] == d
  {
  }

  /** A frame that fits its header comes back whole, whatever follows it. */
  lemma FrameRoundTrip(kind: nat, body: seq<byte>, tail: seq<byte>)
    requires kind < 0x1_0000 && |body| < 0x1_0000_0000
    ensures EncodeDaemon(kind, body).Bytes?
    ensures DecodeDaemon(EncodeDaemon(kind, body).bytes + tail) == Accepted(Frame(kind, body))
  {
    HeaderParts(kind, body, tail);
    var buf := BrowserBytes(kind, body) + tail;
    assert buf[10..10 + |body|] == buf[10..][..|body|] == body;
  }

  /** What the browser sends is read back as sent, and is what the daemon would send,
      exactly when the frame fits its header. */
  lemma BrowserRoundTripExactly(kind: nat, body: seq<byte>)
    ensures EncodeDaemon(kind, body) == Bytes(BrowserBytes(kind, body))
      <==> kind < 0x1_0000 && |body| < 0x1_0000_0000
    ensures DecodeDaemon(BrowserBytes(kind, body)) == Accepted(Frame(kind, body))
      <==> kind < 0x1_0000 && |body| < 0x1_0000_0000
  {
    HeaderParts(kind, body, []);
    var buf := BrowserBytes(kind, body);
    assert buf + [] == buf;
    if kind < 0x1_0000 && |body| < 0x1_0000_0000 {
      FrameRoundTrip(kind, body, []);
    }
  }

  /** An accepted buffer starts with the encoding of the frame read from it. */
  lemma DecodedFrameIsEncoded(buf: seq<byte>)
    requires DecodeDaemon(buf).Accepted?
    ensures var f := DecodeDaemon(buf).frame;
      EncodeDaemon(f.kind, f.body).Bytes? && EncodeDaemon(f.kind, f.body).bytes <= buf
  {
    var f := DecodeDaemon(buf).frame;
    FromLittleEndianBound(buf[4..6]);
    FromLittleEndianBound(buf[6..10]);
    FieldSizes();
    assert buf[..HEADER + |f.body|] == buf[..4] + buf[4..6] + buf[6..10] + f.body;
  }

  lemma SplitByte(b: byte, high: nat)
    ensures (b + 256 * high) % 256 == b && (b + 256 * high) / 256 == high
  {
  }

  lemma {:induction false} FromLittleEndianBound(s: seq<byte>)
    ensures FromLittleEndian(s) < Power256(|s|)
    ensures LittleEndian(FromLittleEndian(s), |s|) == s
  {
    if s != [] {
      FromLittleEndianBound(s[1..]);
      SplitByte(s[0], FromLittleEndian(s[1..]));
      assert |s[1..]| == |s| - 1;
      assert [s[0]] + s[1..] == s;
    }
  }
}
