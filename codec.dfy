/**
 * The outbound byte codec of PenCommV2: DLE byte stuffing, little-endian
 * integer fields, the frame layout STX, CMD[, STATUS], LEN, PAYLOAD, ETX,
 * and the packing of a section id and an owner id into one 32-bit word.
 *
 * The frame decoder lives on the pen; `ParseFrame` is an independent
 * reference decoder used to state what the builders put on the wire.
 */
module Codec {
  import opened Base

  const STX: byte := 0xC0
  const ETX: byte := 0xC1
  const DLE: byte := 0x7D

  predicate IsMarker(b: byte) {
    b == STX || b == ETX || b == DLE
  }

  /** b XOR 0x20: bit 5 of the byte flipped. */
  function Flip(b: byte): (r: byte)
    ensures r as int % 32 == b as int % 32 && r as int / 64 == b as int / 64
    ensures (r as int / 32) % 2 != (b as int / 32) % 2
  {
    var x := b as int;
    assert x == 64 * (x / 64) + 32 * ((x / 32) % 2) + x % 32;
    if (x / 32) % 2 == 0 then (x + 32) as byte else (x - 32) as byte
  }

  /** XOR with the same mask twice is the identity. */
  lemma FlipFlip(b: byte)
    ensures Flip(Flip(b)) == b
  {
  }

  /** PenCommV2.Escape: a marker byte becomes DLE followed by the byte XOR 0x20. */
  function Escape(b: byte): (r: seq<byte>)
    ensures IsMarker(b) ==> r == [DLE, Flip(b)]
    ensures !IsMarker(b) ==> r == [b]
    ensures STX !in r && ETX !in r
    ensures (if |r| == 2 then Flip(r[1]) else r[0]) == b
  {
    FlipFlip(b);
    if IsMarker(b) then [DLE, Flip(b)] else [b]
  }

  /** What a ByteUtil built with `Escape` writes for a run of bytes put through it. */
  function EscapeAll(s: seq<byte>): (r: seq<byte>)
    ensures |s| <= |r| <= 2 * |s|
  {
    if s == [] then [] else Escape(s[0]) + EscapeAll(s[1..])
  }

  /** No stuffed run contains a frame marker. */
  lemma {:induction false} EscapeAllNoMarkers(s: seq<byte>)
    ensures STX !in EscapeAll(s) && ETX !in EscapeAll(s)
  {
    if s != [] {
      EscapeAllNoMarkers(s[1..]);
    }
  }

  /** The receiver's side of the stuffing: DLE x stands for x XOR 0x20; a trailing DLE is malformed. */
  function Unescape(s: seq<byte>): Option<seq<byte>>
    decreases |s|
  {
    if s == [] then Some([])
    else if s[0] == DLE then
      if |s| == 1 then None
      else match Unescape(s[2..])
        case None => None
        case Some(t) => Some([Flip(s[1])] + t)
    else match Unescape(s[1..])
      case None => None
      case Some(t) => Some([s[0]] + t)
  }

  lemma {:induction false} EscapeAllAppend(a: seq<byte>, b: seq<byte>)
    ensures EscapeAll(a + b) == EscapeAll(a) + EscapeAll(b)
  {
    if a == [] {
      assert a + b == b;
    } else {
      assert (a + b)[0] == a[0];
      assert (a + b)[1..] == a[1..] + b;
      EscapeAllAppend(a[1..], b);
    }
  }

  /** Unstuffing undoes stuffing, byte for byte. */
  lemma {:induction false} UnescapeEscapeAll(s: seq<byte>)
    ensures Unescape(EscapeAll(s)) == Some(s)
  {
    if s != [] {
      UnescapeEscapeAll(s[1..]);
      var e := EscapeAll(s);
      var b := s[0];
      if IsMarker(b) {
        assert e[0] == DLE && e[1] == Flip(b);
        assert e[2..] == EscapeAll(s[1..]);
      } else {
        assert e[0] == b && b != DLE;
        assert e[1..] == EscapeAll(s[1..]);
      }
      assert [b] + s[1..] == s;
    }
  }

  // ---------------------------------------------------------------------------
  // Little-endian integer fields (ByteUtil.PutShort / PutInt / PutLong and
  // ByteConverter.IntToByte write the two's-complement bytes, low byte first).

  function Pow256(n: nat): (r: nat)
    ensures r > 0
  {
    if n == 0 then 1 else 256 * Pow256(n - 1)
  }

  /** The n low bytes of v, low byte first; a negative v gives its two's complement. */
  function LE(v: int, n: nat): (r: seq<byte>)
    ensures |r| == n
    decreases n
  {
    if n == 0 then [] else [(v % 256) as byte] + LE(v / 256, n - 1)
  }

  /** The unsigned value of a little-endian byte run. */
  function FromLE(s: seq<byte>): nat
  {
    if s == [] then 0 else s[0] as int + 256 * FromLE(s[1..])
  }

  lemma DivModUnique(v: int, m: int, k: int, t: int)
    requires m > 0 && 0 <= t < m && v == m * k + t
    ensures v / m == k && v % m == t
  {
    var q, r := v / m, v % m;
    assert v == m * q + r;
    assert m * (k - q) == r - t;
    if k != q {
      MulAtLeast(m, k - q);
    }
  }

  lemma MulAtLeast(m: int, d: int)
    requires m > 0 && d != 0
    ensures m * d >= m || m * d <= -m
  {
    if d > 0 {
      MulPositive(m, d);
    } else {
      MulPositive(m, -d);
      assert m * d == -(m * -d);
    }
  }

  lemma {:induction false} MulPositive(m: int, d: int)
    requires m > 0 && d >= 1
    ensures m * d >= m
    decreases d
  {
    if d > 1 {
      MulPositive(m, d - 1);
      assert m * d == m * (d - 1) + m;
    }
  }

  lemma ModSplit(v: int, a: int, b: int)
    requires a > 0 && b > 0
    ensures v % (a * b) == v % a + a * ((v / a) % b)
  {
    var q, r := v / a, v % a;
    var q2, r2 := q / b, q % b;
    assert v == a * q + r;
    assert q == b * q2 + r2;
    Distrib(a, b * q2, r2);
    MulAssoc(a, b, q2);
    assert v == (a * b) * q2 + (a * r2 + r);
    Distrib(a, r2, b - 1 - r2);
    assert a * (b - 1 - r2) >= 0 by {
      if b - 1 - r2 > 0 {
        MulPositive(a, b - 1 - r2);
      }
    }
    Distrib(a, b - 1, 1);
    MulPositive(a, b);
    DivModUnique(v, a * b, q2, a * r2 + r);
  }

  lemma Distrib(a: int, x: int, y: int)
    ensures a * (x + y) == a * x + a * y
  {
  }

  lemma MulAssoc(a: int, b: int, c: int)
    ensures a * (b * c) == (a * b) * c
  {
  }

  lemma {:induction false} FromLEOfLE(v: int, n: nat)
    ensures FromLE(LE(v, n)) == v % Pow256(n)
    decreases n
  {
    if n > 0 {
      var e := LE(v, n);
      FromLEOfLE(v / 256, n - 1);
      ModSplit(v, 256, Pow256(n - 1));
      assert e[1..] == LE(v / 256, n - 1);
      assert e[0] as int == v % 256;
      assert FromLE(e) == e[0] as int + 256 * FromLE(e[1..]);
    }
  }

  /** A zero high byte adds nothing to the value. */
  lemma {:induction false} FromLEZeroTail(s: seq<byte>)
    ensures FromLE(s + [0]) == FromLE(s)
  {
    if s != [] {
      FromLEZeroTail(s[1..]);
      assert (s + [0])[1..] == s[1..] + [0];
    } else {
      assert [0 as byte][1..] == [];
    }
  }

  lemma {:induction false} LEPrefix(v: int, n: nat)
    ensures LE(v, n + 1)[..n] == LE(v, n)
    decreases n
  {
    if n > 0 {
      LEPrefix(v / 256, n - 1);
      assert LE(v, n + 1)[..n] == [(v % 256) as byte] + LE(v / 256, n)[..n - 1];
    }
  }

  // ---------------------------------------------------------------------------
  // Frames.

  /** A frame as the pen reads it: command byte, optional status byte, payload. */
  datatype Frame = Frame(cmd: byte, status: Option<byte>, payload: seq<byte>)

  function StatusBytes(status: Option<byte>): seq<byte>
  {
    if status.Some? then [status.value] else []
  }

  /** Raw STX, then every header and payload byte escaped, then raw ETX. */
  function EncodeFrame(cmd: byte, status: Option<byte>, declared: int, payload: seq<byte>): seq<byte>
  {
    [STX] + EscapeAll([cmd] + StatusBytes(status) + LE(declared, 2) + payload) + [ETX]
  }

  /**
   * Reference decoder: strip the markers, unstuff, split the header and
   * accept only when the 16-bit length field counts the payload bytes.
   */
  function ParseFrame(wire: seq<byte>, hasStatus: bool): Option<Frame>
  {
    if |wire| < 2 || wire[0] != STX || wire[|wire| - 1] != ETX then None
    else match Unescape(wire[1..|wire| - 1])
      case None => None
      case Some(body) =>
        var h := if hasStatus then 4 else 3;
        if |body| < h || FromLE(body[h - 2..h]) != |body| - h then None
        else Some(Frame(body[0], if hasStatus then Some(body[1]) else None, body[h..]))
  }

  /**
   * A frame written with a declared length parses back to its command,
   * status and payload exactly when the declared length, cut to 16 bits,
   * is the number of payload bytes.
   */
  lemma ParseEncodeFrame(cmd: byte, status: Option<byte>, declared: int, payload: seq<byte>)
    ensures ParseFrame(EncodeFrame(cmd, status, declared, payload), status.Some?) ==
            if declared % 0x10000 == |payload| then Some(Frame(cmd, status, payload)) else None
  {
    var body := [cmd] + StatusBytes(status) + LE(declared, 2) + payload;
    var wire := EncodeFrame(cmd, status, declared, payload);
    assert wire[1..|wire| - 1] == EscapeAll(body);
    UnescapeEscapeAll(body);
    var h := if status.Some? then 4 else 3;
    assert body[h - 2..h] == LE(declared, 2);
    FromLEOfLE(declared, 2);
    assert Pow256(2) == 0x10000;
    assert body[h..] == payload;
  }

  /** After stuffing, the frame markers occur only at the two ends of a frame. */
  lemma FrameMarkersOnlyAtEnds(cmd: byte, status: Option<byte>, declared: int, payload: seq<byte>, i: int)
    requires 0 < i < |EncodeFrame(cmd, status, declared, payload)| - 1
    ensures EncodeFrame(cmd, status, declared, payload)[i] != STX
    ensures EncodeFrame(cmd, status, declared, payload)[i] != ETX
  {
    var e := EscapeAll([cmd] + StatusBytes(status) + LE(declared, 2) + payload);
    EscapeAllNoMarkers([cmd] + StatusBytes(status) + LE(declared, 2) + payload);
    assert EncodeFrame(cmd, status, declared, payload)[i] == e[i - 1];
  }

  // ---------------------------------------------------------------------------
  // Paper addresses: GetSectionOwnerByte and its unpacking.

  /** GetSectionOwnerByte: the owner's little-endian int with byte 3 replaced by the section. */
  function SectionOwnerBytes(section: int, owner: int): (r: Quad)
  {
    LE(owner, 4)[..3] + [(section % 256) as byte]
  }

  /** Unpacking used for note lists, offline packets and paper-info events: byte 3. */
  function SectionOf(rb: Quad): int
  {
    rb[3] as int
  }

  /** Unpacking: ByteToInt of bytes 0..2 with a zero high byte. */
  function OwnerOf(rb: Quad): int
  {
    FromLE([rb[0], rb[1], rb[2], 0])
  }

  /** Packing then unpacking keeps the low 8 bits of the section and the low 24 bits of the owner. */
  lemma SectionOwnerRoundTrip(section: int, owner: int)
    ensures SectionOf(SectionOwnerBytes(section, owner)) == section % 256
    ensures OwnerOf(SectionOwnerBytes(section, owner)) == owner % 0x100_0000
  {
    var rb := SectionOwnerBytes(section, owner);
    var low := LE(owner, 3);
    LEPrefix(owner, 3);
    assert rb[..3] == low;
    var three := [rb[0], rb[1], rb[2]];
    assert three == low;
    FromLEZeroTail(three);
    assert three + [0] == [rb[0], rb[1], rb[2], 0];
    FromLEOfLE(owner, 3);
    assert Pow256(3) == 0x100_0000 by {
      assert Pow256(1) == 256;
      assert Pow256(2) == 0x10000;
    }
  }
}
