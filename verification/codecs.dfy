/** The byte codecs below the messages: big-endian frame numbers and base64url without padding. */
module Codecs {
  import opened Text
  import opened Wire

  type Byte = b: int | 0 <= b < 256
  type Bytes = seq<Byte>

  // ---- frames ---------------------------------------------------------------------------------

  const FRAME_IDS: nat := 0x1_0000_0000_0000_0000

  function BigEndian(n: nat, width: nat): (r: Bytes)
    ensures |r| == width
  {
    if width == 0 then [] else BigEndian(n / 256, width - 1) + [n % 256]
  }

  function ValueOf(bytes: Bytes): nat {
    if bytes == [] then 0 else 256 * ValueOf(bytes[..|bytes| - 1]) + bytes[|bytes| - 1]
  }

  function Pow256(width: nat): (p: nat)
    ensures p > 0
  {
    if width == 0 then 1 else 256 * Pow256(width - 1)
  }

  /** A frame is its request number in eight bytes, then the payload; a number that does not fit is an error. */
  function FrameOf(id: nat, payload: Bytes): Option<Bytes> {
    if id < FRAME_IDS then Some(BigEndian(id, 8) + payload) else None
  }

  function Unframe(message: Bytes): Option<(nat, Bytes)> {
    if |message| < 8 then None else Some((ValueOf(message[..8]), message[8..]))
  }

  lemma {:induction false} BigEndianRoundTrip(n: nat, width: nat)
    requires n < Pow256(width)
    ensures ValueOf(BigEndian(n, width)) == n
  {
    if width > 0 {
      BigEndianRoundTrip(n / 256, width - 1);
      var r := BigEndian(n, width);
      assert r[..|r| - 1] == BigEndian(n / 256, width - 1);
    }
  }

  lemma {:induction false} ValueRoundTrip(bytes: Bytes)
    ensures ValueOf(bytes) < Pow256(|bytes|) && BigEndian(ValueOf(bytes), |bytes|) == bytes
  {
    if bytes != [] {
      var front, last := bytes[..|bytes| - 1], bytes[|bytes| - 1];
      ValueRoundTrip(front);
      assert ValueOf(bytes) / 256 == ValueOf(front) && ValueOf(bytes) % 256 == last;
      assert bytes == front + [last];
    }
  }

  /** The most significant byte comes first. */
  lemma {:induction false} EightBytesAreANumber(bytes: Bytes)
    requires |bytes| == 8
    ensures ValueOf(bytes) == bytes[0] as int * 0x100_0000_0000_0000 + bytes[1] as int * 0x1_0000_0000_0000
                              + bytes[2] as int * 0x100_0000_0000 + bytes[3] as int * 0x1_0000_0000
                              + bytes[4] as int * 0x100_0000 + bytes[5] as int * 0x1_0000
                              + bytes[6] as int * 0x100 + bytes[7] as int
  {
    PrefixValue(bytes, 8);
    assert bytes[..8] == bytes;
    PrefixValue(bytes, 7);
    PrefixValue(bytes, 6);
    PrefixValue(bytes, 5);
    PrefixValue(bytes, 4);
    PrefixValue(bytes, 3);
    PrefixValue(bytes, 2);
    PrefixValue(bytes, 1);
    assert ValueOf(bytes[..0]) == 0;
    hide ValueOf;
  }

  lemma {:induction false} PrefixValue(bytes: Bytes, n: nat)
    requires 0 < n <= |bytes|
    ensures ValueOf(bytes[..n]) == 256 * ValueOf(bytes[..n - 1]) + bytes[n - 1] as int
  {
    assert bytes[..n][..n - 1] == bytes[..n - 1];
  }

  lemma {:induction false} EightBytes()
    ensures Pow256(8) == FRAME_IDS
  {
    assert Pow256(4) == 0x1_0000_0000;
    assert Pow256(6) == 0x1_0000_0000_0000;
  }

  /** Every request number below 2^64 and every payload come back from their frame; and every message of at least eight
      bytes is the frame of what is read from it. */
  lemma {:induction false} FrameRoundTrip(id: nat, payload: Bytes, message: Bytes)
    ensures id < FRAME_IDS ==> FrameOf(id, payload).Some? && Unframe(FrameOf(id, payload).value) == Some((id, payload))
    ensures Unframe(message).Some? <==> |message| >= 8
    ensures Unframe(message).Some? ==> FrameOf(Unframe(message).value.0, Unframe(message).value.1) == Some(message)
  {
    EightBytes();
    if id < FRAME_IDS {
      BigEndianRoundTrip(id, 8);
      assert (BigEndian(id, 8) + payload)[..8] == BigEndian(id, 8);
      assert (BigEndian(id, 8) + payload)[8..] == payload;
    }
    if |message| >= 8 {
      ValueRoundTrip(message[..8]);
      assert message[..8] + message[8..] == message;
    }
  }

  // ---- base64url ------------------------------------------------------------------------------

  type Sextet = n: int | 0 <= n < 64

  function CharOf(n: Sextet): char {
    if n < 26 then (n + 'A' as int) as char
    else if n < 52 then (n - 26 + 'a' as int) as char
    else if n < 62 then (n - 52 + '0' as int) as char
    else if n == 62 then '-' else '_'
  }

  function SextetOf(c: char): Option<Sextet> {
    if 'A' <= c <= 'Z' then Some(c as int - 'A' as int)
    else if 'a' <= c <= 'z' then Some(c as int - 'a' as int + 26)
    else if '0' <= c <= '9' then Some(c as int - '0' as int + 52)
    else if c == '-' then Some(62)
    else if c == '_' then Some(63)
    else None
  }

  lemma {:induction false} CharsRoundTrip(n: Sextet, c: char)
    ensures SextetOf(CharOf(n)) == Some(n)
    ensures SextetOf(c).Some? ==> CharOf(SextetOf(c).value) == c
  {
  }

  /** The alphabet of section 5 of RFC 4648: A to Z, a to z, 0 to 9, minus and underline, each run without a break. */
  lemma {:induction false} LettersAreThePublished(n: Sextet)
    ensures CharOf(0) == 'A' && CharOf(25) == 'Z' && CharOf(26) == 'a' && CharOf(51) == 'z'
    ensures CharOf(52) == '0' && CharOf(61) == '9' && CharOf(62) == '-' && CharOf(63) == '_'
    ensures n < 61 && n != 25 && n != 51 ==> CharOf(n + 1) as int == CharOf(n) as int + 1
  {
  }

  predicate InAlphabet(text: string) {
    forall i :: 0 <= i < |text| ==> SextetOf(text[i]).Some?
  }

  function Letters(sextets: seq<Sextet>): (text: string)
    ensures |text| == |sextets|
    ensures forall i :: 0 <= i < |text| ==> text[i] == CharOf(sextets[i])
  {
    seq(|sextets|, i requires 0 <= i < |sextets| => CharOf(sextets[i]))
  }

  function Sextets(text: string): (sextets: seq<Sextet>)
    requires InAlphabet(text)
    ensures |sextets| == |text|
    ensures forall i :: 0 <= i < |text| ==> sextets[i] == SextetOf(text[i]).value
  {
    seq(|text|, i requires 0 <= i < |text| => SextetOf(text[i]).value)
  }

  function Top(x: Byte): Sextet { x / 4 }

  function Second(x: Byte, y: Byte): Sextet { x % 4 * 16 + y / 16 }

  function Third(y: Byte, z: Byte): Sextet { y % 16 * 4 + z / 64 }

  function Bottom(z: Byte): Sextet { z % 64 }

  function FirstByte(a: int, b: int): Byte
    requires 0 <= a < 64 && 0 <= b < 64
  {
    a * 4 + b / 16
  }

  function SecondByte(b: int, c: int): Byte
    requires 0 <= b < 64 && 0 <= c < 64
  {
    b % 16 * 16 + c / 4
  }

  function ThirdByte(c: int, d: int): Byte
    requires 0 <= c < 64 && 0 <= d < 64
  {
    c % 4 * 64 + d
  }

  /** Three bytes as four sextets; a last group of one or two bytes as two or three. */
  function Unpack(data: Bytes): seq<Sextet> {
    if |data| == 0 then []
    else if |data| == 1 then [Top(data[0]), Second(data[0], 0)]
    else if |data| == 2 then [Top(data[0]), Second(data[0], data[1]), Third(data[1], 0)]
    else [Top(data[0]), Second(data[0], data[1]), Third(data[1], data[2]), Bottom(data[2])] + Unpack(data[3..])
  }

  function Encode(data: Bytes): string {
    Letters(Unpack(data))
  }

  /** Sextets padded to whole groups, back to bytes; a single sextet left over is an error. */
  function Pack(s: seq<Sextet>): Option<Bytes> {
    if |s| == 0 then Some([])
    else if |s| == 1 then None
    else if |s| == 2 then Some([FirstByte(s[0], s[1])])
    else if |s| == 3 then Some([FirstByte(s[0], s[1]), SecondByte(s[1], s[2])])
    else
      var rest := Pack(s[4..]);
      if rest.None? then None
      else Some([FirstByte(s[0], s[1]), SecondByte(s[1], s[2]), ThirdByte(s[2], s[3])] + rest.value)
  }

  function Decode(text: string): Option<Bytes>
    requires InAlphabet(text)
  {
    Pack(Sextets(text))
  }

  /** A group of three bytes and its four sextets are one number, the most significant digit first; a short group is
      filled up with zero bits. */
  lemma {:induction false} GroupsAreNumbers(x: Byte, y: Byte, z: Byte)
    ensures var s := Unpack([x, y, z]);
            |s| == 4 && s[0] as int * 0x40000 + s[1] as int * 0x1000 + s[2] as int * 0x40 + s[3] as int
                     == x as int * 0x10000 + y as int * 0x100 + z as int
    ensures var s := Unpack([x, y]);
            |s| == 3 && s[0] as int * 0x1000 + s[1] as int * 0x40 + s[2] as int == (x as int * 0x100 + y as int) * 4
    ensures var s := Unpack([x]); |s| == 2 && s[0] as int * 0x40 + s[1] as int == x as int * 16
  {
    assert [x, y, z][3..] == [];
  }

  /** And a longer text is its groups one after the other. */
  lemma {:induction false} GroupsFollow(x: Byte, y: Byte, z: Byte, rest: Bytes)
    ensures Encode([x, y, z] + rest) == Encode([x, y, z]) + Encode(rest)
  {
    var data := [x, y, z] + rest;
    assert data[3..] == rest && [x, y, z][3..] == [];
    assert Unpack(data) == Unpack([x, y, z]) + Unpack(rest);
  }

  lemma {:induction false} BytesBack(x: Byte, y: Byte, z: Byte)
    ensures FirstByte(Top(x), Second(x, y)) == x
    ensures SecondByte(Second(x, y), Third(y, z)) == y
    ensures ThirdByte(Third(y, z), Bottom(z)) == z
  {
  }

  lemma {:induction false} SextetsBack(a: Sextet, b: Sextet, c: Sextet, d: Sextet)
    ensures Top(FirstByte(a, b)) == a
    ensures Second(FirstByte(a, b), SecondByte(b, c)) == b
    ensures Third(SecondByte(b, c), ThirdByte(c, d)) == c
    ensures Bottom(ThirdByte(c, d)) == d
  {
  }

  lemma {:induction false} LowBits(a: int, q: int)
    ensures 0 <= q < 4 ==> (a * 4 + q) % 4 == q
    ensures 0 <= q < 16 ==> (a * 16 + q) % 16 == q
  {
  }

  /** The last sextet of a short group comes back exactly when it says nothing beyond its bytes. */
  lemma {:induction false} SecondBack(a: Sextet, b: Sextet)
    ensures Second(FirstByte(a, b), 0) == b <==> b % 16 == 0
  {
    var q := b / 16;
    LowBits(a, q);
    assert FirstByte(a, b) == a * 4 + q;
    assert Second(a * 4 + q, 0) == q * 16;
  }

  lemma {:induction false} ThirdBack(b: Sextet, c: Sextet)
    ensures Third(SecondByte(b, c), 0) == c <==> c % 4 == 0
  {
    var q := c / 4;
    LowBits(b % 16, q);
    assert SecondByte(b, c) == b % 16 * 16 + q;
    assert Third(b % 16 * 16 + q, 0) == q * 4;
  }

  lemma {:induction false} GroupForth(x: Byte, y: Byte, z: Byte, rest: seq<Sextet>, tail: Bytes)
    requires Pack(rest) == Some(tail)
    ensures Pack([Top(x), Second(x, y), Third(y, z), Bottom(z)] + rest) == Some([x, y, z] + tail)
  {
    var s := [Top(x), Second(x, y), Third(y, z), Bottom(z)] + rest;
    assert s[4..] == rest;
    BytesBack(x, y, z);
  }

  lemma {:induction false} PairForth(a: Sextet, b: Sextet, x: Byte)
    requires FirstByte(a, b) == x
    ensures Pack([a, b]) == Some([x])
  {
  }

  lemma {:induction false} TripleForth(a: Sextet, b: Sextet, c: Sextet, x: Byte, y: Byte)
    requires FirstByte(a, b) == x && SecondByte(b, c) == y
    ensures Pack([a, b, c]) == Some([x, y])
  {
  }

  lemma {:induction false} OneForth(x: Byte)
    ensures Pack(Unpack([x])) == Some([x])
  {
    BytesBack(x, 0, 0);
    PairForth(Top(x), Second(x, 0), x);
  }

  lemma {:induction false} TwoForth(x: Byte, y: Byte)
    ensures Pack(Unpack([x, y])) == Some([x, y])
  {
    BytesBack(x, y, 0);
    TripleForth(Top(x), Second(x, y), Third(y, 0), x, y);
  }

  lemma {:induction false} ShortForth(data: Bytes)
    requires |data| < 3
    ensures Pack(Unpack(data)) == Some(data)
  {
    if |data| == 1 {
      OneForth(data[0]);
      assert data == [data[0]];
    } else if |data| == 2 {
      TwoForth(data[0], data[1]);
      assert data == [data[0], data[1]];
    }
  }

  lemma {:induction false} UnpackRoundTrip(data: Bytes)
    ensures Pack(Unpack(data)) == Some(data)
  {
    if |data| < 3 {
      ShortForth(data);
    } else {
      UnpackRoundTrip(data[3..]);
      GroupForth(data[0], data[1], data[2], Unpack(data[3..]), data[3..]);
      assert data == [data[0], data[1], data[2]] + data[3..];
    }
  }

  /** The bits of the last sextet that no byte uses are zero. */
  predicate Canonical(s: seq<Sextet>) {
    && (|s| % 4 == 2 ==> s[|s| - 1] % 16 == 0)
    && (|s| % 4 == 3 ==> s[|s| - 1] % 4 == 0)
  }

  predicate PacksBack(s: seq<Sextet>) {
    && (Pack(s).Some? <==> |s| % 4 != 1)
    && (Pack(s).Some? ==> |Unpack(Pack(s).value)| == |s| && (Unpack(Pack(s).value) == s <==> Canonical(s)))
  }

  lemma {:induction false} ShortPacksBack(s: seq<Sextet>)
    requires |s| < 4
    ensures PacksBack(s)
  {
    if |s| == 2 {
      SextetsBack(s[0], s[1], 0, 0);
      SecondBack(s[0], s[1]);
    } else if |s| == 3 {
      SextetsBack(s[0], s[1], s[2], 0);
      ThirdBack(s[1], s[2]);
    }
  }

  lemma {:induction false} GroupBack(s: seq<Sextet>)
    requires |s| >= 4 && Pack(s[4..]).Some?
    ensures Unpack(Pack(s).value) == s[..4] + Unpack(Pack(s[4..]).value)
  {
    var data, rest := Pack(s).value, Pack(s[4..]).value;
    assert data[3..] == rest;
    SextetsBack(s[0], s[1], s[2], s[3]);
  }

  lemma {:induction false} SameCanonical(s: seq<Sextet>)
    requires |s| >= 4
    ensures |s| % 4 == |s[4..]| % 4 && (Canonical(s) <==> Canonical(s[4..]))
  {
    assert |s[4..]| == |s| - 4;
  }

  lemma {:induction false} PackRoundTrip(s: seq<Sextet>)
    ensures PacksBack(s)
  {
    if |s| < 4 {
      ShortPacksBack(s);
    } else {
      var rest := s[4..];
      PackRoundTrip(rest);
      SameCanonical(s);
      hide FirstByte, SecondByte, ThirdByte, Top, Second, Third, Bottom, Canonical;
      if Pack(s).Some? {
        var back := Unpack(Pack(rest).value);
        GroupBack(s);
        assert (s[..4] + back)[4..] == back;
        assert s == s[..4] + rest;
      }
    }
  }

  /** Bytes survive their text, whatever they are, and the text holds neither a dot nor whitespace. */
  lemma {:induction false} Base64RoundTrip(data: Bytes)
    ensures InAlphabet(Encode(data)) && Decode(Encode(data)) == Some(data)
  {
    var s, text := Unpack(data), Encode(data);
    forall i | 0 <= i < |text| ensures SextetOf(text[i]) == Some(s[i]) {
      CharsRoundTrip(s[i], text[i]);
    }
    assert Sextets(text) == s;
    UnpackRoundTrip(data);
  }

  /** A text over the alphabet decodes unless its length is one more than a multiple of four, and is printed back
      exactly when the bits no byte uses are zero. */
  lemma {:induction false} Base64Canonical(text: string)
    requires InAlphabet(text)
    ensures Decode(text).Some? <==> |text| % 4 != 1
    ensures Decode(text).Some? ==> (Encode(Decode(text).value) == text <==> Canonical(Sextets(text)))
  {
    var s := Sextets(text);
    PackRoundTrip(s);
    if Decode(text).Some? {
      var back := Unpack(Decode(text).value);
      forall i | 0 <= i < |text| ensures CharOf(back[i]) == text[i] <==> back[i] == s[i] {
        CharsRoundTrip(back[i], text[i]);
      }
      assert Letters(back) == text <==> back == s;
    }
  }
}
