/** Runtime identity from the chip's factory words: the 16-byte seed, the rotating id and the serial number. */
module Identity {
  import opened Base

  type Byte = x: int | 0 <= x < 0x100

  /** The factory registers read: two device id words and two device address words. */
  datatype Ficr = Ficr(id0: Word, id1: Word, addr0: Word, addr1: Word)

  // ----- Little-endian words -----

  /** `sys_put_le32`: least significant byte first. */
  function Le32(w: Word): seq<Byte> {
    [w % 0x100, w / 0x100 % 0x100, w / 0x1_0000 % 0x100, w / 0x100_0000]
  }

  function FromLe32(b: seq<Byte>): int
    requires |b| == 4
  {
    var b0: int, b1: int, b2: int, b3: int := b[0], b[1], b[2], b[3];
    b0 + 0x100 * b1 + 0x1_0000 * b2 + 0x100_0000 * b3
  }

  lemma Le32RoundTrip(w: Word)
    ensures FromLe32(Le32(w)) == w
  {
    var q1 := w / 0x100;
    var q2 := q1 / 0x100;
    var q3 := q2 / 0x100;
    assert w == 0x100 * q1 + w % 0x100;
    assert w / 0x1_0000 == q2 && w / 0x100_0000 == q3;
  }

  function Seed(f: Ficr): seq<Byte> {
    Le32(f.id0) + Le32(f.id1) + Le32(f.addr0) + Le32(f.addr1)
  }

  /** Reads the four words back out of a seed. */
  function SeedWord(seed: seq<Byte>, i: nat): int
    requires |seed| == 16 && i < 4
  {
    FromLe32(seed[4 * i..4 * i + 4])
  }

  /** The seed keeps all 128 bits. */
  lemma SeedRoundTrip(f: Ficr)
    ensures SeedWord(Seed(f), 0) == f.id0 && SeedWord(Seed(f), 1) == f.id1
    ensures SeedWord(Seed(f), 2) == f.addr0 && SeedWord(Seed(f), 3) == f.addr1
  {
    var s := Seed(f);
    assert s[0..4] == Le32(f.id0) && s[4..8] == Le32(f.id1);
    assert s[8..12] == Le32(f.addr0) && s[12..16] == Le32(f.addr1);
    Le32RoundTrip(f.id0);
    Le32RoundTrip(f.id1);
    Le32RoundTrip(f.addr0);
    Le32RoundTrip(f.addr1);
  }

  method PutLe32(w: Word, dst: array<Byte>, at: nat)
    requires at + 4 <= dst.Length
    modifies dst
    ensures dst[at..at + 4] == Le32(w)
    ensures forall i | 0 <= i < dst.Length && !(at <= i < at + 4) :: dst[i] == old(dst[i])
  {
    dst[at] := w % 0x100;
    dst[at + 1] := w / 0x100 % 0x100;
    dst[at + 2] := w / 0x1_0000 % 0x100;
    dst[at + 3] := w / 0x100_0000;
  }

  method GetHardwareIdentitySeed(f: Ficr, seed: array<Byte>)
    requires seed.Length >= 16
    modifies seed
    ensures seed[..16] == Seed(f)
    ensures seed[16..] == old(seed[16..])
  {
    PutLe32(f.id0, seed, 0);
    PutLe32(f.id1, seed, 4);
    assert seed[0..4] == Le32(f.id0);
    PutLe32(f.addr0, seed, 8);
    assert seed[0..4] == Le32(f.id0) && seed[4..8] == Le32(f.id1);
    PutLe32(f.addr1, seed, 12);
    assert seed[0..4] == Le32(f.id0) && seed[4..8] == Le32(f.id1) && seed[8..12] == Le32(f.addr0);
    assert seed[..16] == seed[0..4] + seed[4..8] + seed[8..12] + seed[12..16];
  }

  datatype Status = NoError | BufferTooSmall | HashFailed

  /** A `MutableByteSpan`: a caller's buffer and the size in use, which can only shrink. */
  class ByteSpan {
    const data: array<Byte>
    var size: nat

    constructor (data: array<Byte>)
      ensures this.data == data && size == data.Length
    {
      this.data := data;
      size := data.Length;
    }
  }

  /**
   * The first half of the seed's digest, in place. The digest of a seed, None when hashing fails, is a
   * parameter because the hash itself is not modelled.
   */
  method GetRuntimeRotatingIdUniqueId(f: Ficr, hash: seq<Byte> -> Option<seq<Byte>>, span: ByteSpan)
      returns (status: Status)
    requires span.size <= span.data.Length
    requires hash(Seed(f)).Some? ==> |hash(Seed(f)).value| == 32
    modifies span, span.data
    ensures status == if old(span.size) < 16 then BufferTooSmall
                      else if hash(Seed(f)).None? then HashFailed else NoError
    ensures status == NoError ==>
              && span.size == 16
              && span.data[..] == hash(Seed(f)).value[..16] + old(span.data[16..])
    ensures status != NoError ==> span.size == old(span.size) && span.data[..] == old(span.data[..])
  {
    if span.size < 16 {
      return BufferTooSmall;
    }
    var seed := new Byte[16](_ => 0);
    GetHardwareIdentitySeed(f, seed);
    assert seed[..] == Seed(f);
    var digest := hash(seed[..]);
    if digest.None? {
      return HashFailed;
    }
    ghost var tail := span.data[16..];
    var i := 0;
    while i < 16
      invariant 0 <= i <= 16
      invariant span.size == old(span.size)
      invariant span.data[..i] == digest.value[..i]
      invariant span.data[16..] == tail
    {
      span.data[i] := digest.value[i];
      i := i + 1;
    }
    span.size := 16;
    assert span.data[..] == span.data[..16] + span.data[16..];
    return NoError;
  }

  // ----- The serial number -----

  const HEX := "0123456789ABCDEF"

  function HexDigit(d: int): char
    requires 0 <= d < 16
  {
    HEX[d]
  }

  /** `%0*lX` for a value that fits: exactly n upper-case digits. */
  function Hex(w: nat, n: nat): string {
    if n == 0 then "" else Hex(w / 16, n - 1) + [HexDigit(w % 16)]
  }

  /** Reads one upper-case hexadecimal digit back. */
  function DigitValue(c: char): int {
    if '0' <= c <= '9' then c as int - '0' as int else c as int - 'A' as int + 10
  }

  function HexValue(s: string): int {
    if s == "" then 0 else HexValue(s[..|s| - 1]) * 16 + DigitValue(s[|s| - 1])
  }

  function Pow16(n: nat): nat {
    if n == 0 then 1 else 16 * Pow16(n - 1)
  }

  lemma {:induction false} HexRoundTrip(w: nat, n: nat)
    requires w < Pow16(n)
    ensures |Hex(w, n)| == n && HexValue(Hex(w, n)) == w
  {
    if n > 0 {
      HexRoundTrip(w / 16, n - 1);
      assert Hex(w, n)[..|Hex(w, n)| - 1] == Hex(w / 16, n - 1);
      DigitRoundTrip(w % 16);
    }
  }

  lemma DigitRoundTrip(d: int)
    requires 0 <= d < 16
    ensures DigitValue(HexDigit(d)) == d
  {
    assert forall i | 0 <= i < 10 :: HEX[i] == '0' + i as char;
    assert forall i | 10 <= i < 16 :: HEX[i] == 'A' + (i - 10) as char;
  }

  const PREFIX := "TINYENV-NRF-"

  /** High device id word first. */
  function Serial(f: Ficr): string {
    PREFIX + Hex(f.id1, 8) + Hex(f.id0, 8)
  }

  /** The serial is always 28 characters and gives both device id words back. */
  lemma SerialRoundTrip(f: Ficr)
    ensures |Serial(f)| == 28 && Serial(f)[..12] == "TINYENV-NRF-"
    ensures HexValue(Serial(f)[12..20]) == f.id1
    ensures HexValue(Serial(f)[20..]) == f.id0
  {
    assert Pow16(8) == 0x1_0000_0000 by {
      assert Pow16(2) == 0x100;
      assert Pow16(4) == 0x1_0000;
      assert Pow16(6) == 0x100_0000;
    }
    HexRoundTrip(f.id1, 8);
    HexRoundTrip(f.id0, 8);
    assert Serial(f)[12..20] == Hex(f.id1, 8) && Serial(f)[20..] == Hex(f.id0, 8);
  }

  /** So two chips share a serial number iff they share the device id. */
  lemma SerialInjective(f: Ficr, g: Ficr)
    ensures Serial(f) == Serial(g) <==> f.id0 == g.id0 && f.id1 == g.id1
  {
    SerialRoundTrip(f);
    SerialRoundTrip(g);
  }

  /** `snprintf`: what fits, always terminated unless the size is zero; returns the untruncated length. */
  method Snprintf(buf: array<char>, bufSize: nat, text: string) returns (written: int)
    requires bufSize <= buf.Length
    modifies buf
    ensures written == |text|
    ensures var fit := if bufSize == 0 then 0 else if |text| < bufSize then |text| else bufSize - 1;
            var printed := if bufSize == 0 then [] else text[..fit] + ['\0'];
            buf[..] == printed + old(buf[|printed|..])
  {
    if bufSize > 0 {
      var fit := if |text| < bufSize then |text| else bufSize - 1;
      var i := 0;
      while i < fit
        invariant 0 <= i <= fit
        invariant buf[..i] == text[..i]
        invariant buf[fit..] == old(buf[fit..])
      {
        buf[i] := text[i];
        i := i + 1;
      }
      buf[fit] := '\0';
      assert old(buf[fit..])[1..] == old(buf[fit + 1..]);
      assert buf[fit + 1..] == old(buf[fit + 1..]);
      assert buf[..] == buf[..fit] + [buf[fit]] + buf[fit + 1..];
    }
    return |text|;
  }

  /** Succeeds exactly when the buffer holds the text and its terminator, 29 characters. */
  method TinyEnvGetRuntimeSerialNumber(f: Ficr, buf: array<char>, bufSize: nat) returns (status: Status)
    requires bufSize <= buf.Length
    modifies buf
    ensures status == if bufSize >= 29 then NoError else BufferTooSmall
    ensures status == NoError ==> buf[..29] == Serial(f) + ['\0'] && buf[29..] == old(buf[29..])
    ensures buf[bufSize..] == old(buf[bufSize..])
  {
    SerialRoundTrip(f);
    var written := Snprintf(buf, bufSize, Serial(f));
    ghost var now := buf[..];
    if bufSize > 0 {
      var fit := if 28 < bufSize then 28 else bufSize - 1;
      assert now[fit + 1..] == old(buf[fit + 1..]);
      assert now[bufSize..] == now[fit + 1..][bufSize - fit - 1..];
      assert old(buf[bufSize..]) == old(buf[fit + 1..])[bufSize - fit - 1..];
      if bufSize >= 29 {
        assert Serial(f)[..28] == Serial(f);
        assert now[..29] == Serial(f) + ['\0'];
      }
    }
    if written >= bufSize {
      return BufferTooSmall;
    }
    return NoError;
  }
}
