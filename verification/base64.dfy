/**
 * The base64 alphabet and codec of section 4 of RFC 4648, used to decode
 * the certificate and key material stored in a Talos configuration.
 *
 * Decoding is strict about shape: the input is a whole number of four-character
 * quanta, every character is from the alphabet, and `=` padding appears only at
 * the end of the last quantum (one or two of them). The unused bits of a padded
 * final quantum are ignored rather than checked (section 3.5 leaves this to the
 * decoder).
 */
module Base64 {
  import opened Wrappers

  type byte = b: int | 0 <= b < 256
  type sextet = n: int | 0 <= n < 64

  const Pad: char := '='

  /** The 64 characters of the base64 alphabet (Table 1 of RFC 4648). */
  predicate IsDataChar(c: char) {
    ('A' <= c <= 'Z') || ('a' <= c <= 'z') || ('0' <= c <= '9') || c == '+' || c == '/'
  }

  /** The character that encodes the value `n`. */
  function CharOf(n: sextet): (c: char)
    ensures IsDataChar(c)
  {
    if n < 26 then ('A' as int + n) as char
    else if n < 52 then ('a' as int + (n - 26)) as char
    else if n < 62 then ('0' as int + (n - 52)) as char
    else if n == 62 then '+'
    else '/'
  }

  /** The value encoded by an alphabet character; the inverse of `CharOf`. */
  function SextetOf(c: char): (n: sextet)
    requires IsDataChar(c)
  {
    if 'A' <= c <= 'Z' then c as int - 'A' as int
    else if 'a' <= c <= 'z' then c as int - 'a' as int + 26
    else if '0' <= c <= '9' then c as int - '0' as int + 52
    else if c == '+' then 62
    else 63
  }

  lemma SextetOfCharOf(n: sextet)
    ensures SextetOf(CharOf(n)) == n
  {
  }

  // ---------------------------------------------------------------- encoding

  /** Four characters for three bytes: 24 bits read as four 6-bit groups, most significant first. */
  function EncodeBlock(b0: byte, b1: byte, b2: byte): string {
    [CharOf(b0 / 4), CharOf((b0 % 4) * 16 + b1 / 16), CharOf((b1 % 16) * 4 + b2 / 64), CharOf(b2 % 64)]
  }

  /** The padded encoding of `b`: a final group of one or two bytes is zero-filled and padded with `=`. */
  function Encode(b: seq<byte>): (s: string)
    ensures |s| % 4 == 0
    ensures forall i :: 0 <= i < |s| ==> IsDataChar(s[i]) || s[i] == Pad
    decreases |b|
  {
    if |b| == 0 then []
    else if |b| == 1 then [CharOf(b[0] / 4), CharOf((b[0] % 4) * 16), Pad, Pad]
    else if |b| == 2 then [CharOf(b[0] / 4), CharOf((b[0] % 4) * 16 + b[1] / 16), CharOf((b[1] % 16) * 4), Pad]
    else EncodeBlock(b[0], b[1], b[2]) + Encode(b[3..])
  }

  // ---------------------------------------------------------------- decoding

  /**
   * The ways decoding fails: a length that no padding can repair, a character
   * outside the alphabet or misplaced padding, and a run of data characters
   * one longer than a multiple of four (which no encoding produces).
   */
  datatype Failure = IncorrectPadding | InvalidCharacter | ExcessDataCharacter(count: nat)

  /** Every character of `s` is from the alphabet; there is no padding. */
  predicate AllData(s: string) {
    forall i :: 0 <= i < |s| ==> IsDataChar(s[i])
  }

  /** The decimal digits of `n`, as `%zd` prints it. */
  function Decimal(n: nat): (s: string)
    ensures |s| > 0
    ensures forall i :: 0 <= i < |s| ==> '0' <= s[i] <= '9'
  {
    if n < 10 then [('0' as int + n) as char] else Decimal(n / 10) + [('0' as int + n % 10) as char]
  }

  /** What the decoder reports for each kind of malformed input. */
  function FailureMessage(f: Failure): string {
    match f
    case IncorrectPadding => "Incorrect padding"
    case InvalidCharacter => "Only base64 data is allowed"
    case ExcessDataCharacter(n) => ExcessBefore + Decimal(n) + ExcessAfter
  }

  const ExcessBefore := "Invalid base64-encoded string: number of data characters ("
  const ExcessAfter := ") cannot be 1 more than a multiple of 4"

  /** Three bytes from four 6-bit groups. */
  function Bytes3(c0: sextet, c1: sextet, c2: sextet, c3: sextet): seq<byte> {
    [c0 * 4 + c1 / 16, (c1 % 16) * 16 + c2 / 4, (c2 % 4) * 64 + c3]
  }

  /**
   * One quantum of four characters. Every quantum may hold four alphabet
   * characters; only the last one may instead end in `=` (two bytes) or
   * `==` (one byte), and the bits those drop are ignored.
   */
  function DecodeQuad(c0: char, c1: char, c2: char, c3: char, last: bool): (r: Result<seq<byte>, Failure>)
    ensures r.Ok? ==> 1 <= |r.value| <= 3
  {
    if IsDataChar(c0) && IsDataChar(c1) && IsDataChar(c2) && IsDataChar(c3) then
      Ok(Bytes3(SextetOf(c0), SextetOf(c1), SextetOf(c2), SextetOf(c3)))
    else if last && IsDataChar(c0) && IsDataChar(c1) && IsDataChar(c2) && c3 == Pad then
      Ok([SextetOf(c0) * 4 + SextetOf(c1) / 16, (SextetOf(c1) % 16) * 16 + SextetOf(c2) / 4])
    else if last && IsDataChar(c0) && IsDataChar(c1) && c2 == Pad && c3 == Pad then
      Ok([SextetOf(c0) * 4 + SextetOf(c1) / 16])
    else Err(InvalidCharacter)
  }

  /**
   * The accepted shapes of a quantum: two data characters first, padding
   * only in the last quantum, and one byte fewer for each `=`.
   */
  lemma DecodeQuadShape(c0: char, c1: char, c2: char, c3: char, last: bool)
    ensures DecodeQuad(c0, c1, c2, c3, last).Ok? ==> IsDataChar(c0) && IsDataChar(c1)
    ensures DecodeQuad(c0, c1, c2, c3, last).Ok? ==>
      |DecodeQuad(c0, c1, c2, c3, last).value| == (if c2 == Pad then 1 else if c3 == Pad then 2 else 3)
    ensures DecodeQuad(c0, c1, c2, c3, last).Ok? && (c2 == Pad || c3 == Pad) ==> last
  {
  }

  /** Quantum by quantum, front to back; the first malformed quantum decides the failure. */
  function DecodeQuanta(s: string): (r: Result<seq<byte>, Failure>)
    requires |s| % 4 == 0
    ensures r.Ok? ==> (|r.value| == 0 <==> |s| == 0)
    decreases |s|
  {
    if |s| == 0 then Ok([])
    else
      match DecodeQuad(s[0], s[1], s[2], s[3], |s| == 4)
      case Err(f) => Err(f)
      case Ok(head) =>
        match DecodeQuanta(s[4..])
        case Err(f) => Err(f)
        case Ok(rest) => Ok(head + rest)
  }

  /**
   * Decodes `s`. A length that is not a multiple of four fails: with the count
   * of data characters when there is exactly one too many of them, and as a
   * padding error otherwise.
   */
  function Decode(s: string): (r: Result<seq<byte>, Failure>)
    ensures r.Ok? ==> |s| % 4 == 0 && (|r.value| == 0 <==> |s| == 0)
    ensures |s| % 4 == 1 && AllData(s) ==> r == Err(ExcessDataCharacter(|s|))
    ensures |s| % 4 != 0 && !(|s| % 4 == 1 && AllData(s)) ==> r == Err(IncorrectPadding)
  {
    if |s| % 4 != 0 then
      if |s| % 4 == 1 && AllData(s) then Err(ExcessDataCharacter(|s|)) else Err(IncorrectPadding)
    else DecodeQuanta(s)
  }

  // ---------------------------------------------------------------- round trip

  lemma BlockRoundTrip(b0: byte, b1: byte, b2: byte)
    ensures Bytes3(b0 / 4, (b0 % 4) * 16 + b1 / 16, (b1 % 16) * 4 + b2 / 64, b2 % 64) == [b0, b1, b2]
  {
  }

  /** A leading quantum that decodes on its own contributes its bytes ahead of the rest. */
  lemma DecodeQuantaCons(q: string, tail: string, head: seq<byte>, rest: seq<byte>)
    requires |q| == 4 && |tail| % 4 == 0 && |tail| > 0
    requires DecodeQuad(q[0], q[1], q[2], q[3], false) == Ok(head)
    requires DecodeQuanta(tail) == Ok(rest)
    ensures DecodeQuanta(q + tail) == Ok(head + rest)
  {
    var s := q + tail;
    assert s[0] == q[0] && s[1] == q[1] && s[2] == q[2] && s[3] == q[3];
    assert s[4..] == tail;
  }

  /** The last quantum, decoded on its own, is the whole decoding of a four-character string. */
  lemma DecodeQuantaLast(q: string, bytes: seq<byte>)
    requires |q| == 4
    requires DecodeQuad(q[0], q[1], q[2], q[3], true) == Ok(bytes)
    ensures DecodeQuanta(q) == Ok(bytes)
  {
    assert q[4..] == [];
    assert DecodeQuanta(q[4..]) == Ok([]);
    assert bytes + [] == bytes;
  }

  lemma OneByteArithmetic(b0: byte)
    ensures (b0 / 4) * 4 + ((b0 % 4) * 16) / 16 == b0
  {
  }

  lemma TwoBytesArithmetic(b0: byte, b1: byte)
    ensures (b0 / 4) * 4 + ((b0 % 4) * 16 + b1 / 16) / 16 == b0
    ensures (((b0 % 4) * 16 + b1 / 16) % 16) * 16 + ((b1 % 16) * 4) / 4 == b1
  {
  }

  /** A single trailing byte encodes to a quantum ending in `==`, which decodes back to it. */
  lemma DecodeEncodeOne(b0: byte)
    ensures Decode(Encode([b0])) == Ok([b0])
  {
    var s := Encode([b0]);
    assert s == [CharOf(b0 / 4), CharOf((b0 % 4) * 16), Pad, Pad];
    SextetOfCharOf(b0 / 4);
    SextetOfCharOf((b0 % 4) * 16);
    OneByteArithmetic(b0);
    assert DecodeQuad(s[0], s[1], s[2], s[3], true) == Ok([b0]);
    DecodeQuantaLast(s, [b0]);
  }

  /** Two trailing bytes encode to a quantum ending in `=`, which decodes back to them. */
  lemma DecodeEncodeTwo(b0: byte, b1: byte)
    ensures Decode(Encode([b0, b1])) == Ok([b0, b1])
  {
    var s := Encode([b0, b1]);
    assert s == [CharOf(b0 / 4), CharOf((b0 % 4) * 16 + b1 / 16), CharOf((b1 % 16) * 4), Pad];
    SextetOfCharOf(b0 / 4);
    SextetOfCharOf((b0 % 4) * 16 + b1 / 16);
    SextetOfCharOf((b1 % 16) * 4);
    TwoBytesArithmetic(b0, b1);
    assert DecodeQuad(s[0], s[1], s[2], s[3], true) == Ok([b0, b1]);
    DecodeQuantaLast(s, [b0, b1]);
  }

  /** A full block of three bytes encodes to a quantum that decodes back to it, wherever it stands. */
  lemma DecodeEncodeBlock(b0: byte, b1: byte, b2: byte, last: bool)
    ensures var q := EncodeBlock(b0, b1, b2); DecodeQuad(q[0], q[1], q[2], q[3], last) == Ok([b0, b1, b2])
  {
    SextetOfCharOf(b0 / 4);
    SextetOfCharOf((b0 % 4) * 16 + b1 / 16);
    SextetOfCharOf((b1 % 16) * 4 + b2 / 64);
    SextetOfCharOf(b2 % 64);
    BlockRoundTrip(b0, b1, b2);
  }

  lemma SplitThree(b: seq<byte>)
    requires |b| >= 3
    ensures b == [b[0], b[1], b[2]] + b[3..]
  {
    assert b[..3] == [b[0], b[1], b[2]];
    assert b == b[..3] + b[3..];
  }

  /** A final full block decodes back to its three bytes. */
  lemma DecodeEncodeThree(b0: byte, b1: byte, b2: byte)
    ensures Decode(Encode([b0, b1, b2])) == Ok([b0, b1, b2])
  {
    var q := EncodeBlock(b0, b1, b2);
    DecodeEncodeBlock(b0, b1, b2, true);
    assert [b0, b1, b2][3..] == [];
    assert Encode([b0, b1, b2]) == q + [];
    assert q + [] == q;
    DecodeQuantaLast(q, [b0, b1, b2]);
  }

  /** One more leading block keeps the round trip intact. */
  lemma DecodeEncodeStep(b: seq<byte>)
    requires |b| > 3
    requires Decode(Encode(b[3..])) == Ok(b[3..])
    ensures Decode(Encode(b)) == Ok(b)
  {
    var q := EncodeBlock(b[0], b[1], b[2]);
    var tail := Encode(b[3..]);
    DecodeEncodeBlock(b[0], b[1], b[2], false);
    assert Encode(b) == q + tail;
    DecodeQuantaCons(q, tail, [b[0], b[1], b[2]], b[3..]);
    SplitThree(b);
  }

  lemma DecodeEncodeLength1(b: seq<byte>)
    requires |b| == 1
    ensures Decode(Encode(b)) == Ok(b)
  {
    assert b == [b[0]];
    DecodeEncodeOne(b[0]);
  }

  lemma DecodeEncodeLength2(b: seq<byte>)
    requires |b| == 2
    ensures Decode(Encode(b)) == Ok(b)
  {
    assert b == [b[0], b[1]];
    DecodeEncodeTwo(b[0], b[1]);
  }

  lemma DecodeEncodeLength3(b: seq<byte>)
    requires |b| == 3
    ensures Decode(Encode(b)) == Ok(b)
  {
    assert b == [b[0], b[1], b[2]];
    DecodeEncodeThree(b[0], b[1], b[2]);
  }

  /** Decoding inverts encoding on every byte string. */
  lemma {:induction false} DecodeEncode(b: seq<byte>)
    ensures Decode(Encode(b)) == Ok(b)
    decreases |b|
  {
    if |b| == 0 {
    } else if |b| == 1 {
      DecodeEncodeLength1(b);
    } else if |b| == 2 {
      DecodeEncodeLength2(b);
    } else if |b| == 3 {
      DecodeEncodeLength3(b);
    } else {
      DecodeEncode(b[3..]);
      DecodeEncodeStep(b);
    }
  }

  // ---------------------------------------------------------------- fixture vectors

  /** `Y2EtY2VydA==` decodes to `b'ca-cert'`. */
  lemma CaVector()
    ensures Decode("Y2EtY2VydA==") == Ok([99, 97, 45, 99, 101, 114, 116])
  {
    var h0: seq<byte> := [116];
    var h1: seq<byte> := [99, 101, 114];
    var h2: seq<byte> := [99, 97, 45];
    assert DecodeQuad('d', 'A', '=', '=', true) == Ok(h0);
    DecodeQuantaLast("dA==", h0);
    assert DecodeQuad('Y', '2', 'V', 'y', false) == Ok(h1);
    DecodeQuantaCons("Y2Vy", "dA==", h1, h0);
    assert "Y2Vy" + "dA==" == "Y2VydA==";
    assert DecodeQuad('Y', '2', 'E', 't', false) == Ok(h2);
    DecodeQuantaCons("Y2Et", "Y2VydA==", h2, h1 + h0);
    assert "Y2Et" + "Y2VydA==" == "Y2EtY2VydA==";
    assert h2 + (h1 + h0) == [99, 97, 45, 99, 101, 114, 116];
  }

  /** The quanta of the shared prefix `Y2xpZW50` of the client vectors, which spells `client`. */
  lemma ClientQuads()
    ensures DecodeQuad('Y', '2', 'x', 'p', false) == Ok([99, 108, 105])
    ensures DecodeQuad('Z', 'W', '5', '0', false) == Ok([101, 110, 116])
  {
    var h2: seq<byte> := [101, 110, 116];
    var h3: seq<byte> := [99, 108, 105];
    assert DecodeQuad('Z', 'W', '5', '0', false) == Ok(h2);
    assert DecodeQuad('Y', '2', 'x', 'p', false) == Ok(h3);
  }

  lemma CertTail()
    ensures DecodeQuanta("LWNlcnQ=") == Ok([45, 99, 101, 114, 116])
  {
    var h0: seq<byte> := [114, 116];
    var h1: seq<byte> := [45, 99, 101];
    assert DecodeQuad('c', 'n', 'Q', '=', true) == Ok(h0);
    DecodeQuantaLast("cnQ=", h0);
    assert DecodeQuad('L', 'W', 'N', 'l', false) == Ok(h1);
    DecodeQuantaCons("LWNl", "cnQ=", h1, h0);
    assert "LWNl" + "cnQ=" == "LWNlcnQ=";
    assert h1 + h0 == [45, 99, 101, 114, 116];
  }

  lemma KeyTail()
    ensures DecodeQuanta("LWtleQ==") == Ok([45, 107, 101, 121])
  {
    var h0: seq<byte> := [121];
    var h1: seq<byte> := [45, 107, 101];
    assert DecodeQuad('e', 'Q', '=', '=', true) == Ok(h0);
    DecodeQuantaLast("eQ==", h0);
    assert DecodeQuad('L', 'W', 't', 'l', false) == Ok(h1);
    DecodeQuantaCons("LWtl", "eQ==", h1, h0);
    assert "LWtl" + "eQ==" == "LWtleQ==";
    assert h1 + h0 == [45, 107, 101, 121];
  }

  /** `Y2xpZW50LWNlcnQ=` decodes to `b'client-cert'`. */
  lemma CertVector()
    ensures Decode("Y2xpZW50LWNlcnQ=") == Ok([99, 108, 105, 101, 110, 116, 45, 99, 101, 114, 116])
  {
    var rest: seq<byte> := [45, 99, 101, 114, 116];
    var h2: seq<byte> := [101, 110, 116];
    var h3: seq<byte> := [99, 108, 105];
    CertTail();
    ClientQuads();
    DecodeQuantaCons("ZW50", "LWNlcnQ=", h2, rest);
    assert "ZW50" + "LWNlcnQ=" == "ZW50LWNlcnQ=";
    DecodeQuantaCons("Y2xp", "ZW50LWNlcnQ=", h3, h2 + rest);
    assert "Y2xp" + "ZW50LWNlcnQ=" == "Y2xpZW50LWNlcnQ=";
    assert h3 + (h2 + rest) == [99, 108, 105, 101, 110, 116, 45, 99, 101, 114, 116];
  }

  /** `Y2xpZW50LWtleQ==` decodes to `b'client-key'`. */
  lemma KeyVector()
    ensures Decode("Y2xpZW50LWtleQ==") == Ok([99, 108, 105, 101, 110, 116, 45, 107, 101, 121])
  {
    var rest: seq<byte> := [45, 107, 101, 121];
    var h2: seq<byte> := [101, 110, 116];
    var h3: seq<byte> := [99, 108, 105];
    KeyTail();
    ClientQuads();
    DecodeQuantaCons("ZW50", "LWtleQ==", h2, rest);
    assert "ZW50" + "LWtleQ==" == "ZW50LWtleQ==";
    DecodeQuantaCons("Y2xp", "ZW50LWtleQ==", h3, h2 + rest);
    assert "Y2xp" + "ZW50LWtleQ==" == "Y2xpZW50LWtleQ==";
    assert h3 + (h2 + rest) == [99, 108, 105, 101, 110, 116, 45, 107, 101, 121];
  }

  /** Five data characters are one more than a multiple of four: the error reports their count. */
  lemma ExcessVector()
    ensures Decode("Y2EtY") == Err(ExcessDataCharacter(5))
  {
    var s := "Y2EtY";
    assert IsDataChar(s[0]) && IsDataChar(s[1]) && IsDataChar(s[2]) && IsDataChar(s[3]) && IsDataChar(s[4]);
    assert AllData(s);
  }

  lemma ExcessMessage()
    ensures FailureMessage(ExcessDataCharacter(5)) == ExcessBefore + "5" + ExcessAfter
  {
    assert Decimal(5) == "5";
  }
}
