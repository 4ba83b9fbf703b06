/**
 * The mock keypair construction shared by the keypair manager and the
 * keypair selector: each random byte becomes two lowercase hexadecimal
 * digits, and the record takes the trimmed name and the trimmed
 * description, or no description when that is blank.
 */
module KeyGeneration {
  import opened Wrappers
  import opened JsString
  import opened KeypairContext

  /** A value `Math.floor(Math.random() * 256)` can take. */
  type Byte = b: int | 0 <= b < 256

  /** The value of a lowercase hexadecimal digit; any other character reads as 0. */
  function HexValue(c: char): (v: nat)
    ensures v < 16
    ensures IsLowerHex(c) ==> HexDigits[v] == c
  {
    if c == '0' then 0 else if c == '1' then 1 else if c == '2' then 2 else if c == '3' then 3
    else if c == '4' then 4 else if c == '5' then 5 else if c == '6' then 6 else if c == '7' then 7
    else if c == '8' then 8 else if c == '9' then 9 else if c == 'a' then 10 else if c == 'b' then 11
    else if c == 'c' then 12 else if c == 'd' then 13 else if c == 'e' then 14 else if c == 'f' then 15 else 0
  }

  /** `b.toString(16).padStart(2, '0')`. */
  function HexByte(b: Byte): string {
    PadStart(ToBase16(b), 2, '0')
  }

  /** Each digit is read back as its own value. */
  lemma HexValueOfDigit(k: nat)
    requires k < 16
    ensures HexValue(HexDigits[k]) == k
  {
  }

  /** The digits `toString(16)` gives for a byte, before padding. */
  lemma ByteBase16(b: Byte)
    ensures b < 16 ==> ToBase16(b) == [HexDigits[b]]
    ensures b >= 16 ==> ToBase16(b) == [HexDigits[b / 16]] + [HexDigits[b % 16]]
  {
    if b >= 16 {
      assert ToBase16(b / 16) == [HexDigits[b / 16]];
    }
  }

  /** A byte renders as exactly two lowercase hexadecimal digits, high digit first. */
  lemma HexByteDigits(b: Byte)
    ensures |HexByte(b)| == 2
    ensures HexByte(b) == [HexDigits[b / 16], HexDigits[b % 16]]
    ensures IsLowerHex(HexByte(b)[0]) && IsLowerHex(HexByte(b)[1])
    ensures 16 * HexValue(HexByte(b)[0]) + HexValue(HexByte(b)[1]) == b
  {
    ByteBase16(b);
    var r := HexByte(b);
    if b < 16 {
      assert r == ['0'] + [HexDigits[b]];
      assert HexDigits[0] == '0';
    }
    HexValueOfDigit(b / 16);
    HexValueOfDigit(b % 16);
  }

  /** Every character is a lowercase hexadecimal digit. */
  predicate IsHexText(s: string) {
    forall k :: 0 <= k < |s| ==> IsLowerHex(s[k])
  }

  /** `Array.from(bytes, b => hex of b).join('')`. */
  function HexEncode(bytes: seq<Byte>): (r: string)
    ensures |r| == 2 * |bytes|
    ensures IsHexText(r)
  {
    if |bytes| == 0 then ""
    else
      HexByteDigits(bytes[0]);
      HexByte(bytes[0]) + HexEncode(bytes[1..])
  }

  /**
   * Reading a string of hexadecimal digit pairs back into bytes, the
   * inverse of `HexEncode`; a trailing odd character is ignored.
   */
  function HexDecode(s: string): seq<Byte> {
    if |s| < 2 then []
    else [16 * HexValue(s[0]) + HexValue(s[1])] + HexDecode(s[2..])
  }

  /** Nothing is lost in the rendering: decoding the key gives back the bytes drawn. */
  lemma {:induction false} HexRoundTrip(bytes: seq<Byte>)
    ensures HexDecode(HexEncode(bytes)) == bytes
  {
    if |bytes| > 0 {
      var r := HexEncode(bytes);
      HexByteDigits(bytes[0]);
      assert r[..2] == HexByte(bytes[0]);
      assert r[2..] == HexEncode(bytes[1..]);
      HexRoundTrip(bytes[1..]);
    }
  }

  /** Different byte draws give different keys. */
  lemma HexEncodeInjective(a: seq<Byte>, b: seq<Byte>)
    requires HexEncode(a) == HexEncode(b)
    ensures a == b
  {
    HexRoundTrip(a);
    HexRoundTrip(b);
  }

  /** What the random source supplies for one keypair: 32 public and 64 private bytes. */
  datatype KeyBytes = KeyBytes(publicBytes: seq<Byte>, privateBytes: seq<Byte>)

  predicate FullDraw(draw: KeyBytes) {
    |draw.publicBytes| == 32 && |draw.privateBytes| == 64
  }

  /** `trimmed || undefined`: the trimmed text, or None when it is blank. */
  function OptionalText(s: string): (r: Option<string>)
    ensures r.None? <==> forall k :: 0 <= k < |s| ==> IsWhitespace(s[k])
    ensures r.Some? ==> r.value == Trim(s) && r.value != ""
  {
    var t := Trim(s);
    if t == "" then None else Some(t)
  }

  /**
   * `generateKeypair`'s record: nothing when the trimmed name is empty,
   * else a keypair with the given id and time, the trimmed name, the
   * optional trimmed description and the two rendered keys.
   */
  function NewKeypair(id: string, name: string, description: string, draw: KeyBytes, createdAt: int): Option<Keypair> {
    if Trim(name) == "" then None
    else Some(Keypair(id, Trim(name), HexEncode(draw.publicBytes), HexEncode(draw.privateBytes), createdAt,
                      OptionalText(description)))
  }

  /**
   * A blank name creates nothing; any other name creates a keypair with the
   * given id and time, named by the trimmed name, described by the trimmed
   * description or not at all.
   */
  lemma NewKeypairRecord(id: string, name: string, description: string, draw: KeyBytes, createdAt: int)
    ensures NewKeypair(id, name, description, draw, createdAt).None? <==>
      forall k :: 0 <= k < |name| ==> IsWhitespace(name[k])
    ensures var r := NewKeypair(id, name, description, draw, createdAt);
      r.Some? ==> (r.value.id == id && r.value.createdAt == createdAt && r.value.name == Trim(name) &&
                   r.value.name != "" && r.value.description == OptionalText(description))
  {
  }

  /** The keys of a created keypair: 64 and 128 lowercase hexadecimal digits that decode to the bytes drawn. */
  lemma NewKeypairKeys(id: string, name: string, description: string, draw: KeyBytes, createdAt: int, kp: Keypair)
    requires FullDraw(draw) && NewKeypair(id, name, description, draw, createdAt) == Some(kp)
    ensures |kp.publicKey| == 64 && IsHexText(kp.publicKey) && HexDecode(kp.publicKey) == draw.publicBytes
    ensures |kp.privateKey| == 128 && IsHexText(kp.privateKey) && HexDecode(kp.privateKey) == draw.privateBytes
  {
    HexRoundTrip(draw.publicBytes);
    HexRoundTrip(draw.privateBytes);
  }
}
