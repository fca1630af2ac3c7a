/** The symmetric cipher that turns a private store key into the public
    token and back.  Random tokens and the IV framing are modelled, with
    string positions counted in Unicode scalar values; the block cipher itself (AES-256-CTR keyed by the SHA-256 of the secret)
    is an abstract pair of functions, `seal` and `open`, about which the
    model assumes only that `open` undoes `seal` (`RoundTrips`). */
module Encrypter {
  import opened Base

  newtype byte = x: int | 0 <= x < 256

  /** The IV is drawn as `random(16)`. */
  const IvLength: nat := 16
  /** The default length of `random()`, used for private store keys. */
  const KeyLength: nat := 48

  const HexDigits: string := "0123456789abcdef"

  predicate IsHexChar(c: char) {
    '0' <= c <= '9' || 'a' <= c <= 'f'
  }

  predicate IsHex(s: string) {
    forall i :: 0 <= i < |s| ==> IsHexChar(s[i])
  }

  /** Every character is in the one-byte range of UTF-8. */
  predicate IsAscii(s: string) {
    forall i :: 0 <= i < |s| ==> s[i] as int < 0x80
  }

  /** `Buffer.toString("hex")`: two lower-case digits per byte. */
  function Hex(bytes: seq<byte>): (r: string)
    ensures |r| == 2 * |bytes|
    ensures IsHex(r)
  {
    if |bytes| == 0 then ""
    else [HexDigits[bytes[0] as int / 16], HexDigits[bytes[0] as int % 16]] + Hex(bytes[1..])
  }

  /** `random(length)`: `length` bytes from the entropy source, hex-encoded
      and cut back to `length` characters.  The bytes are a parameter. */
  function Random(bytes: seq<byte>, length: nat): (r: string)
    requires |bytes| == length
    ensures |r| == length
    ensures IsHex(r)
  {
    Hex(bytes)[..length]
  }

  /** The hex encoding of a prefix is the prefix of the hex encoding. */
  lemma {:induction false} HexPrefix(bytes: seq<byte>, n: nat)
    requires n <= |bytes|
    ensures Hex(bytes)[..2 * n] == Hex(bytes[..n])
    decreases n
  {
    if n > 0 {
      HexPrefix(bytes[1..], n - 1);
      assert bytes[..n][1..] == bytes[1..][..n - 1];
    }
  }

  lemma HexDigitsDistinct(a: int, b: int)
    requires 0 <= a < 16 && 0 <= b < 16 && a != b
    ensures HexDigits[a] != HexDigits[b]
  {
  }

  /** Distinct byte strings have distinct hex encodings. */
  lemma {:induction false} HexInjective(b1: seq<byte>, b2: seq<byte>)
    requires |b1| == |b2|
    ensures Hex(b1) == Hex(b2) <==> b1 == b2
    decreases |b1|
  {
    if |b1| > 0 && Hex(b1) == Hex(b2) {
      var x, y := b1[0] as int, b2[0] as int;
      assert Hex(b1)[0] == Hex(b2)[0] && Hex(b1)[1] == Hex(b2)[1];
      if x / 16 != y / 16 {
        HexDigitsDistinct(x / 16, y / 16);
      }
      if x % 16 != y % 16 {
        HexDigitsDistinct(x % 16, y % 16);
      }
      assert Hex(b1)[2..] == Hex(b2)[2..];
      HexInjective(b1[1..], b2[1..]);
      assert b1 == [b1[0]] + b1[1..];
      assert b2 == [b2[0]] + b2[1..];
    }
  }

  /** `random(n)` for even `n` keeps only the first `n / 2` bytes it draws:
      two draws give the same token exactly when those halves agree.  A
      48-character private key thus carries 24 random bytes, and an IV 8. */
  lemma RandomKeepsHalf(b1: seq<byte>, b2: seq<byte>, n: nat)
    requires |b1| == n && |b2| == n && n % 2 == 0
    ensures Random(b1, n) == Random(b2, n) <==> b1[..n / 2] == b2[..n / 2]
  {
    HexPrefix(b1, n / 2);
    HexPrefix(b2, n / 2);
    HexInjective(b1[..n / 2], b2[..n / 2]);
  }

  /** Number of bytes `c` takes in UTF-8: the IV string is handed to the
      cipher as a UTF-8 buffer, whose length must be 16. */
  function Utf8Size(c: char): nat {
    var cp := c as int;
    if cp < 0x80 then 1 else if cp < 0x800 then 2 else if cp < 0x10000 then 3 else 4
  }

  function ByteLength(s: string): nat {
    if |s| == 0 then 0 else Utf8Size(s[0]) + ByteLength(s[1..])
  }

  /** An ASCII string, hex in particular, takes one byte per character. */
  lemma {:induction false} AsciiByteLength(s: string)
    requires IsAscii(s)
    ensures ByteLength(s) == |s|
    decreases |s|
  {
    if |s| > 0 {
      assert IsAscii(s[1..]) by {
        forall i | 0 <= i < |s| - 1 ensures s[1..][i] as int < 0x80 {
          assert s[1..][i] == s[i + 1];
        }
      }
      AsciiByteLength(s[1..]);
    }
  }

  /** The keyed block cipher: `seal(iv, plaintext)` yields the hex body,
      `open(iv, body)` recovers the plaintext or fails. */
  datatype Cipher = Cipher(seal: (string, string) -> string, open: (string, string) -> Option<string>)

  /** The one property assumed of the cipher: with a 16-byte IV, opening
      what was sealed gives back the non-empty plaintext. */
  ghost predicate RoundTrips(c: Cipher) {
    forall iv, p :: ByteLength(iv) == IvLength && |p| > 0 ==> c.open(iv, c.seal(iv, p)) == Some(p)
  }

  /** `encrypt(val)`: rejects the empty string, otherwise draws a fresh
      16-character IV and returns the IV followed by the sealed body. */
  function Encrypt(c: Cipher, ivBytes: seq<byte>, val: string): (r: Result<string>)
    requires |ivBytes| == IvLength
    ensures r.Err? <==> |val| == 0
    ensures r.Err? ==> r.error == EmptyValue
    ensures r.Ok? ==> |r.value| >= IvLength && IsHex(r.value[..IvLength])
  {
    if |val| == 0 then Err(EmptyValue)
    else
      var iv := Random(ivBytes, IvLength);
      Ok(iv + c.seal(iv, val))
  }

  /** The first (at most) 16 characters of a token: its IV. */
  function IvOf(val: string): string {
    if |val| < IvLength then val else val[..IvLength]
  }

  /** `decrypt(val)`: rejects the empty string, splits off the IV, and fails
      with "Invalid key" when the IV is not 16 bytes long.  Any other
      failure of the cipher is rethrown as it is. */
  function Decrypt(c: Cipher, val: string): (r: Result<string>)
    ensures r.Err? && r.error == EmptyValue <==> |val| == 0
    ensures r.Err? && r.error == InvalidKey <==> |val| > 0 && ByteLength(IvOf(val)) != IvLength
    ensures r.Err? ==> r.error == EmptyValue || r.error == InvalidKey || r.error == CipherFailure
    ensures r.Ok? ==> c.open(IvOf(val), val[|IvOf(val)|..]) == Some(r.value)
    ensures |val| > 0 && ByteLength(IvOf(val)) == IvLength ==>
      (r.Ok? <==> c.open(IvOf(val), val[|IvOf(val)|..]).Some?)
  {
    if |val| == 0 then Err(EmptyValue)
    else
      var iv := IvOf(val);
      var body := val[|iv|..];
      if ByteLength(iv) != IvLength then Err(InvalidKey)
      else
        match c.open(iv, body)
        case None => Err(CipherFailure)
        case Some(p) => Ok(p)
  }

  /** A token too short to hold an IV is refused as an invalid key: this
      holds for every non-empty ASCII token of fewer than 16 characters. */
  lemma ShortTokenIsInvalidKey(c: Cipher, val: string)
    requires 0 < |val| < IvLength && IsAscii(val)
    ensures Decrypt(c, val) == Err(InvalidKey)
  {
    AsciiByteLength(val);
  }

  /** A non-empty ASCII token shorter than an IV has an IV of the wrong
      byte length. */
  lemma ShortAsciiIv(val: string)
    ensures 0 < |val| < IvLength && IsAscii(val) ==> ByteLength(IvOf(val)) != IvLength
  {
    if 0 < |val| < IvLength && IsAscii(val) {
      AsciiByteLength(val);
    }
  }

  /** Decrypting an encryption gives back the plaintext. */
  lemma DecryptEncrypt(c: Cipher, ivBytes: seq<byte>, val: string)
    requires RoundTrips(c)
    requires |ivBytes| == IvLength && |val| > 0
    ensures Encrypt(c, ivBytes, val).Ok?
    ensures Decrypt(c, Encrypt(c, ivBytes, val).value) == Ok(val)
  {
    var iv := Random(ivBytes, IvLength);
    var t := iv + c.seal(iv, val);
    assert IvOf(t) == iv;
    assert t[|iv|..] == c.seal(iv, val);
    AsciiByteLength(iv);
  }

  /** Two encryptions of the same plaintext under different IVs differ:
      the token does not reveal that two sessions share a private key. */
  lemma EncryptFresh(c: Cipher, iv1: seq<byte>, iv2: seq<byte>, val: string)
    requires |iv1| == IvLength && |iv2| == IvLength && |val| > 0
    requires Random(iv1, IvLength) != Random(iv2, IvLength)
    ensures Encrypt(c, iv1, val) != Encrypt(c, iv2, val)
  {
    var t1 := Encrypt(c, iv1, val).value;
    var t2 := Encrypt(c, iv2, val).value;
    assert t1[..IvLength] == Random(iv1, IvLength);
    assert t2[..IvLength] == Random(iv2, IvLength);
  }
}
