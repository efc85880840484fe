/** `AesCrypt256` of `aes_encryption.py` (and its copy `src/utils/aes_encryption.py`): a
    string is padded to the AES block size, encoded, encrypted with AES in CBC mode, framed
    with its initialization vector unless that vector is all zeros, and optionally written
    in base 16 (section 8 of RFC 4648).

    AES itself is not modelled: a `Cipher` is any pair of functions, and the round-trip
    lemmas rely only on the fact that decryption undoes encryption (`Invertible`). The random
    initialization vector is a parameter.

    The source pads the text by characters and then encodes it as UTF-8, so a value with
    a non-ASCII character reaches the cipher misaligned or, decrypted, comes back as Latin-1
    mojibake. `PadText`, `UnpadText`, `EncryptFramedAsWritten` and `DecryptFramedAsWritten`
    model that code as written; `AesCrypt256` uses the corrected framing, which pads and
    unpads the encoded bytes (section 6.3 of RFC 5652) and agrees with the source on ASCII
    values. */
module AesCrypt {
  import opened Wrappers
  import opened Python
  import opened Utf8

  /** `BLOCK_SIZE`. */
  const BlockSize: nat := 16

  /** AES in CBC mode under a key and an initialization vector, in both directions. */
  datatype Cipher = Cipher(encrypt: (Bytes, Bytes, Bytes) -> Bytes, decrypt: (Bytes, Bytes, Bytes) -> Bytes)

  /** The key lengths `AES.new` accepts: 128, 192 and 256 bits. */
  predicate ValidKey(key: Bytes)
  {
    |key| == 16 || |key| == 24 || |key| == 32
  }

  /** What the round trips need of AES: on block-aligned data, encryption keeps the length
      and decryption undoes it. */
  ghost predicate Invertible(c: Cipher)
  {
    forall key: Bytes, iv: Bytes, data: Bytes
      | ValidKey(key) && |iv| == BlockSize && |data| % BlockSize == 0
      :: |c.encrypt(key, iv, data)| == |data| && c.decrypt(key, iv, c.encrypt(key, iv, data)) == data
  }

  /** The number of pad units appended to `length` units: from 1 to 16, never 0. */
  function PadLength(length: nat): (n: nat)
    ensures 1 <= n <= BlockSize
    ensures (length + n) % BlockSize == 0
  {
    BlockSize - length % BlockSize
  }

  /** `all(v == 0 for v in iv)`. */
  predicate IsZero(iv: Bytes)
  {
    forall i :: 0 <= i < |iv| ==> iv[i] == 0
  }

  /** `bytes(bytearray(16))`. */
  const ZeroIv: Bytes := [0, 0, 0, 0, 0, 0, 0, 0, 0, 0, 0, 0, 0, 0, 0, 0]

  // ---------------------------------------------------------------------------------------
  // Padding as written: by characters, read back byte by byte

  /** `pkcs5_pad`: append `n` copies of the character with code `n`, where `n` brings the
      number of characters up to the next multiple of 16 (a whole block when already a
      multiple). */
  function PadText(s: string): (r: string)
    ensures |r| == |s| + PadLength(|s|)
    ensures |r| % BlockSize == 0 && |r| > |s|
    ensures r[..|s|] == s
    ensures forall i :: |s| <= i < |r| ==> r[i] as int == PadLength(|s|)
  {
    var n := PadLength(|s|);
    s + seq(n, _ => n as char)
  }

  /** `"".join(chr(e) for e in b)`: each byte as the character with that code. */
  function Latin1(b: Bytes): (s: string)
    ensures |s| == |b|
    ensures forall i :: 0 <= i < |b| ==> s[i] as int == b[i]
  {
    seq(|b|, i requires 0 <= i < |b| => b[i] as char)
  }

  /** `pkcs5_unpad`: drop as many trailing bytes as the last byte says, without checking
      them, and read the rest as Latin-1. A last byte of 0 gives `s[:-0]`, which is empty,
      and so does a last byte no smaller than the length; an empty input raises
      `IndexError`. */
  function UnpadText(b: Bytes): (r: Result<string, Exception>)
    ensures b == [] <==> r == Err(IndexError)
    ensures b != [] && (b[|b| - 1] == 0 || b[|b| - 1] >= |b|) ==> r == Ok("")
    ensures b != [] && 0 < b[|b| - 1] < |b| ==> r == Ok(Latin1(b[..|b| - b[|b| - 1]]))
  {
    if b == [] then Err(IndexError)
    else
      var k := b[|b| - 1];
      if k == 0 || k >= |b| then Ok("") else Ok(Latin1(b[..|b| - k]))
  }

  lemma PadTextAscii(s: string)
    requires IsAscii(s)
    ensures IsAscii(PadText(s))
  {
    var p := PadText(s);
    forall i | 0 <= i < |p|
      ensures p[i] as int < 128
    {
      if i < |s| {
        assert p[i] == p[..|s|][i];
      }
    }
  }

  /** The source's unpadding undoes its padding for an ASCII string, once the padded text
      is encoded. */
  lemma UnpadTextPadText(s: string)
    requires IsAscii(s)
    ensures UnpadText(Encode(PadText(s))) == Ok(s)
  {
    var p := PadText(s);
    PadTextAscii(s);
    EncodeAscii(p);
    var b := Encode(p);
    var n := PadLength(|s|);
    assert b[|b| - 1] == n;
    assert |b| - n == |s|;
    if n < |b| {
      var r := Latin1(b[..|s|]);
      forall i | 0 <= i < |s|
        ensures r[i] == s[i]
      {
        assert r[i] as int == b[i] == p[i] as int;
        assert p[i] == p[..|s|][i];
      }
      assert r == s;
    }
  }

  /** `_encrypt(key, value, iv)` as written: `AES.new` refuses a bad key or vector length,
      and the cipher refuses data that is not a whole number of blocks, which happens when
      non-ASCII characters make the encoding longer than the padded text. */
  function EncryptFramedAsWritten(c: Cipher, key: Bytes, value: string, iv: Bytes): (r: Result<Bytes, Exception>)
    ensures !ValidKey(key) || |iv| != BlockSize ==> r == Err(ValueError)
    ensures ValidKey(key) && |iv| == BlockSize ==> (r.Ok? <==> |Encode(PadText(value))| % BlockSize == 0)
  {
    if !ValidKey(key) || |iv| != BlockSize then Err(ValueError)
    else
      var data := Encode(PadText(value));
      if |data| % BlockSize != 0 then Err(ValueError)
      else
        var crypted := c.encrypt(key, iv, data);
        if IsZero(iv) then Ok(crypted) else Ok(iv + crypted)
  }

  /** `_decrypt(key, value, iv)` as written. */
  function DecryptFramedAsWritten(c: Cipher, key: Bytes, value: Bytes, iv: Bytes): (r: Result<string, Exception>)
    ensures !ValidKey(key) || |iv| != BlockSize || |value| % BlockSize != 0 ==> r == Err(ValueError)
    ensures ValidKey(key) && |iv| == BlockSize && |value| % BlockSize == 0 ==> r == UnpadText(c.decrypt(key, iv, value))
  {
    if !ValidKey(key) || |iv| != BlockSize || |value| % BlockSize != 0 then Err(ValueError)
    else UnpadText(c.decrypt(key, iv, value))
  }

  /** The encoding of a string whose first character takes two bytes and whose remaining
      characters are ASCII. */
  lemma EncodeAsciiTail(p: string)
    requires p != [] && 0x80 <= p[0] as int < 0x800 && IsAscii(p[1..])
    ensures |Encode(p)| == |p| + 1
  {
    EncodeAscii(p[1..]);
  }

  /** As written, encrypting "é" (U+00E9) raises `ValueError` under every valid key and
      vector: one character is padded with fifteen, but the character takes two bytes, so
      the cipher is handed 17 bytes. */
  lemma NonAsciiValueRaises(c: Cipher, key: Bytes, iv: Bytes)
    requires ValidKey(key) && |iv| == BlockSize
    ensures EncryptFramedAsWritten(c, key, "\U{00E9}", iv) == Err(ValueError)
  {
    var p := PadText("\U{00E9}");
    assert p[0] == "\U{00E9}"[0];
    assert IsAscii(p[1..]);
    EncodeAsciiTail(p);
  }

  // ---------------------------------------------------------------------------------------
  // Corrected padding: on the encoded bytes

  /** Padding in the manner of section 6.3 of RFC 5652 on the encoded bytes. */
  function PadBytes(b: Bytes): (r: Bytes)
    ensures |r| == |b| + PadLength(|b|)
    ensures |r| % BlockSize == 0 && |r| > |b|
    ensures r[..|b|] == b
    ensures forall i :: |b| <= i < |r| ==> r[i] == PadLength(|b|)
  {
    var n := PadLength(|b|);
    b + seq(n, _ => n)
  }

  /** The source's unpadding rule, kept as lax as it is, but yielding bytes. */
  function UnpadBytes(b: Bytes): (r: Result<Bytes, Exception>)
    ensures b == [] <==> r == Err(IndexError)
    ensures b != [] && (b[|b| - 1] == 0 || b[|b| - 1] >= |b|) ==> r == Ok([])
    ensures b != [] && 0 < b[|b| - 1] < |b| ==> r == Ok(b[..|b| - b[|b| - 1]])
  {
    if b == [] then Err(IndexError)
    else
      var k := b[|b| - 1];
      if k == 0 || k >= |b| then Ok([]) else Ok(b[..|b| - k])
  }

  /** Unpadding undoes padding for all bytes. */
  lemma UnpadBytesPadBytes(b: Bytes)
    ensures UnpadBytes(PadBytes(b)) == Ok(b)
  {
    var p := PadBytes(b);
    assert p[|p| - 1] == PadLength(|b|);
  }

  /** On an ASCII string the corrected padding gives the bytes the source gives. */
  lemma PadBytesAgreesOnAscii(s: string)
    requires IsAscii(s)
    ensures PadBytes(Encode(s)) == Encode(PadText(s))
  {
    EncodeAscii(s);
    PadTextAscii(s);
    var p := PadText(s);
    EncodeAscii(p);
    var x, y := PadBytes(Encode(s)), Encode(p);
    forall i | 0 <= i < |x|
      ensures x[i] == y[i]
    {
      if i < |s| {
        assert x[i] == x[..|s|][i];
        assert p[i] == p[..|s|][i];
      }
    }
  }

  /** `_encrypt(key, value, iv)`, corrected: the encrypted value, preceded by `iv` unless
      `iv` is all zeros. Only a bad key or vector length makes it fail. */
  function EncryptFramed(c: Cipher, key: Bytes, value: string, iv: Bytes): (r: Result<Bytes, Exception>)
    ensures r.Ok? <==> ValidKey(key) && |iv| == BlockSize
    ensures r.Err? ==> r == Err(ValueError)
    ensures r.Ok? && IsZero(iv) ==> r.value == c.encrypt(key, iv, PadBytes(Encode(value)))
    ensures r.Ok? && !IsZero(iv) ==> r.value == iv + c.encrypt(key, iv, PadBytes(Encode(value)))
  {
    if !ValidKey(key) || |iv| != BlockSize then Err(ValueError)
    else
      var crypted := c.encrypt(key, iv, PadBytes(Encode(value)));
      if IsZero(iv) then Ok(crypted) else Ok(iv + crypted)
  }

  /** `_decrypt(key, value, iv)`, corrected: decrypt, unpad and decode. */
  function DecryptFramed(c: Cipher, key: Bytes, value: Bytes, iv: Bytes): (r: Result<string, Exception>)
    ensures !ValidKey(key) || |iv| != BlockSize || |value| % BlockSize != 0 ==> r == Err(ValueError)
    ensures ValidKey(key) && |iv| == BlockSize && |value| % BlockSize == 0 && c.decrypt(key, iv, value) == [] ==> r == Err(IndexError)
  {
    if !ValidKey(key) || |iv| != BlockSize || |value| % BlockSize != 0 then Err(ValueError)
    else
      var plain :- UnpadBytes(c.decrypt(key, iv, value));
      match Decode(plain)
      case Ok(s) => Ok(s)
      case Err(_) => Err(ValueError)
  }

  /** The corrected encryption agrees with the source's on every ASCII value. */
  lemma EncryptFramedAgreesOnAscii(c: Cipher, key: Bytes, value: string, iv: Bytes)
    requires IsAscii(value)
    ensures EncryptFramed(c, key, value, iv) == EncryptFramedAsWritten(c, key, value, iv)
  {
    PadBytesAgreesOnAscii(value);
  }

  /** As written, an ASCII value survives the round trip: `_encrypt` accepts it, and
      `_decrypt` of the ciphertext under the same key and vector gives it back. Framed as
      `decrypt` reads it, the output is the ciphertext alone under the zero vector, and the
      vector followed by the ciphertext otherwise. */
  lemma AsWrittenRoundTripAscii(c: Cipher, key: Bytes, value: string, iv: Bytes)
    requires Invertible(c) && ValidKey(key) && |iv| == BlockSize && IsAscii(value)
    ensures EncryptFramedAsWritten(c, key, value, iv).Ok?
    ensures DecryptFramedAsWritten(c, key, c.encrypt(key, iv, Encode(PadText(value))), iv) == Ok(value)
    ensures var out := EncryptFramedAsWritten(c, key, value, iv).value;
      if IsZero(iv) then DecryptFramedAsWritten(c, key, out, ZeroIv) == Ok(value)
      else |out| >= BlockSize && DecryptFramedAsWritten(c, key, out[BlockSize..], out[..BlockSize]) == Ok(value)
  {
    var p := PadText(value);
    PadTextAscii(value);
    EncodeAscii(p);
    var data := Encode(p);
    assert |data| % BlockSize == 0;
    var crypted := c.encrypt(key, iv, data);
    assert |crypted| == |data| && c.decrypt(key, iv, crypted) == data;
    UnpadTextPadText(value);
    if IsZero(iv) {
      assert iv == ZeroIv;
    } else {
      assert (iv + crypted)[..BlockSize] == iv && (iv + crypted)[BlockSize..] == crypted;
    }
  }

  // ---------------------------------------------------------------------------------------
  // Base 16

  function HexDigit(d: int): (c: char)
    requires 0 <= d < 16
    ensures HexValue(c) == Some(d)
    ensures '0' <= c <= '9' || 'a' <= c <= 'f'
  {
    if d < 10 then ('0' as int + d) as char else ('a' as int + d - 10) as char
  }

  /** The value of a hexadecimal digit of either case. */
  function HexValue(c: char): (v: Option<int>)
    ensures v.Some? <==> '0' <= c <= '9' || 'a' <= c <= 'f' || 'A' <= c <= 'F'
    ensures v.Some? ==> 0 <= v.value < 16
  {
    if '0' <= c <= '9' then Some(c as int - '0' as int)
    else if 'a' <= c <= 'f' then Some(c as int - 'a' as int + 10)
    else if 'A' <= c <= 'F' then Some(c as int - 'A' as int + 10)
    else None
  }

  /** `binascii.hexlify`: two lower-case digits per byte, high half first. */
  function Hexlify(b: Bytes): (s: string)
    ensures |s| == 2 * |b|
    ensures forall i :: 0 <= i < |s| ==> '0' <= s[i] <= '9' || 'a' <= s[i] <= 'f'
  {
    if b == [] then "" else [HexDigit(b[0] / 16), HexDigit(b[0] % 16)] + Hexlify(b[1..])
  }

  /** `binascii.unhexlify`: an odd length or a character that is not a hexadecimal digit
      raises `binascii.Error`, a `ValueError`. */
  function Unhexlify(s: string): (r: Result<Bytes, Exception>)
    ensures r.Ok? ==> 2 * |r.value| == |s|
    ensures r.Err? ==> r == Err(ValueError)
    ensures |s| % 2 == 1 ==> r == Err(ValueError)
    decreases |s|
  {
    if s == [] then Ok([])
    else if |s| == 1 then Err(ValueError)
    else
      match (HexValue(s[0]), HexValue(s[1]))
      case (Some(hi), Some(lo)) =>
        var rest :- Unhexlify(s[2..]);
        Ok([hi * 16 + lo] + rest)
      case _ => Err(ValueError)
  }

  /** Reading back what `hexlify` wrote gives the bytes. */
  lemma {:induction false} UnhexlifyHexlify(b: Bytes)
    ensures Unhexlify(Hexlify(b)) == Ok(b)
  {
    if b != [] {
      UnhexlifyHexlify(b[1..]);
      var s := Hexlify(b);
      assert s[2..] == Hexlify(b[1..]);
      assert [b[0] / 16 * 16 + b[0] % 16] + b[1..] == b;
    }
  }

  // ---------------------------------------------------------------------------------------
  // The helper object

  /** `AesCrypt256(default_initialization_vector)`. With the default vector, the vector is
      all zeros and is not framed; otherwise a fresh random vector, `drawnIv`, is drawn
      for each encryption and framed before the ciphertext. */
  datatype AesCrypt256 = AesCrypt256(defaultInitializationVector: bool) {

    /** `encrypt(key, value)`. */
    function Encrypt(c: Cipher, key: Bytes, value: string, drawnIv: Bytes): (r: Result<Bytes, Exception>)
      requires |drawnIv| == BlockSize
      ensures defaultInitializationVector ==> r == EncryptFramed(c, key, value, ZeroIv)
      ensures !defaultInitializationVector ==> r == EncryptFramed(c, key, value, drawnIv)
    {
      if defaultInitializationVector then EncryptFramed(c, key, value, ZeroIv)
      else EncryptFramed(c, key, value, drawnIv)
    }

    /** `decrypt(key, value)`: with the default vector the whole value is ciphertext;
        otherwise its first 16 bytes are the vector and the rest is ciphertext. */
    function Decrypt(c: Cipher, key: Bytes, value: Bytes): (r: Result<string, Exception>)
      ensures defaultInitializationVector ==> r == DecryptFramed(c, key, value, ZeroIv)
      ensures !defaultInitializationVector && |value| >= BlockSize ==>
        r == DecryptFramed(c, key, value[BlockSize..], value[..BlockSize])
      ensures !defaultInitializationVector && |value| < BlockSize ==> r == Err(ValueError)
    {
      if defaultInitializationVector then DecryptFramed(c, key, value, ZeroIv)
      else
        var iv := if |value| >= BlockSize then value[..BlockSize] else value;
        var crypted := if |value| >= BlockSize then value[BlockSize..] else [];
        DecryptFramed(c, key, crypted, iv)
    }

    /** `encryptHex(key, value)`. */
    function EncryptHex(c: Cipher, key: Bytes, value: string, drawnIv: Bytes): (r: Result<string, Exception>)
      requires |drawnIv| == BlockSize
      ensures r.Ok? <==> Encrypt(c, key, value, drawnIv).Ok?
      ensures r.Ok? ==> Unhexlify(r.value) == Encrypt(c, key, value, drawnIv)
    {
      var crypted :- Encrypt(c, key, value, drawnIv);
      UnhexlifyHexlify(crypted);
      Ok(Hexlify(crypted))
    }

    /** `decryptHex(key, value)`. */
    function DecryptHex(c: Cipher, key: Bytes, value: string): (r: Result<string, Exception>)
      ensures Unhexlify(value).Err? ==> r == Err(ValueError)
      ensures Unhexlify(value).Ok? ==> r == Decrypt(c, key, Unhexlify(value).value)
    {
      var crypted :- Unhexlify(value);
      Decrypt(c, key, crypted)
    }
  }

  // ---------------------------------------------------------------------------------------
  // Round trips

  /** Decrypting under the key and vector used to encrypt gives the value back. */
  lemma DecryptFramedEncrypted(c: Cipher, key: Bytes, value: string, iv: Bytes)
    requires Invertible(c) && ValidKey(key) && |iv| == BlockSize
    ensures DecryptFramed(c, key, c.encrypt(key, iv, PadBytes(Encode(value))), iv) == Ok(value)
  {
    var data := PadBytes(Encode(value));
    assert c.decrypt(key, iv, c.encrypt(key, iv, data)) == data;
    UnpadBytesPadBytes(Encode(value));
    DecodeEncode(value);
  }

  /** With the default vector, decryption undoes encryption. */
  lemma RoundTripDefaultIv(c: Cipher, key: Bytes, value: string, drawnIv: Bytes)
    requires Invertible(c) && ValidKey(key) && |drawnIv| == BlockSize
    ensures AesCrypt256(true).Encrypt(c, key, value, drawnIv).Ok?
    ensures AesCrypt256(true).Decrypt(c, key, AesCrypt256(true).Encrypt(c, key, value, drawnIv).value) == Ok(value)
  {
    assert IsZero(ZeroIv);
    DecryptFramedEncrypted(c, key, value, ZeroIv);
  }

  /** With random vectors, decryption undoes encryption whenever the drawn vector is not
      all zeros. */
  lemma RoundTripRandomIv(c: Cipher, key: Bytes, value: string, drawnIv: Bytes)
    requires Invertible(c) && ValidKey(key) && |drawnIv| == BlockSize && !IsZero(drawnIv)
    ensures AesCrypt256(false).Encrypt(c, key, value, drawnIv).Ok?
    ensures AesCrypt256(false).Decrypt(c, key, AesCrypt256(false).Encrypt(c, key, value, drawnIv).value) == Ok(value)
  {
    var data := PadBytes(Encode(value));
    var crypted := c.encrypt(key, drawnIv, data);
    assert |crypted| == |data|;
    var framed := drawnIv + crypted;
    assert framed[..BlockSize] == drawnIv && framed[BlockSize..] == crypted;
    DecryptFramedEncrypted(c, key, value, drawnIv);
  }

  /** The base-16 layer changes nothing: `decryptHex` undoes `encryptHex` exactly when
      `decrypt` undoes `encrypt`. */
  lemma HexRoundTrip(aes: AesCrypt256, c: Cipher, key: Bytes, value: string, drawnIv: Bytes)
    requires |drawnIv| == BlockSize
    requires aes.EncryptHex(c, key, value, drawnIv).Ok?
    ensures aes.DecryptHex(c, key, aes.EncryptHex(c, key, value, drawnIv).value)
         == aes.Decrypt(c, key, aes.Encrypt(c, key, value, drawnIv).value)
  {
    var crypted := aes.Encrypt(c, key, value, drawnIv).value;
    UnhexlifyHexlify(crypted);
  }

  /** Hence the hexadecimal round trip holds in the same cases as the binary one. */
  lemma HexRoundTripValue(aes: AesCrypt256, c: Cipher, key: Bytes, value: string, drawnIv: Bytes)
    requires Invertible(c) && ValidKey(key) && |drawnIv| == BlockSize
    requires aes.defaultInitializationVector || !IsZero(drawnIv)
    ensures aes.EncryptHex(c, key, value, drawnIv).Ok?
    ensures aes.DecryptHex(c, key, aes.EncryptHex(c, key, value, drawnIv).value) == Ok(value)
  {
    if aes.defaultInitializationVector {
      RoundTripDefaultIv(c, key, value, drawnIv);
    } else {
      RoundTripRandomIv(c, key, value, drawnIv);
    }
    HexRoundTrip(aes, c, key, value, drawnIv);
  }

  /** The vector must not be all zeros in random mode: a drawn zero vector is not framed,
      so decryption takes the first ciphertext block for the vector. With a cipher that
      leaves data unchanged, encrypting the empty string this way gives one block, and
      decrypting it leaves nothing to unpad and raises `IndexError`. */
  lemma ZeroDrawnIvBreaksRoundTrip()
    ensures var c := Cipher((k, iv, d) => d, (k, iv, d) => d);
      && Invertible(c)
      && AesCrypt256(false).Encrypt(c, ZeroIv, "", ZeroIv).Ok?
      && AesCrypt256(false).Decrypt(c, ZeroIv, AesCrypt256(false).Encrypt(c, ZeroIv, "", ZeroIv).value) == Err(IndexError)
  {
    var c := Cipher((k, iv, d) => d, (k, iv, d) => d);
    assert IsZero(ZeroIv);
    var e := AesCrypt256(false).Encrypt(c, ZeroIv, "", ZeroIv).value;
    assert |e| == BlockSize;
    assert e[BlockSize..] == [];
  }
}
