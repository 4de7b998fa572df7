/**
 * Decryption of stored connection passwords (`decrypt_password`). A stored value is
 * `hex(iv) ":" hex(ciphertext)`; the AES-CBC decryption with the derived key, the PKCS7
 * unpadding and the UTF-8 decoding are one function parameter, `Decipher`, which yields
 * `None` wherever any of them would raise.
 */
module Vault {
  import opened Wrappers
  import opened Text

  newtype byte = x: int | 0 <= x < 256

  /** AES block size in bytes, so the length of the initialisation vector. */
  const IvLength: nat := 16

  /** Decrypt, unpad and decode; `None` when any of the three raises. */
  type Decipher = (seq<byte>, seq<byte>) -> Option<string>

  /** The value of a hexadecimal digit in either letter case, as `unhexlify` accepts it. */
  function HexValue(c: char): (r: Option<nat>)
    ensures r.Some? ==> r.value < 16
  {
    if '0' <= c <= '9' then Some(c as nat - '0' as nat)
    else if 'a' <= c <= 'f' then Some(c as nat - 'a' as nat + 10)
    else if 'A' <= c <= 'F' then Some(c as nat - 'A' as nat + 10)
    else None
  }

  predicate IsHexDigit(c: char)
  {
    HexValue(c).Some?
  }

  /** An even number of hexadecimal digits: exactly the texts `unhexlify` decodes. */
  predicate IsHex(s: string)
  {
    |s| % 2 == 0 && forall i :: 0 <= i < |s| ==> IsHexDigit(s[i])
  }

  /** `binascii.unhexlify`: two digits per byte, `None` where it raises. */
  function Unhexlify(s: string): (r: Option<seq<byte>>)
    ensures r.Some? <==> IsHex(s)
    ensures r.Some? ==> 2 * |r.value| == |s|
    decreases |s|
  {
    if s == [] then Some([])
    else if |s| == 1 then None
    else
      var rest := Unhexlify(s[2..]);
      assert IsHex(s) <==> IsHexDigit(s[0]) && IsHexDigit(s[1]) && IsHex(s[2..]) by {
        if IsHexDigit(s[0]) && IsHexDigit(s[1]) && IsHex(s[2..]) {
          forall i | 0 <= i < |s|
            ensures IsHexDigit(s[i])
          {
            if i >= 2 {
              assert s[i] == s[2..][i - 2];
            }
          }
        }
        if IsHex(s) {
          forall i | 0 <= i < |s[2..]|
            ensures IsHexDigit(s[2..][i])
          {
            assert s[2..][i] == s[i + 2];
          }
        }
      }
      match (HexValue(s[0]), HexValue(s[1]), rest)
      case (Some(hi), Some(lo), Some(tail)) => Some([(hi * 16 + lo) as byte] + tail)
      case _ => None
  }

  /** The lower-case digit of a value below 16, as `hexlify` writes it. */
  function HexDigit(d: nat): (c: char)
    requires d < 16
    ensures HexValue(c) == Some(d)
  {
    if d < 10 then ('0' as nat + d) as char else ('a' as nat + d - 10) as char
  }

  /** `binascii.hexlify`: two lower-case digits per byte. */
  function Hexlify(b: seq<byte>): (r: string)
    ensures |r| == 2 * |b|
  {
    if b == [] then []
    else [HexDigit(b[0] as nat / 16), HexDigit(b[0] as nat % 16)] + Hexlify(b[1..])
  }

  /** Hex decoding undoes hex encoding. */
  lemma {:induction false} UnhexlifyHexlify(b: seq<byte>)
    ensures Unhexlify(Hexlify(b)) == Some(b)
  {
    if b != [] {
      var h := Hexlify(b);
      assert h[2..] == Hexlify(b[1..]);
      UnhexlifyHexlify(b[1..]);
      assert [b[0]] + b[1..] == b;
    }
  }

  /** An encoded value holds no colon, as no hexadecimal digit is one. */
  lemma HexlifyHasNoColon(b: seq<byte>)
    ensures ':' !in Hexlify(b)
  {
    UnhexlifyHexlify(b);
    assert !IsHexDigit(':');
    assert forall i :: 0 <= i < |Hexlify(b)| ==> Hexlify(b)[i] != ':';
  }

  /**
   * `decrypt_password`: the empty text decrypts to the empty text; a text without a
   * colon, an initialisation vector that is not 32 characters long, and anything that
   * fails in hex decoding or decryption give `None`; valid parts give what the cipher
   * makes of them. The text is split at its first colon.
   */
  function DecryptPassword(text: string, decipher: Decipher): (r: Option<string>)
    ensures text == "" ==> r == Some("")
    ensures text != "" && ':' !in text ==> r.None?
    ensures text != "" && r.Some? ==> ':' in text && |SplitFirst(text, ':').0| == 2 * IvLength
    ensures ':' in text && (Unhexlify(SplitFirst(text, ':').0).None? || Unhexlify(SplitFirst(text, ':').1).None?)
      ==> r.None?
    ensures text != "" && r.Some? ==>
      Unhexlify(SplitFirst(text, ':').0).Some? && Unhexlify(SplitFirst(text, ':').1).Some? &&
      r == decipher(Unhexlify(SplitFirst(text, ':').0).value, Unhexlify(SplitFirst(text, ':').1).value)
    ensures (text != "" && ':' in text && |SplitFirst(text, ':').0| == 2 * IvLength &&
             Unhexlify(SplitFirst(text, ':').0).Some? && Unhexlify(SplitFirst(text, ':').1).Some?) ==>
      r == decipher(Unhexlify(SplitFirst(text, ':').0).value, Unhexlify(SplitFirst(text, ':').1).value)
  {
    if text == "" then Some("")
    else if ':' !in text then None
    else
      var (ivHex, cipherHex) := SplitFirst(text, ':');
      if |ivHex| != 2 * IvLength then None
      else
        match (Unhexlify(ivHex), Unhexlify(cipherHex))
        case (Some(iv), Some(ciphertext)) => decipher(iv, ciphertext)
        case _ => None
  }

  /**
   * The stored format round-trips: a value written as `hex(iv) ":" hex(ciphertext)` with
   * a 16-byte vector decrypts to whatever the cipher makes of that vector and ciphertext.
   */
  lemma DecryptStoredFormat(iv: seq<byte>, ciphertext: seq<byte>, decipher: Decipher)
    requires |iv| == IvLength
    ensures DecryptPassword(Hexlify(iv) + ":" + Hexlify(ciphertext), decipher) == decipher(iv, ciphertext)
  {
    var text := Hexlify(iv) + ":" + Hexlify(ciphertext);
    HexlifyHasNoColon(iv);
    assert text[|Hexlify(iv)|] == ':';
    SplitFirstUnique(text, ':', Hexlify(iv), Hexlify(ciphertext));
    UnhexlifyHexlify(iv);
    UnhexlifyHexlify(ciphertext);
  }

  /**
   * Only the first colon splits: a colon further on belongs to the ciphertext part, whose
   * hex decoding then fails, so the password is `None`.
   */
  lemma LaterColonFails(ivHex: string, rest: string, decipher: Decipher)
    requires ':' !in ivHex && ':' in rest
    ensures DecryptPassword(ivHex + ":" + rest, decipher).None?
  {
    var text := ivHex + ":" + rest;
    assert text[|ivHex|] == ':';
    SplitFirstUnique(text, ':', ivHex, rest);
    var i :| 0 <= i < |rest| && rest[i] == ':';
    assert !IsHexDigit(rest[i]);
  }

  /** A vector part of the wrong length is refused before any decoding. */
  lemma WrongIvLengthFails(ivHex: string, rest: string, decipher: Decipher)
    requires ':' !in ivHex && |ivHex| != 2 * IvLength
    ensures DecryptPassword(ivHex + ":" + rest, decipher).None?
  {
    var text := ivHex + ":" + rest;
    assert text[|ivHex|] == ':';
    SplitFirstUnique(text, ':', ivHex, rest);
  }
}
