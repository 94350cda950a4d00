/**
 * Content digests (`md5`, `md5_file` in ones-core/src/application.rs).
 * The MD5 compression itself is a parameter of the model; what is modelled is
 * the streaming hasher, the lowercase hexadecimal rendering that `{:x}` gives
 * the 16-byte digest, and the UTF-8 bytes a `&str` is hashed as.
 */
module Digest {
  import opened Wrappers
  import opened Types

  /** A 16-byte MD5 digest. */
  type Digest = d: seq<byte> | |d| == 16 witness seq(16, i => 0)

  /** The MD5 function of the md5 crate, taken as given. */
  type Md5 = seq<byte> -> Digest

  /** The lowercase hexadecimal digit for a value below 16. */
  function HexDigit(k: nat): char
    requires k < 16
  {
    if k < 10 then ('0' as int + k) as char else ('a' as int + k - 10) as char
  }

  /** The value of a lowercase hexadecimal digit, or `None` for any other character. */
  function DigitValue(c: char): (r: Option<nat>)
    ensures r.Some? ==> r.value < 16 && HexDigit(r.value) == c
    ensures forall k: nat :: k < 16 && HexDigit(k) == c ==> r == Some(k)
  {
    if '0' <= c <= '9' then Some(c as int - '0' as int)
    else if 'a' <= c <= 'f' then Some(c as int - 'a' as int + 10)
    else None
  }

  /** `format!("{:x}", digest)`: two lowercase digits per byte, high nibble first. */
  function Hex(d: seq<byte>): (r: string)
    ensures |r| == 2 * |d|
    ensures forall i :: 0 <= i < |r| ==> DigitValue(r[i]).Some?
  {
    if d == [] then "" else [HexDigit(d[0] / 16), HexDigit(d[0] % 16)] + Hex(d[1..])
  }

  /** Parsing a hexadecimal string back into bytes; the partner of `Hex`. */
  function Unhex(s: string): (r: Option<seq<byte>>)
    ensures r.Some? ==> 2 * |r.value| == |s|
  {
    if |s| == 0 then Some([])
    else if |s| == 1 then None
    else
      match (DigitValue(s[0]), DigitValue(s[1]), Unhex(s[2..]))
      case (Some(hi), Some(lo), Some(rest)) => Some([16 * hi + lo] + rest)
      case _ => None
  }

  lemma {:induction false} UnhexHex(d: seq<byte>)
    ensures Unhex(Hex(d)) == Some(d)
  {
    if d != [] {
      var s := Hex(d);
      assert s[2..] == Hex(d[1..]);
      UnhexHex(d[1..]);
      assert DigitValue(s[0]) == Some(d[0] / 16);
      assert DigitValue(s[1]) == Some(d[0] % 16);
      assert d == [d[0]] + d[1..];
    }
  }

  /** Two hexadecimal renderings are equal exactly when the bytes are. */
  lemma HexInjective(a: seq<byte>, b: seq<byte>)
    ensures Hex(a) == Hex(b) <==> a == b
  {
    UnhexHex(a);
    UnhexHex(b);
  }

  /** The streaming hasher, described by the bytes it has absorbed so far. */
  datatype Hasher = Hasher(absorbed: seq<byte>) {
    function Update(chunk: seq<byte>): Hasher
    {
      Hasher(absorbed + chunk)
    }

    function Finalize(md5: Md5): Digest
    {
      md5(absorbed)
    }
  }

  /** The hash code the source stores and compares: the hex MD5 of some bytes. */
  function Md5Hex(md5: Md5, content: seq<byte>): (r: string)
    ensures |r| == 32
    ensures forall i :: 0 <= i < |r| ==> DigitValue(r[i]).Some?
  {
    Hex(md5(content))
  }

  /** Comparing hash codes as strings is the same as comparing digests. */
  lemma DigestCompare(md5: Md5, a: seq<byte>, b: seq<byte>)
    ensures Md5Hex(md5, a) == Md5Hex(md5, b) <==> md5(a) == md5(b)
  {
    HexInjective(md5(a), md5(b));
  }

  /** The UTF-8 encoding of one Unicode scalar value. */
  function Utf8Char(c: char): (r: seq<byte>)
    ensures 1 <= |r| <= 4
    ensures (c as int < 0x80) == (|r| == 1)
  {
    var n := c as int;
    if n < 0x80 then [n]
    else if n < 0x800 then [0xC0 + n / 0x40, 0x80 + n % 0x40]
    else if n < 0x1_0000 then [0xE0 + n / 0x1000, 0x80 + (n / 0x40) % 0x40, 0x80 + n % 0x40]
    else [0xF0 + n / 0x4_0000, 0x80 + (n / 0x1000) % 0x40, 0x80 + (n / 0x40) % 0x40, 0x80 + n % 0x40]
  }

  /** The bytes of a Rust `&str`. */
  function Utf8(s: string): (r: seq<byte>)
    ensures |s| <= |r| <= 4 * |s|
    ensures (forall i :: 0 <= i < |s| ==> s[i] as int < 0x80) ==>
              |r| == |s| && forall i :: 0 <= i < |s| ==> r[i] == s[i] as int
  {
    if s == [] then [] else Utf8Char(s[0]) + Utf8(s[1..])
  }

  /** `md5(content: &str)`: the hex MD5 of the string's UTF-8 bytes. */
  function Md5Str(md5: Md5, content: string): (r: string)
    ensures |r| == 32
    ensures r == Md5Hex(md5, Utf8(content))
  {
    var hasher := Hasher([]).Update(Utf8(content));
    assert hasher.absorbed == Utf8(content);
    Hex(hasher.Finalize(md5))
  }
}
