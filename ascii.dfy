/** Bytes and the ASCII codec that `str.encode('ascii')` applies to text payloads. */
module Ascii {
  import opened Wrappers

  /** One octet, as held in a Python `bytes` object. */
  newtype byte = x: int | 0 <= x < 256

  /** Every character of `s` lies in the 7-bit ASCII range. */
  predicate IsAscii(s: string)
  {
    forall i :: 0 <= i < |s| ==> s[i] as int < 128
  }

  /** Every octet of `b` lies in the 7-bit ASCII range. */
  predicate IsAsciiBytes(b: seq<byte>)
  {
    forall i :: 0 <= i < |b| ==> b[i] < 128
  }

  /** The bytes of an encoded text, or the index where encoding failed. */
  type Encoding = Completion<seq<byte>, nat>

  /**
   * `s.encode('ascii')`: one byte per character, each equal to the character's
   * code point; the first character outside the range makes the encoding fail,
   * and the failure carries that character's index (the `start` of Python's
   * UnicodeEncodeError).
   */
  function Encode(s: string): (r: Encoding)
    ensures r.Returned? <==> IsAscii(s)
    ensures r.Returned? ==>
              |r.value| == |s| && forall i :: 0 <= i < |s| ==> r.value[i] as int == s[i] as int
    ensures r.Raised? ==>
              r.error < |s| && s[r.error] as int >= 128 &&
              forall i :: 0 <= i < r.error ==> s[i] as int < 128
  {
    if s == [] then Returned([])
    else if s[0] as int >= 128 then Raised(0)
    else
      match Encode(s[1..])
      case Returned(tail) => Returned([s[0] as int as byte] + tail)
      case Raised(k) => Raised(k + 1)
  }

  /** The inverse of `Encode` on ASCII bytes: one character per octet. */
  function Decode(b: seq<byte>): (r: string)
    requires IsAsciiBytes(b)
    ensures |r| == |b| && IsAscii(r)
    ensures forall i :: 0 <= i < |b| ==> r[i] as int == b[i] as int
  {
    if b == [] then [] else [b[0] as int as char] + Decode(b[1..])
  }

  /** Encoding ASCII text and decoding the bytes gives the text back. */
  lemma DecodeEncode(s: string)
    requires IsAscii(s)
    ensures Encode(s).Returned? && IsAsciiBytes(Encode(s).value)
    ensures Decode(Encode(s).value) == s
  {
  }

  /** Decoding ASCII bytes and encoding the text gives the bytes back. */
  lemma EncodeDecode(b: seq<byte>)
    requires IsAsciiBytes(b)
    ensures Encode(Decode(b)).Returned? && Encode(Decode(b)).value == b
  {
  }
}
