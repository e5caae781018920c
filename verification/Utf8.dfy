/**
 UTF-8 as Python decodes it: strictly, or with the `surrogatepass` handler, which lets encoded
 surrogates through.
 */
module Utf8 {
  import opened Options

  newtype Byte = x: int | 0 <= x < 256

  /** A Python string as its code points. */
  type Chars = seq<nat>

  const MARK: seq<Byte> := [0xEF, 0xBB, 0xBF]
  const MARK_CHAR: nat := 0xFEFF

  predicate IsSurrogate(c: nat) {
    0xD800 <= c <= 0xDFFF
  }

  /** The text has a UTF-8 encoding. */
  predicate Encodable(text: Chars) {
    forall i :: 0 <= i < |text| ==> !IsSurrogate(text[i])
  }

  /** The code points of a text without surrogates. */
  function CodePoints(text: string): (r: Chars)
    ensures |r| == |text| && forall i :: 0 <= i < |r| ==> r[i] == text[i] as int
  {
    seq(|text|, i requires 0 <= i < |text| => text[i] as int)
  }

  predicate Continues(b: Byte) {
    0x80 <= b < 0xC0
  }

  /** The bytes after the first that its value announces; None when it cannot start a character. */
  function Following(b: Byte): Option<nat> {
    if b < 0x80 then Some(0)
    else if 0xC0 <= b < 0xE0 then Some(1)
    else if 0xE0 <= b < 0xF0 then Some(2)
    else if 0xF0 <= b < 0xF8 then Some(3)
    else None
  }

  function Bits(b: Byte): nat {
    (b % 64) as int
  }

  /** The code point of an encoded character. */
  function CodePoint(raw: seq<Byte>): nat
    requires 1 <= |raw| <= 4
  {
    var b := raw[0];
    match |raw|
    case 1 => b as int
    case 2 => (b % 32) as int * 64 + Bits(raw[1])
    case 3 => (b % 16) as int * 4096 + Bits(raw[1]) * 64 + Bits(raw[2])
    case _ => (b % 8) as int * 262144 + Bits(raw[1]) * 4096 + Bits(raw[2]) * 64 + Bits(raw[3])
  }

  /** Shortest form, no surrogate unless they pass, and not beyond the last code point. */
  predicate Permitted(c: nat, length: nat, surrogates: bool) {
    && (length == 2 ==> c >= 0x80)
    && (length == 3 ==> c >= 0x800 && (surrogates || !IsSurrogate(c)))
    && (length == 4 ==> 0x10000 <= c <= 0x10FFFF)
  }

  /** The number of bytes of the first character, or 0 when there is no valid one. */
  function FirstLength(raw: seq<Byte>, surrogates: bool): (n: nat)
    requires raw != []
    ensures n <= 4 && n <= |raw|
    ensures forall i :: 0 < i < n ==> Continues(raw[i])
  {
    var following := Following(raw[0]);
    if following.None? then 0
    else
      var n := following.value + 1;
      if n <= |raw| && (forall i :: 0 < i < n ==> Continues(raw[i])) && Permitted(CodePoint(raw[..n]), n, surrogates)
      then n else 0
  }

  function Decode(raw: seq<Byte>, surrogates: bool): Option<Chars>
    decreases |raw|
  {
    if raw == [] then Some([])
    else
      var n := FirstLength(raw, surrogates);
      if n == 0 then None
      else
        var rest := Decode(raw[n..], surrogates);
        if rest.None? then None else Some([CodePoint(raw[..n])] + rest.value)
  }

  /** What decodes strictly decodes to the same text when surrogates pass. */
  lemma {:induction false} StrictIsLenient(raw: seq<Byte>)
    requires Decode(raw, false).Some?
    ensures Decode(raw, true) == Decode(raw, false)
    decreases |raw|
  {
    if raw != [] {
      var n := FirstLength(raw, false);
      assert FirstLength(raw, true) == n;
      StrictIsLenient(raw[n..]);
    }
  }

  /** A byte-order mark is the character U+FEFF. */
  lemma MarkDecodes(raw: seq<Byte>)
    requires MARK <= raw
    ensures FirstLength(raw, false) == 3
    ensures Decode(raw, false).Some? ==> Decode(raw, false).value[..1] == [MARK_CHAR]
    ensures Decode(raw, false).Some? <==> Decode(raw[3..], false).Some?
  {
    assert raw[0] == 0xEF && raw[1] == 0xBB && raw[2] == 0xBF;
    assert CodePoint(raw[..3]) == MARK_CHAR;
  }

  /** A zero byte is a character of its own, never part of another. */
  lemma {:induction false} ZeroStays(raw: seq<Byte>, surrogates: bool)
    requires 0 in raw && Decode(raw, surrogates).Some?
    ensures 0 in Decode(raw, surrogates).value
    decreases |raw|
  {
    var n := FirstLength(raw, surrogates);
    if raw[0] == 0 {
      assert CodePoint(raw[..n]) == 0;
    } else {
      var i :| 0 <= i < |raw| && raw[i] == 0;
      assert i >= n;
      assert raw[n..][i - n] == 0;
      ZeroStays(raw[n..], surrogates);
    }
  }

  /** 0xFE and 0xFF, which start the marks of UTF-16 and little-endian UTF-32, never occur in UTF-8. */
  lemma WideMarkIsInvalid(raw: seq<Byte>, surrogates: bool)
    requires raw != [] && raw[0] >= 0xF8
    ensures Decode(raw, surrogates) == None
  {
  }

  /** ASCII decodes to itself. */
  lemma {:induction false} AsciiDecodes(raw: seq<Byte>, surrogates: bool)
    requires forall i :: 0 <= i < |raw| ==> raw[i] < 0x80
    ensures Decode(raw, surrogates).Some?
    ensures var chars := Decode(raw, surrogates).value;
            |chars| == |raw| && forall i :: 0 <= i < |raw| ==> chars[i] == raw[i] as int
  {
    if raw != [] {
      assert FirstLength(raw, surrogates) == 1 && CodePoint(raw[..1]) == raw[0] as int;
      AsciiDecodes(raw[1..], surrogates);
    }
  }
}
