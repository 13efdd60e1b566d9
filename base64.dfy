/**
 * The byte <-> text codec used by the relayed transport: the base 64 encoding of
 * RFC 4648, section 4 (standard alphabet, `=` padding), as produced by `btoa` and
 * consumed by `atob` on the client (lib/client-helpers.js:2-18), and as decoded by
 * Node's `Buffer.from(text, 'base64')` on the server (lib/service.js:23-28).
 */
module Base64 {
  import opened Wrappers

  type byte = b: int | 0 <= b < 256
  type sextet = v: int | 0 <= v < 64

  /** `base64Encode` turns at most this many bytes into a binary string per call. */
  const GroupSize: nat := 0x8000

  // ---------------------------------------------------------------------------
  // The alphabet (RFC 4648, section 4, table 1)
  // ---------------------------------------------------------------------------

  predicate IsSymbol(c: char) {
    ('A' <= c <= 'Z') || ('a' <= c <= 'z') || ('0' <= c <= '9') || c == '+' || c == '/'
  }

  predicate AllSymbols(s: string) {
    forall i :: 0 <= i < |s| ==> IsSymbol(s[i])
  }

  function ValueOf(c: char): sextet
    requires IsSymbol(c)
  {
    if 'A' <= c <= 'Z' then c as int - 'A' as int
    else if 'a' <= c <= 'z' then c as int - 'a' as int + 26
    else if '0' <= c <= '9' then c as int - '0' as int + 52
    else if c == '+' then 62
    else 63
  }

  /** The symbol for a 6-bit value; it is a symbol of the alphabet and decodes back to `v`. */
  function Symbol(v: sextet): (c: char)
    ensures IsSymbol(c) && ValueOf(c) == v
  {
    if v < 26 then ('A' as int + v) as char
    else if v < 52 then ('a' as int + (v - 26)) as char
    else if v < 62 then ('0' as int + (v - 52)) as char
    else if v == 62 then '+'
    else '/'
  }

  // ---------------------------------------------------------------------------
  // Binary strings: one char per byte, as built by String.fromCharCode
  // ---------------------------------------------------------------------------

  predicate IsLatin1(s: string) {
    forall i :: 0 <= i < |s| ==> s[i] as int < 256
  }

  function Latin1(b: seq<byte>): (s: string)
    ensures |s| == |b| && IsLatin1(s)
    ensures forall i :: 0 <= i < |b| ==> s[i] as int == b[i]
  {
    seq(|b|, i requires 0 <= i < |b| => b[i] as char)
  }

  function CharCodes(s: string): (b: seq<byte>)
    requires IsLatin1(s)
    ensures |b| == |s|
    ensures forall i :: 0 <= i < |s| ==> b[i] == s[i] as int
  {
    seq(|s|, i requires 0 <= i < |s| => s[i] as int)
  }

  lemma CharCodesOfLatin1(b: seq<byte>)
    ensures CharCodes(Latin1(b)) == b
  {
    var s := Latin1(b);
    assert forall i :: 0 <= i < |b| ==> CharCodes(s)[i] == b[i];
  }

  lemma Latin1Append(x: seq<byte>, y: seq<byte>)
    ensures Latin1(x + y) == Latin1(x) + Latin1(y)
  {
    assert forall i :: 0 <= i < |x + y| ==> Latin1(x + y)[i] == (Latin1(x) + Latin1(y))[i];
  }

  /** Concatenation of a list of strings, as `Array.prototype.join('')`. */
  function Join(parts: seq<string>): string {
    if parts == [] then "" else Join(parts[..|parts| - 1]) + parts[|parts| - 1]
  }

  // ---------------------------------------------------------------------------
  // Encoding
  // ---------------------------------------------------------------------------

  function Padding(n: nat): string {
    if n % 3 == 1 then "==" else if n % 3 == 2 then "=" else ""
  }

  /** The 6-bit values of the encoding, before padding: each full group of
      three bytes gives four values; a final group of one byte gives two, of two
      bytes gives three (the missing low bits are zero). */
  function EncodeSextets(b: seq<byte>): (v: seq<sextet>)
    ensures |v| == 4 * (|b| / 3) + (if |b| % 3 == 0 then 0 else |b| % 3 + 1)
    decreases |b|
  {
    if |b| == 0 then []
    else if |b| == 1 then [b[0] / 4, (b[0] % 4) * 16]
    else if |b| == 2 then [b[0] / 4, (b[0] % 4) * 16 + b[1] / 16, (b[1] % 16) * 4]
    else [b[0] / 4, (b[0] % 4) * 16 + b[1] / 16, (b[1] % 16) * 4 + b[2] / 64, b[2] % 64] + EncodeSextets(b[3..])
  }

  function Symbols(v: seq<sextet>): (s: string)
    ensures |s| == |v| && AllSymbols(s)
    ensures forall i :: 0 <= i < |v| ==> s[i] == Symbol(v[i])
  {
    seq(|v|, i requires 0 <= i < |v| => Symbol(v[i]))
  }

  /** The encoding without its `=` padding. */
  function EncodeBare(b: seq<byte>): (s: string)
    ensures |s| % 4 != 1 && (|s| + |Padding(|b|)|) % 4 == 0
  {
    Symbols(EncodeSextets(b))
  }

  /** Base 64 encoding with padding: the output is a whole number of 4-symbol quanta. */
  function Encode(b: seq<byte>): (s: string)
    ensures |s| % 4 == 0
  {
    EncodeBare(b) + Padding(|b|)
  }

  /** WHATWG `btoa`: a string with a code point above U+00FF is refused
      (InvalidCharacterError); otherwise its code points are encoded as bytes. */
  function Btoa(s: string): (r: Option<string>)
    ensures r.Some? <==> IsLatin1(s)
    ensures r.Some? ==> r.value == Encode(CharCodes(s))
  {
    if IsLatin1(s) then Some(Encode(CharCodes(s))) else None
  }

  /**
   * `base64Encode` (lib/client-helpers.js:2-10): the bytes are turned into a
   * binary string 0x8000 bytes at a time, the pieces are joined and the result
   * goes through `btoa`. Splitting into groups changes nothing: the result is
   * the encoding of the whole byte sequence.
   */
  method Base64Encode(bytes: seq<byte>) returns (encoded: string)
    ensures encoded == Encode(bytes)
  {
    var pieces: seq<string> := [];
    var i := 0;
    while i < |bytes|
      invariant 0 <= i
      invariant Join(pieces) == Latin1(bytes[..if i <= |bytes| then i else |bytes|])
    {
      var end := if i + GroupSize <= |bytes| then i + GroupSize else |bytes|;
      Latin1Append(bytes[..i], bytes[i..end]);
      assert bytes[..i] + bytes[i..end] == bytes[..end];
      pieces := pieces + [Latin1(bytes[i..end])];
      i := i + GroupSize;
    }
    assert bytes[..|bytes|] == bytes;
    var joined := Join(pieces);
    CharCodesOfLatin1(bytes);
    var r := Btoa(joined);
    encoded := r.value;
  }

  // ---------------------------------------------------------------------------
  // Decoding
  // ---------------------------------------------------------------------------

  function Sextets(s: string): (v: seq<sextet>)
    requires AllSymbols(s)
    ensures |v| == |s|
    ensures forall i :: 0 <= i < |s| ==> v[i] == ValueOf(s[i])
  {
    seq(|s|, i requires 0 <= i < |s| => ValueOf(s[i]))
  }

  function High(v0: sextet, v1: sextet): byte { v0 * 4 + v1 / 16 }
  function Middle(v1: sextet, v2: sextet): byte { (v1 % 16) * 16 + v2 / 4 }
  function Low(v2: sextet, v3: sextet): byte { (v2 % 4) * 64 + v3 }

  /** Groups of four 6-bit values give three bytes; a final group of two gives
      one byte, of three gives two, and a lone final value gives nothing. */
  function DecodeSextets(v: seq<sextet>): (b: seq<byte>)
    ensures |b| == 3 * |v| / 4
    decreases |v|
  {
    if |v| < 2 then []
    else if |v| == 2 then [High(v[0], v[1])]
    else if |v| == 3 then [High(v[0], v[1]), Middle(v[1], v[2])]
    else [High(v[0], v[1]), Middle(v[1], v[2]), Low(v[2], v[3])] + DecodeSextets(v[4..])
  }

  predicate IsAsciiWhitespace(c: char) {
    c == ' ' || c == '\t' || c == '\n' || c == '\r' || c as int == 12
  }

  /** Drops the ASCII whitespace of `s`: nothing else is dropped, added or moved. */
  function RemoveWhitespace(s: string): (r: string)
    ensures |r| <= |s|
    ensures forall i :: 0 <= i < |r| ==> !IsAsciiWhitespace(r[i])
    ensures (forall i :: 0 <= i < |s| ==> !IsAsciiWhitespace(s[i])) ==> r == s
    ensures forall i :: 0 <= i < |s| && IsAsciiWhitespace(s[i]) ==> |r| < |s|
  {
    if s == [] then []
    else (if IsAsciiWhitespace(s[0]) then [] else [s[0]]) + RemoveWhitespace(s[1..])
  }

  /**
   * Dropping whitespace works piece by piece, so with the contract above (a
   * character that is not whitespace is kept, one that is goes) the result is
   * exactly the non-whitespace characters of the text, in their order.
   */
  lemma {:induction false} RemoveWhitespaceAppend(a: string, b: string)
    ensures RemoveWhitespace(a + b) == RemoveWhitespace(a) + RemoveWhitespace(b)
    decreases |a|
  {
    if a == [] {
      assert a + b == b;
    } else {
      assert (a + b)[0] == a[0] && (a + b)[1..] == a[1..] + b;
      RemoveWhitespaceAppend(a[1..], b);
    }
  }

  /** A single character is dropped exactly when it is whitespace. */
  lemma RemoveWhitespaceOne(c: char)
    ensures RemoveWhitespace([c]) == if IsAsciiWhitespace(c) then [] else [c]
  {
    assert [c][1..] == [];
  }

  function StripPadding(s: string): string {
    if |s| >= 2 && s[|s| - 2] == '=' && s[|s| - 1] == '=' then s[..|s| - 2]
    else if |s| >= 1 && s[|s| - 1] == '=' then s[..|s| - 1]
    else s
  }

  /**
   * WHATWG forgiving-base64 decode, which `atob` runs: ASCII whitespace is
   * dropped, one or two final `=` are dropped when the length is a multiple of
   * four, a length of the form 4k+1 or a symbol outside the alphabet fails
   * (InvalidCharacterError). The result is a binary string.
   */
  function Atob(s: string): (r: Option<string>)
    ensures r.Some? ==> IsLatin1(r.value)
  {
    var d := RemoveWhitespace(s);
    var d := if |d| % 4 == 0 then StripPadding(d) else d;
    if |d| % 4 == 1 || !AllSymbols(d) then None
    else Some(Latin1(DecodeSextets(Sextets(d))))
  }

  /** `base64Decode` (lib/client-helpers.js:12-18): `atob`, then one byte per char code. */
  function Base64Decode(encoded: string): (r: Option<seq<byte>>)
    ensures r.Some? <==> Atob(encoded).Some?
  {
    match Atob(encoded)
    case None => None
    case Some(text) => Some(CharCodes(text))
  }

  lemma GroupRoundTrip(b0: byte, b1: byte, b2: byte)
    ensures High(b0 / 4, (b0 % 4) * 16 + b1 / 16) == b0
    ensures Middle((b0 % 4) * 16 + b1 / 16, (b1 % 16) * 4 + b2 / 64) == b1
    ensures Low((b1 % 16) * 4 + b2 / 64, b2 % 64) == b2
  {
  }

  lemma {:induction false} DecodeEncodeSextets(b: seq<byte>)
    ensures DecodeSextets(EncodeSextets(b)) == b
    decreases |b|
  {
    if |b| == 1 {
      GroupRoundTrip(b[0], 0, 0);
    } else if |b| == 2 {
      GroupRoundTrip(b[0], b[1], 0);
    } else if |b| >= 3 {
      var v := EncodeSextets(b);
      assert v[4..] == EncodeSextets(b[3..]);
      GroupRoundTrip(b[0], b[1], b[2]);
      DecodeEncodeSextets(b[3..]);
      assert b == b[..3] + b[3..];
    }
  }

  lemma SextetsOfSymbols(v: seq<sextet>)
    ensures Sextets(Symbols(v)) == v
  {
  }

  lemma DecodeEncodeBare(b: seq<byte>)
    ensures DecodeSextets(Sextets(EncodeBare(b))) == b
  {
    SextetsOfSymbols(EncodeSextets(b));
    DecodeEncodeSextets(b);
  }

  lemma StripPaddingOfEncode(b: seq<byte>)
    ensures StripPadding(Encode(b)) == EncodeBare(b)
  {
    var bare := EncodeBare(b);
    var s := Encode(b);
    if |b| % 3 == 1 {
      assert s[..|s| - 2] == bare;
    } else if |b| % 3 == 2 {
      assert s[|s| - 2] == bare[|bare| - 1];
      assert s[..|s| - 1] == bare;
    } else if |bare| > 0 {
      assert s[|s| - 1] == bare[|bare| - 1];
    }
  }

  lemma NoWhitespaceInEncode(b: seq<byte>)
    ensures RemoveWhitespace(Encode(b)) == Encode(b)
  {
    var s := Encode(b);
    assert forall i :: 0 <= i < |s| ==> IsSymbol(s[i]) || s[i] == '=';
  }

  /** `atob` undoes the encoding: the binary string of the original bytes comes back. */
  lemma AtobEncode(b: seq<byte>)
    ensures Atob(Encode(b)) == Some(Latin1(b))
  {
    var s := Encode(b);
    NoWhitespaceInEncode(b);
    StripPaddingOfEncode(b);
    var bare := EncodeBare(b);
    assert StripPadding(s) == bare && |bare| % 4 != 1 && AllSymbols(bare);
    DecodeEncodeBare(b);
    assert Atob(s) == Some(Latin1(DecodeSextets(Sextets(bare))));
  }

  /** The codec round trip the relayed transport relies on: decoding the
      encoding of any byte sequence gives those bytes back. */
  lemma Base64RoundTrip(b: seq<byte>)
    ensures Base64Decode(Encode(b)) == Some(b)
  {
    AtobEncode(b);
    CharCodesOfLatin1(b);
  }

  // ---------------------------------------------------------------------------
  // The server's decoder: Node's Buffer.from(text, 'base64')
  // ---------------------------------------------------------------------------

  /** Node also accepts the URL-safe symbols `-` and `_` for 62 and 63. */
  predicate IsNodeSymbol(c: char) {
    IsSymbol(c) || c == '-' || c == '_'
  }

  function NodeValueOf(c: char): sextet
    requires IsNodeSymbol(c)
  {
    if c == '-' then 62 else if c == '_' then 63 else ValueOf(c)
  }

  /** Characters outside the alphabet are skipped; decoding stops at the first `=`. */
  function NodeSextets(s: string): (v: seq<sextet>)
    ensures |v| <= |s|
  {
    if s == [] || s[0] == '=' then []
    else if IsNodeSymbol(s[0]) then [NodeValueOf(s[0])] + NodeSextets(s[1..])
    else NodeSextets(s[1..])
  }

  /**
   * The server's default `atob` (lib/service.js:23-25). It never fails, and it
   * gives at most three bytes for every four characters.
   */
  function NodeDecode(s: string): (b: seq<byte>)
    ensures 4 * |b| <= 3 * |s|
  {
    DecodeSextets(NodeSextets(s))
  }

  lemma {:induction false} NodeSextetsOfSymbols(s: string, tail: string)
    requires AllSymbols(s)
    requires tail == [] || tail[0] == '='
    ensures NodeSextets(s + tail) == Sextets(s)
    decreases |s|
  {
    if s != [] {
      assert (s + tail)[1..] == s[1..] + tail;
      NodeSextetsOfSymbols(s[1..], tail);
    } else {
      assert s + tail == tail;
    }
  }

  /** The server decodes what the client encoded back to the client's bytes. */
  lemma NodeRoundTrip(b: seq<byte>)
    ensures NodeDecode(Encode(b)) == b
  {
    NodeSextetsOfSymbols(EncodeBare(b), Padding(|b|));
    DecodeEncodeBare(b);
  }
}
