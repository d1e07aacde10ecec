/**
 What percent-encoded text looks like and what it stands for, character by character: which characters the encoder
 leaves alone, and what the decoder makes of any text, escapes or not.
*/
module UriText {
  import opened Chunks
  import opened Ascii
  import opened BodyFraming
  import opened SizeLines
  import opened UriCodec

  const MARKS := "-._~"

  /** The unreserved characters of section 2.3 of RFC 3986. */
  predicate Plain(c: char) {
    c in SMALLS || c in CAPITALS || c in DECIMALS || c in MARKS
  }

  lemma PlainIff(c: char)
    ensures Plain(c) <==> Unreserved(c)
  {
    SmallIff(c);
    CapitalIff(c);
    DecimalIff(c);
    hide SMALLS, CAPITALS, DECIMALS;
  }

  /** A percent sign and two capital digits of value `v`. */
  ghost predicate IsEscape(s: Bytes, v: int) {
    |s| == 3 && s[0] == '%' && exists a, b ::
      0 <= a < 16 && 0 <= b < 16 && s[1] == CAPITAL_DIGITS[a] && s[2] == CAPITAL_DIGITS[b] && v == 16 * a + b
  }

  /** An unreserved character stands for itself; a space may be a plus; all else is an escape. */
  lemma CharEncoded(c: char, spaceAsPlus: bool)
    requires c as int < 256
    ensures var e := EncodeChar(c, spaceAsPlus);
            if Plain(c) then e == [c] else if c == ' ' && spaceAsPlus then e == "+" else IsEscape(e, c as int)
  {
    PlainIff(c);
    var a, b := c as int / 16, c as int % 16;
    SmallDigit(a);
    SmallDigit(b);
    assert Escape(c)[1] == CAPITAL_DIGITS[a] && Escape(c)[2] == CAPITAL_DIGITS[b];
    hide Plain, CAPITAL_DIGITS;
  }

  /** The codes of the characters, one behind the other. */
  lemma {:induction false} EncodedInPieces(s: Bytes, spaceAsPlus: bool) returns (codes: seq<Bytes>)
    requires Octets(s)
    ensures |codes| == |s| && Encode(s, spaceAsPlus) == Concat(codes)
    ensures forall i :: 0 <= i < |s| ==>
              if Plain(s[i]) then codes[i] == [s[i]] else if s[i] == ' ' && spaceAsPlus then codes[i] == "+"
              else IsEscape(codes[i], s[i] as int)
  {
    hide Plain, IsEscape, EncodeChar;
    if s == [] {
      codes := [];
    } else {
      CharEncoded(s[0], spaceAsPlus);
      var rest := EncodedInPieces(s[1..], spaceAsPlus);
      codes := [EncodeChar(s[0], spaceAsPlus)] + rest;
      assert codes[1..] == rest;
    }
  }

  // ---------------------------------------------------------------- decoding any text

  /** A character, or an escape of two digits in either case. */
  datatype Piece = Literal(c: char) | Escaping(high: char, low: char)

  function PieceText(p: Piece): Bytes {
    match p
    case Literal(c) => [c]
    case Escaping(high, low) => ['%', high, low]
  }

  function Text(ps: seq<Piece>): Bytes {
    if ps == [] then [] else PieceText(ps[0]) + Text(ps[1..])
  }

  /** Two digits come first. */
  ghost predicate TwoDigits(s: Bytes) {
    |s| >= 2 && StartsWithDigit(s) && StartsWithDigit(s[1..])
  }

  /** No escape is written as three characters. */
  ghost predicate Proper(ps: seq<Piece>) {
    forall i :: 0 <= i < |ps| ==>
      match ps[i]
      case Literal(c) => !(c == '%' && TwoDigits(Text(ps[i + 1..])))
      case Escaping(high, low) => StartsWithDigit([high]) && StartsWithDigit([low])
  }

  /** An escape stands for the character of its value; a plus for a space, if the mode is not 0; all else for itself. */
  ghost predicate Denotes(p: Piece, c: char, plus: int) {
    match p
    case Literal(d) => c == if d == '+' && plus != 0 then ' ' else d
    case Escaping(high, low) => exists a: nat, b: nat :: Stands(high, a) && Stands(low, b) && c as int == 16 * a + b
  }

  lemma EscapedIff(s: Bytes)
    ensures Escaped(s) <==> s != [] && s[0] == '%' && TwoDigits(s[1..])
  {
    if |s| >= 3 {
      StartsIff(s[1..]);
      StartsIff(s[1..][1..]);
      assert s[1..][1..][0] == s[2];
    }
    hide StartsWithDigit;
  }

  lemma OctetDenotes(high: char, low: char, plus: int)
    requires IsHex(high) && IsHex(low)
    ensures Denotes(Escaping(high, low), Octet(high, low), plus)
  {
    StandsIs(high, 0);
    StandsIs(low, 0);
    assert Stands(high, HexDigit(high)) && Stands(low, HexDigit(low));
    hide Stands;
  }

  /** Every text is decoded piece by piece, whatever the mode makes of a question mark. */
  lemma {:induction false} DecodedInPieces(s: Bytes, plus: int) returns (ps: seq<Piece>)
    ensures s == Text(ps) && Proper(ps) && |Decode(s, plus)| == |ps|
    ensures forall i :: 0 <= i < |ps| ==> Denotes(ps[i], Decode(s, plus)[i], plus)
    decreases |s|
  {
    hide Proper, Denotes, TwoDigits, Octet, IsHex;
    if s == [] {
      ps := [];
      NothingProper();
    } else {
      EscapedIff(s);
      var k, mode := if Escaped(s) then 3 else 1, if Escaped(s) then plus else AfterChar(s[0], plus);
      var p := if Escaped(s) then Escaping(s[1], s[2]) else Literal(s[0]);
      var rest := DecodedInPieces(s[k..], mode);
      ps := [p] + rest;
      assert ps[1..] == rest && s == s[..k] + s[k..] && s[..k] == PieceText(p);
      Prepends(p, rest);
      SameMode(rest, Decode(s[k..], mode), mode, plus);
      if Escaped(s) { OctetDenotes(s[1], s[2], plus); EscapeDigits(s); } else { CharDenotes(s[0], plus); }
    }
  }

  lemma NothingProper()
    ensures Proper([])
  {
  }

  lemma Prepends(p: Piece, rest: seq<Piece>)
    requires Proper(rest)
    requires p.Literal? ==> !(p.c == '%' && TwoDigits(Text(rest)))
    requires p.Escaping? ==> IsHex(p.high) && IsHex(p.low)
    ensures Proper([p] + rest)
  {
    var ps := [p] + rest;
    if p.Escaping? {
      StartsIff([p.high]);
      StartsIff([p.low]);
    }
    assert ps[0 + 1..] == rest;
    forall i | 1 <= i < |ps|
      ensures ps[i] == rest[i - 1] && ps[i + 1..] == rest[i - 1 + 1..]
    {
    }
    hide TwoDigits, StartsWithDigit, Text;
  }

  /** A question mark only turns the mode on that is on already. */
  lemma SameMode(ps: seq<Piece>, s: Bytes, mode: int, plus: int)
    requires |s| == |ps| && (mode != 0 <==> plus != 0) && forall i :: 0 <= i < |ps| ==> Denotes(ps[i], s[i], mode)
    ensures forall i :: 0 <= i < |ps| ==> Denotes(ps[i], s[i], plus)
  {
  }

  lemma CharDenotes(c: char, plus: int)
    ensures Denotes(Literal(c), DecodeChar(c, plus), plus)
  {
  }

  lemma EscapeDigits(s: Bytes)
    requires Escaped(s)
    ensures IsHex(s[1]) && IsHex(s[2])
  {
  }
}
