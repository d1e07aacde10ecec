/**
 Percent-encoding, core/http.cpp: the encoder, the decoder that copies, and the decoder that works in place and
 leaves stale bytes behind the shrinking end.  Section 2.1 of RFC 3986.
*/
module UriCodec {
  import opened Chunks
  import opened BodyFraming

  // ---------------------------------------------------------------- specification

  /** Characters are octets. */
  predicate Octets(s: Bytes) {
    forall i :: 0 <= i < |s| ==> s[i] as int < 256
  }

  predicate Unreserved(c: char) {
    c == '-' || c == '.' || '0' <= c <= '9' || 'A' <= c <= 'Z' || c == '_' || 'a' <= c <= 'z' || c == '~'
  }

  function UpperHex(d: nat): char
    requires d < 16
  {
    if d < 10 then '0' + d as char else 'A' + (d - 10) as char
  }

  /** sprintf("%%%02X") */
  function Escape(c: char): Bytes
    requires c as int < 256
  {
    ['%', UpperHex(c as int / 16), UpperHex(c as int % 16)]
  }

  function EncodeChar(c: char, spaceAsPlus: bool): Bytes
    requires c as int < 256
  {
    if Unreserved(c) then [c] else if c == ' ' && spaceAsPlus then ['+'] else Escape(c)
  }

  function Encode(s: Bytes, spaceAsPlus: bool): Bytes
    requires Octets(s)
  {
    if s == [] then [] else EncodeChar(s[0], spaceAsPlus) + Encode(s[1..], spaceAsPlus)
  }

  predicate Escaped(s: Bytes) {
    |s| >= 3 && s[0] == '%' && IsHex(s[1]) && IsHex(s[2])
  }

  /** (char)strtol(tmp, NULL, 16) for two hexadecimal digits */
  function Octet(a: char, b: char): char
    requires IsHex(a) && IsHex(b)
  {
    (HexDigit(a) * 16 + HexDigit(b)) as char
  }

  /** What a '?' does to the mode. */
  function AfterChar(c: char, plus: int): int {
    if c == '?' && plus < 0 then 1 else plus
  }

  function DecodeChar(c: char, plus: int): char {
    if c == '+' && plus != 0 then ' ' else c
  }

  function Decode(s: Bytes, plus: int): Bytes {
    if s == [] then []
    else if Escaped(s) then [Octet(s[1], s[2])] + Decode(s[3..], plus)
    else [DecodeChar(s[0], plus)] + Decode(s[1..], AfterChar(s[0], plus))
  }

  // ---------------------------------------------------------------- round trips

  lemma OctetOfEscape(c: char)
    requires c as int < 256
    ensures Escaped(Escape(c)) && Octet(Escape(c)[1], Escape(c)[2]) == c
  {
  }

  /** The code of one character is decoded as a whole; it does not change the mode. */
  lemma DecodeCode(c: char, spaceAsPlus: bool, rest: Bytes, plus: int)
    requires c as int < 256
    ensures Decode(EncodeChar(c, spaceAsPlus) + rest, plus) ==
            [if c == ' ' && spaceAsPlus && plus == 0 then '+' else c] + Decode(rest, plus)
  {
    var code := EncodeChar(c, spaceAsPlus);
    OctetOfEscape(c);
    assert (code + rest)[|code|..] == rest && code + rest != [];
  }

  /** Without plus, decoding undoes encoding in every mode. */
  lemma {:induction false} DecodeEncode(s: Bytes, plus: int)
    requires Octets(s)
    ensures Decode(Encode(s, false), plus) == s
  {
    if s != [] {
      DecodeEncode(s[1..], plus);
      DecodeCode(s[0], false, Encode(s[1..], false), plus);
      hide Decode;
    }
  }

  /** With plus for spaces, decoding undoes encoding in every mode but 0, and there exactly without spaces. */
  lemma {:induction false} DecodeEncodePlus(s: Bytes, plus: int)
    requires Octets(s)
    ensures Decode(Encode(s, true), plus) == s <==> plus != 0 || ' ' !in s
    ensures |Decode(Encode(s, true), plus)| == |s|
  {
    if s != [] {
      DecodeEncodePlus(s[1..], plus);
      DecodeCode(s[0], true, Encode(s[1..], true), plus);
      assert s == [s[0]] + s[1..];
      hide Decode;
      var d := Decode(Encode(s, true), plus);
      assert d[1..] == Decode(Encode(s[1..], true), plus);
    }
  }

  // ---------------------------------------------------------------- the documented mode -1

  /** Mode -1 as core/http.h describes it: a plus is a space only once a '?' has been seen. */
  function Documented(s: Bytes, seen: bool): Bytes {
    if s == [] then []
    else if Escaped(s) then [Octet(s[1], s[2])] + Documented(s[3..], seen)
    else [if s[0] == '+' && seen then ' ' else s[0]] + Documented(s[1..], seen || s[0] == '?')
  }

  /** A plus with no '?' before it. */
  predicate EarlyPlus(s: Bytes) {
    exists i :: 0 <= i < |s| && s[i] == '+' && '?' !in s[..i]
  }

  lemma EarlyPlusBehind(s: Bytes, k: nat)
    requires k <= |s| && forall i :: 0 <= i < k ==> s[i] != '+' && s[i] != '?'
    ensures EarlyPlus(s) <==> EarlyPlus(s[k..])
  {
    var t := s[k..];
    assert forall i :: k <= i < |s| ==> s[i] == t[i - k];
    forall i | 0 <= i < |t| && t[i] == '+'
      ensures '?' in s[..i + k] <==> '?' in t[..i]
    {
      assert s[..i + k] == s[..k] + t[..i];
      assert '?' !in s[..k];
    }
    if EarlyPlus(s) {
      var i :| 0 <= i < |s| && s[i] == '+' && '?' !in s[..i];
      assert t[i - k] == '+' && s[..i - k + k] == s[..i];
    }
    if EarlyPlus(t) {
      var i :| 0 <= i < |t| && t[i] == '+' && '?' !in t[..i];
      assert s[i + k] == '+';
    }
  }

  lemma {:induction false} SeenAgrees(s: Bytes)
    ensures Decode(s, 1) == Documented(s, true)
  {
    if s != [] {
      if Escaped(s) { SeenAgrees(s[3..]); } else { SeenAgrees(s[1..]); }
    }
  }

  lemma SameFirst(a: char, x: Bytes, b: char, y: Bytes)
    ensures [a] + x == [b] + y <==> a == b && x == y
  {
    assert ([a] + x)[1..] == x && ([b] + y)[1..] == y;
  }

  /** The code decodes as documented if and only if no plus stands before the first '?'. */
  lemma {:induction false} DocumentedIff(s: Bytes, plus: int)
    requires plus < 0
    ensures Decode(s, plus) == Documented(s, false) <==> !EarlyPlus(s)
  {
    if s != [] {
      var k := if Escaped(s) then 3 else 1;
      var a := if Escaped(s) then Octet(s[1], s[2]) else DecodeChar(s[0], plus);
      var b := if Escaped(s) then Octet(s[1], s[2]) else s[0];
      if s[0] == '?' {
        SeenAgrees(s[1..]);
        assert !EarlyPlus(s);
      } else {
        DocumentedIff(s[k..], plus);
        SameFirst(a, Decode(s[k..], plus), b, Documented(s[k..], false));
        if s[0] == '+' {
          assert '?' !in s[..0];
        } else {
          EarlyPlusBehind(s, k);
        }
      }
    }
  }

  /** An input on which they differ. */
  lemma DocumentedFails()
    ensures Decode("+?", -1) == " ?" && Documented("+?", false) == "+?"
  {
    assert "+?"[1..] == "?" && "?"[1..] == [];
    assert Decode("?", -1) == "?" && Documented("?", false) == "?";
  }

  // ---------------------------------------------------------------- the code

  /** http_encode_uri */
  method EncodeUri(uri: Bytes, spaceAsPlus: bool) returns (str: Bytes)
    requires Octets(uri)
    ensures str == Encode(uri, spaceAsPlus)
  {
    str := [];
    assert uri[0..] == uri;
    for i := 0 to |uri|
      invariant str + Encode(uri[i..], spaceAsPlus) == Encode(uri, spaceAsPlus)
    {
      var c := uri[i];
      assert uri[i..][1..] == uri[i + 1..];
      Assoc(str, EncodeChar(c, spaceAsPlus), Encode(uri[i + 1..], spaceAsPlus));
      if Unreserved(c) {
        str := str + [c];
      } else if c == ' ' && spaceAsPlus {
        str := str + ['+'];
      } else {
        str := str + Escape(c);
      }
    }
  }

  /**
   What the decoders need of the memory behind position `len` when they have got to position `i`: where they
   look past the end, no escape may straddle it.
  */
  predicate CleanFrom(mem: Bytes, i: nat, len: nat) {
    && len <= |mem|
    && (len >= i + 1 && mem[len - 1] == '%' ==>
      len < |mem| && (IsHex(mem[len]) ==> len + 1 < |mem| && !IsHex(mem[len + 1])))
    && (len >= i + 2 && mem[len - 2] == '%' && IsHex(mem[len - 1]) ==> len < |mem| && !IsHex(mem[len]))
  }

  predicate EndsClean(mem: Bytes, len: nat) {
    CleanFrom(mem, 0, len)
  }

  /** There is an escape at `j`. */
  predicate EscapeAt(mem: Bytes, j: nat) {
    j + 3 <= |mem| && mem[j] == '%' && IsHex(mem[j + 1]) && IsHex(mem[j + 2])
  }

  /** An escape from `i` on that is complete before `len`. */
  predicate Within(mem: Bytes, i: nat, len: nat) {
    exists j :: i <= j && j + 3 <= len && EscapeAt(mem, j)
  }

  /** An escape from `i` on that starts before `len` and ends behind it. */
  predicate Straddles(mem: Bytes, i: nat, len: nat) {
    exists j :: i <= j < len < j + 3 && EscapeAt(mem, j)
  }

  /** The bytes the decoder looks at are there. */
  predicate Readable(mem: Bytes, i: nat, len: nat) {
    && len <= |mem|
    && (len >= i + 1 && mem[len - 1] == '%' ==> len < |mem| && (IsHex(mem[len]) ==> len + 1 < |mem|))
    && (len >= i + 2 && mem[len - 2] == '%' && IsHex(mem[len - 1]) ==> len < |mem|)
  }

  lemma CleanIff(mem: Bytes, i: nat, len: nat)
    requires Readable(mem, i, len)
    ensures CleanFrom(mem, i, len) <==> !Straddles(mem, i, len)
  {
    if !CleanFrom(mem, i, len) {
      if len >= i + 1 && mem[len - 1] == '%' && IsHex(mem[len]) && IsHex(mem[len + 1]) {
        assert EscapeAt(mem, len - 1);
      } else {
        assert EscapeAt(mem, len - 2);
      }
    }
  }

  /** A lone '%' with two digits behind it is such a case, whatever else there is. */
  lemma LonePercentStraddles(mem: Bytes)
    requires Escaped(mem)
    ensures Readable(mem, 0, 1) && Straddles(mem, 0, 1) && !Within(mem, 0, 1)
  {
    assert EscapeAt(mem, 0);
  }

  /** A byte behind the end that is no hexadecimal digit is enough. */
  lemma TerminatedEndsClean(mem: Bytes, len: nat)
    requires len < |mem| && !IsHex(mem[len])
    ensures EndsClean(mem, len)
  {
  }

  /**
   Moving the bytes behind an escape at `i` over its two digits leaves stale bytes behind the new end: the last
   two of the old ones.  They complete no escape.
  */
  lemma StaleBytes(mem: Bytes, i: nat, len: nat)
    requires i + 3 <= len <= |mem|
    ensures var moved := Moved(mem, i + 1, i + 3, len - i - 3);
            && |moved| == |mem| && moved[..i + 1] == mem[..i + 1] && moved[i + 1..len - 2] == mem[i + 3..len]
            && CleanFrom(moved, i + 1, len - 2)
  {
    var moved := Moved(mem, i + 1, i + 3, len - i - 3);
    assert moved[len - 2] == mem[len - 2] && moved[len - 1] == mem[len - 1];
    assert len - 2 >= i + 2 ==> moved[len - 3] == mem[len - 1];
    assert len - 2 >= i + 3 ==> moved[len - 4] == mem[len - 2];
  }

  /** Looking at the memory from position `i` on finds an escape exactly where the bytes before the end have one. */
  lemma LooksAhead(mem: Bytes, i: nat, len: nat)
    requires CleanFrom(mem, i, len) && i < len
    ensures mem[i] == '%' ==> i + 1 < |mem| && (IsHex(mem[i + 1]) ==> i + 2 < |mem|)
    ensures mem[i] == '%' && IsHex(mem[i + 1]) && IsHex(mem[i + 2]) <==> Escaped(mem[i..len])
  {
  }

  /** http_decode_uri into a string */
  method DecodeUri(mem: Bytes, len: nat, decodePlus: int) returns (str: Bytes)
    requires EndsClean(mem, len)
    ensures str == Decode(mem[..len], decodePlus)
  {
    str := [];
    var i, plus := 0, decodePlus;
    assert mem[0..len] == mem[..len];
    while i < len
      invariant i <= len && CleanFrom(mem, i, len)
      invariant str + Decode(mem[i..len], plus) == Decode(mem[..len], decodePlus)
    {
      var c := mem[i];
      ghost var rest, before := mem[i..len], str;
      LooksAhead(mem, i, len);
      if c == '?' {
        if plus < 0 {
          plus := 1;
        }
      } else if c == '+' && plus != 0 {
        c := ' ';
      } else if c == '%' && IsHex(mem[i + 1]) && IsHex(mem[i + 2]) {
        c := Octet(mem[i + 1], mem[i + 2]);
        assert rest[3..] == mem[i + 3..len];
        i := i + 2;
      }
      assert !Escaped(rest) ==> rest[1..] == mem[i + 1..len];
      str := str + [c];
      i := i + 1;
      Assoc(before, [c], Decode(mem[i..len], plus));
    }
  }

  function Moved(m: Bytes, dst: nat, src: nat, n: nat): Bytes
    requires dst <= src && src + n <= |m|
  {
    m[..dst] + m[src..src + n] + m[dst + n..]
  }

  lemma MovedIs(m: Bytes, r: Bytes, dst: nat, src: nat, n: nat)
    requires dst <= src && src + n <= |m| == |r|
    requires forall j :: dst <= j < dst + n ==> r[j] == m[j + (src - dst)]
    requires forall j :: 0 <= j < dst || dst + n <= j < |r| ==> r[j] == m[j]
    ensures r == Moved(m, dst, src, n)
  {
    assert r[..dst] == m[..dst];
    assert r[dst..dst + n] == m[src..src + n];
    assert r[dst + n..] == m[dst + n..];
    assert r == r[..dst] + r[dst..dst + n] + r[dst + n..];
  }

  /** memmove within an array */
  method MoveMemory(a: array<char>, dst: nat, src: nat, n: nat)
    requires dst <= src && src + n <= a.Length
    modifies a
    ensures a[..] == Moved(old(a[..]), dst, src, n)
  {
    ghost var m := a[..];
    for k := 0 to n
      invariant forall j :: dst <= j < dst + k ==> a[j] == m[j + (src - dst)]
      invariant forall j :: 0 <= j < dst || dst + k <= j < a.Length ==> a[j] == m[j]
    {
      a[dst + k] := a[src + k];
    }
    MovedIs(m, a[..], dst, src, n);
  }

  /** The two digits of the escape at `i` are moved out of the way. */
  method TakeOutDigits(uri: array<char>, i: nat, len: nat)
    requires i + 3 <= len <= uri.Length
    modifies uri
    ensures uri[..][..i + 1] == old(uri[..i + 1]) && uri[..][i + 1..len - 2] == old(uri[i + 3..len])
    ensures CleanFrom(uri[..], i + 1, len - 2)
  {
    StaleBytes(uri[..], i, len);
    hide Moved, CleanFrom;
    MoveMemory(uri, i + 1, i + 3, len - i - 3);
  }

  /** What one turn of the decoder adds, and what is left. */
  lemma DecodeStep(s: Bytes, plus: int)
    requires s != []
    ensures Decode(s, plus) ==
            if Escaped(s) then [Octet(s[1], s[2])] + Decode(s[3..], plus)
            else [DecodeChar(s[0], plus)] + Decode(s[1..], AfterChar(s[0], plus))
  {
  }

  /** Where the in-place decoder can go on from. */
  predicate GoesOn(mem: Bytes, i: nat, len: nat) {
    len <= |mem| && (Readable(mem, i, len) || Within(mem, i, len))
  }

  /** It will come to an escape whose digits reach behind the end. */
  predicate Fails(mem: Bytes, i: nat, len: nat) {
    Straddles(mem, i, len) && !Within(mem, i, len)
  }

  /** What the decoder sees at `i`. */
  lemma LooksFrom(mem: Bytes, i: nat, len: nat)
    requires GoesOn(mem, i, len) && i < len
    ensures mem[i] == '%' ==> i + 1 < |mem| && (IsHex(mem[i + 1]) ==> i + 2 < |mem|)
    ensures EscapeAt(mem, i) && i + 3 > len ==> Fails(mem, i, len)
    ensures Escaped(mem[i..len]) <==> EscapeAt(mem, i) && i + 3 <= len
    ensures !EscapeAt(mem, i) ==> GoesOn(mem, i + 1, len) && (Fails(mem, i + 1, len) <==> Fails(mem, i, len))
    ensures EscapeAt(mem, i) && i + 3 <= len ==> !Fails(mem, i, len)
  {
    if Within(mem, i, len) {
      var j :| i <= j && j + 3 <= len && EscapeAt(mem, j);
      if j > i { assert Within(mem, i + 1, len); }
    }
    if Straddles(mem, i, len) && !EscapeAt(mem, i) {
      var j :| i <= j < len < j + 3 && EscapeAt(mem, j);
      assert j > i && Straddles(mem, i + 1, len);
    }
  }

  lemma CleanGoesOn(mem: Bytes, i: nat, len: nat)
    requires CleanFrom(mem, i, len)
    ensures GoesOn(mem, i, len) && !Fails(mem, i, len)
  {
    CleanIff(mem, i, len);
  }

  /** A character that has been dealt with can be replaced. */
  lemma PassedGoesOn(mem: Bytes, i: nat, len: nat, c: char)
    requires i < len <= |mem| && GoesOn(mem, i + 1, len)
    ensures GoesOn(mem[i := c], i + 1, len) && (Fails(mem[i := c], i + 1, len) <==> Fails(mem, i + 1, len))
    ensures mem[i := c][..i + 1] == mem[..i] + [c] && mem[i := c][i + 1..len] == mem[i + 1..len]
  {
    var mem' := mem[i := c];
    assert forall j :: i < j ==> EscapeAt(mem', j) == EscapeAt(mem, j);
    assert Within(mem', i + 1, len) <==> Within(mem, i + 1, len);
    assert Straddles(mem', i + 1, len) <==> Straddles(mem, i + 1, len);
  }

  /** One turn of the loop: the new end and mode, or None where the length wraps around. */
  method DecodeOne(uri: array<char>, i: nat, len: nat, plus: int) returns (r: Option<(nat, int)>)
    requires i < len && GoesOn(uri[..], i, len)
    modifies uri
    ensures r == None ==> old(Fails(uri[..], i, len))
    ensures r.Some? ==>
              var (len', plus') := r.value;
              && i < len' <= len && GoesOn(uri[..], i + 1, len')
              && Fails(uri[..], i + 1, len') == old(Fails(uri[..], i, len))
              && uri[..i + 1] + Decode(uri[i + 1..len'], plus') == old(uri[..i] + Decode(uri[i..len], plus))
  {
    var c, end, mode := uri[i], len, plus;
    ghost var mem, before, rest := uri[..], uri[..i], uri[i..len];
    assert mem[i..len] == rest;
    LooksFrom(mem, i, len);
    DecodeStep(rest, plus);
    ghost var tail := if Escaped(rest) then rest[3..] else rest[1..];
    assert tail == if Escaped(rest) then mem[i + 3..len] else mem[i + 1..len];
    assert EscapeAt(mem, i) <==> i + 2 < uri.Length && c == '%' && IsHex(uri[i + 1]) && IsHex(uri[i + 2]);
    hide Decode, CleanFrom, Escaped, Fails, GoesOn, EscapeAt;
    if c == '?' {
      if mode < 0 {
        mode := 1;
      }
    } else if c == '+' && mode != 0 {
      c := ' ';
    } else if c == '%' && IsHex(uri[i + 1]) && IsHex(uri[i + 2]) {
      c := Octet(uri[i + 1], uri[i + 2]);
      if len < i + 3 {
        return None;
      }
      TakeOutDigits(uri, i, len);
      CleanGoesOn(uri[..], i + 1, len - 2);
      end := len - 2;
    }
    ghost var moved := uri[..];
    assert moved[..i + 1] == mem[..i + 1] && moved[i + 1..end] == tail && GoesOn(moved, i + 1, end);
    assert moved[..i] == moved[..i + 1][..i] == before;
    PassedGoesOn(moved, i, end, c);
    Assoc(before, [c], Decode(tail, mode));
    uri[i] := c;
    assert uri[..] == moved[i := c];
    assert uri[..i + 1] == before + [c] && uri[i + 1..end] == tail;
    r := Some((end, mode));
  }

  /**
   http_decode_uri in place; returns the new length.  None stands for a length computation that wraps around:
   the digits of an escape reach behind the end, and no escape before it has moved the end away.
  */
  method DecodeInPlace(uri: array<char>, length: nat, decodePlus: int) returns (r: Option<nat>)
    requires GoesOn(uri[..], 0, length)
    modifies uri
    ensures r == None <==> old(Straddles(uri[..], 0, length) && !Within(uri[..], 0, length))
    ensures r.Some? ==> r.value <= length && uri[..r.value] == Decode(old(uri[..length]), decodePlus)
  {
    var len := length;
    var i, plus := 0, decodePlus;
    ghost var fails := Fails(uri[..], 0, length);
    hide Decode, GoesOn;
    while i < len
      invariant i <= len <= length && GoesOn(uri[..], i, len)
      invariant Fails(uri[..], i, len) == fails
      invariant uri[..i] + Decode(uri[i..len], plus) == Decode(old(uri[..length]), decodePlus)
    {
      var next := DecodeOne(uri, i, len, plus);
      if next == None {
        return None;
      }
      len, plus := next.value.0, next.value.1;
      i := i + 1;
    }
    DecodeNothing(plus);
    assert uri[i..len] == [] && uri[..len] == uri[..i] + [];
    NothingLeft(uri[..], len);
    r := Some(len);
  }

  lemma DecodeNothing(plus: int)
    ensures Decode([], plus) == []
  {
  }

  lemma NothingLeft(mem: Bytes, len: nat)
    ensures !Fails(mem, len, len)
  {
  }
}
