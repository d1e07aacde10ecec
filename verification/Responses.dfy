/**
 Responses of the proxy's own, core/http.cpp: the size of the buffer that send_response takes against the bytes
 it writes, and what a version number in a char does to it.
*/
module Responses {
  import opened Chunks
  import opened HeaderCodec

  function Decimal(n: nat): (s: Bytes)
    ensures s != []
  {
    if n < 10 then ['0' + n as char] else Decimal(n / 10) + ['0' + (n % 10) as char]
  }

  /** get_digit_len */
  method GetDigitLen(n: nat) returns (cnt: nat)
    ensures cnt == |Decimal(n)|
  {
    cnt := 1;
    var digit: nat := n / 10;
    while digit != 0
      invariant cnt + (if digit == 0 then 0 else |Decimal(digit)|) == |Decimal(n)|
      decreases digit
    {
      cnt := cnt + 1;
      digit := digit / 10;
    }
  }

  /** What %d prints. */
  function Printed(v: int): Bytes {
    if v < 0 then "-" + Decimal(-v) else Decimal(v)
  }

  /** The value of a char: signed, eight bits. */
  function AsChar(v: int): (r: int)
    ensures -128 <= r < 128
  {
    (v + 128) % 256 - 128
  }

  /** A char as a size_t. */
  function AsSize(v: int): nat
    requires -128 <= v < 128
  {
    if v < 0 then v + WORD else v
  }

  predicate Digits(s: Bytes) {
    forall i :: 0 <= i < |s| ==> '0' <= s[i] <= '9'
  }

  /** The version number that parse_first_line keeps in a char, after `v`. */
  function Version(s: Bytes, v: int): int
    requires Digits(s)
  {
    if s == [] then v else Version(s[1..], AsChar(v * 10 + (s[0] as int - '0' as int)))
  }

  function Written(s: Bytes, v: nat): nat
    requires Digits(s)
  {
    if s == [] then v else Written(s[1..], v * 10 + (s[0] as int - '0' as int))
  }

  /** The digits printed are those of the number, without leading zeros. */
  lemma {:induction false} DecimalReadBack(n: nat)
    ensures Digits(Decimal(n)) && Written(Decimal(n), 0) == n
    ensures n > 0 ==> Decimal(n)[0] != '0'
  {
    if n < 10 {
      assert Decimal(n)[1..] == [];
    } else {
      var d := ['0' + (n % 10) as char];
      DecimalReadBack(n / 10);
      WrittenMore(Decimal(n / 10), d, 0);
      assert d[1..] == [];
    }
  }

  lemma {:induction false} WrittenMore(s: Bytes, t: Bytes, v: nat)
    requires Digits(s) && Digits(t)
    ensures Written(s + t, v) == Written(t, Written(s, v))
  {
    if s == [] {
      assert s + t == t;
    } else {
      assert (s + t)[0] == s[0] && (s + t)[1..] == s[1..] + t;
      WrittenMore(s[1..], t, v * 10 + (s[0] as int - '0' as int));
    }
  }

  lemma AsCharAgain(v: int, d: int)
    ensures AsChar(AsChar(v) * 10 + d) == AsChar(v * 10 + d)
  {
    var k := (v + 128) / 256;
    assert AsChar(v) == v - 256 * k;
    assert AsChar(v) * 10 + d + 128 == (v * 10 + d + 128) - 256 * (10 * k);
  }

  /** It is the number written, cut to a char. */
  lemma {:induction false} VersionIsCut(s: Bytes, v: nat)
    requires Digits(s)
    ensures Version(s, AsChar(v)) == AsChar(Written(s, v))
  {
    if s != [] {
      var d := s[0] as int - '0' as int;
      AsCharAgain(v, d);
      VersionIsCut(s[1..], v * 10 + d);
    }
  }

  function Pow10(k: nat): nat {
    if k == 0 then 1 else 10 * Pow10(k - 1)
  }

  lemma {:induction false} DecimalLength(n: nat, k: nat)
    requires n < Pow10(k) && k > 0
    ensures |Decimal(n)| <= k
    ensures n >= Pow10(k - 1) ==> |Decimal(n)| == k || (n == 0 && k == 1)
  {
    if n >= 10 {
      DecimalLength(n / 10, k - 1);
    }
  }

  lemma TwentyDigits()
    ensures Pow10(19) <= WORD - 128 && WORD <= Pow10(20) && Pow10(1) == 10 && Pow10(2) == 100 && Pow10(3) == 1000
  {
    assert Pow10(5) == 100000;
    assert Pow10(10) == 10000000000;
    assert Pow10(15) == 1000000000000000;
    assert Pow10(19) == 10000000000000000000;
  }

  /** How many bytes send_response reserves too many for one number of the version. */
  function Surplus(v: int): (n: nat)
    requires -128 <= v < 128
  {
    if v >= 0 then 0 else if v > -10 then 18 else if v > -100 then 17 else 16
  }

  /** The digits counted are those printed if and only if the number is not negative; never too few. */
  lemma SurplusIff(v: int)
    requires -128 <= v < 128
    ensures |Printed(v)| <= 4
    ensures |Decimal(AsSize(v))| == |Printed(v)| + Surplus(v)
    ensures Surplus(v) == 0 <==> v >= 0
  {
    TwentyDigits();
    if v < 0 {
      DecimalLength(-v, if v > -10 then 1 else if v > -100 then 2 else 3);
      DecimalLength(AsSize(v), 20);
    } else {
      DecimalLength(v, 3);
    }
    hide Decimal, Pow10;
  }

  function StatusLine(major: int, minor: int, status: Bytes): Bytes {
    "HTTP/" + Printed(major) + "." + Printed(minor) + " " + status + CRLF
  }

  /**
   send_response with a version in two chars.  The buffer it takes has the bytes it writes if and only if neither
   number is negative; otherwise as many more as `Surplus` says, which go out with whatever they contain.
  */
  method SendResponse(major: int, minor: int, status: Bytes, headers: Headers, names: seq<Bytes>, body: Bytes)
    returns (size: nat, data: Bytes)
    requires -128 <= major < 128 && -128 <= minor < 128
    requires forall i :: 0 <= i < |names| ==> names[i] in headers
    ensures data == StatusLine(major, minor, status) + Print(Fields(headers, names)) + body
    ensures size == |data| + Surplus(major) + Surplus(minor)
    ensures size == |data| <==> major >= 0 && minor >= 0
  {
    var m := GetDigitLen(AsSize(major));
    var n := GetDigitLen(AsSize(minor));
    SurplusIff(major);
    SurplusIff(minor);
    hide Decimal, Surplus, Printed;
    size := 5 + (m + n + 2) + (|status| + 2);
    var reserved, fields := PrintHeaders(headers, names);
    size := size + reserved + |body|;
    data := StatusLine(major, minor, status) + fields + body;
  }

  /** HTTP/200.1 is such a version: 17 bytes too many. */
  lemma VersionCanWrap()
    ensures Digits("200") && Version("200", 0) == -56 && Surplus(-56) == 17
  {
    var s := "200";
    assert s[1..] == "00" && "00"[1..] == "0" && "0"[1..] == [];
    assert Version("0", AsChar(20)) == AsChar(200);
    assert Version("00", 2) == AsChar(200);
  }
}
