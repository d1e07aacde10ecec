/** The letters and digits of ASCII, written out. */
module Ascii {
  const CAPITALS := "ABCDEFGHIJKLMNOPQRSTUVWXYZ"
  const SMALLS := "abcdefghijklmnopqrstuvwxyz"
  const DECIMALS := "0123456789"

  lemma Alphabet(k: int)
    requires 0 <= k < 26
    ensures |CAPITALS| == |SMALLS| == 26 && |DECIMALS| == 10
    ensures CAPITALS[k] == 'A' + k as char && SMALLS[k] == 'a' + k as char
    ensures k < 10 ==> DECIMALS[k] == '0' + k as char
  {
  }

  lemma CapitalIff(c: char)
    ensures c in CAPITALS <==> 'A' <= c <= 'Z'
  {
    Alphabet(0);
    if c in CAPITALS {
      var k :| 0 <= k < |CAPITALS| && CAPITALS[k] == c;
      Alphabet(k);
    }
    if 'A' <= c <= 'Z' { Alphabet(c as int - 'A' as int); }
    hide CAPITALS, SMALLS, DECIMALS;
  }

  lemma SmallIff(c: char)
    ensures c in SMALLS <==> 'a' <= c <= 'z'
  {
    Alphabet(0);
    if c in SMALLS {
      var k :| 0 <= k < |SMALLS| && SMALLS[k] == c;
      Alphabet(k);
    }
    if 'a' <= c <= 'z' { Alphabet(c as int - 'a' as int); }
    hide CAPITALS, SMALLS, DECIMALS;
  }

  lemma DecimalIff(c: char)
    ensures c in DECIMALS <==> '0' <= c <= '9'
  {
    Alphabet(0);
    if c in DECIMALS {
      var k :| 0 <= k < |DECIMALS| && DECIMALS[k] == c;
      Alphabet(k);
    }
    if '0' <= c <= '9' { Alphabet(c as int - '0' as int); }
    hide CAPITALS, SMALLS, DECIMALS;
  }
}
