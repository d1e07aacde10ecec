/**
 HTTP header fields, core/http.cpp: the parser's automaton and what send_response prints.  Section 3.2 of
 RFC 7230.
*/
module HeaderCodec {
  import opened Chunks
  import opened Ascii

  type Headers = map<Bytes, Bytes>

  predicate IsChar(c: char) {
    c as int <= 127
  }

  predicate IsCtl(c: char) {
    c as int <= 31 || c as int == 127
  }

  predicate IsTSpecial(c: char) {
    c in "()<>@,;:\\\"/[]?={} \t"
  }

  predicate TokenChar(c: char) {
    IsChar(c) && !IsCtl(c) && !IsTSpecial(c)
  }

  const TOKEN_MARKS := "!#$%&'*+-.^_`|~"

  /** The characters of a field's name are those of section 3.2.6 of RFC 7230. */
  lemma TokenIff(c: char)
    ensures TokenChar(c) <==> c in SMALLS || c in CAPITALS || c in DECIMALS || c in TOKEN_MARKS
  {
    hide SMALLS, CAPITALS, DECIMALS, TOKEN_MARKS, TokenChar;
    SmallIff(c);
    CapitalIff(c);
    DecimalIff(c);
    if 'a' <= c <= 'z' || 'A' <= c <= 'Z' || '0' <= c <= '9' { LettersAreTokens(c); } else { MarksAreTokens(c); }
  }

  lemma LettersAreTokens(c: char)
    requires 'a' <= c <= 'z' || 'A' <= c <= 'Z' || '0' <= c <= '9'
    ensures TokenChar(c)
  {
  }

  lemma MarksAreTokens(c: char)
    requires !('a' <= c <= 'z' || 'A' <= c <= 'Z' || '0' <= c <= '9')
    ensures TokenChar(c) <==> c in TOKEN_MARKS
  {
    hide TokenChar, TOKEN_MARKS;
    if c < '0' { LowMarks(c); } else { HighMarks(c); }
  }

  lemma LowMarks(c: char)
    requires c < '0'
    ensures TokenChar(c) <==> c in TOKEN_MARKS
  {
  }

  lemma HighMarks(c: char)
    requires c > '9' && !('a' <= c <= 'z' || 'A' <= c <= 'Z')
    ensures TokenChar(c) <==> c in TOKEN_MARKS
  {
  }

  predicate Blank(c: char) {
    c == ' ' || c == '\t'
  }

  // ---------------------------------------------------------------- the automaton

  datatype Phase =
    | Start | Lws | Name | SpaceBeforeValue | Value | AlmostDone | HeaderAlmostDone | Complete | Failed

  /** `named` tells whether a field has been begun; its name and value are entered when the next one begins. */
  datatype Parse = Parse(phase: Phase, named: bool, name: Bytes, value: Bytes, headers: Headers)

  const INIT := Parse(Start, false, [], [], map[])

  predicate Over(p: Parse) {
    p.phase == Complete || p.phase == Failed
  }

  /** insert: a name that is there keeps its value. */
  function Insert(headers: Headers, name: Bytes, value: Bytes): Headers {
    if name in headers then headers else headers[name := value]
  }

  /** The fields entered, with the one begun last. */
  function Entered(p: Parse): Headers {
    if p.named then Insert(p.headers, p.name, p.value) else p.headers
  }

  function Feed(p: Parse, c: char): Parse
    requires !Over(p)
  {
    match p.phase
    case Start =>
      if c == '\r' then p.(phase := HeaderAlmostDone)
      else if p.named && Blank(c) then p.(phase := Lws)
      else if !TokenChar(c) then p.(phase := Failed)
      else Parse(Name, true, [c], [], Entered(p))
    case Lws =>
      if c == '\r' then p.(phase := AlmostDone)
      else if Blank(c) then p
      else if IsCtl(c) then p.(phase := Failed)
      else p.(phase := Value, value := p.value + [c])
    case Name =>
      if c == ':' then p.(phase := SpaceBeforeValue)
      else if !TokenChar(c) then p.(phase := Failed)
      else p.(name := p.name + [c])
    case SpaceBeforeValue =>
      if c == ' ' then p.(phase := Value) else p.(phase := Failed)
    case Value =>
      if c == '\r' then p.(phase := AlmostDone)
      else if IsCtl(c) then p.(phase := Failed)
      else p.(value := p.value + [c])
    case AlmostDone =>
      if c == '\n' then p.(phase := Start) else p.(phase := Failed)
    case HeaderAlmostDone =>
      if c == '\n' then p.(phase := Complete, headers := Entered(p)) else p.(phase := Failed)
  }

  function Run(p: Parse, s: Bytes): Parse
    decreases |s|
  {
    if s == [] || Over(p) then p else Run(Feed(p, s[0]), s[1..])
  }

  function Takes(p: Parse, s: Bytes): (n: nat)
    ensures n <= |s|
    decreases |s|
  {
    if s == [] || Over(p) then 0 else 1 + Takes(Feed(p, s[0]), s[1..])
  }

  /** `s` leads from `p` to `q`, and is taken whole. */
  predicate Leads(p: Parse, s: Bytes, q: Parse) {
    Run(p, s) == q && Takes(p, s) == |s|
  }

  lemma {:induction false} LeadsConcat(p: Parse, s: Bytes, q: Parse, t: Bytes, r: Parse)
    requires Leads(p, s, q) && Leads(q, t, r)
    ensures Leads(p, s + t, r)
    decreases |s|
  {
    if s == [] {
      assert s + t == t;
    } else {
      assert (s + t)[0] == s[0] && (s + t)[1..] == s[1..] + t;
      LeadsConcat(Feed(p, s[0]), s[1..], q, t, r);
    }
  }

  lemma LeadsOne(p: Parse, c: char)
    requires !Over(p)
    ensures Leads(p, [c], Feed(p, c))
  {
    assert [c][1..] == [];
  }

  /** What follows the end of the headers is not looked at. */
  lemma {:induction false} LeadsStops(p: Parse, s: Bytes, t: Bytes)
    requires Takes(p, s) == |s| && Over(Run(p, s))
    ensures Run(p, s + t) == Run(p, s) && Takes(p, s + t) == |s|
    decreases |s|
  {
    if s == [] {
      assert s + t == t;
    } else {
      assert (s + t)[0] == s[0] && (s + t)[1..] == s[1..] + t;
      LeadsStops(Feed(p, s[0]), s[1..], t);
    }
  }

  // ---------------------------------------------------------------- the printer

  /** A continuation line: blanks, then more of the value. */
  datatype Fold = Fold(blanks: Bytes, text: Bytes)

  datatype Field = Field(name: Bytes, text: Bytes, folds: seq<Fold>)

  predicate Token(s: Bytes) {
    s != [] && forall i :: 0 <= i < |s| ==> TokenChar(s[i])
  }

  predicate ControlFree(s: Bytes) {
    forall i :: 0 <= i < |s| ==> !IsCtl(s[i])
  }

  predicate LegalFold(f: Fold) {
    && f.blanks != [] && (forall i :: 0 <= i < |f.blanks| ==> Blank(f.blanks[i]))
    && ControlFree(f.text) && (f.text != [] ==> !Blank(f.text[0]))
  }

  predicate LegalField(f: Field) {
    Token(f.name) && ControlFree(f.text) && forall i :: 0 <= i < |f.folds| ==> LegalFold(f.folds[i])
  }

  function PrintFolds(folds: seq<Fold>): Bytes {
    if folds == [] then [] else folds[0].blanks + folds[0].text + CRLF + PrintFolds(folds[1..])
  }

  /** "name: value" and CRLF, then the continuation lines. */
  function PrintField(f: Field): Bytes {
    f.name + ": " + f.text + CRLF + PrintFolds(f.folds)
  }

  /** A folded line's text is appended to the value as it is. */
  function FoldedText(folds: seq<Fold>): Bytes {
    if folds == [] then [] else folds[0].text + FoldedText(folds[1..])
  }

  function ValueOf(f: Field): Bytes {
    f.text + FoldedText(f.folds)
  }

  function PrintFields(fs: seq<Field>): Bytes {
    if fs == [] then [] else PrintField(fs[0]) + PrintFields(fs[1..])
  }

  /** A whole header section. */
  function Print(fs: seq<Field>): Bytes {
    PrintFields(fs) + CRLF
  }

  /** Each name with its first value, after `headers`. */
  function Collect(headers: Headers, fs: seq<Field>): Headers
    decreases |fs|
  {
    if fs == [] then headers else Collect(Insert(headers, fs[0].name, ValueOf(fs[0])), fs[1..])
  }

  // ---------------------------------------------------------------- parsing what was printed

  lemma {:induction false} NameLeads(p: Parse, s: Bytes)
    requires p.phase == Name && forall i :: 0 <= i < |s| ==> TokenChar(s[i])
    ensures Leads(p, s, p.(name := p.name + s))
    decreases |s|
  {
    if s == [] {
      assert p.name + s == p.name;
    } else {
      NameLeads(Feed(p, s[0]), s[1..]);
      assert p.name + s == (p.name + [s[0]]) + s[1..];
    }
  }

  lemma {:induction false} ValueLeads(p: Parse, s: Bytes)
    requires p.phase == Value && ControlFree(s)
    ensures Leads(p, s, p.(value := p.value + s))
    decreases |s|
  {
    if s == [] {
      assert p.value + s == p.value;
    } else {
      ValueLeads(Feed(p, s[0]), s[1..]);
      assert p.value + s == (p.value + [s[0]]) + s[1..];
    }
  }

  lemma {:induction false} BlanksLead(p: Parse, s: Bytes)
    requires p.phase == Lws && forall i :: 0 <= i < |s| ==> Blank(s[i])
    ensures Leads(p, s, p)
    decreases |s|
  {
    if s != [] { BlanksLead(p, s[1..]); }
  }

  lemma LineEndLeads(p: Parse)
    requires p.phase == Value || p.phase == Lws
    ensures Leads(p, CRLF, p.(phase := Start))
  {
    LeadsOne(p, '\r');
    LeadsOne(Feed(p, '\r'), '\n');
    LeadsConcat(p, "\r", Feed(p, '\r'), "\n", p.(phase := Start));
    assert "\r" + "\n" == CRLF;
  }

  lemma FoldLeads(p: Parse, f: Fold)
    requires p.phase == Start && p.named && LegalFold(f)
    ensures Leads(p, f.blanks + f.text + CRLF, p.(value := p.value + f.text))
  {
    var b, q := f.blanks, p.(phase := Lws);
    LeadsOne(p, b[0]);
    BlanksLead(q, b[1..]);
    LeadsConcat(p, [b[0]], q, b[1..], q);
    assert [b[0]] + b[1..] == b;
    var r := if f.text == [] then q else q.(phase := Value, value := q.value + f.text);
    assert Leads(q, f.text, r) by {
      if f.text != [] {
        var v := Feed(q, f.text[0]);
        ValueLeads(v, f.text[1..]);
        LeadsOne(q, f.text[0]);
        LeadsConcat(q, [f.text[0]], v, f.text[1..], v.(value := v.value + f.text[1..]));
        assert [f.text[0]] + f.text[1..] == f.text;
        assert v.value + f.text[1..] == q.value + f.text;
      }
    }
    LineEndLeads(r);
    LeadsConcat(p, b, q, f.text, r);
    LeadsConcat(p, b + f.text, r, CRLF, r.(phase := Start));
    assert f.text == [] ==> q.value + f.text == q.value;
  }

  lemma {:induction false} FoldsLead(p: Parse, folds: seq<Fold>)
    requires p.phase == Start && p.named && forall i :: 0 <= i < |folds| ==> LegalFold(folds[i])
    ensures Leads(p, PrintFolds(folds), p.(value := p.value + FoldedText(folds)))
    decreases |folds|
  {
    if folds == [] {
      assert p.value + [] == p.value;
    } else {
      var f := folds[0];
      var q := p.(value := p.value + f.text);
      FoldLeads(p, f);
      FoldsLead(q, folds[1..]);
      LeadsConcat(p, f.blanks + f.text + CRLF, q, PrintFolds(folds[1..]),
        q.(value := q.value + FoldedText(folds[1..])));
      Assoc(p.value, f.text, FoldedText(folds[1..]));
    }
  }

  /** One printed field is read as that field; the one before it is entered. */
  lemma FieldLeads(p: Parse, f: Field)
    requires p.phase == Start && LegalField(f)
    ensures Leads(p, PrintField(f), Parse(Start, true, f.name, ValueOf(f), Entered(p)))
  {
    var n, h := f.name, Entered(p);
    var p1 := Parse(Name, true, [n[0]], [], h);
    LeadsOne(p, n[0]);
    NameLeads(p1, n[1..]);
    var p2 := Parse(Name, true, n, [], h);
    assert [n[0]] + n[1..] == n;
    LeadsConcat(p, [n[0]], p1, n[1..], p2);
    var p3 := Parse(Value, true, n, [], h);
    LeadsOne(p2, ':');
    LeadsOne(Feed(p2, ':'), ' ');
    LeadsConcat(p2, ":", Feed(p2, ':'), " ", p3);
    assert ":" + " " == ": ";
    LeadsConcat(p, n, p2, ": ", p3);
    ValueLeads(p3, f.text);
    var p4 := Parse(Value, true, n, f.text, h);
    assert p3.value + f.text == f.text;
    LeadsConcat(p, n + ": ", p3, f.text, p4);
    LineEndLeads(p4);
    var p5 := Parse(Start, true, n, f.text, h);
    LeadsConcat(p, n + ": " + f.text, p4, CRLF, p5);
    FoldsLead(p5, f.folds);
    LeadsConcat(p, n + ": " + f.text + CRLF, p5, PrintFolds(f.folds), Parse(Start, true, n, ValueOf(f), h));
  }

  lemma {:induction false} FieldsLead(p: Parse, fs: seq<Field>)
    requires p.phase == Start && forall i :: 0 <= i < |fs| ==> LegalField(fs[i])
    ensures Leads(p, PrintFields(fs), Run(p, PrintFields(fs)))
    ensures var q := Run(p, PrintFields(fs)); q.phase == Start && Entered(q) == Collect(Entered(p), fs)
    decreases |fs|
  {
    if fs != [] {
      FieldLeads(p, fs[0]);
      var q := Parse(Start, true, fs[0].name, ValueOf(fs[0]), Entered(p));
      FieldsLead(q, fs[1..]);
      LeadsConcat(p, PrintField(fs[0]), q, PrintFields(fs[1..]), Run(q, PrintFields(fs[1..])));
    }
  }

  /**
   Parsing what was printed consumes it to the last byte, whatever follows, and gives each name its first
   value, folded lines appended.
  */
  lemma PrintParse(fs: seq<Field>, rest: Bytes)
    requires forall i :: 0 <= i < |fs| ==> LegalField(fs[i])
    ensures var s, q := Print(fs), Run(INIT, Print(fs) + rest);
            Takes(INIT, s + rest) == |s| && q.phase == Complete && q.headers == Collect(map[], fs)
  {
    FieldsLead(INIT, fs);
    var q := Run(INIT, PrintFields(fs));
    LeadsOne(q, '\r');
    var r := Feed(q, '\r');
    LeadsOne(r, '\n');
    LeadsConcat(q, "\r", r, "\n", Feed(r, '\n'));
    assert "\r" + "\n" == CRLF;
    LeadsConcat(INIT, PrintFields(fs), q, CRLF, Feed(r, '\n'));
    LeadsStops(INIT, Print(fs), rest);
  }

  // ---------------------------------------------------------------- what is accepted has been printed

  /** Bytes that lead from `p` to `q` can be taken off the front. */
  lemma {:induction false} LeadsRest(p: Parse, s: Bytes, q: Parse, t: Bytes)
    requires Leads(p, s, q)
    ensures Run(p, s + t) == Run(q, t) && Takes(p, s + t) == |s| + Takes(q, t)
    decreases |s|
  {
    if s == [] {
      assert s + t == t;
    } else {
      assert (s + t)[0] == s[0] && (s + t)[1..] == s[1..] + t;
      LeadsRest(Feed(p, s[0]), s[1..], q, t);
    }
  }

  /** A refused byte, or the last one, ends the parsing. */
  lemma OverAt(p: Parse, s: Bytes)
    ensures !Over(p) && s != [] && Over(Feed(p, s[0])) ==> Run(p, s) == Feed(p, s[0]) && Takes(p, s) == 1
  {
  }

  /** The line that is begun ends with CRLF. */
  lemma LineEnds(p: Parse, s: Bytes) returns (t: Bytes)
    requires p.phase == AlmostDone && Run(p, s).phase == Complete
    ensures s == "\n" + t
  {
    OverAt(p, s);
    t := s[1..];
  }

  lemma {:induction false} ValueLine(p: Parse, s: Bytes) returns (text: Bytes, t: Bytes)
    requires p.phase == Value && Run(p, s).phase == Complete
    ensures s == text + CRLF + t && ControlFree(text)
    decreases |s|
  {
    OverAt(p, s);
    var c := s[0];
    if c == '\r' {
      t := LineEnds(Feed(p, c), s[1..]);
      text := [];
    } else {
      text, t := ValueLine(Feed(p, c), s[1..]);
      text := [c] + text;
    }
  }

  lemma {:induction false} NameLine(p: Parse, s: Bytes) returns (name: Bytes, t: Bytes)
    requires p.phase == Name && Run(p, s).phase == Complete
    ensures s == name + ": " + t && forall i :: 0 <= i < |name| ==> TokenChar(name[i])
    ensures Run(p.(phase := Value, name := p.name + name), t).phase == Complete
    decreases |s|
  {
    OverAt(p, s);
    var c := s[0];
    if c == ':' {
      OverAt(Feed(p, c), s[1..]);
      name, t := [], s[1..][1..];
      assert p.name + [] == p.name;
      assert s == [] + ": " + t;
    } else {
      name, t := NameLine(Feed(p, c), s[1..]);
      Joined(p.name, [c], name);
      name := [c] + name;
    }
  }

  lemma {:induction false} FoldLine(p: Parse, s: Bytes) returns (blanks: Bytes, text: Bytes, t: Bytes)
    requires p.phase == Lws && Run(p, s).phase == Complete
    ensures s == blanks + text + CRLF + t && ControlFree(text) && (text != [] ==> !Blank(text[0]))
    ensures forall i :: 0 <= i < |blanks| ==> Blank(blanks[i])
    decreases |s|
  {
    OverAt(p, s);
    var c := s[0];
    if c == '\r' {
      t := LineEnds(Feed(p, c), s[1..]);
      blanks, text := [], [];
    } else if Blank(c) {
      blanks, text, t := FoldLine(p, s[1..]);
      blanks := [c] + blanks;
    } else {
      text, t := ValueLine(Feed(p, c), s[1..]);
      blanks, text := [], [c] + text;
    }
  }

  /** What is taken of `s` continues the field begun and goes on with legal fields, and they are what is collected. */
  ghost predicate Accepts(p: Parse, s: Bytes, folds: seq<Fold>, fs: seq<Field>) {
    && (forall i :: 0 <= i < |folds| ==> LegalFold(folds[i])) && (forall i :: 0 <= i < |fs| ==> LegalField(fs[i]))
    && s[..Takes(p, s)] == PrintFolds(folds) + Print(fs)
    && Run(p, s).headers == Collect(Entered(p.(value := p.value + FoldedText(folds))), fs)
  }

  /** From the start of a line on. */
  lemma {:induction false} AcceptedFrom(p: Parse, s: Bytes) returns (folds: seq<Fold>, fs: seq<Field>)
    requires p.phase == Start && Run(p, s).phase == Complete
    ensures Accepts(p, s, folds, fs) && (folds != [] ==> p.named)
    decreases |s|, 1
  {
    OverAt(p, s);
    if s[0] == '\r' {
      LastLine(p, s);
      folds, fs := [], [];
    } else if p.named && Blank(s[0]) {
      folds, fs := AcceptedFold(p, s);
    } else {
      fs := AcceptedField(p, s);
      folds := [];
    }
  }

  lemma LastLine(p: Parse, s: Bytes)
    requires p.phase == Start && Run(p, s).phase == Complete && s != [] && s[0] == '\r'
    ensures Accepts(p, s, [], [])
  {
    var q := Feed(p, '\r');
    OverAt(q, s[1..]);
    assert s[..2] == CRLF && p.value + [] == p.value;
    assert PrintFolds([]) + Print([]) == CRLF;
  }

  lemma {:induction false} AcceptedFold(p: Parse, s: Bytes) returns (folds: seq<Fold>, fs: seq<Field>)
    requires p.phase == Start && p.named && Run(p, s).phase == Complete && s != [] && Blank(s[0])
    ensures Accepts(p, s, folds, fs)
    decreases |s|, 0
  {
    hide Accepts;
    var blanks, text, t := FoldLine(Feed(p, s[0]), s[1..]);
    var f := Fold([s[0]] + blanks, text);
    FoldLeads(p, f);
    FoldSplit(f, s[0], blanks, t, s);
    LeadsRest(p, f.blanks + f.text + CRLF, p.(value := p.value + text), t);
    folds, fs := AcceptedFrom(p.(value := p.value + text), t);
    FoldJoins(p, s, t, f, folds, fs);
    folds := [f] + folds;
  }

  lemma FoldSplit(f: Fold, c: char, blanks: Bytes, t: Bytes, s: Bytes)
    requires f.blanks == [c] + blanks && s != [] && s[0] == c && s[1..] == blanks + f.text + CRLF + t
    ensures s == (f.blanks + f.text + CRLF) + t && |t| < |s|
  {
  }

  lemma FoldJoins(p: Parse, s: Bytes, t: Bytes, f: Fold, folds: seq<Fold>, fs: seq<Field>)
    requires LegalFold(f)
    requires var line, q := f.blanks + f.text + CRLF, p.(value := p.value + f.text);
             && s == line + t && Run(p, s) == Run(q, t) && Takes(p, s) == |line| + Takes(q, t)
             && Accepts(q, t, folds, fs)
    ensures Accepts(p, s, [f] + folds, fs)
  {
    var line, q := f.blanks + f.text + CRLF, p.(value := p.value + f.text);
    var n := Takes(q, t);
    assert s[..|line| + n] == line + t[..n];
    Joined(line, PrintFolds(folds), Print(fs));
    Joined(p.value, f.text, FoldedText(folds));
    assert ([f] + folds)[1..] == folds;
    hide Run, Takes, Print, LegalFold, LegalField;
  }

  lemma {:induction false} AcceptedField(p: Parse, s: Bytes) returns (fs: seq<Field>)
    requires p.phase == Start && Run(p, s).phase == Complete && s != [] && s[0] != '\r' && !(p.named && Blank(s[0]))
    ensures Accepts(p, s, [], fs)
    decreases |s|, 0
  {
    hide Accepts;
    OverAt(p, s);
    var p1 := Parse(Name, true, [s[0]], [], Entered(p));
    assert TokenChar(s[0]) && Feed(p, s[0]) == p1;
    var name, u := NameLine(p1, s[1..]);
    var text, t := ValueLine(p1.(phase := Value, name := [s[0]] + name), u);
    var f := Field([s[0]] + name, text, []);
    var q := Parse(Start, true, f.name, text, Entered(p));
    FieldLine(f, s[0], name, u, t, s);
    FieldLeads(p, f);
    LeadsRest(p, PrintField(f), q, t);
    var folds, rest := AcceptedFrom(q, t);
    FieldJoins(p, s, t, f, folds, rest);
    fs := [f.(folds := folds)] + rest;
  }

  lemma FieldLine(f: Field, c: char, name: Bytes, u: Bytes, t: Bytes, s: Bytes)
    requires f.name == [c] + name && f.folds == [] && s != [] && s[0] == c
    requires s[1..] == name + ": " + u && u == f.text + CRLF + t
    ensures s == PrintField(f) + t && |t| < |s| && ValueOf(f) == f.text
  {
    assert s == [c] + s[1..];
    assert PrintField(f) == f.name + ": " + f.text + CRLF;
    assert f.text + [] == f.text;
  }

  lemma FieldJoins(p: Parse, s: Bytes, t: Bytes, f: Field, folds: seq<Fold>, rest: seq<Field>)
    requires LegalField(f) && f.folds == []
    requires var line, q := PrintField(f), Parse(Start, true, f.name, f.text, Entered(p));
             && s == line + t && Run(p, s) == Run(q, t) && Takes(p, s) == |line| + Takes(q, t)
             && Accepts(q, t, folds, rest)
    ensures Accepts(p, s, [], [f.(folds := folds)] + rest)
  {
    hide Run, Takes, Print, PrintFolds, PrintField, Collect, FoldedText, LegalField, LegalFold, Entered;
    var line, q, g := PrintField(f), Parse(Start, true, f.name, f.text, Entered(p)), f.(folds := folds);
    var n, fs := Takes(q, t), [g] + rest;
    assert s[..|line| + n] == line + t[..n];
    PrintJoins(f, folds, rest);
    CollectJoins(p, f, folds, rest);
    StaysLegal(f, folds);
    assert PrintFolds([]) == [] by { NoFolds(); }
    assert [] + Print(fs) == Print(fs);
  }

  lemma StaysLegal(f: Field, folds: seq<Fold>)
    requires LegalField(f) && forall i :: 0 <= i < |folds| ==> LegalFold(folds[i])
    ensures LegalField(f.(folds := folds))
  {
  }

  lemma PrintJoins(f: Field, folds: seq<Fold>, rest: seq<Field>)
    requires f.folds == []
    ensures PrintField(f) + (PrintFolds(folds) + Print(rest)) == Print([f.(folds := folds)] + rest)
  {
    var line, g := PrintField(f), f.(folds := folds);
    var fs := [g] + rest;
    assert fs[1..] == rest && fs[0] == g;
    assert line == f.name + ": " + f.text + CRLF;
    assert PrintField(g) == line + PrintFolds(folds);
    assert PrintFields(fs) == PrintField(g) + PrintFields(rest);
    hide PrintField, PrintFolds, PrintFields;
    Joined(line, PrintFolds(folds), Print(rest));
    Joined(PrintField(g), PrintFields(rest), CRLF);
  }

  lemma CollectJoins(p: Parse, f: Field, folds: seq<Fold>, rest: seq<Field>)
    ensures var q, fs := Parse(Start, true, f.name, f.text, Entered(p)), [f.(folds := folds)] + rest;
            Collect(Entered(q.(value := q.value + FoldedText(folds))), rest)
            == Collect(Entered(p.(value := p.value + FoldedText([]))), fs)
  {
    var fs := [f.(folds := folds)] + rest;
    assert fs[1..] == rest && p.value + [] == p.value;
    hide FoldedText;
    assert FoldedText([]) == [] by { NoFolds(); }
  }

  lemma NoFolds()
    ensures FoldedText([]) == [] && PrintFolds([]) == []
  {
  }

  /**
   The converse: the bytes of any section that is accepted are those of legal fields, printed, and the headers are the
   values collected from them.
  */
  lemma AcceptedIsPrinted(s: Bytes) returns (fs: seq<Field>)
    requires Run(INIT, s).phase == Complete
    ensures forall i :: 0 <= i < |fs| ==> LegalField(fs[i])
    ensures s[..Takes(INIT, s)] == Print(fs) && Run(INIT, s).headers == Collect(map[], fs)
  {
    var folds;
    folds, fs := AcceptedFrom(INIT, s);
    assert folds == [] && [] + Print(fs) == Print(fs);
  }

  /** What would complete the headers. */
  function Completion(p: Parse): Bytes
    requires p.phase != Failed
  {
    match p.phase
    case Start => CRLF
    case Lws | Value => CRLF + CRLF
    case Name => ": " + (CRLF + CRLF)
    case SpaceBeforeValue => " " + (CRLF + CRLF)
    case AlmostDone => "\n" + CRLF
    case HeaderAlmostDone => "\n"
    case Complete => []
  }

  lemma EndLeads(p: Parse)
    requires p.phase == Start || p.phase == Lws || p.phase == Value
    ensures Run(p, Completion(p)).phase == Complete
  {
    var q := p.(phase := Start);
    LeadsOne(q, '\r');
    LeadsOne(Feed(q, '\r'), '\n');
    LeadsConcat(q, "\r", Feed(q, '\r'), "\n", Feed(Feed(q, '\r'), '\n'));
    assert "\r" + "\n" == CRLF;
    if p.phase != Start {
      LineEndLeads(p);
      LeadsConcat(p, CRLF, q, CRLF, Feed(Feed(q, '\r'), '\n'));
    }
  }

  lemma {:induction false} Completes(p: Parse)
    requires p.phase != Failed
    ensures Run(p, Completion(p)).phase == Complete
    decreases if p.phase == Name then 2 else if p.phase == SpaceBeforeValue || p.phase == AlmostDone then 1 else 0
  {
    if p.phase == Start || p.phase == Lws || p.phase == Value {
      EndLeads(p);
    } else if p.phase == HeaderAlmostDone {
      LeadsOne(p, '\n');
    } else if p.phase != Complete {
      var s := Completion(p);
      var q := Feed(p, s[0]);
      assert s[1..] == Completion(q);
      Completes(q);
    }
  }

  lemma {:induction false} RunOn(p: Parse, s: Bytes, t: Bytes)
    ensures Run(p, s + t) == Run(Run(p, s), t)
    decreases |s|
  {
    if s == [] {
      assert s + t == t;
    } else if !Over(p) {
      assert (s + t)[0] == s[0] && (s + t)[1..] == s[1..] + t;
      RunOn(Feed(p, s[0]), s[1..], t);
    }
  }

  /**
   Failure comes as early as it can, and never too early: at the first byte after which nothing makes a header section
   of what has been read.
  */
  lemma FailsIff(s: Bytes)
    ensures Run(INIT, s).phase == Failed <==> forall t :: Run(INIT, s + t).phase != Complete
  {
    var p := Run(INIT, s);
    if p.phase == Failed {
      forall t ensures Run(INIT, s + t).phase != Complete { RunOn(INIT, s, t); }
    } else {
      RunOn(INIT, s, Completion(p));
      Completes(p);
    }
  }

  lemma Joined(a: Bytes, b: Bytes, c: Bytes)
    ensures (a + b) + c == a + (b + c)
  {
  }

  // ---------------------------------------------------------------- which values are kept

  lemma {:induction false} CollectKeeps(headers: Headers, fs: seq<Field>, name: Bytes)
    requires name in headers
    ensures name in Collect(headers, fs) && Collect(headers, fs)[name] == headers[name]
    decreases |fs|
  {
    if fs != [] { CollectKeeps(Insert(headers, fs[0].name, ValueOf(fs[0])), fs[1..], name); }
  }

  /** The value kept for a name is that of the first field with this name. */
  lemma {:induction false} CollectIsFirst(headers: Headers, fs: seq<Field>, i: nat)
    requires i < |fs| && fs[i].name !in headers
    requires forall j :: 0 <= j < i ==> fs[j].name != fs[i].name
    ensures fs[i].name in Collect(headers, fs) && Collect(headers, fs)[fs[i].name] == ValueOf(fs[i])
    decreases |fs|
  {
    var next := Insert(headers, fs[0].name, ValueOf(fs[0]));
    if i == 0 {
      CollectKeeps(next, fs[1..], fs[0].name);
    } else {
      CollectIsFirst(next, fs[1..], i - 1);
    }
  }

  /** The names kept are those of the fields. */
  lemma {:induction false} CollectNames(headers: Headers, fs: seq<Field>, name: Bytes)
    ensures name in Collect(headers, fs) <==> name in headers || exists i :: 0 <= i < |fs| && fs[i].name == name
    decreases |fs|
  {
    if fs != [] {
      CollectNames(Insert(headers, fs[0].name, ValueOf(fs[0])), fs[1..], name);
      assert forall i :: 1 <= i < |fs| ==> fs[i] == fs[1..][i - 1];
      assert forall i :: 0 <= i < |fs| - 1 ==> fs[1..][i] == fs[i + 1];
    }
  }

  /** The fields of a table, in the order `names` in which its iterator yields them. */
  function Fields(headers: Headers, names: seq<Bytes>): (fs: seq<Field>)
    requires forall i :: 0 <= i < |names| ==> names[i] in headers
    ensures |fs| == |names| && forall i :: 0 <= i < |fs| ==> fs[i] == Field(names[i], headers[names[i]], [])
  {
    seq(|names|, i requires 0 <= i < |names| => Field(names[i], headers[names[i]], []))
  }

  /** Printing a table in any order and parsing it gives the table back. */
  lemma TableRoundTrip(headers: Headers, names: seq<Bytes>, rest: Bytes)
    requires forall i :: 0 <= i < |names| ==> names[i] in headers
    requires forall n :: n in headers ==> n in names && Token(n) && ControlFree(headers[n])
    requires forall i, j :: 0 <= i < j < |names| ==> names[i] != names[j]
    ensures var s, q := Print(Fields(headers, names)), Run(INIT, Print(Fields(headers, names)) + rest);
            Takes(INIT, s + rest) == |s| && q.phase == Complete && q.headers == headers
  {
    var fs := Fields(headers, names);
    PrintParse(fs, rest);
    forall n
      ensures n in Collect(map[], fs) ==> n in headers
    {
      CollectNames(map[], fs, n);
    }
    forall n | n in headers
      ensures n in Collect(map[], fs) && Collect(map[], fs)[n] == headers[n]
    {
      var i :| 0 <= i < |names| && names[i] == n;
      CollectIsFirst(map[], fs, i);
    }
  }

  ghost predicate CleanValues(p: Parse) {
    ControlFree(p.value) && forall n :: n in p.headers ==> ControlFree(p.headers[n])
  }

  /** The parser never accepts a control character in a value. */
  lemma {:induction false} ValuesStayClean(p: Parse, s: Bytes)
    requires CleanValues(p)
    ensures CleanValues(Run(p, s))
    decreases |s|
  {
    if s != [] && !Over(p) { ValuesStayClean(Feed(p, s[0]), s[1..]); }
  }

  /** A printed field survives if and only if its value has no control character; a tab is one. */
  lemma ValueSurvives(name: Bytes, value: Bytes)
    requires Token(name)
    ensures var q := Run(INIT, Print([Field(name, value, [])]));
            q.phase == Complete && q.headers == map[name := value] <==> ControlFree(value)
  {
    var fs := [Field(name, value, [])];
    var q := Run(INIT, Print(fs));
    ValuesStayClean(INIT, Print(fs));
    hide Run;
    if q.headers == map[name := value] {
      assert name in q.headers && ControlFree(q.headers[name]);
    }
    if ControlFree(value) {
      PrintParse(fs, []);
      assert Print(fs) + [] == Print(fs);
      assert fs[1..] == [] && ValueOf(fs[0]) == value + [] == value;
      assert Collect(map[], fs) == Collect(Insert(map[], name, value), fs[1..]) == map[name := value];
    }
  }

  // ---------------------------------------------------------------- the code

  /** With `n` bytes taken and `s` to come, the automaton ends in `last` and will have taken `taken`. */
  ghost predicate Goes(q: Parse, s: Bytes, n: nat, last: Parse, taken: nat) {
    last == Run(q, s) && taken == n + Takes(q, s)
  }

  lemma GoesOn(q: Parse, data: Bytes, i: nat, len: nat, n: nat, last: Parse, taken: nat)
    requires i < len <= |data| && !Over(q) && Goes(q, data[i..len], n, last, taken)
    ensures var next := Feed(q, data[i]);
            Goes(next, data[i + 1..len], n + 1, last, taken) && (Over(next) ==> last == next && taken == n + 1)
  {
    assert data[i..len][0] == data[i] && data[i..len][1..] == data[i + 1..len];
    hide Feed;
  }

  lemma GoesFrom(q: Parse, s: Bytes)
    ensures Goes(q, s, 0, Run(q, s), Takes(q, s))
  {
  }

  lemma GoesTo(q: Parse, s: Bytes, n: nat, last: Parse, taken: nat)
    requires Goes(q, s, n, last, taken)
    ensures s == [] ==> last == q && taken == n
  {
  }

  /** http_parser, as far as it reads header lines. */
  class HeaderParser {
    var phase: Phase
    var off: nat
    var nameBeg: Option<nat>
    var nameEnd: nat
    var headers: Headers
    var hdrLen: nat

    constructor (start: nat)
      ensures phase == Start && off == start && nameBeg == None && headers == map[]
    {
      phase, off, nameBeg, nameEnd, headers, hdrLen := Start, start, None, 0, map[], 0;
    }

    /** The parser's fields and its local `value` show the state `q` of the automaton, at position `i`. */
    ghost predicate Shows(q: Parse, data: Bytes, i: nat, value: Bytes)
      reads `phase, `headers, `nameBeg, `nameEnd
    {
      && q.phase == phase && q.value == value && q.headers == headers
      && (q.named <==> nameBeg.Some?) && (!q.named ==> value == [] && (phase == Start || phase == HeaderAlmostDone))
      && (q.named ==>
            if phase == Name then nameBeg.value <= i <= |data| && q.name == data[nameBeg.value..i]
            else nameBeg.value <= nameEnd <= |data| && q.name == data[nameBeg.value..nameEnd])
    }

    /** The switch of parse_header_line on the byte at `i`. */
    method Switch(data: Bytes, i: nat, value: Bytes, ghost q: Parse) returns (ret: int, value': Bytes)
      requires i < |data| && !Over(q) && Shows(q, data, i, value)
      modifies this
      ensures off == old(off) && hdrLen == old(hdrLen)
      ensures var next := Feed(q, data[i]);
              && ret == (if next.phase == Complete then 0 else if next.phase == Failed then -1 else 1)
              && (ret == 1 ==> Shows(next, data, i + 1, value'))
              && (ret == 0 ==> headers == next.headers)
    {
      var c := data[i];
      assert nameBeg.Some? && nameBeg.value <= i ==> data[nameBeg.value..i + 1] == data[nameBeg.value..i] + [c];
      assert data[i..i + 1] == [c];
      hide TokenChar, IsCtl, Blank, Insert;
      value' := value;
      match phase {
        case Start =>
          if c == '\r' {
            phase := HeaderAlmostDone;
          } else if nameBeg.Some? && Blank(c) {
            phase := Lws;
          } else if !TokenChar(c) {
            return -1, value';
          } else {
            if nameBeg.Some? {
              headers := Insert(headers, data[nameBeg.value..nameEnd], value);
              value' := [];
            }
            nameBeg := Some(i);
            phase := Name;
          }
        case Lws =>
          if c == '\r' {
            phase := AlmostDone;
          } else if Blank(c) {
          } else if IsCtl(c) {
            return -1, value';
          } else {
            phase := Value;
            value' := value + [c];
          }
        case Name =>
          if c == ':' {
            phase := SpaceBeforeValue;
            nameEnd := i;
          } else if !TokenChar(c) {
            return -1, value';
          }
        case SpaceBeforeValue =>
          if c == ' ' {
            phase := Value;
          } else {
            return -1, value';
          }
        case Value =>
          if c == '\r' {
            phase := AlmostDone;
          } else if IsCtl(c) {
            return -1, value';
          } else {
            value' := value + [c];
          }
        case AlmostDone =>
          if c == '\n' {
            phase := Start;
          } else {
            return -1, value';
          }
        case HeaderAlmostDone =>
          if c == '\n' {
            if nameBeg.Some? {
              headers := Insert(headers, data[nameBeg.value..nameEnd], value);
            }
            return 0, value';
          }
          return -1, value';
      }
      ret := 1;
    }

    /** parse_header_line: -1 for failure, 0 at the end of the headers, 1 if more is needed. */
    method ParseHeaderLine(data: Bytes, len: nat) returns (ret: int)
      requires len <= |data| && off <= len && phase == Start && nameBeg == None
      modifies this
      ensures var p, s := INIT.(headers := old(headers)), data[old(off)..len];
              var q := Run(p, s);
              && off == old(off) + Takes(p, s)
              && ret == (if q.phase == Complete then 0 else if q.phase == Failed then -1 else 1)
              && (ret == 0 ==> headers == q.headers && hdrLen == off)
    {
      var value: Bytes := [];
      var i := off;
      ghost var q := INIT.(headers := headers);
      assert Shows(q, data, i, value);
      hide Shows, Run, Takes, Feed, Goes, Insert, IsCtl, TokenChar, Blank;
      ghost var last, taken := Run(q, data[i..len]), Takes(q, data[i..len]);
      GoesFrom(q, data[i..len]);
      ret := 1;
      while i < len
        invariant old(off) <= i == off <= len && !Over(q) && Shows(q, data, i, value) && ret == 1
        invariant Goes(q, data[i..len], i - old(off), last, taken)
      {
        GoesOn(q, data, i, len, i - old(off), last, taken);
        ghost var next := Feed(q, data[i]);
        off := off + 1;
        ret, value := Switch(data, i, value, q);
        if ret != 1 {
          if ret == 0 {
            hdrLen := off;
          }
          break;
        }
        i := i + 1;
        q := next;
      }
      if ret == 1 { GoesTo(q, data[i..len], i - old(off), last, taken); }
    }
  }

  lemma {:induction false} PrintFieldsMore(fs: seq<Field>, f: Field)
    ensures PrintFields(fs + [f]) == PrintFields(fs) + PrintField(f)
  {
    if fs == [] {
      assert fs + [f] == [f] && [f][1..] == [];
    } else {
      assert (fs + [f])[0] == fs[0] && (fs + [f])[1..] == fs[1..] + [f];
      PrintFieldsMore(fs[1..], f);
      Assoc(PrintField(fs[0]), PrintFields(fs[1..]), PrintField(f));
    }
  }

  /** The header part of send_response: the size it reserves is the number of bytes it writes. */
  method PrintHeaders(headers: Headers, names: seq<Bytes>) returns (size: nat, data: Bytes)
    requires forall i :: 0 <= i < |names| ==> names[i] in headers
    ensures data == Print(Fields(headers, names)) && size == |data|
  {
    ghost var fs := Fields(headers, names);
    size, data := 0, [];
    for i := 0 to |names|
      invariant size == |PrintFields(fs[..i])|
    {
      size := size + |names[i]| + |headers[names[i]]| + 4;
      PrintFieldsMore(fs[..i], fs[i]);
      assert fs[..i + 1] == fs[..i] + [fs[i]];
    }
    size := size + 2;
    assert fs[..|names|] == fs;
    for i := 0 to |names|
      invariant data == PrintFields(fs[..i])
    {
      var line := names[i] + ": " + headers[names[i]] + CRLF;
      assert PrintField(fs[i]) == line + [] == line;
      data := data + line;
      PrintFieldsMore(fs[..i], fs[i]);
      assert fs[..i + 1] == fs[..i] + [fs[i]];
    }
    data := data + CRLF;
  }
}
