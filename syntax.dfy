/** The line patterns the clause readers match with preg_match, the RGB
    colour value and its range-checked constructor, and the facts about
    indented keyword lines that the write-then-read proofs use. */
module Syntax {
  import opened Wrappers
  import opened Text
  import opened Codec

  /** A keyword: a non-empty run of upper-case letters. */
  predicate IsWord(w: string) {
    |w| > 0 && forall i :: 0 <= i < |w| ==> IsUpperLetter(w[i])
  }

  lemma WordIsPlain(w: string)
    requires IsWord(w)
    ensures ' ' !in w && Upper(w) == w && Unpadded(w)
  {
    UpperFixed(w);
  }

  /** The upper-cased first word of a trimmed line. */
  function Keyword(sz: string): string {
    Head(Upper(sz))
  }

  /** `/^KW (...)$/i`: when the trimmed line is the keyword, in any case,
      followed by a space, the text after that space. */
  function After(sz: string, kw: string): (r: Option<string>)
    ensures r.Some? ==> |sz| > |kw| && r.value == sz[|kw| + 1..]
  {
    if Keyword(sz) == kw && |sz| > |kw| then Some(sz[|kw| + 1..]) else None
  }

  /** `/^CLAUSE$/i`. */
  predicate IsOpen(sz: string, clause: string) {
    Upper(sz) == clause
  }

  /** `/^END( # CLAUSE)?$/i`, given the long form `END # CLAUSE` as marker. */
  predicate IsEnd(sz: string, marker: string) {
    Upper(sz) == "END" || Upper(sz) == marker
  }

  /** A long end marker: END, a space, then the rest. */
  predicate IsMarker(marker: string) {
    |marker| > 4 && marker[..4] == "END "
  }

  /** `(.+)`: one or more characters other than a line feed. */
  predicate IsAnyText(s: string) {
    |s| > 0 && '\n' !in s
  }

  /** `/^KW ([0-9\.]+)$/i`: the matched decimal text. */
  function DecimalArg(sz: string, kw: string): (r: Option<string>)
    ensures r.Some? ==> IsDecimal(r.value)
  {
    var rest := After(sz, kw);
    if rest.Some? && IsDecimal(rest.value) then rest else None
  }

  /** `/^KW ([0-9]+)$/i` followed by intval(). */
  function NatArg(sz: string, kw: string): Option<nat> {
    var rest := After(sz, kw);
    if rest.Some? && IsDigits(rest.value) then Some(ParseNat(rest.value)) else None
  }

  /** `/^KW (.+)$/i`. */
  function TextArg(sz: string, kw: string): (r: Option<string>)
    ensures r.Some? ==> IsAnyText(r.value)
  {
    var rest := After(sz, kw);
    if rest.Some? && IsAnyText(rest.value) then rest else None
  }

  /** `/^KW "(.+)"$/i`: the text between the first and the last quote. */
  function QuotedArg(sz: string, kw: string): (r: Option<string>)
    ensures r.Some? ==> IsAnyText(r.value)
  {
    var rest := After(sz, kw);
    if rest.Some? && |rest.value| >= 3 && rest.value[0] == '"' && rest.value[|rest.value| - 1] == '"'
       && IsAnyText(rest.value[1..|rest.value| - 1])
    then Some(rest.value[1..|rest.value| - 1])
    else None
  }

  /** An RGB colour as the PHP classes hold it: array(r, g, b). */
  datatype Rgb = Rgb(r: int, g: int, b: int)

  predicate InRange(c: int) {
    0 <= c <= 255
  }

  /** `/^KW ([0-9]+) ([0-9]+) ([0-9]+)$/i` followed by intval() of each
      group. No range check: a parsed component may exceed 255. */
  function ColorArg(sz: string, kw: string): (r: Option<Rgb>)
    ensures r.Some? ==> r.value.r >= 0 && r.value.g >= 0 && r.value.b >= 0
  {
    var rest := After(sz, kw);
    if rest.Some? then
      var parts := Split(rest.value);
      if |parts| == 3 && IsDigits(parts[0]) && IsDigits(parts[1]) && IsDigits(parts[2])
      then Some(Rgb(ParseNat(parts[0]), ParseNat(parts[1]), ParseNat(parts[2])))
      else None
    else None
  }

  /** implode(' ', $color). */
  function RgbText(c: Rgb): string {
    Join([IntToString(c.r), IntToString(c.g), IntToString(c.b)])
  }

  /** The setters' check: every component in [0, 255], else an error naming
      the attribute and the three components. */
  function CheckedRgb(attribute: string, r: int, g: int, b: int): (res: Result<Rgb, Error>)
    ensures res.Success? <==> InRange(r) && InRange(g) && InRange(b)
    ensures res.Success? ==> res.value == Rgb(r, g, b)
    ensures res.Failure? ==> res.error == Invalid(attribute, RgbText(Rgb(r, g, b)))
  {
    if InRange(r) && InRange(g) && InRange(b) then Success(Rgb(r, g, b))
    else Failure(Invalid(attribute, RgbText(Rgb(r, g, b))))
  }

  /** A line as the writers emit it: n spaces, then the content. */
  function Indented(n: nat, s: string): string {
    Spaces(n) + s
  }

  /** The content of an attribute line, `KW value`. */
  function Attr(kw: string, v: string): string {
    kw + " " + v
  }

  lemma {:induction false} KeywordOfAttr(kw: string, v: string)
    requires IsWord(kw)
    ensures Keyword(Attr(kw, v)) == kw
  {
    WordIsPlain(kw);
    UpperAppend(kw + " ", v);
    UpperAppend(kw, " ");
    assert Upper(" ") == " ";
    HeadOfWord(kw, Upper(v));
  }

  /** Trimming an indented attribute line gives `KW value` back, whose
      keyword is KW: only KW's own matchers see the value. */
  lemma {:induction false} AttrLine(n: nat, kw: string, v: string)
    requires IsWord(kw) && v != [] && !IsBlank(v[|v| - 1])
    ensures Trim(Indented(n, Attr(kw, v))) == Attr(kw, v)
    ensures Keyword(Attr(kw, v)) == kw
    ensures After(Attr(kw, v), kw) == Some(v)
    ensures forall other :: other != kw ==> After(Attr(kw, v), other) == None
  {
    var s := Attr(kw, v);
    assert s[0] == kw[0];
    assert s[|s| - 1] == v[|v| - 1];
    TrimIndented(n, s);
    KeywordOfAttr(kw, v);
    assert s[|kw| + 1..] == v;
  }

  /** The keyword the reader sees on each line. */
  function KeysOf(lines: seq<string>): (ks: seq<string>)
    ensures |ks| == |lines|
  {
    seq(|lines|, i requires 0 <= i < |lines| => Keyword(Trim(lines[i])))
  }

  lemma KeysAppend(a: seq<string>, b: seq<string>)
    ensures KeysOf(a + b) == KeysOf(a) + KeysOf(b)
  {
  }

  /** Whatever its value, an indented attribute line's keyword is KW. */
  lemma {:induction false} KeywordOfLine(n: nat, kw: string, v: string)
    requires IsWord(kw)
    ensures Keyword(Trim(Indented(n, Attr(kw, v)))) == kw
  {
    var s := Attr(kw, v);
    assert s[0] == kw[0] && s[|kw| - 1] == kw[|kw| - 1];
    TrimLeftPadded(n, s);
    TrimRightPrefix(s, |kw|);
    var t := TrimRight(s);
    assert Trim(Indented(n, s)) == t;
    var u := Upper(t);
    UpperAt(t);
    forall i | 0 <= i < |kw| ensures u[i] == kw[i] {
      assert t[i] == s[i] == kw[i];
    }
    assert u[..|kw|] == kw;
    if |t| > |kw| {
      assert t[|kw|] == s[|kw|] == ' ';
    }
    WordIsPlain(kw);
    HeadOfPrefix(u, kw);
  }

  /** A line whose keyword is neither the clause's name nor END neither
      opens nor closes the clause. */
  lemma {:induction false} NeitherOpenNorEnd(sz: string, clause: string, marker: string)
    requires ' ' !in clause && IsMarker(marker)
    requires Keyword(sz) != clause && Keyword(sz) != "END"
    ensures !IsOpen(sz, clause) && !IsEnd(sz, marker)
  {
    HeadOfSpaceFree(clause);
    HeadOfSpaceFree("END");
    assert marker == "END" + " " + marker[4..];
    HeadOfWord("END", marker[4..]);
  }

  /** An indented line of upper-case text upper-cases back to that text
      once trimmed. */
  lemma UpperTrimmedLine(n: nat, s: string)
    requires Unpadded(s) && forall i :: 0 <= i < |s| ==> !IsLower(s[i])
    ensures Upper(Trim(Indented(n, s))) == s
  {
    TrimIndented(n, s);
    UpperFixed(s);
  }

  /** A negative number's text ends in a digit but is not all digits. */
  lemma NegativeText(n: int)
    requires n < 0
    ensures var t := IntToString(n); !IsBlank(t[|t| - 1]) && !IsDigits(t)
  {
    var d := NatToString(-n);
    assert IntToString(n)[|IntToString(n)| - 1] == d[|d| - 1];
  }

  lemma {:induction false} NumberText(n: int)
    requires n >= 0
    ensures IsDigits(IntToString(n)) && IsDecimal(IntToString(n))
    ensures ParseNat(IntToString(n)) == n
  {
    ParseNatToString(n);
  }

  /** A colour with non-negative components is written as three digit runs
      that the colour pattern reads back as the same colour. */
  lemma RgbTextReads(kw: string, c: Rgb)
    requires IsWord(kw) && c.r >= 0 && c.g >= 0 && c.b >= 0
    ensures var t := RgbText(c); t != [] && IsDigit(t[|t| - 1])
    ensures ColorArg(Attr(kw, RgbText(c)), kw) == Some(c)
  {
    var a, b, d := IntToString(c.r), IntToString(c.g), IntToString(c.b);
    NumberText(c.r);
    NumberText(c.g);
    NumberText(c.b);
    DecimalIsPlain(a);
    DecimalIsPlain(b);
    DecimalIsPlain(d);
    JoinThree(a, b, d);
    var t := RgbText(c);
    assert t == a + " " + b + " " + d;
    SplitThree(a, b, d);
    assert t[|t| - 1] == d[|d| - 1];
    AttrLine(0, kw, t);
  }

  /** Text whose upper-case form is a word, in any letter case, after a
      keyword is what the `(.+)` pattern captures. */
  lemma {:induction false} WordTextReads(kw: string, text: string)
    requires IsWord(kw) && IsWord(Upper(text))
    ensures Keyword(Attr(kw, text)) == kw && TextArg(Attr(kw, text), kw) == Some(text)
  {
    UpperAt(text);
    forall i | 0 <= i < |text| ensures text[i] != '\n' {
      assert IsUpperLetter(Upper(text)[i]);
    }
    KeywordOfAttr(kw, text);
    assert Attr(kw, text)[|kw| + 1..] == text;
  }

  /** Decimal text after a keyword is read back unchanged. */
  lemma DecimalReads(kw: string, v: string)
    requires IsWord(kw) && IsDecimal(v)
    ensures DecimalArg(Attr(kw, v), kw) == Some(v)
  {
    AttrLine(0, kw, v);
  }

  /** A number after a keyword is read back as that number. */
  lemma NatReads(kw: string, n: nat)
    ensures IsWord(kw) ==> NatArg(Attr(kw, IntToString(n)), kw) == Some(n)
  {
    if IsWord(kw) {
      NumberText(n);
      AttrLine(0, kw, IntToString(n));
    }
  }

  /** A quoted name after a keyword is read back unchanged. */
  lemma QuotedReads(kw: string, name: string)
    requires IsWord(kw) && IsAnyText(name)
    ensures QuotedArg(Attr(kw, "\"" + name + "\""), kw) == Some(name)
  {
    var q := "\"" + name + "\"";
    AttrLine(0, kw, q);
    assert q[1..|q| - 1] == name;
  }
}
