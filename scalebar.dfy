/** The SCALEBAR clause (class Scalebar): its defaults, the range-checked
    colour setters, the writer and the line-driven reader with its LABEL
    sub-block. A failed STATUS or UNITS conversion, which throws in the
    source, is a Failure here. */
module Scalebar {
  import opened Wrappers
  import opened Text
  import opened Codec
  import opened Syntax
  import opened LabelClause

  /** Fixed indentation of the clause and of its attribute lines, and the
      depth the label is written at. */
  const CLAUSE_INDENT: nat := 2
  const ATTRIBUTE_INDENT: nat := 4
  const LABEL_DEPTH: nat := 2

  const Header := Indented(CLAUSE_INDENT, "SCALEBAR")
  const Footer := Indented(CLAUSE_INDENT, "END # SCALEBAR")

  /** The properties of a Scalebar. The colours are always three-element
      arrays; `units` may be set to null; `label` is null until read() or
      the constructor installs one. */
  datatype ScalebarFields = ScalebarFields(
    status: int,
    units: Option<int>,
    color: Rgb,
    outlinecolor: Rgb,
    intervals: int,
    theLabel: Option<Label>)

  /** The property initialisers: status OFF, units METERS, black colours,
      4 intervals, no label yet. */
  const Initial := ScalebarFields(STATUS_OFF, Some(UNITS_METERS), Rgb(0, 0, 0), Rgb(0, 0, 0), 4, None)

  /** The constructor's last step: a Scalebar without a label gets `new Label()`. */
  function WithLabel(f: ScalebarFields): (r: ScalebarFields)
    ensures r.theLabel.Some?
    ensures f.theLabel.Some? ==> r == f
    ensures f.theLabel.None? ==> r == f.(theLabel := Some(DefaultLabel))
  {
    if f.theLabel.None? then f.(theLabel := Some(DefaultLabel)) else f
  }

  // ---------------------------------------------------------------- writer

  /** `!empty($color) && array_sum($color) >= 0` on a three-element array. */
  predicate IsWritten(c: Rgb) {
    c.r + c.g + c.b >= 0
  }

  function AttributeLine(kw: string, v: string): string {
    Indented(ATTRIBUTE_INDENT, Attr(kw, v))
  }

  function StatusLine(token: string): string {
    AttributeLine("STATUS", token)
  }

  /** The UNITS line: none when units is null, otherwise one line holding
      the token of a known code; an unknown code fails, naming it. */
  function UnitsLines(units: Option<int>): (r: Result<seq<string>, Error>)
    ensures units.None? ==> r == Success([])
    ensures units.Some? ==> (r.Success? <==> units.value in {0, 1, 2, 3, 4, 5, 6, 8})
    ensures units.Some? && r.Success? ==>
      exists i :: 0 <= i < |UnitsTable| && UnitsTable[i].code == units.value
        && r.value == [AttributeLine("UNITS", UnitsTable[i].token)]
    ensures r.Failure? ==> units.Some? && r.error == Invalid("UNITS", IntToString(units.value))
  {
    if units.None? then Success([])
    else
      UnitsCodes(units.value);
      var token :- EncodeCode(UnitsTable, "UNITS", units.value);
      Success([AttributeLine("UNITS", token)])
  }

  function ColorLine(kw: string, c: Rgb): seq<string> {
    if IsWritten(c) then [AttributeLine(kw, RgbText(c))] else []
  }

  /** The INTERVALS line, absent when intervals is 0 (PHP's empty()). */
  function IntervalsLine(n: int): seq<string> {
    if n != 0 then [AttributeLine("INTERVALS", IntToString(n))] else []
  }

  /** write(): the clause's lines, with `$this->label->write(2)` supplied as
      `render`. The status is converted first, then the units; either
      conversion can fail. */
  function WriteScalebar(f: ScalebarFields, render: LabelWriter): (r: Result<seq<string>, Error>)
    requires f.theLabel.Some?
    ensures r.Success? ==> |r.value| >= 3 && r.value[0] == Header && r.value[|r.value| - 1] == Footer
  {
    var status :- EncodeCode(StatusTable, "STATUS", f.status);
    var units :- UnitsLines(f.units);
    Success([Header] + AttributeLines(f, status, units) + render(f.theLabel.value, LABEL_DEPTH) + [Footer])
  }

  /** The attribute lines of write(): STATUS to INTERVALS. */
  function AttributeLines(f: ScalebarFields, status: string, units: seq<string>): seq<string> {
    [StatusLine(status)] + OptionalLines(f, units)
  }

  /** The lines after STATUS, each present only when its value is written. */
  function OptionalLines(f: ScalebarFields, units: seq<string>): seq<string> {
    units + ColorLine("COLOR", f.color) + ColorLine("OUTLINECOLOR", f.outlinecolor) + IntervalsLine(f.intervals)
  }

  /** The keywords write() may emit, in the order it emits them. */
  const ScalebarOrder: seq<string> := ["STATUS", "UNITS", "COLOR", "OUTLINECOLOR", "INTERVALS"]

  /** Whether write() emits the attribute kw: STATUS always, UNITS when not
      null, a colour when written, INTERVALS when not empty(). */
  predicate Emits(f: ScalebarFields, kw: string) {
    || kw == "STATUS"
    || (kw == "UNITS" && f.units.Some?)
    || (kw == "COLOR" && IsWritten(f.color))
    || (kw == "OUTLINECOLOR" && IsWritten(f.outlinecolor))
    || (kw == "INTERVALS" && f.intervals != 0)
  }

  /** The keywords of kws that f emits, in their order. */
  function Emitted(kws: seq<string>, f: ScalebarFields): seq<string> {
    if kws == [] then [] else (if Emits(f, kws[0]) then [kws[0]] else []) + Emitted(kws[1..], f)
  }

  /** The text write() puts after the keyword kw, given the converted
      status and unit tokens. */
  function ArgumentText(f: ScalebarFields, status: string, unit: string, kw: string): string {
    if kw == "STATUS" then status
    else if kw == "UNITS" then unit
    else if kw == "COLOR" then RgbText(f.color)
    else if kw == "OUTLINECOLOR" then RgbText(f.outlinecolor)
    else IntToString(f.intervals)
  }

  // ---------------------------------------------------------------- reader

  /** The reader's state: inside the clause ($scalebar), inside a LABEL
      sub-block ($reading == 'LABEL'), the buffered LABEL lines ($label)
      and the properties so far. */
  datatype ScalebarScan = ScalebarScan(inside: bool, reading: bool, buffer: seq<string>, fields: ScalebarFields)

  /** The attribute branches, tried in the source's order on a trimmed line
      inside the clause and outside LABEL. Each anchored pattern matches only
      lines whose keyword is its own, so each branch first tests the
      keyword. STATUS and UNITS are upper-cased and converted, and a failed
      conversion fails the read. */
  function AssignAttribute(f: ScalebarFields, sz: string): Result<ScalebarFields, Error> {
    var kw := Keyword(sz);
    if kw == "STATUS" && TextArg(sz, "STATUS").Some? then
      var status :- ReadCode(StatusTable, "STATUS", TextArg(sz, "STATUS").value);
      Success(f.(status := status))
    else if kw == "INTERVALS" && NatArg(sz, "INTERVALS").Some? then
      Success(f.(intervals := NatArg(sz, "INTERVALS").value))
    else if kw == "COLOR" && ColorArg(sz, "COLOR").Some? then
      Success(f.(color := ColorArg(sz, "COLOR").value))
    else if kw == "OUTLINECOLOR" && ColorArg(sz, "OUTLINECOLOR").Some? then
      Success(f.(outlinecolor := ColorArg(sz, "OUTLINECOLOR").value))
    else if kw == "UNITS" && TextArg(sz, "UNITS").Some? then
      var units :- ReadCode(UnitsTable, "UNITS", TextArg(sz, "UNITS").value);
      Success(f.(units := Some(units)))
    else Success(f)
  }

  /** One iteration of read()'s loop. A SCALEBAR line always (re)enters the
      clause, even inside LABEL. Inside LABEL, END [# LABEL] ends the block,
      which becomes the label, and every other line is buffered. */
  function ScalebarStep(st: ScalebarScan, line: string): Result<ScalebarScan, Error> {
    var sz := Trim(line);
    if IsOpen(sz, "SCALEBAR") then Success(st.(inside := true))
    else if !st.inside then Success(st)
    else if !st.reading then
      if IsEnd(sz, "END # SCALEBAR") then Success(st.(inside := false))
      else if IsOpen(sz, "LABEL") then Success(st.(reading := true, buffer := [sz]))
      else
        var g :- AssignAttribute(st.fields, sz);
        Success(st.(fields := g))
    else if IsEnd(sz, "END # LABEL") then
      Success(ScalebarScan(true, false, [], st.fields.(theLabel := Some(ParsedLabel(st.buffer + [sz])))))
    else Success(st.(buffer := st.buffer + [sz]))
  }

  function ScanScalebar(lines: seq<string>, st: ScalebarScan): Result<ScalebarScan, Error>
    decreases |lines|
  {
    if lines == [] then Success(st)
    else
      var next :- ScalebarStep(st, lines[0]);
      ScanScalebar(lines[1..], next)
  }

  const Start := ScalebarScan(false, false, [], Initial)

  /** `new Scalebar($lines)`: read the lines from the initial properties,
      then install a default label if none was read. */
  function ReadScalebar(lines: seq<string>): Result<ScalebarFields, Error> {
    var st :- ScanScalebar(lines, Start);
    Success(WithLabel(st.fields))
  }

  // ---------------------------------------------------------------- class

  class Scalebar {
    var status: int
    var units: Option<int>
    var color: Rgb
    var outlinecolor: Rgb
    var intervals: int
    var theLabel: Option<Label>

    function Fields(): ScalebarFields
      reads this
    {
      ScalebarFields(status, units, color, outlinecolor, intervals, theLabel)
    }

    /** `new Scalebar()`: the defaults and a default label. */
    constructor ()
      ensures Fields() == WithLabel(Initial)
    {
      status, units := STATUS_OFF, Some(UNITS_METERS);
      color, outlinecolor := Rgb(0, 0, 0), Rgb(0, 0, 0);
      intervals := 4;
      theLabel := Some(DefaultLabel);
    }

    /** The object as the property initialisers leave it, before the
        constructor body runs. */
    constructor Blank()
      ensures Fields() == Initial
    {
      status, units := STATUS_OFF, Some(UNITS_METERS);
      color, outlinecolor := Rgb(0, 0, 0), Rgb(0, 0, 0);
      intervals := 4;
      theLabel := None;
    }

    /** `new Scalebar($lines)`: read(), then the default label if none was
        read; a failed conversion during read() fails the construction. */
    static method FromClause(lines: seq<string>) returns (r: Result<Scalebar, Error>)
      ensures r.Success? <==> ReadScalebar(lines).Success?
      ensures r.Success? ==> fresh(r.value) && r.value.Fields() == ReadScalebar(lines).value
      ensures r.Failure? ==> r.error == ReadScalebar(lines).error
    {
      var s := new Scalebar.Blank();
      var o := s.Read(lines);
      if o.Fail? {
        return Failure(o.error);
      }
      if s.theLabel.None? {
        s.theLabel := Some(DefaultLabel);
      }
      r := Success(s);
    }

    /** read(): one forward pass over the lines, stopped by the first failed
        conversion. */
    method Read(lines: seq<string>) returns (o: Outcome<Error>)
      modifies this
      ensures var r := ScanScalebar(lines, ScalebarScan(false, false, [], old(Fields())));
        && (o.Pass? <==> r.Success?)
        && (o.Pass? ==> Fields() == r.value.fields)
        && (o.Fail? ==> o.error == r.error)
    {
      var scalebar, reading, buffer := false, false, [];
      var i := 0;
      while i < |lines|
        invariant 0 <= i <= |lines|
        invariant ScanScalebar(lines, ScalebarScan(false, false, [], old(Fields())))
               == ScanScalebar(lines[i..], ScalebarScan(scalebar, reading, buffer, Fields()))
      {
        ghost var before := ScalebarScan(scalebar, reading, buffer, Fields());
        var sz := Trim(lines[i]);
        if IsOpen(sz, "SCALEBAR") {
          scalebar := true;
        } else if scalebar && !reading && IsEnd(sz, "END # SCALEBAR") {
          scalebar := false;
        } else if scalebar && !reading && IsOpen(sz, "LABEL") {
          reading := true;
          buffer := [sz];
        } else if scalebar && reading && IsEnd(sz, "END # LABEL") {
          buffer := buffer + [sz];
          theLabel := Some(ParsedLabel(buffer));
          reading := false;
          buffer := [];
        } else if scalebar && reading {
          buffer := buffer + [sz];
        } else if scalebar && !reading {
          var a := Assign(sz);
          if a.Fail? {
            ScanFailsAt(lines, i, before);
            return a;
          }
        }
        ScanAt(lines, i, before, ScalebarScan(scalebar, reading, buffer, Fields()));
        i := i + 1;
      }
      o := Pass;
    }

    /** The attribute branches of read(), tried in order on a trimmed line
        inside the clause and outside LABEL. */
    method Assign(sz: string) returns (o: Outcome<Error>)
      modifies this
      ensures var r := AssignAttribute(old(Fields()), sz);
        && (o.Pass? <==> r.Success?)
        && (o.Pass? ==> Fields() == r.value)
        && (o.Fail? ==> o.error == r.error && Fields() == old(Fields()))
    {
      var kw := Keyword(sz);
      if kw == "STATUS" && TextArg(sz, "STATUS").Some? {
        var s := ReadCode(StatusTable, "STATUS", TextArg(sz, "STATUS").value);
        if s.Failure? {
          return Fail(s.error);
        }
        status := s.value;
      } else if kw == "INTERVALS" && NatArg(sz, "INTERVALS").Some? {
        intervals := NatArg(sz, "INTERVALS").value;
      } else if kw == "COLOR" && ColorArg(sz, "COLOR").Some? {
        color := ColorArg(sz, "COLOR").value;
      } else if kw == "OUTLINECOLOR" && ColorArg(sz, "OUTLINECOLOR").Some? {
        outlinecolor := ColorArg(sz, "OUTLINECOLOR").value;
      } else if kw == "UNITS" && TextArg(sz, "UNITS").Some? {
        var u := ReadCode(UnitsTable, "UNITS", TextArg(sz, "UNITS").value);
        if u.Failure? {
          return Fail(u.error);
        }
        units := Some(u.value);
      }
      o := Pass;
    }

    /** setColor(r, g, b). */
    method SetColor(r: int, g: int, b: int) returns (o: Outcome<Error>)
      modifies this`color
      ensures o.Pass? <==> InRange(r) && InRange(g) && InRange(b)
      ensures o.Pass? ==> color == Rgb(r, g, b)
      ensures o.Fail? ==> color == old(color) && o.error == Invalid("SCALEBAR COLOR", RgbText(Rgb(r, g, b)))
    {
      var c := CheckedRgb("SCALEBAR COLOR", r, g, b);
      if c.Success? {
        color := c.value;
        o := Pass;
      } else {
        o := Fail(c.error);
      }
    }

    /** setOutlineColor(r, g, b). */
    method SetOutlineColor(r: int, g: int, b: int) returns (o: Outcome<Error>)
      modifies this`outlinecolor
      ensures o.Pass? <==> InRange(r) && InRange(g) && InRange(b)
      ensures o.Pass? ==> outlinecolor == Rgb(r, g, b)
      ensures o.Fail? ==> outlinecolor == old(outlinecolor) && o.error == Invalid("SCALEBAR OUTLINECOLOR", RgbText(Rgb(r, g, b)))
    {
      var c := CheckedRgb("SCALEBAR OUTLINECOLOR", r, g, b);
      if c.Success? {
        outlinecolor := c.value;
        o := Pass;
      } else {
        o := Fail(c.error);
      }
    }

    /** write(). */
    function Write(render: LabelWriter): Result<seq<string>, Error>
      reads this
      requires theLabel.Some?
    {
      WriteScalebar(Fields(), render)
    }
  }

  // ---------------------------------------------------------------- proofs

  lemma ScanAt(lines: seq<string>, i: int, st: ScalebarScan, next: ScalebarScan)
    requires 0 <= i < |lines| && ScalebarStep(st, lines[i]) == Success(next)
    ensures ScanScalebar(lines[i..], st) == ScanScalebar(lines[i + 1..], next)
  {
    assert lines[i..][1..] == lines[i + 1..];
  }

  lemma ScanFailsAt(lines: seq<string>, i: int, st: ScalebarScan)
    requires 0 <= i < |lines| && ScalebarStep(st, lines[i]).Failure?
    ensures ScanScalebar(lines[i..], st) == Failure(ScalebarStep(st, lines[i]).error)
  {
  }

  /** Reading two runs of lines is reading the first, then the second; a
      failure in the first is the result. */
  lemma {:induction false} ScanAppend(a: seq<string>, b: seq<string>, st: ScalebarScan)
    ensures ScanScalebar(a, st).Failure? ==> ScanScalebar(a + b, st) == ScanScalebar(a, st)
    ensures ScanScalebar(a, st).Success? ==> ScanScalebar(a + b, st) == ScanScalebar(b, ScanScalebar(a, st).value)
  {
    if a == [] {
      assert a + b == b;
    } else {
      assert (a + b)[0] == a[0] && (a + b)[1..] == a[1..] + b;
      var next := ScalebarStep(st, a[0]);
      if next.Success? {
        ScanAppend(a[1..], b, next.value);
      }
    }
  }

  lemma StepAppend(p: seq<string>, c: seq<string>, st: ScalebarScan, mid: ScalebarScan, last: ScalebarScan)
    requires ScanScalebar(p, st) == Success(mid) && ScanScalebar(c, mid) == Success(last)
    ensures ScanScalebar(p + c, st) == Success(last)
  {
    ScanAppend(p, c, st);
  }

  lemma ScanOne(line: string, st: ScalebarScan)
    ensures ScanScalebar([line], st) == ScalebarStep(st, line)
  {
    assert [line][1..] == [];
  }

  // ---------------------------------------------------------------- the attribute lines

  function InBody(g: ScalebarFields): ScalebarScan {
    ScalebarScan(true, false, [], g)
  }

  /** A written attribute line reaches the attribute branches with its
      content `KW value`. */
  lemma {:induction false} AttributeStep(g: ScalebarFields, kw: string, v: string)
    requires IsWord(kw) && kw != "SCALEBAR" && kw != "END" && kw != "LABEL"
    requires v != [] && !IsBlank(v[|v| - 1])
    ensures ScanScalebar([AttributeLine(kw, v)], InBody(g))
         == (var g' :- AssignAttribute(g, Attr(kw, v)); Success(InBody(g')))
    ensures Keyword(Attr(kw, v)) == kw && After(Attr(kw, v), kw) == Some(v)
  {
    AttrLine(ATTRIBUTE_INDENT, kw, v);
    NeitherOpenNorEnd(Attr(kw, v), "SCALEBAR", "END # SCALEBAR");
    NeitherOpenNorEnd(Attr(kw, v), "LABEL", "END # LABEL");
    ScanOne(AttributeLine(kw, v), InBody(g));
  }

  lemma {:induction false} AssignStatus(g: ScalebarFields, sz: string, text: string)
    requires Keyword(sz) == "STATUS" && TextArg(sz, "STATUS") == Some(text)
    ensures AssignAttribute(g, sz) == (var s :- ReadCode(StatusTable, "STATUS", text); Success(g.(status := s)))
  {
  }

  lemma {:induction false} AssignUnits(g: ScalebarFields, sz: string, text: string)
    requires Keyword(sz) == "UNITS" && TextArg(sz, "UNITS") == Some(text)
    ensures AssignAttribute(g, sz) == (var u :- ReadCode(UnitsTable, "UNITS", text); Success(g.(units := Some(u))))
  {
  }

  lemma {:induction false} AssignIntervals(g: ScalebarFields, sz: string, n: nat)
    requires Keyword(sz) == "INTERVALS" && NatArg(sz, "INTERVALS") == Some(n)
    ensures AssignAttribute(g, sz) == Success(g.(intervals := n))
  {
  }

  lemma {:induction false} AssignColor(g: ScalebarFields, sz: string, c: Rgb)
    requires Keyword(sz) == "COLOR" && ColorArg(sz, "COLOR") == Some(c)
    ensures AssignAttribute(g, sz) == Success(g.(color := c))
  {
  }

  lemma {:induction false} AssignOutlineColor(g: ScalebarFields, sz: string, c: Rgb)
    requires Keyword(sz) == "OUTLINECOLOR" && ColorArg(sz, "OUTLINECOLOR") == Some(c)
    ensures AssignAttribute(g, sz) == Success(g.(outlinecolor := c))
  {
  }

  /** A token of a well-formed table is a word, so it ends the line. */
  lemma TokenIsWord(t: Table, code: int, tok: string)
    requires WellFormed(t) && EncodeCode(t, "", code) == Success(tok)
    ensures IsWord(tok)
  {
    var i :| 0 <= i < |t| && t[i].code == code && t[i].token == tok;
  }

  /** The STATUS line reads back as the conversion of its token. */
  lemma {:induction false} StatusStep(g: ScalebarFields, tok: string)
    requires IsWord(tok)
    ensures ScanScalebar([StatusLine(tok)], InBody(g))
         == (var s :- ReadCode(StatusTable, "STATUS", tok); Success(InBody(g.(status := s))))
  {
    AttributeStep(g, "STATUS", tok);
    AssignStatus(g, Attr("STATUS", tok), tok);
  }

  lemma {:induction false} UnitsStep(g: ScalebarFields, u: Option<int>)
    requires u.Some? ==> EncodeCode(UnitsTable, "UNITS", u.value).Success? && u.value != UNITS_INCHES
    ensures UnitsLines(u).Success?
    ensures ScanScalebar(UnitsLines(u).value, InBody(g)) == Success(InBody(if u.Some? then g.(units := u) else g))
  {
    if u.Some? {
      var tok := EncodeCode(UnitsTable, "UNITS", u.value).value;
      UnitsToken(u.value);
      UnitsTokenStep(g, tok);
    }
  }

  /** A unit other than INCHES is written as a word that reads back as it. */
  lemma {:induction false} UnitsToken(code: int)
    requires EncodeCode(UnitsTable, "UNITS", code).Success? && code != UNITS_INCHES
    ensures var tok := EncodeCode(UnitsTable, "UNITS", code).value;
      IsWord(tok) && ReadCode(UnitsTable, "UNITS", tok) == Success(code)
  {
    TablesWellFormed();
    EncodeThenRead(UnitsTable, "UNITS", code);
    TokenIsWord(UnitsTable, code, EncodeCode(UnitsTable, "UNITS", code).value);
  }

  lemma {:induction false} UnitsTokenStep(g: ScalebarFields, tok: string)
    requires IsWord(tok)
    ensures ScanScalebar([AttributeLine("UNITS", tok)], InBody(g))
         == (var u :- ReadCode(UnitsTable, "UNITS", tok); Success(InBody(g.(units := Some(u)))))
  {
    AttributeStep(g, "UNITS", tok);
    AssignUnits(g, Attr("UNITS", tok), tok);
  }

  lemma {:induction false} ColorStep(g: ScalebarFields, c: Rgb)
    requires c.r >= 0 && c.g >= 0 && c.b >= 0
    ensures ScanScalebar(ColorLine("COLOR", c), InBody(g)) == Success(InBody(g.(color := c)))
  {
    RgbTextReads("COLOR", c);
    AttributeStep(g, "COLOR", RgbText(c));
    AssignColor(g, Attr("COLOR", RgbText(c)), c);
  }

  lemma {:induction false} OutlineColorStep(g: ScalebarFields, c: Rgb)
    requires c.r >= 0 && c.g >= 0 && c.b >= 0
    ensures ScanScalebar(ColorLine("OUTLINECOLOR", c), InBody(g)) == Success(InBody(g.(outlinecolor := c)))
  {
    RgbTextReads("OUTLINECOLOR", c);
    AttributeStep(g, "OUTLINECOLOR", RgbText(c));
    AssignOutlineColor(g, Attr("OUTLINECOLOR", RgbText(c)), c);
  }

  lemma {:induction false} IntervalsStep(g: ScalebarFields, n: int)
    requires n >= 0
    ensures ScanScalebar(IntervalsLine(n), InBody(g)) == Success(InBody(if n != 0 then g.(intervals := n) else g))
  {
    if n != 0 {
      var t := IntToString(n);
      NumberText(n);
      DecimalIsPlain(t);
      AttributeStep(g, "INTERVALS", t);
      NatReads("INTERVALS", n);
      AssignIntervals(g, Attr("INTERVALS", t), n);
    }
  }

  /** Negative intervals are written (`INTERVALS -3`), but the reader's
      `[0-9]+` does not match the line, which changes nothing: the value
      does not survive a write and a read. */
  lemma {:induction false} NegativeIntervalsIgnored(g: ScalebarFields, n: int)
    requires n < 0
    ensures IntervalsLine(n) == [AttributeLine("INTERVALS", IntToString(n))]
    ensures ScanScalebar(IntervalsLine(n), InBody(g)) == Success(InBody(g))
  {
    NegativeText(n);
    AttributeStep(g, "INTERVALS", IntToString(n));
  }

  // ---------------------------------------------------------------- the LABEL sub-block

  /** Inside LABEL, lines that neither end the label nor reopen SCALEBAR are
      buffered, trimmed, in order. */
  lemma {:induction false} Buffering(mid: seq<string>, buf: seq<string>, g: ScalebarFields)
    requires forall i :: 0 <= i < |mid| ==> !IsEnd(Trim(mid[i]), "END # LABEL") && !IsOpen(Trim(mid[i]), "SCALEBAR")
    ensures ScanScalebar(mid, ScalebarScan(true, true, buf, g)) == Success(ScalebarScan(true, true, buf + TrimAll(mid), g))
  {
    if mid == [] {
      assert buf + TrimAll(mid) == buf;
    } else {
      var buf' := buf + [Trim(mid[0])];
      BufferStep(buf, g, mid[0]);
      assert ScanScalebar(mid, ScalebarScan(true, true, buf, g)) == ScanScalebar(mid[1..], ScalebarScan(true, true, buf', g));
      assert forall i :: 0 <= i < |mid[1..]| ==> mid[1..][i] == mid[i + 1];
      Buffering(mid[1..], buf', g);
      BufferTrimmed(buf, mid);
    }
  }

  lemma {:induction false} BufferStep(buf: seq<string>, g: ScalebarFields, line: string)
    requires !IsEnd(Trim(line), "END # LABEL") && !IsOpen(Trim(line), "SCALEBAR")
    ensures ScalebarStep(ScalebarScan(true, true, buf, g), line) == Success(ScalebarScan(true, true, buf + [Trim(line)], g))
  {
  }

  lemma {:induction false} LabelOpens(g: ScalebarFields, line: string)
    requires Upper(Trim(line)) == "LABEL"
    ensures ScalebarStep(InBody(g), line) == Success(ScalebarScan(true, true, [Trim(line)], g))
  {
  }

  lemma {:induction false} LabelCloses(g: ScalebarFields, buf: seq<string>, line: string)
    requires IsEnd(Trim(line), "END # LABEL")
    ensures ScalebarStep(ScalebarScan(true, true, buf, g), line)
         == Success(InBody(g.(theLabel := Some(ParsedLabel(buf + [Trim(line)])))))
  {
    assert Upper(Trim(line)) != "SCALEBAR";
  }

  /** A whole LABEL block inside the clause becomes the label, built from
      all its trimmed lines, END line included; its END does not close the
      SCALEBAR and nothing else changes. */
  lemma {:induction false} LabelBlockRead(block: seq<string>, g: ScalebarFields)
    requires IsLabelBlock(block, "SCALEBAR")
    ensures ScanScalebar(block, InBody(g)) == Success(InBody(g.(theLabel := Some(ParsedLabel(TrimAll(block))))))
  {
    var n := |block|;
    var open := block[..n - 1];
    var last := block[n - 1];
    assert forall i :: 0 < i < |open| ==> open[i] == block[i];
    UnterminatedLabel(open, g);
    LabelCloses(g, TrimAll(open), last);
    ScanOne(last, ScalebarScan(true, true, TrimAll(open), g));
    StepAppend(open, [last], InBody(g), ScalebarScan(true, true, TrimAll(open), g),
               InBody(g.(theLabel := Some(ParsedLabel(TrimAll(open) + [Trim(last)])))));
    assert open + [last] == block;
    assert TrimAll(open) + [Trim(last)] == TrimAll(block);
  }

  /** A later LABEL block replaces the earlier one. */
  lemma SecondLabelReplaces(first: seq<string>, second: seq<string>, g: ScalebarFields)
    requires IsLabelBlock(first, "SCALEBAR") && IsLabelBlock(second, "SCALEBAR")
    ensures ScanScalebar(first + second, InBody(g)) == Success(InBody(g.(theLabel := Some(ParsedLabel(TrimAll(second))))))
  {
    var g1 := g.(theLabel := Some(ParsedLabel(TrimAll(first))));
    LabelBlockRead(first, g);
    LabelBlockRead(second, g1);
    StepAppend(first, second, InBody(g), InBody(g1), InBody(g1.(theLabel := Some(ParsedLabel(TrimAll(second))))));
  }

  /** A LABEL block cut off before its END leaves the reader inside LABEL
      with the label unchanged: the input is accepted without error. */
  lemma {:induction false} UnterminatedLabel(block: seq<string>, g: ScalebarFields)
    requires |block| >= 1 && Upper(Trim(block[0])) == "LABEL"
    requires forall i :: 0 < i < |block| ==> !IsEnd(Trim(block[i]), "END # LABEL") && !IsOpen(Trim(block[i]), "SCALEBAR")
    ensures ScanScalebar(block, InBody(g)) == Success(ScalebarScan(true, true, TrimAll(block), g))
  {
    LabelOpens(g, block[0]);
    ScanOne(block[0], InBody(g));
    RestBuffered(block, g);
    StepAppend([block[0]], block[1..], InBody(g), ScalebarScan(true, true, [Trim(block[0])], g),
               ScalebarScan(true, true, TrimAll(block), g));
    assert [block[0]] + block[1..] == block;
  }

  lemma {:induction false} RestBuffered(block: seq<string>, g: ScalebarFields)
    requires |block| >= 1
    requires forall i :: 0 < i < |block| ==> !IsEnd(Trim(block[i]), "END # LABEL") && !IsOpen(Trim(block[i]), "SCALEBAR")
    ensures ScanScalebar(block[1..], ScalebarScan(true, true, [Trim(block[0])], g)) == Success(ScalebarScan(true, true, TrimAll(block), g))
  {
    var rest := block[1..];
    assert forall i :: 0 <= i < |rest| ==> rest[i] == block[i + 1];
    Buffering(rest, [Trim(block[0])], g);
    BufferTrimmed([], block);
    assert [] + [Trim(block[0])] == [Trim(block[0])];
  }

  /** A SCALEBAR clause whose only LABEL block is cut off gets the default
      label from the constructor. */
  lemma TruncatedLabelGetsDefault(block: seq<string>)
    requires |block| >= 1 && Upper(Trim(block[0])) == "LABEL"
    requires forall i :: 0 < i < |block| ==> !IsEnd(Trim(block[i]), "END # LABEL") && !IsOpen(Trim(block[i]), "SCALEBAR")
    ensures ReadScalebar([Header] + block) == Success(WithLabel(Initial))
  {
    HeaderStep();
    UnterminatedLabel(block, Initial);
    StepAppend([Header], block, Start, InBody(Initial), ScalebarScan(true, true, TrimAll(block), Initial));
  }

  // ---------------------------------------------------------------- write, then read

  lemma {:induction false} HeaderStep()
    ensures ScanScalebar([Header], Start) == Success(InBody(Initial))
  {
    UpperTrimmedLine(CLAUSE_INDENT, "SCALEBAR");
    ScanOne(Header, Start);
  }

  lemma {:induction false} FooterStep(g: ScalebarFields)
    ensures ScanScalebar([Footer], InBody(g)) == Success(ScalebarScan(false, false, [], g))
  {
    UpperTrimmedLine(CLAUSE_INDENT, "END # SCALEBAR");
    ScanOne(Footer, InBody(g));
    ClosingLine(g, Footer);
  }

  lemma {:induction false} ClosingLine(g: ScalebarFields, line: string)
    requires Upper(Trim(line)) == "END # SCALEBAR"
    ensures ScalebarStep(InBody(g), line) == Success(ScalebarScan(false, false, [], g))
  {
  }

  /** Properties the writer can emit and the reader accept: a known status
      and unit, non-negative colours and intervals, and a label. */
  predicate Writable(f: ScalebarFields) {
    && EncodeCode(StatusTable, "STATUS", f.status).Success?
    && (f.units.Some? ==> EncodeCode(UnitsTable, "UNITS", f.units.value).Success?)
    && f.color.r >= 0 && f.color.g >= 0 && f.color.b >= 0
    && f.outlinecolor.r >= 0 && f.outlinecolor.g >= 0 && f.outlinecolor.b >= 0
    && f.intervals >= 0
    && f.theLabel.Some?
  }

  /** What reading the written attribute lines gives: an absent UNITS line
      leaves METERS, an absent INTERVALS line (0) leaves 4. */
  function Reread(f: ScalebarFields, parsed: Option<Label>): ScalebarFields {
    f.(units := Some(f.units.GetOr(UNITS_METERS)),
       intervals := if f.intervals == 0 then 4 else f.intervals,
       theLabel := parsed)
  }

  lemma {:induction false} AttributesRead(f: ScalebarFields)
    requires Writable(f) && f.status == STATUS_ON
    requires f.units.Some? ==> f.units.value != UNITS_INCHES
    ensures ScanScalebar(AttributeLines(f, "ON", UnitsLines(f.units).value), InBody(Initial))
         == Success(InBody(Reread(f, None)))
  {
    var g1 := Initial.(status := STATUS_ON);
    StatusOn(Initial);
    OptionalRead(f, g1);
    StepAppend([StatusLine("ON")], OptionalLines(f, UnitsLines(f.units).value), InBody(Initial), InBody(g1), InBody(Reread(f, None)));
  }

  lemma {:induction false} OptionalRead(f: ScalebarFields, g1: ScalebarFields)
    requires Writable(f)
    requires f.units.Some? ==> f.units.value != UNITS_INCHES
    requires g1 == Initial.(status := f.status)
    ensures UnitsLines(f.units).Success?
    ensures ScanScalebar(OptionalLines(f, UnitsLines(f.units).value), InBody(g1)) == Success(InBody(Reread(f, None)))
  {
    var u := UnitsLines(f.units).value;
    var g2 := if f.units.Some? then g1.(units := f.units) else g1;
    UnitsStep(g1, f.units);
    var c := ColorLine("COLOR", f.color);
    var g3 := g2.(color := f.color);
    ColorStep(g2, f.color);
    StepAppend(u, c, InBody(g1), InBody(g2), InBody(g3));
    var o := ColorLine("OUTLINECOLOR", f.outlinecolor);
    var g4 := g3.(outlinecolor := f.outlinecolor);
    OutlineColorStep(g3, f.outlinecolor);
    StepAppend(u + c, o, InBody(g1), InBody(g3), InBody(g4));
    IntervalsStep(g4, f.intervals);
    StepAppend(u + c + o, IntervalsLine(f.intervals), InBody(g1), InBody(g4), InBody(Reread(f, None)));
  }

  /** `STATUS ON` reads back as ON. */
  lemma {:induction false} StatusOn(g: ScalebarFields)
    ensures ScanScalebar([StatusLine("ON")], InBody(g)) == Success(InBody(g.(status := STATUS_ON)))
  {
    TablesWellFormed();
    StatusCodes(STATUS_ON);
    EncodeThenRead(StatusTable, "STATUS", STATUS_ON);
    TokenIsWord(StatusTable, STATUS_ON, "ON");
    StatusStep(g, "ON");
  }

  /** write() succeeds exactly when the status is ON or OFF and the unit is
      null or one of the eight known units; otherwise it fails naming the
      first bad value, the status before the unit. */
  lemma {:induction false} WriteOutcome(f: ScalebarFields, render: LabelWriter)
    requires f.theLabel.Some?
    ensures WriteScalebar(f, render).Success?
        <==> f.status in {0, 1} && (f.units.Some? ==> f.units.value in {0, 1, 2, 3, 4, 5, 6, 8})
    ensures f.status !in {0, 1} ==> WriteScalebar(f, render) == Failure(Invalid("STATUS", IntToString(f.status)))
    ensures f.status in {0, 1} && f.units.Some? && f.units.value !in {0, 1, 2, 3, 4, 5, 6, 8}
        ==> WriteScalebar(f, render) == Failure(Invalid("UNITS", IntToString(f.units.value)))
  {
    StatusCodes(f.status);
    if f.units.Some? {
      UnitsCodes(f.units.value);
    }
  }

  /** write() unfolded when both codes are known. */
  lemma {:induction false} WriteUnfolds(f: ScalebarFields, render: LabelWriter)
    requires f.theLabel.Some? && EncodeCode(StatusTable, "STATUS", f.status).Success?
    requires f.units.Some? ==> EncodeCode(UnitsTable, "UNITS", f.units.value).Success?
    ensures WriteScalebar(f, render).Success? && UnitsLines(f.units).Success?
    ensures WriteScalebar(f, render).value
         == [Header] + AttributeLines(f, EncodeCode(StatusTable, "STATUS", f.status).value, UnitsLines(f.units).value)
            + render(f.theLabel.value, LABEL_DEPTH) + [Footer]
  {
  }

  /** A successful write() is the header, then one four-space indented
      `KW value` line per attribute it emits, keyed in the order STATUS,
      UNITS, COLOR, OUTLINECOLOR, INTERVALS (STATUS always, UNITS exactly
      when not null, a colour exactly when written, INTERVALS exactly when
      not 0), then the label's own lines at depth 2, then the footer. */
  lemma {:induction false} WriteLayout(f: ScalebarFields, render: LabelWriter)
    requires f.theLabel.Some? && EncodeCode(StatusTable, "STATUS", f.status).Success?
    requires f.units.Some? ==> EncodeCode(UnitsTable, "UNITS", f.units.value).Success?
    ensures WriteScalebar(f, render).Success?
    ensures IsLayout(WriteScalebar(f, render).value, f, EncodeCode(StatusTable, "STATUS", f.status).value,
                     if f.units.Some? then EncodeCode(UnitsTable, "UNITS", f.units.value).value else "",
                     render(f.theLabel.value, LABEL_DEPTH))
  {
    WriteUnfolds(f, render);
    var status := EncodeCode(StatusTable, "STATUS", f.status).value;
    var unit := if f.units.Some? then EncodeCode(UnitsTable, "UNITS", f.units.value).value else "";
    var ks := Emitted(ScalebarOrder, f);
    AttributesAreLinesFor(f, status, unit);
    EmittedWords(f);
    KeysOfLinesFor(f, status, unit, ks);
    LayoutOf(WriteScalebar(f, render).value, AttributeLines(f, status, UnitsLines(f.units).value),
             render(f.theLabel.value, LABEL_DEPTH), ks, f, status, unit);
  }

  /** The shape of write()'s output: the header, one `    KW value` line
      per keyword f emits, in the order of ScalebarOrder, then the label's
      lines (block), then the footer. */
  predicate IsLayout(out: seq<string>, f: ScalebarFields, status: string, unit: string, block: seq<string>) {
    var ks := Emitted(ScalebarOrder, f);
    && |out| == |ks| + |block| + 2
    && out[0] == Header && out[|out| - 1] == Footer
    && KeysOf(out[1..|ks| + 1]) == ks
    && (forall i :: 0 <= i < |ks| ==> out[i + 1] == AttributeLine(ks[i], ArgumentText(f, status, unit, ks[i])))
    && out[|ks| + 1..|out| - 1] == block
  }

  lemma LayoutOf(out: seq<string>, a: seq<string>, block: seq<string>, ks: seq<string>,
                 f: ScalebarFields, status: string, unit: string)
    requires out == [Header] + a + block + [Footer] && ks == Emitted(ScalebarOrder, f)
    requires a == LinesFor(f, status, unit, ks) && KeysOf(a) == ks
    ensures IsLayout(out, f, status, unit, block)
  {
    FrameParts(out, Header, a, block, Footer);
  }

  /** Every emitted keyword is a word. */
  lemma EmittedWords(f: ScalebarFields)
    ensures var ks := Emitted(ScalebarOrder, f); forall i :: 0 <= i < |ks| ==> IsWord(ks[i])
  {
    var ks := Emitted(ScalebarOrder, f);
    EmittedWithin(ScalebarOrder, f);
    forall i | 0 <= i < |ks| ensures IsWord(ks[i]) {
      assert ks[i] in ks;
      OrderIsWords(ks[i]);
    }
  }

  /** The written line of each keyword of ks, in order. */
  function LinesFor(f: ScalebarFields, status: string, unit: string, ks: seq<string>): (r: seq<string>)
    ensures |r| == |ks|
  {
    seq(|ks|, i requires 0 <= i < |ks| => AttributeLine(ks[i], ArgumentText(f, status, unit, ks[i])))
  }

  lemma OrderIsWords(kw: string)
    requires kw in ScalebarOrder
    ensures IsWord(kw)
  {
  }

  lemma {:induction false} EmittedWithin(kws: seq<string>, f: ScalebarFields)
    ensures forall k :: k in Emitted(kws, f) ==> k in kws
  {
    if kws != [] {
      EmittedWithin(kws[1..], f);
    }
  }

  lemma {:induction false} EmittedAppend(a: seq<string>, b: seq<string>, f: ScalebarFields)
    ensures Emitted(a + b, f) == Emitted(a, f) + Emitted(b, f)
  {
    if a == [] {
      assert a + b == b;
    } else {
      assert (a + b)[1..] == a[1..] + b;
      EmittedAppend(a[1..], b, f);
    }
  }

  lemma {:induction false} KeysOfLinesFor(f: ScalebarFields, status: string, unit: string, ks: seq<string>)
    requires forall i :: 0 <= i < |ks| ==> IsWord(ks[i])
    ensures KeysOf(LinesFor(f, status, unit, ks)) == ks
  {
    var ls := LinesFor(f, status, unit, ks);
    forall i | 0 <= i < |ks| ensures KeysOf(ls)[i] == ks[i] {
      KeywordOfLine(ATTRIBUTE_INDENT, ks[i], ArgumentText(f, status, unit, ks[i]));
    }
  }

  /** The emitted keywords of the order split into its five single keywords. */
  lemma OrderSplits(f: ScalebarFields)
    ensures Emitted(ScalebarOrder, f)
         == Emitted(["STATUS"], f)
            + (Emitted(["UNITS"], f) + Emitted(["COLOR"], f) + Emitted(["OUTLINECOLOR"], f) + Emitted(["INTERVALS"], f))
  {
    var rest := ["UNITS"] + ["COLOR"] + ["OUTLINECOLOR"] + ["INTERVALS"];
    assert ScalebarOrder == ["STATUS"] + rest;
    EmittedAppend(["STATUS"], rest, f);
    EmittedAppend(["UNITS"] + ["COLOR"] + ["OUTLINECOLOR"], ["INTERVALS"], f);
    EmittedAppend(["UNITS"] + ["COLOR"], ["OUTLINECOLOR"], f);
    EmittedAppend(["UNITS"], ["COLOR"], f);
  }

  /** write()'s attribute lines are the lines of the emitted keywords. */
  lemma AttributesAreLinesFor(f: ScalebarFields, status: string, unit: string)
    requires f.units.Some? ==> EncodeCode(UnitsTable, "UNITS", f.units.value) == Success(unit)
    ensures UnitsLines(f.units).Success?
    ensures AttributeLines(f, status, UnitsLines(f.units).value) == LinesFor(f, status, unit, Emitted(ScalebarOrder, f))
  {
    OrderSplits(f);
    StatusPiece(f, status, unit);
    UnitsPiece(f, status, unit);
    ColorPiece(f, status, unit);
    OutlineColorPiece(f, status, unit);
    IntervalsPiece(f, status, unit);
    var rest := Emitted(["UNITS"], f) + Emitted(["COLOR"], f) + Emitted(["OUTLINECOLOR"], f) + Emitted(["INTERVALS"], f);
    LinesForAppend4(f, status, unit, Emitted(["UNITS"], f), Emitted(["COLOR"], f),
                    Emitted(["OUTLINECOLOR"], f), Emitted(["INTERVALS"], f));
    LinesForAppend(f, status, unit, Emitted(["STATUS"], f), rest);
  }

  lemma StatusPiece(f: ScalebarFields, status: string, unit: string)
    ensures [StatusLine(status)] == LinesFor(f, status, unit, Emitted(["STATUS"], f))
  {
    assert ["STATUS"][1..] == [];
  }

  lemma UnitsPiece(f: ScalebarFields, status: string, unit: string)
    requires f.units.Some? ==> EncodeCode(UnitsTable, "UNITS", f.units.value) == Success(unit)
    ensures UnitsLines(f.units).Success?
    ensures UnitsLines(f.units).value == LinesFor(f, status, unit, Emitted(["UNITS"], f))
  {
    assert ["UNITS"][1..] == [];
  }

  lemma ColorPiece(f: ScalebarFields, status: string, unit: string)
    ensures ColorLine("COLOR", f.color) == LinesFor(f, status, unit, Emitted(["COLOR"], f))
  {
    assert ["COLOR"][1..] == [];
  }

  lemma OutlineColorPiece(f: ScalebarFields, status: string, unit: string)
    ensures ColorLine("OUTLINECOLOR", f.outlinecolor) == LinesFor(f, status, unit, Emitted(["OUTLINECOLOR"], f))
  {
    assert ["OUTLINECOLOR"][1..] == [];
  }

  lemma IntervalsPiece(f: ScalebarFields, status: string, unit: string)
    ensures IntervalsLine(f.intervals) == LinesFor(f, status, unit, Emitted(["INTERVALS"], f))
  {
    assert ["INTERVALS"][1..] == [];
  }

  /** The parts of a header + lines + block + footer sequence. */
  lemma FrameParts(out: seq<string>, h: string, a: seq<string>, b: seq<string>, t: string)
    requires out == [h] + a + b + [t]
    ensures |out| == |a| + |b| + 2 && out[0] == h && out[|out| - 1] == t
    ensures out[1..|a| + 1] == a && out[|a| + 1..|out| - 1] == b
  {
    assert out[1..|a| + 1] == a;
    assert out[|a| + 1..|out| - 1] == b;
  }

  lemma LinesForAppend(f: ScalebarFields, status: string, unit: string, a: seq<string>, b: seq<string>)
    ensures LinesFor(f, status, unit, a + b) == LinesFor(f, status, unit, a) + LinesFor(f, status, unit, b)
  {
  }

  lemma LinesForAppend4(f: ScalebarFields, status: string, unit: string,
                        a: seq<string>, b: seq<string>, c: seq<string>, d: seq<string>)
    ensures LinesFor(f, status, unit, a + b + c + d)
         == LinesFor(f, status, unit, a) + LinesFor(f, status, unit, b) + LinesFor(f, status, unit, c)
            + LinesFor(f, status, unit, d)
  {
    LinesForAppend(f, status, unit, a + b + c, d);
    LinesForAppend(f, status, unit, a + b, c);
    LinesForAppend(f, status, unit, a, b);
  }

  /** A failure in the attribute lines is the result of reading the whole
      written clause. */
  lemma {:induction false} AttributesFail(a: seq<string>, block: seq<string>, e: Error)
    requires ScanScalebar(a, InBody(Initial)) == Failure(e)
    ensures ScanScalebar([Header] + a + block + [Footer], Start) == Failure(e)
  {
    HeaderStep();
    ScanAppend([Header], a, Start);
    ScanAppend([Header] + a, block, Start);
    ScanAppend([Header] + a + block, [Footer], Start);
  }

  /** A Scalebar written with status OFF cannot be read back: OFF is the
      token of code 0, which the conversion rejects. */
  lemma {:induction false} StatusOffFails(f: ScalebarFields, render: LabelWriter)
    requires f.theLabel.Some? && f.status == STATUS_OFF
    requires f.units.Some? ==> EncodeCode(UnitsTable, "UNITS", f.units.value).Success?
    ensures WriteScalebar(f, render).Success?
    ensures ReadScalebar(WriteScalebar(f, render).value) == Failure(Invalid("STATUS", "OFF"))
  {
    StatusCodes(f.status);
    WriteUnfolds(f, render);
    var u := UnitsLines(f.units).value;
    StatusOffRejected(Initial);
    ScanAppend([StatusLine("OFF")], OptionalLines(f, u), InBody(Initial));
    AttributesFail(AttributeLines(f, "OFF", u), render(f.theLabel.value, LABEL_DEPTH), Invalid("STATUS", "OFF"));
  }

  lemma {:induction false} StatusOffRejected(g: ScalebarFields)
    ensures ScanScalebar([StatusLine("OFF")], InBody(g)) == Failure(Invalid("STATUS", "OFF"))
  {
    TablesWellFormed();
    StatusCodes(STATUS_OFF);
    EncodeThenRead(StatusTable, "STATUS", STATUS_OFF);
    TokenIsWord(StatusTable, STATUS_OFF, "OFF");
    StatusStep(g, "OFF");
  }

  /** A Scalebar written with status ON and unit INCHES cannot be read back:
      INCHES is the token of code 0, which the conversion rejects. */
  lemma {:induction false} InchesFails(f: ScalebarFields, render: LabelWriter)
    requires f.theLabel.Some? && f.status == STATUS_ON && f.units == Some(UNITS_INCHES)
    ensures WriteScalebar(f, render).Success?
    ensures ReadScalebar(WriteScalebar(f, render).value) == Failure(Invalid("UNITS", "INCHES"))
  {
    StatusCodes(f.status);
    UnitsCodes(UNITS_INCHES);
    WriteUnfolds(f, render);
    InchesToken();
    var u := UnitsLines(f.units).value;
    assert u == [AttributeLine("UNITS", "INCHES")];
    var c := ColorLine("COLOR", f.color);
    var o := ColorLine("OUTLINECOLOR", f.outlinecolor);
    var e := Invalid("UNITS", "INCHES");
    var st := InBody(Initial.(status := STATUS_ON));
    InchesRejected(Initial.(status := STATUS_ON));
    ScanAppend(u, c, st);
    ScanAppend(u + c, o, st);
    ScanAppend(u + c + o, IntervalsLine(f.intervals), st);
    StatusOn(Initial);
    ScanAppend([StatusLine("ON")], OptionalLines(f, u), InBody(Initial));
    AttributesFail(AttributeLines(f, "ON", u), render(f.theLabel.value, LABEL_DEPTH), e);
  }

  lemma InchesToken()
    ensures EncodeCode(UnitsTable, "UNITS", UNITS_INCHES) == Success("INCHES")
  {
    TablesWellFormed();
    LookupEntry(UnitsTable, 0);
  }

  lemma {:induction false} InchesRejected(g: ScalebarFields)
    ensures ScanScalebar([AttributeLine("UNITS", "INCHES")], InBody(g)) == Failure(Invalid("UNITS", "INCHES"))
  {
    TablesWellFormed();
    InchesToken();
    EncodeThenRead(UnitsTable, "UNITS", UNITS_INCHES);
    TokenIsWord(UnitsTable, UNITS_INCHES, "INCHES");
    UnitsTokenStep(g, "INCHES");
  }

  /** Writing a Scalebar whose status is ON, whose unit is not INCHES and
      whose colours and intervals are non-negative, then reading the lines
      back, gives its properties again, with the label rebuilt from the
      lines its writer produced. A null unit reads back as METERS and 0
      intervals as 4, the values write() leaves to the defaults. */
  lemma {:induction false} WriteThenRead(f: ScalebarFields, render: LabelWriter)
    requires Writable(f) && f.status == STATUS_ON
    requires f.units.Some? ==> f.units.value != UNITS_INCHES
    requires IsLabelBlock(render(f.theLabel.value, LABEL_DEPTH), "SCALEBAR")
    ensures WriteScalebar(f, render).Success?
    ensures ReadScalebar(WriteScalebar(f, render).value)
         == Success(Reread(f, Some(ParsedLabel(TrimAll(render(f.theLabel.value, LABEL_DEPTH))))))
  {
    StatusCodes(f.status);
    WriteUnfolds(f, render);
    var block := render(f.theLabel.value, LABEL_DEPTH);
    var a := AttributeLines(f, "ON", UnitsLines(f.units).value);
    var lines := [Header] + a + block + [Footer];
    var g := Reread(f, Some(ParsedLabel(TrimAll(block))));
    AttributesRead(f);
    ClauseRead(a, block, Reread(f, None));
    assert Reread(f, None).(theLabel := Some(ParsedLabel(TrimAll(block)))) == g;
    ReadOfScan(lines, ScalebarScan(false, false, [], g));
  }

  lemma ReadOfScan(lines: seq<string>, st: ScalebarScan)
    requires ScanScalebar(lines, Start) == Success(st) && st.fields.theLabel.Some?
    ensures ReadScalebar(lines) == Success(st.fields)
  {
  }

  /** Header, attribute lines that reach `g`, a label block, footer. */
  lemma {:induction false} ClauseRead(a: seq<string>, block: seq<string>, g: ScalebarFields)
    requires ScanScalebar(a, InBody(Initial)) == Success(InBody(g))
    requires IsLabelBlock(block, "SCALEBAR")
    ensures ScanScalebar([Header] + a + block + [Footer], Start)
         == Success(ScalebarScan(false, false, [], g.(theLabel := Some(ParsedLabel(TrimAll(block))))))
  {
    var g' := g.(theLabel := Some(ParsedLabel(TrimAll(block))));
    HeaderStep();
    StepAppend([Header], a, Start, InBody(Initial), InBody(g));
    LabelBlockRead(block, g);
    StepAppend([Header] + a, block, Start, InBody(g), InBody(g'));
    FooterStep(g');
    StepAppend([Header] + a + block, [Footer], Start, InBody(g'), ScalebarScan(false, false, [], g'));
  }

  // ---------------------------------------------------------------- lines around the clause

  /** Outside the clause, lines other than SCALEBAR change nothing and
      cannot fail. */
  lemma {:induction false} Outside(lines: seq<string>, st: ScalebarScan)
    requires !st.inside
    requires forall i :: 0 <= i < |lines| ==> !IsOpen(Trim(lines[i]), "SCALEBAR")
    ensures ScanScalebar(lines, st) == Success(st)
  {
    if lines != [] {
      assert forall i :: 0 <= i < |lines[1..]| ==> lines[1..][i] == lines[i + 1];
      Outside(lines[1..], st);
    }
  }

  /** Lines before the SCALEBAR line are ignored. */
  lemma SkipsPreamble(pre: seq<string>, lines: seq<string>)
    requires forall i :: 0 <= i < |pre| ==> !IsOpen(Trim(pre[i]), "SCALEBAR")
    ensures ReadScalebar(pre + lines) == ReadScalebar(lines)
  {
    ScanAppend(pre, lines, Start);
    Outside(pre, Start);
  }

  /** Once the clause is closed, later lines other than SCALEBAR are ignored. */
  lemma SkipsTrailer(lines: seq<string>, post: seq<string>)
    requires ScanScalebar(lines, Start).Success? && !ScanScalebar(lines, Start).value.inside
    requires forall i :: 0 <= i < |post| ==> !IsOpen(Trim(post[i]), "SCALEBAR")
    ensures ReadScalebar(lines + post) == ReadScalebar(lines)
  {
    ScanAppend(lines, post, Start);
    Outside(post, ScanScalebar(lines, Start).value);
  }

  /** A number after STATUS, 0 or 1, sets the status to 0: the conversion
      returns the token and intval() of a token is 0. */
  lemma {:induction false} NumericStatusIsOff(g: ScalebarFields, code: nat)
    requires code == STATUS_ON || code == STATUS_OFF
    ensures AssignAttribute(g, Attr("STATUS", NatToString(code))) == Success(g.(status := 0))
  {
    var t := NatToString(code);
    NumberText(code);
    DigitsAreDecimal(t);
    DecimalIsPlain(t);
    AttrLine(0, "STATUS", t);
    TablesWellFormed();
    ReadNumeral(StatusTable, "STATUS", if code == STATUS_ON then 0 else 1, t);
    AssignStatus(g, Attr("STATUS", t), t);
  }

  /** A STATUS value is upper-cased before the conversion: a token of the
      table in any letter case reads as that token, so `STATUS on` sets ON
      and `STATUS off` fails. */
  lemma {:induction false} StatusWordRead(g: ScalebarFields, text: string, i: nat)
    requires i < |StatusTable| && Upper(text) == StatusTable[i].token
    ensures AssignAttribute(g, Attr("STATUS", text))
         == if StatusTable[i].code == 0 then Failure(Invalid("STATUS", StatusTable[i].token))
            else Success(g.(status := StatusTable[i].code))
  {
    TablesWellFormed();
    assert IsWord(StatusTable[i].token);
    WordTextReads("STATUS", text);
    ReadToken(StatusTable, "STATUS", i, text);
    AssignStatus(g, Attr("STATUS", text), text);
  }

  /** A UNITS value is upper-cased before the conversion: a token of the
      table in any letter case reads as that token's code, so `units meters`
      sets METERS, except that INCHES, code 0, fails. */
  lemma {:induction false} UnitsWordRead(g: ScalebarFields, text: string, i: nat)
    requires i < |UnitsTable| && Upper(text) == UnitsTable[i].token
    ensures AssignAttribute(g, Attr("UNITS", text))
         == if UnitsTable[i].code == 0 then Failure(Invalid("UNITS", UnitsTable[i].token))
            else Success(g.(units := Some(UnitsTable[i].code)))
  {
    TablesWellFormed();
    assert IsWord(UnitsTable[i].token);
    WordTextReads("UNITS", text);
    ReadToken(UnitsTable, "UNITS", i, text);
    AssignUnits(g, Attr("UNITS", text), text);
  }
}
