/** The LEGEND clause (class Legend): its default status, the writer and the
    line-driven reader with its LABEL sub-block. A failed STATUS
    conversion, which throws in the source, is a Failure here. */
module Legend {
  import opened Wrappers
  import opened Text
  import opened Codec
  import opened Syntax
  import opened LabelClause

  /** Fixed indentation of the clause and of its STATUS line, and the depth
      the label is written at. */
  const CLAUSE_INDENT: nat := 2
  const ATTRIBUTE_INDENT: nat := 4
  const LABEL_DEPTH: nat := 2

  const Header := Indented(CLAUSE_INDENT, "LEGEND")
  const Footer := Indented(CLAUSE_INDENT, "END # LEGEND")

  /** The properties of a Legend; `label` is null until read() or the
      constructor installs one. */
  datatype LegendFields = LegendFields(status: int, theLabel: Option<Label>)

  /** The property initialisers: status OFF, no label yet. */
  const Initial := LegendFields(STATUS_OFF, None)

  /** The constructor's last step: a Legend without a label gets `new Label()`. */
  function WithLabel(f: LegendFields): (r: LegendFields)
    ensures r.theLabel.Some?
    ensures f.theLabel.Some? ==> r == f
    ensures f.theLabel.None? ==> r == f.(theLabel := Some(DefaultLabel))
  {
    if f.theLabel.None? then f.(theLabel := Some(DefaultLabel)) else f
  }

  // ---------------------------------------------------------------- writer

  function StatusLine(token: string): string {
    Indented(ATTRIBUTE_INDENT, Attr("STATUS", token))
  }

  /** write(): the clause's lines, with `$this->label->write(2)` supplied as
      `render`. Only the status conversion can fail. */
  function WriteLegend(f: LegendFields, render: LabelWriter): (r: Result<seq<string>, Error>)
    requires f.theLabel.Some?
    ensures r.Success? ==> |r.value| >= 3 && r.value[0] == Header && r.value[|r.value| - 1] == Footer
  {
    var status :- EncodeCode(StatusTable, "STATUS", f.status);
    Success([Header, StatusLine(status)] + render(f.theLabel.value, LABEL_DEPTH) + [Footer])
  }

  // ---------------------------------------------------------------- reader

  /** The reader's state: inside the clause ($legend), inside a LABEL
      sub-block ($reading == 'LABEL'), the buffered LABEL lines ($label)
      and the properties so far. */
  datatype LegendScan = LegendScan(inside: bool, reading: bool, buffer: seq<string>, fields: LegendFields)

  /** The STATUS branch, the last of read(): the value is upper-cased and
      converted, and a failed conversion fails the read. Any other line is
      ignored. */
  function AssignAttribute(f: LegendFields, sz: string): Result<LegendFields, Error> {
    if Keyword(sz) == "STATUS" && TextArg(sz, "STATUS").Some? then
      var status :- ReadCode(StatusTable, "STATUS", TextArg(sz, "STATUS").value);
      Success(f.(status := status))
    else Success(f)
  }

  /** One iteration of read()'s loop. A LEGEND line always (re)enters the
      clause, even inside LABEL. Inside LABEL, END [# LABEL] ends the block,
      which becomes the label, and every other line is buffered. */
  function LegendStep(st: LegendScan, line: string): Result<LegendScan, Error> {
    var sz := Trim(line);
    if IsOpen(sz, "LEGEND") then Success(st.(inside := true))
    else if !st.inside then Success(st)
    else if !st.reading then
      if IsEnd(sz, "END # LEGEND") then Success(st.(inside := false))
      else if IsOpen(sz, "LABEL") then Success(st.(reading := true, buffer := [sz]))
      else
        var g :- AssignAttribute(st.fields, sz);
        Success(st.(fields := g))
    else if IsEnd(sz, "END # LABEL") then
      Success(LegendScan(true, false, [], st.fields.(theLabel := Some(ParsedLabel(st.buffer + [sz])))))
    else Success(st.(buffer := st.buffer + [sz]))
  }

  function ScanLegend(lines: seq<string>, st: LegendScan): Result<LegendScan, Error>
    decreases |lines|
  {
    if lines == [] then Success(st)
    else
      var next :- LegendStep(st, lines[0]);
      ScanLegend(lines[1..], next)
  }

  const Start := LegendScan(false, false, [], Initial)

  /** `new Legend($lines)`: read the lines from the initial properties, then
      install a default label if none was read. */
  function ReadLegend(lines: seq<string>): Result<LegendFields, Error> {
    var st :- ScanLegend(lines, Start);
    Success(WithLabel(st.fields))
  }

  // ---------------------------------------------------------------- class

  class Legend {
    var status: int
    var theLabel: Option<Label>

    function Fields(): LegendFields
      reads this
    {
      LegendFields(status, theLabel)
    }

    /** `new Legend()`: status OFF and a default label. */
    constructor ()
      ensures Fields() == WithLabel(Initial)
    {
      status := STATUS_OFF;
      theLabel := Some(DefaultLabel);
    }

    /** The object as the property initialisers leave it, before the
        constructor body runs. */
    constructor Blank()
      ensures Fields() == Initial
    {
      status := STATUS_OFF;
      theLabel := None;
    }

    /** `new Legend($lines)`: read(), then the default label if none was
        read; a failed conversion during read() fails the construction. */
    static method FromClause(lines: seq<string>) returns (r: Result<Legend, Error>)
      ensures r.Success? <==> ReadLegend(lines).Success?
      ensures r.Success? ==> fresh(r.value) && r.value.Fields() == ReadLegend(lines).value
      ensures r.Failure? ==> r.error == ReadLegend(lines).error
    {
      var l := new Legend.Blank();
      var o := l.Read(lines);
      if o.Fail? {
        return Failure(o.error);
      }
      if l.theLabel.None? {
        l.theLabel := Some(DefaultLabel);
      }
      r := Success(l);
    }

    /** read(): one forward pass over the lines, stopped by the first failed
        conversion. */
    method Read(lines: seq<string>) returns (o: Outcome<Error>)
      modifies this
      ensures var r := ScanLegend(lines, LegendScan(false, false, [], old(Fields())));
        && (o.Pass? <==> r.Success?)
        && (o.Pass? ==> Fields() == r.value.fields)
        && (o.Fail? ==> o.error == r.error)
    {
      var legend, reading, buffer := false, false, [];
      var i := 0;
      while i < |lines|
        invariant 0 <= i <= |lines|
        invariant ScanLegend(lines, LegendScan(false, false, [], old(Fields())))
               == ScanLegend(lines[i..], LegendScan(legend, reading, buffer, Fields()))
      {
        ghost var before := LegendScan(legend, reading, buffer, Fields());
        var sz := Trim(lines[i]);
        if IsOpen(sz, "LEGEND") {
          legend := true;
        } else if legend && !reading && IsEnd(sz, "END # LEGEND") {
          legend := false;
        } else if legend && !reading && IsOpen(sz, "LABEL") {
          reading := true;
          buffer := [sz];
        } else if legend && reading && IsEnd(sz, "END # LABEL") {
          buffer := buffer + [sz];
          theLabel := Some(ParsedLabel(buffer));
          reading := false;
          buffer := [];
        } else if legend && reading {
          buffer := buffer + [sz];
        } else if legend && !reading && Keyword(sz) == "STATUS" && TextArg(sz, "STATUS").Some? {
          var s := ReadCode(StatusTable, "STATUS", TextArg(sz, "STATUS").value);
          if s.Failure? {
            ScanFailsAt(lines, i, before);
            return Fail(s.error);
          }
          status := s.value;
        }
        ScanAt(lines, i, before, LegendScan(legend, reading, buffer, Fields()));
        i := i + 1;
      }
      o := Pass;
    }

    /** write(). */
    function Write(render: LabelWriter): Result<seq<string>, Error>
      reads this
      requires theLabel.Some?
    {
      WriteLegend(Fields(), render)
    }
  }

  // ---------------------------------------------------------------- proofs

  lemma ScanAt(lines: seq<string>, i: int, st: LegendScan, next: LegendScan)
    requires 0 <= i < |lines| && LegendStep(st, lines[i]) == Success(next)
    ensures ScanLegend(lines[i..], st) == ScanLegend(lines[i + 1..], next)
  {
    assert lines[i..][1..] == lines[i + 1..];
  }

  lemma ScanFailsAt(lines: seq<string>, i: int, st: LegendScan)
    requires 0 <= i < |lines| && LegendStep(st, lines[i]).Failure?
    ensures ScanLegend(lines[i..], st) == Failure(LegendStep(st, lines[i]).error)
  {
  }

  /** Reading two runs of lines is reading the first, then the second; a
      failure in the first is the result. */
  lemma {:induction false} ScanAppend(a: seq<string>, b: seq<string>, st: LegendScan)
    ensures ScanLegend(a, st).Failure? ==> ScanLegend(a + b, st) == ScanLegend(a, st)
    ensures ScanLegend(a, st).Success? ==> ScanLegend(a + b, st) == ScanLegend(b, ScanLegend(a, st).value)
  {
    if a == [] {
      assert a + b == b;
    } else {
      assert (a + b)[0] == a[0] && (a + b)[1..] == a[1..] + b;
      var next := LegendStep(st, a[0]);
      if next.Success? {
        ScanAppend(a[1..], b, next.value);
      }
    }
  }

  lemma StepAppend(p: seq<string>, c: seq<string>, st: LegendScan, mid: LegendScan, last: LegendScan)
    requires ScanLegend(p, st) == Success(mid) && ScanLegend(c, mid) == Success(last)
    ensures ScanLegend(p + c, st) == Success(last)
  {
    ScanAppend(p, c, st);
  }

  lemma ScanOne(line: string, st: LegendScan)
    ensures ScanLegend([line], st) == LegendStep(st, line)
  {
    assert [line][1..] == [];
  }

  function InBody(g: LegendFields): LegendScan {
    LegendScan(true, false, [], g)
  }

  // ---------------------------------------------------------------- the STATUS line

  /** The STATUS line, in any letter case, reaches the conversion with its
      value. */
  lemma {:induction false} AssignStatus(g: LegendFields, sz: string, text: string)
    requires Keyword(sz) == "STATUS" && TextArg(sz, "STATUS") == Some(text)
    ensures AssignAttribute(g, sz) == (var s :- ReadCode(StatusTable, "STATUS", text); Success(g.(status := s)))
  {
  }

  /** The written STATUS line reads back as the conversion of its token. */
  lemma {:induction false} StatusStep(g: LegendFields, tok: string)
    requires IsWord(tok)
    ensures ScanLegend([StatusLine(tok)], InBody(g))
         == (var s :- ReadCode(StatusTable, "STATUS", tok); Success(InBody(g.(status := s))))
  {
    AttrLine(ATTRIBUTE_INDENT, "STATUS", tok);
    NeitherOpenNorEnd(Attr("STATUS", tok), "LEGEND", "END # LEGEND");
    NeitherOpenNorEnd(Attr("STATUS", tok), "LABEL", "END # LABEL");
    ScanOne(StatusLine(tok), InBody(g));
    AssignStatus(g, Attr("STATUS", tok), tok);
  }

  /** `STATUS ON` reads back as ON. */
  lemma {:induction false} StatusOn(g: LegendFields)
    ensures ScanLegend([StatusLine("ON")], InBody(g)) == Success(InBody(g.(status := STATUS_ON)))
  {
    TablesWellFormed();
    StatusCodes(STATUS_ON);
    EncodeThenRead(StatusTable, "STATUS", STATUS_ON);
    StatusStep(g, "ON");
  }

  /** `STATUS OFF` is rejected: OFF is the token of code 0. */
  lemma {:induction false} StatusOffRejected(g: LegendFields)
    ensures ScanLegend([StatusLine("OFF")], InBody(g)) == Failure(Invalid("STATUS", "OFF"))
  {
    TablesWellFormed();
    StatusCodes(STATUS_OFF);
    EncodeThenRead(StatusTable, "STATUS", STATUS_OFF);
    StatusStep(g, "OFF");
  }

  /** A number after STATUS, 0 or 1, sets the status to 0: the conversion
      returns the token and intval() of a token is 0. */
  lemma {:induction false} NumericStatusIsOff(g: LegendFields, code: nat)
    requires code == STATUS_ON || code == STATUS_OFF
    ensures AssignAttribute(g, Attr("STATUS", NatToString(code))) == Success(g.(status := 0))
  {
    var t := NatToString(code);
    NumberText(code);
    DigitsAreDecimal(t);
    DecimalIsPlain(t);
    AttrLine(0, "STATUS", t);
    TablesWellFormed();
    ReadNumeral(StatusTable, "STATUS", if code == STATUS_ON then 0 else 1, t);
    AssignStatus(g, Attr("STATUS", t), t);
  }

  // ---------------------------------------------------------------- the LABEL sub-block

  /** Inside LABEL, lines that neither end the label nor reopen LEGEND are
      buffered, trimmed, in order. */
  lemma {:induction false} Buffering(mid: seq<string>, buf: seq<string>, g: LegendFields)
    requires forall i :: 0 <= i < |mid| ==> !IsEnd(Trim(mid[i]), "END # LABEL") && !IsOpen(Trim(mid[i]), "LEGEND")
    ensures ScanLegend(mid, LegendScan(true, true, buf, g)) == Success(LegendScan(true, true, buf + TrimAll(mid), g))
  {
    if mid == [] {
      assert buf + TrimAll(mid) == buf;
    } else {
      var buf' := buf + [Trim(mid[0])];
      BufferStep(buf, g, mid[0]);
      assert forall i :: 0 <= i < |mid[1..]| ==> mid[1..][i] == mid[i + 1];
      Buffering(mid[1..], buf', g);
      BufferTrimmed(buf, mid);
    }
  }

  lemma {:induction false} BufferStep(buf: seq<string>, g: LegendFields, line: string)
    requires !IsEnd(Trim(line), "END # LABEL") && !IsOpen(Trim(line), "LEGEND")
    ensures LegendStep(LegendScan(true, true, buf, g), line) == Success(LegendScan(true, true, buf + [Trim(line)], g))
  {
  }

  lemma {:induction false} LabelOpens(g: LegendFields, line: string)
    requires Upper(Trim(line)) == "LABEL"
    ensures LegendStep(InBody(g), line) == Success(LegendScan(true, true, [Trim(line)], g))
  {
  }

  lemma {:induction false} LabelCloses(g: LegendFields, buf: seq<string>, line: string)
    requires IsEnd(Trim(line), "END # LABEL")
    ensures LegendStep(LegendScan(true, true, buf, g), line)
         == Success(InBody(g.(theLabel := Some(ParsedLabel(buf + [Trim(line)])))))
  {
    assert Upper(Trim(line)) != "LEGEND";
  }

  /** A LABEL block cut off before its END leaves the reader inside LABEL
      with the label unchanged: the input is accepted without error. */
  lemma {:induction false} UnterminatedLabel(block: seq<string>, g: LegendFields)
    requires |block| >= 1 && Upper(Trim(block[0])) == "LABEL"
    requires forall i :: 0 < i < |block| ==> !IsEnd(Trim(block[i]), "END # LABEL") && !IsOpen(Trim(block[i]), "LEGEND")
    ensures ScanLegend(block, InBody(g)) == Success(LegendScan(true, true, TrimAll(block), g))
  {
    LabelOpens(g, block[0]);
    ScanOne(block[0], InBody(g));
    RestBuffered(block, g);
    StepAppend([block[0]], block[1..], InBody(g), LegendScan(true, true, [Trim(block[0])], g),
               LegendScan(true, true, TrimAll(block), g));
    assert [block[0]] + block[1..] == block;
  }

  lemma {:induction false} RestBuffered(block: seq<string>, g: LegendFields)
    requires |block| >= 1
    requires forall i :: 0 < i < |block| ==> !IsEnd(Trim(block[i]), "END # LABEL") && !IsOpen(Trim(block[i]), "LEGEND")
    ensures ScanLegend(block[1..], LegendScan(true, true, [Trim(block[0])], g)) == Success(LegendScan(true, true, TrimAll(block), g))
  {
    var rest := block[1..];
    assert forall i :: 0 <= i < |rest| ==> rest[i] == block[i + 1];
    Buffering(rest, [Trim(block[0])], g);
    BufferTrimmed([], block);
    assert [] + [Trim(block[0])] == [Trim(block[0])];
  }

  /** A whole LABEL block inside the clause becomes the label, built from
      all its trimmed lines, END line included; its END does not close the
      LEGEND and the status is unchanged. */
  lemma {:induction false} LabelBlockRead(block: seq<string>, g: LegendFields)
    requires IsLabelBlock(block, "LEGEND")
    ensures ScanLegend(block, InBody(g)) == Success(InBody(g.(theLabel := Some(ParsedLabel(TrimAll(block))))))
  {
    var n := |block|;
    var open := block[..n - 1];
    var last := block[n - 1];
    assert forall i :: 0 < i < |open| ==> open[i] == block[i];
    UnterminatedLabel(open, g);
    LabelCloses(g, TrimAll(open), last);
    ScanOne(last, LegendScan(true, true, TrimAll(open), g));
    StepAppend(open, [last], InBody(g), LegendScan(true, true, TrimAll(open), g),
               InBody(g.(theLabel := Some(ParsedLabel(TrimAll(open) + [Trim(last)])))));
    assert open + [last] == block;
    assert TrimAll(open) + [Trim(last)] == TrimAll(block);
  }

  /** A later LABEL block replaces the earlier one. */
  lemma SecondLabelReplaces(first: seq<string>, second: seq<string>, g: LegendFields)
    requires IsLabelBlock(first, "LEGEND") && IsLabelBlock(second, "LEGEND")
    ensures ScanLegend(first + second, InBody(g)) == Success(InBody(g.(theLabel := Some(ParsedLabel(TrimAll(second))))))
  {
    var g1 := g.(theLabel := Some(ParsedLabel(TrimAll(first))));
    LabelBlockRead(first, g);
    LabelBlockRead(second, g1);
    StepAppend(first, second, InBody(g), InBody(g1), InBody(g1.(theLabel := Some(ParsedLabel(TrimAll(second))))));
  }

  /** A LEGEND clause whose only LABEL block is cut off gets the default
      label from the constructor. */
  lemma TruncatedLabelGetsDefault(block: seq<string>)
    requires |block| >= 1 && Upper(Trim(block[0])) == "LABEL"
    requires forall i :: 0 < i < |block| ==> !IsEnd(Trim(block[i]), "END # LABEL") && !IsOpen(Trim(block[i]), "LEGEND")
    ensures ReadLegend([Header] + block) == Success(WithLabel(Initial))
  {
    HeaderStep();
    UnterminatedLabel(block, Initial);
    StepAppend([Header], block, Start, InBody(Initial), LegendScan(true, true, TrimAll(block), Initial));
  }

  // ---------------------------------------------------------------- write, then read

  lemma {:induction false} HeaderStep()
    ensures ScanLegend([Header], Start) == Success(InBody(Initial))
  {
    UpperTrimmedLine(CLAUSE_INDENT, "LEGEND");
    ScanOne(Header, Start);
  }

  lemma {:induction false} FooterStep(g: LegendFields)
    ensures ScanLegend([Footer], InBody(g)) == Success(LegendScan(false, false, [], g))
  {
    UpperTrimmedLine(CLAUSE_INDENT, "END # LEGEND");
    ScanOne(Footer, InBody(g));
    ClosingLine(g, Footer);
  }

  lemma {:induction false} ClosingLine(g: LegendFields, line: string)
    requires Upper(Trim(line)) == "END # LEGEND"
    ensures LegendStep(InBody(g), line) == Success(LegendScan(false, false, [], g))
  {
  }

  /** write() succeeds exactly when the status is ON or OFF, and otherwise
      fails naming the status. */
  lemma {:induction false} WriteOutcome(f: LegendFields, render: LabelWriter)
    requires f.theLabel.Some?
    ensures WriteLegend(f, render).Success? <==> f.status in {0, 1}
    ensures f.status !in {0, 1} ==> WriteLegend(f, render) == Failure(Invalid("STATUS", IntToString(f.status)))
    ensures f.status in {0, 1} ==> |WriteLegend(f, render).value| == 3 + |render(f.theLabel.value, LABEL_DEPTH)|
  {
    StatusCodes(f.status);
  }

  /** Writing a Legend whose status is ON, then reading the lines back,
      gives its status again and the label rebuilt from the lines its
      writer produced. */
  lemma {:induction false} WriteThenRead(f: LegendFields, render: LabelWriter)
    requires f.theLabel.Some? && f.status == STATUS_ON
    requires IsLabelBlock(render(f.theLabel.value, LABEL_DEPTH), "LEGEND")
    ensures WriteLegend(f, render).Success?
    ensures ReadLegend(WriteLegend(f, render).value)
         == Success(f.(theLabel := Some(ParsedLabel(TrimAll(render(f.theLabel.value, LABEL_DEPTH))))))
  {
    StatusCodes(f.status);
    var block := render(f.theLabel.value, LABEL_DEPTH);
    var g := f.(theLabel := Some(ParsedLabel(TrimAll(block))));
    assert WriteLegend(f, render).value == [Header] + [StatusLine("ON")] + block + [Footer];
    HeaderStep();
    StatusOn(Initial);
    StepAppend([Header], [StatusLine("ON")], Start, InBody(Initial), InBody(Initial.(status := STATUS_ON)));
    ClauseRead([Header] + [StatusLine("ON")], block, Initial.(status := STATUS_ON));
    assert Initial.(status := STATUS_ON).(theLabel := Some(ParsedLabel(TrimAll(block)))) == g;
  }

  /** Lines that reach `g` inside the clause, a label block, the footer. */
  lemma {:induction false} ClauseRead(a: seq<string>, block: seq<string>, g: LegendFields)
    requires ScanLegend(a, Start) == Success(InBody(g))
    requires IsLabelBlock(block, "LEGEND")
    ensures ReadLegend(a + block + [Footer]) == Success(g.(theLabel := Some(ParsedLabel(TrimAll(block)))))
  {
    var g' := g.(theLabel := Some(ParsedLabel(TrimAll(block))));
    LabelBlockRead(block, g);
    StepAppend(a, block, Start, InBody(g), InBody(g'));
    FooterStep(g');
    StepAppend(a + block, [Footer], Start, InBody(g'), LegendScan(false, false, [], g'));
  }

  /** A Legend written with status OFF, its default, cannot be read back:
      OFF is the token of code 0, which the conversion rejects. */
  lemma {:induction false} StatusOffFails(f: LegendFields, render: LabelWriter)
    requires f.theLabel.Some? && f.status == STATUS_OFF
    ensures WriteLegend(f, render).Success?
    ensures ReadLegend(WriteLegend(f, render).value) == Failure(Invalid("STATUS", "OFF"))
  {
    StatusCodes(f.status);
    var block := render(f.theLabel.value, LABEL_DEPTH);
    assert WriteLegend(f, render).value == [Header] + [StatusLine("OFF")] + block + [Footer];
    HeaderStep();
    StatusOffRejected(Initial);
    ScanAppend([Header], [StatusLine("OFF")], Start);
    ScanAppend([Header] + [StatusLine("OFF")], block, Start);
    ScanAppend([Header] + [StatusLine("OFF")] + block, [Footer], Start);
  }

  // ---------------------------------------------------------------- lines around the clause

  /** Outside the clause, lines other than LEGEND change nothing and cannot
      fail. */
  lemma {:induction false} Outside(lines: seq<string>, st: LegendScan)
    requires !st.inside
    requires forall i :: 0 <= i < |lines| ==> !IsOpen(Trim(lines[i]), "LEGEND")
    ensures ScanLegend(lines, st) == Success(st)
  {
    if lines != [] {
      assert forall i :: 0 <= i < |lines[1..]| ==> lines[1..][i] == lines[i + 1];
      Outside(lines[1..], st);
    }
  }

  /** Lines before the LEGEND line are ignored. */
  lemma SkipsPreamble(pre: seq<string>, lines: seq<string>)
    requires forall i :: 0 <= i < |pre| ==> !IsOpen(Trim(pre[i]), "LEGEND")
    ensures ReadLegend(pre + lines) == ReadLegend(lines)
  {
    ScanAppend(pre, lines, Start);
    Outside(pre, Start);
  }

  /** Once the clause is closed, later lines other than LEGEND are ignored. */
  lemma SkipsTrailer(lines: seq<string>, post: seq<string>)
    requires ScanLegend(lines, Start).Success? && !ScanLegend(lines, Start).value.inside
    requires forall i :: 0 <= i < |post| ==> !IsOpen(Trim(post[i]), "LEGEND")
    ensures ReadLegend(lines + post) == ReadLegend(lines)
  {
    ScanAppend(lines, post, Start);
    Outside(post, ScanLegend(lines, Start).value);
  }

  /** A STATUS value is upper-cased before the conversion: a token of the
      table in any letter case reads as that token, so `STATUS on` sets ON
      and `STATUS off` fails. */
  lemma {:induction false} StatusWordRead(g: LegendFields, text: string, i: nat)
    requires i < |StatusTable| && Upper(text) == StatusTable[i].token
    ensures AssignAttribute(g, Attr("STATUS", text))
         == if StatusTable[i].code == 0 then Failure(Invalid("STATUS", StatusTable[i].token))
            else Success(g.(status := StatusTable[i].code))
  {
    TablesWellFormed();
    assert IsWord(StatusTable[i].token);
    WordTextReads("STATUS", text);
    ReadToken(StatusTable, "STATUS", i, text);
    AssignStatus(g, Attr("STATUS", text), text);
  }
}
