/** The STYLE clause (class Style): its properties, the range-checked colour
    setters, the canonical writer and the line-driven reader. */
module Style {
  import opened Wrappers
  import opened Text
  import opened Codec
  import opened Syntax

  /** A colour property of Style: never assigned (null), emptied by
      unsetColor (array()), or array(r, g, b). */
  datatype ColorSlot = Null | Cleared | Assigned(rgb: Rgb)

  /** What getColor returns: array() when the colour is null, otherwise the
      keyed array r/g/b (after unsetColor its entries are undefined). */
  datatype ColorView = NoComponents | Components(r: Option<int>, g: Option<int>, b: Option<int>)

  /** The properties of a Style. The float properties hold the decimal text
      they were read from (or set to). */
  datatype StyleFields = StyleFields(
    angle: Option<string>,
    color: ColorSlot,
    maxscaledenom: Option<string>,
    minscaledenom: Option<string>,
    opacity: Option<int>,
    outlinecolor: ColorSlot,
    outlinewidth: Option<string>,
    size: Option<string>,
    symbolname: Option<string>,
    width: Option<string>,
    pattern: seq<string>)

  /** A Style built without input: every property null, pattern empty. */
  const NoFields := StyleFields(None, Null, None, None, None, Null, None, None, None, None, [])

  /** Fixed indentation of the clause, its attributes and the pattern values. */
  const STYLE_INDENT: nat := 6
  const ATTRIBUTE_INDENT: nat := 8
  const PATTERN_INDENT: nat := 10

  const Header := Indented(STYLE_INDENT, "STYLE")
  const Footer := Indented(STYLE_INDENT, "END # STYLE")

  // ---------------------------------------------------------------- writer

  /** PHP's empty() on a string: "" and "0" are empty. */
  predicate IsEmptyText(s: string) {
    s == "" || s == "0"
  }

  /** The colour test of write(): a three-element array with a non-negative sum. */
  predicate IsWritten(c: ColorSlot) {
    c.Assigned? && c.rgb.r + c.rgb.g + c.rgb.b >= 0
  }

  function ValueLine(a: Attribute, v: Option<string>): seq<string> {
    if v.Some? then [Indented(ATTRIBUTE_INDENT, Attr(Name(a), v.value))] else []
  }

  function ColorLine(a: Attribute, c: ColorSlot): seq<string> {
    if IsWritten(c) then [Indented(ATTRIBUTE_INDENT, Attr(Name(a), RgbText(c.rgb)))] else []
  }

  function OpacityLine(o: Option<int>): seq<string> {
    if o.Some? then [Indented(ATTRIBUTE_INDENT, Attr("OPACITY", IntToString(o.value)))] else []
  }

  function SymbolLine(s: Option<string>): seq<string> {
    if s.Some? && !IsEmptyText(s.value) then [Indented(ATTRIBUTE_INDENT, Attr("SYMBOL", "\"" + s.value + "\""))] else []
  }

  function PatternLines(p: seq<string>): seq<string> {
    if p == [] then []
    else [Indented(ATTRIBUTE_INDENT, "PATTERN"), Indented(PATTERN_INDENT, Join(p)), Indented(ATTRIBUTE_INDENT, "END # PATTERN")]
  }

  /** The attribute lines, in the fixed order write() emits them. */
  function AttributeLines(f: StyleFields): seq<string> {
    LeadingAttributes(f) + TrailingAttributes(f)
  }

  function LeadingAttributes(f: StyleFields): seq<string> {
    ValueLine(Angle, f.angle)
    + ColorLine(Color, f.color)
    + ValueLine(MaxScaleDenom, f.maxscaledenom)
    + ValueLine(MinScaleDenom, f.minscaledenom)
    + OpacityLine(f.opacity)
  }

  function TrailingAttributes(f: StyleFields): seq<string> {
    ColorLine(OutlineColor, f.outlinecolor)
    + ValueLine(OutlineWidth, f.outlinewidth)
    + ValueLine(Size, f.size)
    + ValueLine(Width, f.width)
    + SymbolLine(f.symbolname)
  }

  /** write(): the clause's lines. */
  function WriteStyle(f: StyleFields): (ls: seq<string>)
    ensures |ls| >= 2 && ls[0] == Header && ls[|ls| - 1] == Footer
  {
    [Header] + AttributeLines(f) + PatternLines(f.pattern) + [Footer]
  }

  // ---------------------------------------------------------------- reader

  /** The reader's state: inside the clause ($style), inside the PATTERN
      sub-block ($reading == 'PATTERN'), and the properties so far. */
  datatype StyleScan = StyleScan(inside: bool, inPattern: bool, fields: StyleFields)

  /** The attribute branches, tried in the source's order on a trimmed line
      inside the clause and outside PATTERN; a line none of them matches
      changes nothing. */
  function AssignAttribute(f: StyleFields, sz: string): StyleFields {
    var kw := Keyword(sz);
    if kw == "ANGLE" && DecimalArg(sz, "ANGLE").Some? then f.(angle := DecimalArg(sz, "ANGLE"))
    else if kw == "COLOR" && ColorArg(sz, "COLOR").Some? then f.(color := Assigned(ColorArg(sz, "COLOR").value))
    else if kw == "MAXSCALEDENOM" && DecimalArg(sz, "MAXSCALEDENOM").Some? then f.(maxscaledenom := DecimalArg(sz, "MAXSCALEDENOM"))
    else if kw == "MINSCALEDENOM" && DecimalArg(sz, "MINSCALEDENOM").Some? then f.(minscaledenom := DecimalArg(sz, "MINSCALEDENOM"))
    else if kw == "OPACITY" && NatArg(sz, "OPACITY").Some? then f.(opacity := Some(NatArg(sz, "OPACITY").value))
    else if kw == "OUTLINECOLOR" && ColorArg(sz, "OUTLINECOLOR").Some? then f.(outlinecolor := Assigned(ColorArg(sz, "OUTLINECOLOR").value))
    else if kw == "OUTLINEWIDTH" && DecimalArg(sz, "OUTLINEWIDTH").Some? then f.(outlinewidth := DecimalArg(sz, "OUTLINEWIDTH"))
    else if kw == "SIZE" && DecimalArg(sz, "SIZE").Some? then f.(size := DecimalArg(sz, "SIZE"))
    else if kw == "SYMBOL" && QuotedArg(sz, "SYMBOL").Some? then f.(symbolname := QuotedArg(sz, "SYMBOL"))
    else if kw == "WIDTH" && DecimalArg(sz, "WIDTH").Some? then f.(width := DecimalArg(sz, "WIDTH"))
    else f
  }

  /** One iteration of read()'s loop. A STYLE line always (re)enters the
      clause; inside PATTERN only END [# PATTERN] closes the sub-block and
      every other non-empty line is split on spaces into pattern values. */
  function StyleStep(st: StyleScan, line: string): StyleScan {
    var sz := Trim(line);
    if IsOpen(sz, "STYLE") then st.(inside := true)
    else if !st.inside then st
    else if !st.inPattern then
      if IsEnd(sz, "END # STYLE") then st.(inside := false)
      else if IsOpen(sz, "PATTERN") then st.(inPattern := true)
      else st.(fields := AssignAttribute(st.fields, sz))
    else if IsEnd(sz, "END # PATTERN") then st.(inPattern := false)
    else if IsAnyText(sz) then st.(fields := st.fields.(pattern := st.fields.pattern + Split(sz)))
    else st
  }

  function ScanStyle(lines: seq<string>, st: StyleScan): StyleScan
    decreases |lines|
  {
    if lines == [] then st else ScanStyle(lines[1..], StyleStep(st, lines[0]))
  }

  const Start := StyleScan(false, false, NoFields)

  /** `new Style($lines)`: the properties after reading the lines. */
  function ReadStyle(lines: seq<string>): StyleFields {
    ScanStyle(lines, Start).fields
  }

  // ---------------------------------------------------------------- class

  class Style {
    var color: ColorSlot
    var outlinecolor: ColorSlot
    var angle: Option<string>
    var maxscaledenom: Option<string>
    var minscaledenom: Option<string>
    var opacity: Option<int>
    var outlinewidth: Option<string>
    var size: Option<string>
    var symbolname: Option<string>
    var width: Option<string>
    var pattern: seq<string>

    function Fields(): StyleFields
      reads this
    {
      StyleFields(angle, color, maxscaledenom, minscaledenom, opacity, outlinecolor,
                  outlinewidth, size, symbolname, width, pattern)
    }

    /** `new Style()`. */
    constructor ()
      ensures Fields() == NoFields
    {
      color, outlinecolor := Null, Null;
      angle, maxscaledenom, minscaledenom, opacity := None, None, None, None;
      outlinewidth, size, symbolname, width := None, None, None, None;
      pattern := [];
    }

    /** `new Style($lines)`. */
    static method FromClause(lines: seq<string>) returns (s: Style)
      ensures fresh(s) && s.Fields() == ReadStyle(lines)
    {
      s := new Style();
      s.Read(lines);
    }

    /** read(): one forward pass over the lines. */
    method Read(lines: seq<string>)
      modifies this
      ensures Fields() == ScanStyle(lines, StyleScan(false, false, old(Fields()))).fields
    {
      var style, reading := false, false;
      var i := 0;
      while i < |lines|
        invariant 0 <= i <= |lines|
        invariant ScanStyle(lines, StyleScan(false, false, old(Fields())))
               == ScanStyle(lines[i..], StyleScan(style, reading, Fields()))
      {
        ghost var before := StyleScan(style, reading, Fields());
        var sz := Trim(lines[i]);
        if IsOpen(sz, "STYLE") {
          style := true;
        } else if style && !reading && IsEnd(sz, "END # STYLE") {
          style := false;
        } else if style && !reading && IsOpen(sz, "PATTERN") {
          reading := true;
        } else if style && reading && IsEnd(sz, "END # PATTERN") {
          reading := false;
        } else if style && reading && IsAnyText(sz) {
          pattern := pattern + Split(sz);
        } else if style && !reading {
          Assign(sz);
        }
        assert StyleScan(style, reading, Fields()) == StyleStep(before, lines[i]);
        ScanAt(lines, i, before);
        i := i + 1;
      }
    }

    /** The attribute branches of read(), tried in order on a trimmed line
        inside the clause and outside PATTERN. */
    method Assign(sz: string)
      modifies this
      ensures Fields() == AssignAttribute(old(Fields()), sz)
    {
      var kw := Keyword(sz);
      if kw == "ANGLE" && DecimalArg(sz, "ANGLE").Some? {
        angle := DecimalArg(sz, "ANGLE");
      } else if kw == "COLOR" && ColorArg(sz, "COLOR").Some? {
        color := Assigned(ColorArg(sz, "COLOR").value);
      } else if kw == "MAXSCALEDENOM" && DecimalArg(sz, "MAXSCALEDENOM").Some? {
        maxscaledenom := DecimalArg(sz, "MAXSCALEDENOM");
      } else if kw == "MINSCALEDENOM" && DecimalArg(sz, "MINSCALEDENOM").Some? {
        minscaledenom := DecimalArg(sz, "MINSCALEDENOM");
      } else if kw == "OPACITY" && NatArg(sz, "OPACITY").Some? {
        opacity := Some(NatArg(sz, "OPACITY").value);
      } else if kw == "OUTLINECOLOR" && ColorArg(sz, "OUTLINECOLOR").Some? {
        outlinecolor := Assigned(ColorArg(sz, "OUTLINECOLOR").value);
      } else if kw == "OUTLINEWIDTH" && DecimalArg(sz, "OUTLINEWIDTH").Some? {
        outlinewidth := DecimalArg(sz, "OUTLINEWIDTH");
      } else if kw == "SIZE" && DecimalArg(sz, "SIZE").Some? {
        size := DecimalArg(sz, "SIZE");
      } else if kw == "SYMBOL" && QuotedArg(sz, "SYMBOL").Some? {
        symbolname := QuotedArg(sz, "SYMBOL");
      } else if kw == "WIDTH" && DecimalArg(sz, "WIDTH").Some? {
        width := DecimalArg(sz, "WIDTH");
      }
    }

    /** setColor(r, g, b). */
    method SetColor(r: int, g: int, b: int) returns (o: Outcome<Error>)
      modifies this`color
      ensures o.Pass? <==> InRange(r) && InRange(g) && InRange(b)
      ensures o.Pass? ==> color == Assigned(Rgb(r, g, b)) && GetColor() == Components(Some(r), Some(g), Some(b))
      ensures o.Fail? ==> color == old(color) && o.error == Invalid("STYLE COLOR", RgbText(Rgb(r, g, b)))
    {
      var c := CheckedRgb("STYLE COLOR", r, g, b);
      if c.Success? {
        color := Assigned(c.value);
        o := Pass;
      } else {
        o := Fail(c.error);
      }
    }

    /** setOutlineColor(r, g, b). */
    method SetOutlineColor(r: int, g: int, b: int) returns (o: Outcome<Error>)
      modifies this`outlinecolor
      ensures o.Pass? <==> InRange(r) && InRange(g) && InRange(b)
      ensures o.Pass? ==> outlinecolor == Assigned(Rgb(r, g, b)) && GetOutlineColor() == Components(Some(r), Some(g), Some(b))
      ensures o.Fail? ==> outlinecolor == old(outlinecolor) && o.error == Invalid("STYLE OUTLINECOLOR", RgbText(Rgb(r, g, b)))
    {
      var c := CheckedRgb("STYLE OUTLINECOLOR", r, g, b);
      if c.Success? {
        outlinecolor := Assigned(c.value);
        o := Pass;
      } else {
        o := Fail(c.error);
      }
    }

    /** unsetColor(): the colour becomes array(), which write() omits. */
    method UnsetColor()
      modifies this`color
      ensures color == Cleared && ColorLine(Color, color) == []
    {
      color := Cleared;
    }

    /** unsetOutlineColor(). */
    method UnsetOutlineColor()
      modifies this`outlinecolor
      ensures outlinecolor == Cleared && ColorLine(OutlineColor, outlinecolor) == []
    {
      outlinecolor := Cleared;
    }

    /** getColor(). */
    function GetColor(): (v: ColorView)
      reads this
      ensures v.NoComponents? <==> color.Null?
      ensures color.Cleared? ==> v == Components(None, None, None)
      ensures color.Assigned? ==> v == Components(Some(color.rgb.r), Some(color.rgb.g), Some(color.rgb.b))
    {
      ViewOf(color)
    }

    /** getOutlineColor(). */
    function GetOutlineColor(): (v: ColorView)
      reads this
      ensures v.NoComponents? <==> outlinecolor.Null?
      ensures outlinecolor.Cleared? ==> v == Components(None, None, None)
      ensures outlinecolor.Assigned? ==> v == Components(Some(outlinecolor.rgb.r), Some(outlinecolor.rgb.g), Some(outlinecolor.rgb.b))
    {
      ViewOf(outlinecolor)
    }

    /** write(). */
    function Write(): seq<string>
      reads this
    {
      WriteStyle(Fields())
    }
  }

  function ViewOf(c: ColorSlot): ColorView {
    match c
    case Null => NoComponents
    case Cleared => Components(None, None, None)
    case Assigned(rgb) => Components(Some(rgb.r), Some(rgb.g), Some(rgb.b))
  }

  // ---------------------------------------------------------------- proofs

  lemma ScanAt(lines: seq<string>, i: int, st: StyleScan)
    requires 0 <= i < |lines|
    ensures ScanStyle(lines[i..], st) == ScanStyle(lines[i + 1..], StyleStep(st, lines[i]))
  {
    assert lines[i..][1..] == lines[i + 1..];
  }

  /** Reading two runs of lines is reading the first, then the second. */
  lemma {:induction false} ScanAppend(a: seq<string>, b: seq<string>, st: StyleScan)
    ensures ScanStyle(a + b, st) == ScanStyle(b, ScanStyle(a, st))
  {
    if a != [] {
      assert (a + b)[0] == a[0];
      assert (a + b)[1..] == a[1..] + b;
      ScanAppend(a[1..], b, StyleStep(st, a[0]));
    } else {
      assert a + b == b;
    }
  }

  // ---------------------------------------------------------------- write, then read

  function InBody(f: StyleFields): StyleScan {
    StyleScan(true, false, f)
  }

  predicate DecimalOrNull(v: Option<string>) {
    v.Some? ==> IsDecimal(v.value)
  }

  predicate NonNegative(c: ColorSlot) {
    c.Assigned? ==> c.rgb.r >= 0 && c.rgb.g >= 0 && c.rgb.b >= 0
  }

  /** Properties whose written form the reader's patterns accept: decimal
      text for the floats, non-negative numbers, a one-line symbol name and
      decimal pattern values. */
  predicate WellFormedStyle(f: StyleFields) {
    && DecimalOrNull(f.angle) && DecimalOrNull(f.maxscaledenom) && DecimalOrNull(f.minscaledenom)
    && DecimalOrNull(f.outlinewidth) && DecimalOrNull(f.size) && DecimalOrNull(f.width)
    && (f.opacity.Some? ==> f.opacity.value >= 0)
    && NonNegative(f.color) && NonNegative(f.outlinecolor)
    && (f.symbolname.Some? ==> '\n' !in f.symbolname.value)
    && forall k :: 0 <= k < |f.pattern| ==> IsDecimal(f.pattern[k])
  }

  /** What survives a write: a colour that is not written reads back as
      null, and so does an empty symbol name. */
  function Canonical(f: StyleFields): StyleFields {
    f.(color := if IsWritten(f.color) then f.color else Null,
       outlinecolor := if IsWritten(f.outlinecolor) then f.outlinecolor else Null,
       symbolname := if f.symbolname.Some? && !IsEmptyText(f.symbolname.value) then f.symbolname else None)
  }

  lemma {:induction false} OneLine(g: StyleFields, kw: string, v: string)
    requires IsWord(kw) && kw != "STYLE" && kw != "END" && kw != "PATTERN"
    requires v != [] && !IsBlank(v[|v| - 1])
    ensures ScanStyle([Indented(ATTRIBUTE_INDENT, Attr(kw, v))], InBody(g)) == InBody(AssignAttribute(g, Attr(kw, v)))
    ensures Keyword(Attr(kw, v)) == kw && After(Attr(kw, v), kw) == Some(v)
  {
    AttrLine(ATTRIBUTE_INDENT, kw, v);
    NeitherOpenNorEnd(Attr(kw, v), "STYLE", "END # STYLE");
    NeitherOpenNorEnd(Attr(kw, v), "PATTERN", "END # PATTERN");
    assert [Indented(ATTRIBUTE_INDENT, Attr(kw, v))][1..] == [];
  }

  /** The attributes whose value is decimal text. */
  predicate IsDecimalAttribute(a: Attribute) {
    a.Angle? || a.MaxScaleDenom? || a.MinScaleDenom? || a.OutlineWidth? || a.Size? || a.Width?
  }

  /** The property a decimal attribute's line sets. */
  function PutDecimal(g: StyleFields, a: Attribute, v: string): StyleFields
    requires IsDecimalAttribute(a)
  {
    match a
    case Angle => g.(angle := Some(v))
    case MaxScaleDenom => g.(maxscaledenom := Some(v))
    case MinScaleDenom => g.(minscaledenom := Some(v))
    case OutlineWidth => g.(outlinewidth := Some(v))
    case Size => g.(size := Some(v))
    case Width => g.(width := Some(v))
  }

  /** On a line whose keyword is a decimal attribute's, the attribute chain
      reaches that attribute's branch and no other. */
  lemma {:induction false} AssignDecimal(g: StyleFields, sz: string, a: Attribute, v: string)
    requires IsDecimalAttribute(a) && Keyword(sz) == Name(a) && After(sz, Name(a)) == Some(v) && IsDecimal(v)
    ensures AssignAttribute(g, sz) == PutDecimal(g, a, v)
  {
  }

  predicate IsColorAttribute(a: Attribute) {
    a.Color? || a.OutlineColor?
  }

  /** The property a colour attribute's line sets. */
  function PutColor(g: StyleFields, a: Attribute, c: ColorSlot): StyleFields
    requires IsColorAttribute(a)
  {
    if a.Color? then g.(color := c) else g.(outlinecolor := c)
  }

  lemma {:induction false} AssignColor(g: StyleFields, sz: string, a: Attribute, c: Rgb)
    requires IsColorAttribute(a) && Keyword(sz) == Name(a) && ColorArg(sz, Name(a)) == Some(c)
    ensures AssignAttribute(g, sz) == PutColor(g, a, Assigned(c))
  {
  }

  lemma {:induction false} AssignOpacity(g: StyleFields, sz: string, n: nat)
    requires Keyword(sz) == "OPACITY" && NatArg(sz, "OPACITY") == Some(n)
    ensures AssignAttribute(g, sz) == g.(opacity := Some(n))
  {
  }

  lemma {:induction false} AssignSymbol(g: StyleFields, sz: string, name: string)
    requires Keyword(sz) == "SYMBOL" && QuotedArg(sz, "SYMBOL") == Some(name)
    ensures AssignAttribute(g, sz) == g.(symbolname := Some(name))
  {
  }

  lemma {:induction false} DecimalStep(g: StyleFields, a: Attribute, v: Option<string>)
    requires IsDecimalAttribute(a) && DecimalOrNull(v)
    ensures ScanStyle(ValueLine(a, v), InBody(g)) == InBody(if v.Some? then PutDecimal(g, a, v.value) else g)
  {
    if v.Some? {
      DecimalIsPlain(v.value);
      NameIsWord(a);
      OneLine(g, Name(a), v.value);
      AssignDecimal(g, Attr(Name(a), v.value), a, v.value);
    }
  }

  lemma {:induction false} ColorStep(g: StyleFields, a: Attribute, c: ColorSlot)
    requires IsColorAttribute(a) && NonNegative(c)
    ensures ScanStyle(ColorLine(a, c), InBody(g)) == InBody(if IsWritten(c) then PutColor(g, a, c) else g)
  {
    if IsWritten(c) {
      NameIsWord(a);
      RgbTextReads(Name(a), c.rgb);
      OneLine(g, Name(a), RgbText(c.rgb));
      AssignColor(g, Attr(Name(a), RgbText(c.rgb)), a, c.rgb);
    }
  }

  lemma {:induction false} OpacityStep(g: StyleFields, o: Option<int>)
    requires o.Some? ==> o.value >= 0
    ensures ScanStyle(OpacityLine(o), InBody(g)) == InBody(if o.Some? then g.(opacity := o) else g)
  {
    if o.Some? {
      var t := IntToString(o.value);
      NumberText(o.value);
      DecimalIsPlain(t);
      OneLine(g, "OPACITY", t);
      NatReads("OPACITY", o.value);
      AssignOpacity(g, Attr("OPACITY", t), o.value);
    }
  }

  lemma {:induction false} SymbolStep(g: StyleFields, s: Option<string>)
    requires s.Some? ==> '\n' !in s.value
    ensures ScanStyle(SymbolLine(s), InBody(g))
         == InBody(if s.Some? && !IsEmptyText(s.value) then g.(symbolname := s) else g)
  {
    if s.Some? && !IsEmptyText(s.value) {
      var q := "\"" + s.value + "\"";
      OneLine(g, "SYMBOL", q);
      QuotedReads("SYMBOL", s.value);
      AssignSymbol(g, Attr("SYMBOL", q), s.value);
    }
  }

  lemma ScanOne(line: string, st: StyleScan)
    ensures ScanStyle([line], st) == StyleStep(st, line)
  {
    assert [line][1..] == [];
  }

  lemma {:induction false} PatternOpenStep(g: StyleFields, line: string)
    requires Upper(Trim(line)) == "PATTERN"
    ensures StyleStep(InBody(g), line) == StyleScan(true, true, g)
  {
  }

  lemma {:induction false} PatternValuesStep(g: StyleFields, p: seq<string>)
    requires p != [] && forall k :: 0 <= k < |p| ==> IsDecimal(p[k])
    ensures StyleStep(StyleScan(true, true, g), Indented(PATTERN_INDENT, Join(p)))
         == StyleScan(true, true, g.(pattern := g.pattern + p))
  {
    var j := Join(p);
    JoinDecimals(p);
    forall k | 0 <= k < |p| ensures ' ' !in p[k] {
      DecimalIsPlain(p[k]);
    }
    SplitJoin(p);
    TrimIndented(PATTERN_INDENT, j);
    assert Upper(j) != "STYLE" && Upper(j) != "END" && Upper(j) != "END # PATTERN" by {
      assert j[0] != 'S' && j[0] != 'E';
    }
  }

  lemma {:induction false} PatternCloseStep(g: StyleFields, line: string)
    requires Upper(Trim(line)) == "END # PATTERN"
    ensures StyleStep(StyleScan(true, true, g), line) == InBody(g)
  {
  }

  lemma Scan3(l0: string, l1: string, l2: string, st0: StyleScan, st1: StyleScan, st2: StyleScan, st3: StyleScan)
    requires StyleStep(st0, l0) == st1 && StyleStep(st1, l1) == st2 && StyleStep(st2, l2) == st3
    ensures ScanStyle([l0, l1, l2], st0) == st3
  {
    assert [l0, l1, l2][1..] == [l1, l2] && [l1, l2][1..] == [l2] && [l2][1..] == [];
    assert ScanStyle([l0, l1, l2], st0) == ScanStyle([l1, l2], st1);
    assert ScanStyle([l1, l2], st1) == ScanStyle([l2], st2);
  }

  lemma {:induction false} PatternStep(g: StyleFields, p: seq<string>)
    requires forall k :: 0 <= k < |p| ==> IsDecimal(p[k])
    ensures ScanStyle(PatternLines(p), InBody(g)) == InBody(g.(pattern := g.pattern + p))
  {
    if p == [] {
      assert g.pattern + p == g.pattern;
    } else {
      var g' := g.(pattern := g.pattern + p);
      var l0 := Indented(ATTRIBUTE_INDENT, "PATTERN");
      var l1 := Indented(PATTERN_INDENT, Join(p));
      var l2 := Indented(ATTRIBUTE_INDENT, "END # PATTERN");
      UpperTrimmedLine(ATTRIBUTE_INDENT, "PATTERN");
      PatternOpenStep(g, l0);
      PatternValuesStep(g, p);
      UpperTrimmedLine(ATTRIBUTE_INDENT, "END # PATTERN");
      PatternCloseStep(g', l2);
      Scan3(l0, l1, l2, InBody(g), StyleScan(true, true, g), StyleScan(true, true, g'), InBody(g'));
    }
  }

  lemma {:induction false} HeaderStep()
    ensures ScanStyle([Header], Start) == InBody(NoFields)
  {
    UpperTrimmedLine(STYLE_INDENT, "STYLE");
    ScanOne(Header, Start);
  }

  lemma {:induction false} FooterStep(g: StyleFields)
    ensures ScanStyle([Footer], InBody(g)) == StyleScan(false, false, g)
  {
    UpperTrimmedLine(STYLE_INDENT, "END # STYLE");
    ScanOne(Footer, InBody(g));
    ClosingLine(g, Footer);
  }

  lemma {:induction false} ClosingLine(g: StyleFields, line: string)
    requires Upper(Trim(line)) == "END # STYLE"
    ensures StyleStep(InBody(g), line) == StyleScan(false, false, g)
  {
  }

  lemma StepAppend(p: seq<string>, c: seq<string>, st: StyleScan, g: StyleFields, g': StyleFields)
    requires ScanStyle(p, st) == InBody(g) && ScanStyle(c, InBody(g)) == InBody(g')
    ensures ScanStyle(p + c, st) == InBody(g')
  {
    ScanAppend(p, c, st);
  }

  /** The properties the first five attribute lines set. */
  function LeadingFields(f: StyleFields): StyleFields {
    NoFields.(angle := f.angle, color := Canonical(f).color, maxscaledenom := f.maxscaledenom,
              minscaledenom := f.minscaledenom, opacity := f.opacity)
  }

  lemma {:induction false} LeadingAttributesRead(f: StyleFields)
    requires WellFormedStyle(f)
    ensures ScanStyle(LeadingAttributes(f), InBody(NoFields)) == InBody(LeadingFields(f))
  {
    var g := NoFields;
    var st := InBody(g);
    var p1 := ValueLine(Angle, f.angle);
    var g1 := g.(angle := f.angle);
    DecimalStep(g, Angle, f.angle);
    var c2 := ColorLine(Color, f.color);
    var g2 := g1.(color := Canonical(f).color);
    ColorStep(g1, Color, f.color);
    StepAppend(p1, c2, st, g1, g2);
    var p2 := p1 + c2;
    var c3 := ValueLine(MaxScaleDenom, f.maxscaledenom);
    var g3 := g2.(maxscaledenom := f.maxscaledenom);
    DecimalStep(g2, MaxScaleDenom, f.maxscaledenom);
    StepAppend(p2, c3, st, g2, g3);
    var p3 := p2 + c3;
    var c4 := ValueLine(MinScaleDenom, f.minscaledenom);
    var g4 := g3.(minscaledenom := f.minscaledenom);
    DecimalStep(g3, MinScaleDenom, f.minscaledenom);
    StepAppend(p3, c4, st, g3, g4);
    var p4 := p3 + c4;
    var c5 := OpacityLine(f.opacity);
    OpacityStep(g4, f.opacity);
    StepAppend(p4, c5, st, g4, LeadingFields(f));
  }

  lemma {:induction false} TrailingAttributesRead(f: StyleFields)
    requires WellFormedStyle(f)
    ensures ScanStyle(TrailingAttributes(f), InBody(LeadingFields(f))) == InBody(Canonical(f).(pattern := []))
  {
    var g5 := LeadingFields(f);
    var st := InBody(g5);
    var p6 := ColorLine(OutlineColor, f.outlinecolor);
    var g6 := g5.(outlinecolor := Canonical(f).outlinecolor);
    ColorStep(g5, OutlineColor, f.outlinecolor);
    var c7 := ValueLine(OutlineWidth, f.outlinewidth);
    var g7 := g6.(outlinewidth := f.outlinewidth);
    DecimalStep(g6, OutlineWidth, f.outlinewidth);
    StepAppend(p6, c7, st, g6, g7);
    var p7 := p6 + c7;
    var c8 := ValueLine(Size, f.size);
    var g8 := g7.(size := f.size);
    DecimalStep(g7, Size, f.size);
    StepAppend(p7, c8, st, g7, g8);
    var p8 := p7 + c8;
    var c9 := ValueLine(Width, f.width);
    var g9 := g8.(width := f.width);
    DecimalStep(g8, Width, f.width);
    StepAppend(p8, c9, st, g8, g9);
    var p9 := p8 + c9;
    var c10 := SymbolLine(f.symbolname);
    SymbolStep(g9, f.symbolname);
    StepAppend(p9, c10, st, g9, Canonical(f).(pattern := []));
  }

  /** The attribute lines of a well-formed Style, read inside the clause,
      set the properties they were written from. */
  lemma AttributesRead(f: StyleFields)
    requires WellFormedStyle(f)
    ensures ScanStyle(AttributeLines(f), InBody(NoFields)) == InBody(Canonical(f).(pattern := []))
  {
    LeadingAttributesRead(f);
    TrailingAttributesRead(f);
    StepAppend(LeadingAttributes(f), TrailingAttributes(f), InBody(NoFields), LeadingFields(f), Canonical(f).(pattern := []));
  }

  /** Writing a well-formed Style and reading the lines back gives its
      properties again, up to the colours and symbol name write() omits. */
  lemma {:induction false} WriteThenRead(f: StyleFields)
    requires WellFormedStyle(f)
    ensures ReadStyle(WriteStyle(f)) == Canonical(f)
  {
    var p0 := [Header];
    HeaderStep();
    var a := AttributeLines(f);
    var g1 := Canonical(f).(pattern := []);
    AttributesRead(f);
    StepAppend(p0, a, Start, NoFields, g1);
    var p1 := p0 + a;
    PatternStep(g1, f.pattern);
    assert g1.(pattern := g1.pattern + f.pattern) == Canonical(f);
    StepAppend(p1, PatternLines(f.pattern), Start, g1, Canonical(f));
    FooterStep(Canonical(f));
    ScanAppend(p1 + PatternLines(f.pattern), [Footer], Start);
  }

  /** What write() omits, re-reading adds nothing: write, read, write gives
      the same lines. */
  lemma WriteReadWrite(f: StyleFields)
    requires WellFormedStyle(f)
    ensures WriteStyle(ReadStyle(WriteStyle(f))) == WriteStyle(f)
  {
    WriteThenRead(f);
    assert AttributeLines(Canonical(f)) == AttributeLines(f);
  }

  // ---------------------------------------------------------------- what the reader skips

  /** Outside the clause, lines other than STYLE change nothing. */
  lemma {:induction false} Outside(lines: seq<string>, st: StyleScan)
    requires !st.inside
    requires forall i :: 0 <= i < |lines| ==> !IsOpen(Trim(lines[i]), "STYLE")
    ensures ScanStyle(lines, st) == st
  {
    if lines != [] {
      Outside(lines[1..], st);
    }
  }

  /** Lines before the STYLE line are ignored. */
  lemma SkipsPreamble(pre: seq<string>, lines: seq<string>)
    requires forall i :: 0 <= i < |pre| ==> !IsOpen(Trim(pre[i]), "STYLE")
    ensures ReadStyle(pre + lines) == ReadStyle(lines)
  {
    ScanAppend(pre, lines, Start);
    Outside(pre, Start);
  }

  /** Once the clause is closed, later lines other than STYLE are ignored. */
  lemma SkipsTrailer(lines: seq<string>, post: seq<string>)
    requires !ScanStyle(lines, Start).inside
    requires forall i :: 0 <= i < |post| ==> !IsOpen(Trim(post[i]), "STYLE")
    ensures ReadStyle(lines + post) == ReadStyle(lines)
  {
    ScanAppend(lines, post, Start);
    Outside(post, ScanStyle(lines, Start));
  }

  /** A written clause followed by anything without a STYLE line reads as the
      clause alone. */
  lemma WrittenClauseEnds(f: StyleFields, post: seq<string>)
    requires WellFormedStyle(f)
    requires forall i :: 0 <= i < |post| ==> !IsOpen(Trim(post[i]), "STYLE")
    ensures ReadStyle(WriteStyle(f) + post) == Canonical(f)
  {
    WriteThenRead(f);
    ClosedAfterWrite(f);
    SkipsTrailer(WriteStyle(f), post);
  }

  lemma ClosedAfterWrite(f: StyleFields)
    requires WellFormedStyle(f)
    ensures !ScanStyle(WriteStyle(f), Start).inside
  {
    var p := [Header] + AttributeLines(f) + PatternLines(f.pattern);
    HeaderStep();
    AttributesRead(f);
    var g1 := Canonical(f).(pattern := []);
    StepAppend([Header], AttributeLines(f), Start, NoFields, g1);
    PatternStep(g1, f.pattern);
    StepAppend([Header] + AttributeLines(f), PatternLines(f.pattern), Start, g1, g1.(pattern := f.pattern));
    FooterStep(g1.(pattern := f.pattern));
    ScanAppend(p, [Footer], Start);
  }

  // ---------------------------------------------------------------- the PATTERN sub-block

  /** A line the PATTERN sub-block takes as values: non-empty, and neither
      END [# PATTERN] nor STYLE. */
  predicate IsPatternText(sz: string) {
    IsAnyText(sz) && !IsEnd(sz, "END # PATTERN") && !IsOpen(sz, "STYLE")
  }

  /** The space-separated values of each line, in order. */
  function PatternValues(lines: seq<string>): seq<string> {
    if lines == [] then [] else Split(Trim(lines[0])) + PatternValues(lines[1..])
  }

  lemma PatternTextStep(g: StyleFields, line: string)
    requires IsPatternText(Trim(line))
    ensures StyleStep(StyleScan(true, true, g), line)
         == StyleScan(true, true, g.(pattern := g.pattern + Split(Trim(line))))
  {
  }

  /** Inside PATTERN, every value line's pieces are appended in order,
      accumulating across lines, and nothing else changes. */
  lemma {:induction false} PatternAccumulates(lines: seq<string>, g: StyleFields)
    requires forall i :: 0 <= i < |lines| ==> IsPatternText(Trim(lines[i]))
    ensures ScanStyle(lines, StyleScan(true, true, g))
         == StyleScan(true, true, g.(pattern := g.pattern + PatternValues(lines)))
  {
    if lines == [] {
      assert g.pattern + [] == g.pattern;
    } else {
      var g' := g.(pattern := g.pattern + Split(Trim(lines[0])));
      PatternTextStep(g, lines[0]);
      assert forall i :: 0 <= i < |lines[1..]| ==> lines[1..][i] == lines[i + 1];
      PatternAccumulates(lines[1..], g');
      AppendAssociative(g.pattern, Split(Trim(lines[0])), PatternValues(lines[1..]));
    }
  }

  /** Inside PATTERN, an `END # STYLE` line does not close the clause: its
      three pieces become pattern values. */
  lemma EndStyleInsidePattern(g: StyleFields, n: nat)
    ensures StyleStep(StyleScan(true, true, g), Indented(n, "END # STYLE"))
         == StyleScan(true, true, g.(pattern := g.pattern + ["END", "#", "STYLE"]))
  {
    EndStyleLine(n);
    EndStyleSplits();
    PatternLineStep(g, Indented(n, "END # STYLE"), "END # STYLE", ["END", "#", "STYLE"]);
  }

  lemma PatternLineStep(g: StyleFields, line: string, sz: string, pieces: seq<string>)
    requires Trim(line) == sz && IsPatternText(sz) && Split(sz) == pieces
    ensures StyleStep(StyleScan(true, true, g), line) == StyleScan(true, true, g.(pattern := g.pattern + pieces))
  {
    PatternTextStep(g, line);
  }

  lemma EndStyleLine(n: nat)
    ensures Trim(Indented(n, "END # STYLE")) == "END # STYLE" && IsPatternText("END # STYLE")
  {
    EndStyleUnpadded();
    EndStyleIsPatternText();
    TrimUnpadded(n, "END # STYLE");
  }

  lemma TrimUnpadded(n: nat, sz: string)
    requires Unpadded(sz)
    ensures Trim(Indented(n, sz)) == sz
  {
    TrimIndented(n, sz);
  }

  lemma EndStyleUnpadded()
    ensures Unpadded("END # STYLE")
  {
    var sz := "END # STYLE";
    assert sz[0] == 'E' && sz[|sz| - 1] == 'E';
  }

  lemma EndStyleIsPatternText()
    ensures IsPatternText("END # STYLE")
  {
    EndStyleIsText();
    EndStyleIsNotPatternEnd();
  }

  lemma EndStyleIsText()
    ensures IsAnyText("END # STYLE")
  {
    var sz := "END # STYLE";
    assert sz == "END" + " # " + "STYLE";
  }

  lemma EndStyleIsNotPatternEnd()
    ensures !IsEnd("END # STYLE", "END # PATTERN") && !IsOpen("END # STYLE", "STYLE")
  {
    UpperFixed("END # STYLE");
    assert "END # STYLE" != "END";
    assert "END # STYLE" != "END # PATTERN";
  }

  lemma EndStyleSplits()
    ensures Split("END # STYLE") == ["END", "#", "STYLE"]
  {
    assert "END # STYLE" == "END" + " " + "#" + " " + "STYLE";
    SplitThree("END", "#", "STYLE");
  }

  // ---------------------------------------------------------------- lines the attribute branches ignore

  const StyleKeywords := {"STYLE", "END", "PATTERN", "ANGLE", "COLOR", "MAXSCALEDENOM", "MINSCALEDENOM",
                          "OPACITY", "OUTLINECOLOR", "OUTLINEWIDTH", "SIZE", "WIDTH", "SYMBOL"}

  /** Inside the clause, a line with an unknown keyword changes nothing. */
  lemma UnknownKeyword(g: StyleFields, line: string)
    requires Keyword(Trim(line)) !in StyleKeywords
    ensures StyleStep(InBody(g), line) == InBody(g)
  {
    NeitherOpenNorEnd(Trim(line), "STYLE", "END # STYLE");
    NeitherOpenNorEnd(Trim(line), "PATTERN", "END # PATTERN");
  }

  lemma {:induction false} IgnoredDecimal(g: StyleFields, sz: string, a: Attribute)
    requires IsDecimalAttribute(a) && Keyword(sz) == Name(a) && DecimalArg(sz, Name(a)) == None
    ensures AssignAttribute(g, sz) == g
  {
    match a
    case Angle =>
    case MaxScaleDenom =>
    case MinScaleDenom =>
    case OutlineWidth =>
    case Size =>
    case Width =>
  }

  /** A decimal attribute whose value is not `[0-9.]+` (`ANGLE -5`, say) is
      ignored. */
  lemma MalformedDecimalIgnored(g: StyleFields, a: Attribute, v: string)
    requires IsDecimalAttribute(a) && !IsDecimal(v)
    ensures AssignAttribute(g, Attr(Name(a), v)) == g
  {
    var sz := Attr(Name(a), v);
    NameIsWord(a);
    KeywordOfAttr(Name(a), v);
    assert sz[|Name(a)| + 1..] == v;
    IgnoredDecimal(g, sz, a);
  }

  lemma {:induction false} IgnoredOpacity(g: StyleFields, sz: string)
    requires Keyword(sz) == "OPACITY" && NatArg(sz, "OPACITY") == None
    ensures AssignAttribute(g, sz) == g
  {
  }

  /** OPACITY takes digits only: `OPACITY 50.5` is ignored. */
  lemma MalformedOpacityIgnored(g: StyleFields, v: string)
    requires !IsDigits(v)
    ensures AssignAttribute(g, Attr("OPACITY", v)) == g
  {
    var sz := Attr("OPACITY", v);
    KeywordOfAttr("OPACITY", v);
    assert sz[|"OPACITY"| + 1..] == v;
    IgnoredOpacity(g, sz);
  }

  /** Parsed colour components are not range-checked: any three digit runs
      are stored, 300 included. */
  lemma ParsedColorUnchecked(g: StyleFields, a: Attribute, c: Rgb)
    requires IsColorAttribute(a) && c.r >= 0 && c.g >= 0 && c.b >= 0
    ensures AssignAttribute(g, Attr(Name(a), RgbText(c))) == PutColor(g, a, Assigned(c))
  {
    NameIsWord(a);
    RgbTextReads(Name(a), c);
    KeywordOfAttr(Name(a), RgbText(c));
    AssignColor(g, Attr(Name(a), RgbText(c)), a, c);
  }

  // ---------------------------------------------------------------- the order of the written attributes

  /** The attributes write() may emit, in the order it emits them. */
  datatype Attribute = Angle | Color | MaxScaleDenom | MinScaleDenom | Opacity
                     | OutlineColor | OutlineWidth | Size | Width | Symbol

  /** The keyword of an attribute line. */
  function Name(a: Attribute): string {
    match a
    case Angle => "ANGLE"
    case Color => "COLOR"
    case MaxScaleDenom => "MAXSCALEDENOM"
    case MinScaleDenom => "MINSCALEDENOM"
    case Opacity => "OPACITY"
    case OutlineColor => "OUTLINECOLOR"
    case OutlineWidth => "OUTLINEWIDTH"
    case Size => "SIZE"
    case Width => "WIDTH"
    case Symbol => "SYMBOL"
  }

  const StyleOrder: seq<Attribute> := [Angle, Color, MaxScaleDenom, MinScaleDenom, Opacity,
                                       OutlineColor, OutlineWidth, Size, Width, Symbol]

  /** Whether write() emits the line of attribute a. */
  predicate Emits(f: StyleFields, a: Attribute) {
    match a
    case Angle => f.angle.Some?
    case Color => IsWritten(f.color)
    case MaxScaleDenom => f.maxscaledenom.Some?
    case MinScaleDenom => f.minscaledenom.Some?
    case Opacity => f.opacity.Some?
    case OutlineColor => IsWritten(f.outlinecolor)
    case OutlineWidth => f.outlinewidth.Some?
    case Size => f.size.Some?
    case Width => f.width.Some?
    case Symbol => f.symbolname.Some? && !IsEmptyText(f.symbolname.value)
  }

  /** The keywords of the attributes of attrs that f emits, in their order. */
  function Emitted(attrs: seq<Attribute>, f: StyleFields): seq<string> {
    if attrs == [] then [] else (if Emits(f, attrs[0]) then [Name(attrs[0])] else []) + Emitted(attrs[1..], f)
  }

  lemma {:induction false} EmittedAppend(a: seq<Attribute>, b: seq<Attribute>, f: StyleFields)
    ensures Emitted(a + b, f) == Emitted(a, f) + Emitted(b, f)
  {
    if a == [] {
      assert a + b == b;
    } else {
      assert (a + b)[1..] == a[1..] + b;
      EmittedAppend(a[1..], b, f);
    }
  }

  lemma Combine2(a: seq<string>, b: seq<string>, ka: seq<Attribute>, kb: seq<Attribute>, f: StyleFields)
    requires KeysOf(a) == Emitted(ka, f) && KeysOf(b) == Emitted(kb, f)
    ensures KeysOf(a + b) == Emitted(ka + kb, f)
  {
    KeysAppend(a, b);
    EmittedAppend(ka, kb, f);
  }

  lemma NameIsWord(a: Attribute)
    ensures IsWord(Name(a))
  {
  }

  lemma {:induction false} KeyOfLine(kw: string, v: string)
    requires IsWord(kw)
    ensures KeysOf([Indented(ATTRIBUTE_INDENT, Attr(kw, v))]) == [kw]
  {
    KeywordOfLine(ATTRIBUTE_INDENT, kw, v);
    assert [Indented(ATTRIBUTE_INDENT, Attr(kw, v))][1..] == [];
  }

  lemma ValueKeys(a: Attribute, v: Option<string>, f: StyleFields)
    requires Emits(f, a) <==> v.Some?
    ensures KeysOf(ValueLine(a, v)) == Emitted([a], f)
  {
    if v.Some? {
      NameIsWord(a);
      KeyOfLine(Name(a), v.value);
    }
  }

  lemma ColorKeys(a: Attribute, c: ColorSlot, f: StyleFields)
    requires Emits(f, a) <==> IsWritten(c)
    ensures KeysOf(ColorLine(a, c)) == Emitted([a], f)
  {
    if IsWritten(c) {
      NameIsWord(a);
      KeyOfLine(Name(a), RgbText(c.rgb));
    }
  }

  lemma OpacityKeys(f: StyleFields)
    ensures KeysOf(OpacityLine(f.opacity)) == Emitted([Opacity], f)
  {
    if f.opacity.Some? {
      NameIsWord(Opacity);
      KeyOfLine("OPACITY", IntToString(f.opacity.value));
    }
  }

  lemma SymbolKeys(f: StyleFields)
    ensures KeysOf(SymbolLine(f.symbolname)) == Emitted([Symbol], f)
  {
    if f.symbolname.Some? && !IsEmptyText(f.symbolname.value) {
      NameIsWord(Symbol);
      KeyOfLine("SYMBOL", "\"" + f.symbolname.value + "\"");
    }
  }

  /** Five runs of lines, each carrying the keyword list of one attribute,
      carry together the keyword list of the five attributes in order. */
  lemma Combine5(a: seq<string>, b: seq<string>, c: seq<string>, d: seq<string>, e: seq<string>,
                 ka: Attribute, kb: Attribute, kc: Attribute, kd: Attribute, ke: Attribute, f: StyleFields)
    requires KeysOf(a) == Emitted([ka], f) && KeysOf(b) == Emitted([kb], f) && KeysOf(c) == Emitted([kc], f)
    requires KeysOf(d) == Emitted([kd], f) && KeysOf(e) == Emitted([ke], f)
    ensures KeysOf(a + b + c + d + e) == Emitted([ka, kb, kc, kd, ke], f)
  {
    Combine2(a, b, [ka], [kb], f);
    Combine2(a + b, c, [ka] + [kb], [kc], f);
    Combine2(a + b + c, d, [ka] + [kb] + [kc], [kd], f);
    Combine2(a + b + c + d, e, [ka] + [kb] + [kc] + [kd], [ke], f);
    assert [ka] + [kb] + [kc] + [kd] + [ke] == [ka, kb, kc, kd, ke];
  }

  lemma LeadingKeys(f: StyleFields)
    ensures KeysOf(LeadingAttributes(f)) == Emitted(StyleOrder[..5], f)
  {
    ValueKeys(Angle, f.angle, f);
    ColorKeys(Color, f.color, f);
    ValueKeys(MaxScaleDenom, f.maxscaledenom, f);
    ValueKeys(MinScaleDenom, f.minscaledenom, f);
    OpacityKeys(f);
    Combine5(ValueLine(Angle, f.angle), ColorLine(Color, f.color), ValueLine(MaxScaleDenom, f.maxscaledenom),
             ValueLine(MinScaleDenom, f.minscaledenom), OpacityLine(f.opacity),
             Angle, Color, MaxScaleDenom, MinScaleDenom, Opacity, f);
    assert StyleOrder[..5] == [Angle, Color, MaxScaleDenom, MinScaleDenom, Opacity];
  }

  lemma TrailingKeys(f: StyleFields)
    ensures KeysOf(TrailingAttributes(f)) == Emitted(StyleOrder[5..], f)
  {
    ColorKeys(OutlineColor, f.outlinecolor, f);
    ValueKeys(OutlineWidth, f.outlinewidth, f);
    ValueKeys(Size, f.size, f);
    ValueKeys(Width, f.width, f);
    SymbolKeys(f);
    Combine5(ColorLine(OutlineColor, f.outlinecolor), ValueLine(OutlineWidth, f.outlinewidth), ValueLine(Size, f.size),
             ValueLine(Width, f.width), SymbolLine(f.symbolname),
             OutlineColor, OutlineWidth, Size, Width, Symbol, f);
    assert StyleOrder[5..] == [OutlineColor, OutlineWidth, Size, Width, Symbol];
  }

  /** The attribute lines write() emits are exactly those of the attributes
      that are set (a colour only when written, a symbol only when
      non-empty), in the fixed order ANGLE, COLOR, MAXSCALEDENOM,
      MINSCALEDENOM, OPACITY, OUTLINECOLOR, OUTLINEWIDTH, SIZE, WIDTH,
      SYMBOL, whatever order they were set in and whatever their values
      (a negative OPACITY or ANGLE keeps its slot). */
  lemma WriteOrder(f: StyleFields)
    ensures KeysOf(AttributeLines(f)) == Emitted(StyleOrder, f)
  {
    LeadingKeys(f);
    TrailingKeys(f);
    Combine2(LeadingAttributes(f), TrailingAttributes(f), StyleOrder[..5], StyleOrder[5..], f);
    assert StyleOrder[..5] + StyleOrder[5..] == StyleOrder;
  }
}
