/** The LABEL sub-clause as the SCALEBAR and LEGEND readers see it. The Label
    class itself is not part of this model: a label is known only by how it
    was made, and its writer is supplied by the caller. */
module LabelClause {
  import opened Text
  import opened Syntax

  /** `new Label()` or `new Label($lines)` built from a buffered block. */
  datatype Label = DefaultLabel | ParsedLabel(block: seq<string>)

  /** `$label->write($indent)`, given as the lines of the text it returns. */
  type LabelWriter = (Label, nat) -> seq<string>

  /** trim() applied to every line, as the readers buffer them. */
  function TrimAll(lines: seq<string>): (r: seq<string>)
    ensures |r| == |lines|
    ensures forall i :: 0 <= i < |lines| ==> r[i] == Trim(lines[i])
  {
    if lines == [] then [] else [Trim(lines[0])] + TrimAll(lines[1..])
  }

  /** Buffering one more trimmed line, then the rest, buffers them all. */
  lemma {:induction false} BufferTrimmed(buf: seq<string>, lines: seq<string>)
    requires lines != []
    ensures buf + [Trim(lines[0])] + TrimAll(lines[1..]) == buf + TrimAll(lines)
  {
    assert TrimAll(lines) == [Trim(lines[0])] + TrimAll(lines[1..]);
    AppendAssociative(buf, [Trim(lines[0])], TrimAll(lines[1..]));
  }

  /** Lines that a reader of clause `outer` buffers as one whole LABEL block:
      a LABEL line, lines that neither end the label nor reopen `outer`, and
      an END [# LABEL] line. */
  predicate IsLabelBlock(lines: seq<string>, outer: string) {
    && |lines| >= 2
    && IsOpen(Trim(lines[0]), "LABEL")
    && IsEnd(Trim(lines[|lines| - 1]), "END # LABEL")
    && forall i :: 0 < i < |lines| - 1 ==> !IsEnd(Trim(lines[i]), "END # LABEL") && !IsOpen(Trim(lines[i]), outer)
  }
}
