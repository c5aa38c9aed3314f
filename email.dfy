/** The plain-text body of the email sendEmail writes for a resolution: a
    heading, the parcel number or one line per sub-unit, and a closing line. */
module Email {
  import opened JsValues
  import opened Parcels

  const LIST_HEADING := "Los números de partida son:"
  const LIST_CLOSING := "Te llegó este correo porque " + "solicitaste los números de partida " + "al servicio de consultas de ProProp."
  const SINGLE_HEADING := "El número de partida es:"
  const SINGLE_CLOSING := "Te llegó este correo porque " + "solicitaste tu número de partida " + "al servicio de consultas de ProProp."

  /** `Partida: ${pdahorizontal}, Piso: ${piso}, Dpto: ${dpto}`: a single line
      when the three fields render without a newline. */
  function EntryLine(u: SubUnit): (line: string)
    ensures "Partida: " <= line
    ensures OneLine(u) ==> '\n' !in line
  {
    LabelsHaveNoNewline();
    "Partida: " + Interpolate(u.pdahorizontal) + ", Piso: " + Interpolate(u.piso) + ", Dpto: " + Interpolate(u.dpto)
  }

  /** `data.map(...)`: one line per sub-unit, in order. */
  function EntryLines(units: seq<SubUnit>): (lines: seq<string>)
    ensures |lines| == |units|
    ensures forall i :: 0 <= i < |units| ==> lines[i] == EntryLine(units[i])
  {
    if units == [] then [] else [EntryLine(units[0])] + EntryLines(units[1..])
  }

  /** The body between a heading line and a blank line before the closing. */
  function Framed(heading: string, body: string, closing: string): string {
    heading + "\n" + body + "\n\n" + closing
  }

  /** The plain text for `data`: the list layout when it is an array, and
      otherwise the value rendered as `${data}` (null renders as "null"). The
      first line is the list heading exactly for an array. */
  function PlainText(data: Resolution): (text: string)
    ensures data.Units? ==> LIST_HEADING + "\n" <= text
    ensures !data.Units? ==> SINGLE_HEADING + "\n" <= text
  {
    match data
    case Units(units) => Framed(LIST_HEADING, Join(EntryLines(units), "\n"), LIST_CLOSING)
    case Matrix(v) => Framed(SINGLE_HEADING, Interpolate(v), SINGLE_CLOSING)
    case NullResult => Framed(SINGLE_HEADING, Interpolate(Scalar.Null), SINGLE_CLOSING)
  }

  /** A sub-unit whose three fields render without a newline. */
  predicate OneLine(u: SubUnit) {
    '\n' !in Interpolate(u.pdahorizontal) && '\n' !in Interpolate(u.piso) && '\n' !in Interpolate(u.dpto)
  }

  lemma ListLinesHaveNoNewline()
    ensures '\n' !in LIST_HEADING && '\n' !in LIST_CLOSING
  {
  }

  lemma SingleLinesHaveNoNewline()
    ensures '\n' !in SINGLE_HEADING && '\n' !in SINGLE_CLOSING
  {
  }

  lemma LabelsHaveNoNewline()
    ensures '\n' !in "Partida: " && '\n' !in ", Piso: " && '\n' !in ", Dpto: "
  {
  }

  /** Framed text splits into the heading, the body's lines, a blank line and
      the closing. */
  lemma {:induction false} FramedLines(heading: string, body: seq<string>, closing: string)
    requires '\n' !in heading && '\n' !in closing
    requires |body| > 0
    requires forall i :: 0 <= i < |body| ==> '\n' !in body[i]
    ensures SplitLines(Framed(heading, Join(body, "\n"), closing)) == [heading] + body + ["", closing]
  {
    var joined := Join(body, "\n");
    var tail := "\n" + closing;
    assert Framed(heading, joined, closing) == heading + "\n" + (joined + "\n" + tail);
    SplitFirstLine(heading, joined + "\n" + tail);
    SplitJoined(body, tail);
    assert tail[1..] == closing;
    SplitSingleLine(closing);
    assert SplitLines(tail) == [""] + [closing];
  }

  /** Each sub-unit's line has no newline when its fields render without one. */
  lemma EntryLinesAreLines(units: seq<SubUnit>)
    requires forall i :: 0 <= i < |units| ==> OneLine(units[i])
    ensures forall i :: 0 <= i < |units| ==> '\n' !in EntryLines(units)[i]
  {
    LabelsHaveNoNewline();
  }

  /** List case: the heading, then one `Partida: X, Piso: Y, Dpto: Z` line per
      sub-unit in input order, then a blank line and the closing. */
  lemma PlainTextListsUnits(units: seq<SubUnit>)
    requires |units| > 0
    requires forall i :: 0 <= i < |units| ==> OneLine(units[i])
    ensures var lines := SplitLines(PlainText(Units(units)));
      && |lines| == |units| + 3
      && lines[0] == LIST_HEADING
      && (forall i :: 0 <= i < |units| ==> lines[i + 1] == EntryLine(units[i]))
      && lines[|units| + 1] == ""
      && lines[|units| + 2] == LIST_CLOSING
  {
    var entries := EntryLines(units);
    var lines := SplitLines(PlainText(Units(units)));
    ListLinesHaveNoNewline();
    EntryLinesAreLines(units);
    FramedLines(LIST_HEADING, entries, LIST_CLOSING);
    assert lines == [LIST_HEADING] + entries + ["", LIST_CLOSING];
    forall i | 0 <= i < |units| ensures lines[i + 1] == EntryLine(units[i]) {
      assert lines[i + 1] == entries[i];
    }
  }

  /** An empty list still gets the list layout, with no parcel line at all. */
  lemma PlainTextEmptyList()
    ensures SplitLines(PlainText(Units([]))) == [LIST_HEADING, "", "", LIST_CLOSING]
  {
    ListLinesHaveNoNewline();
    FramedLines(LIST_HEADING, [""], LIST_CLOSING);
  }

  /** Single case: the parcel number on its own line right after
      `El número de partida es:`, so it can be read back from the text. */
  lemma PlainTextShowsMatrix(v: Scalar)
    requires '\n' !in Interpolate(v)
    ensures SplitLines(PlainText(Matrix(v))) == [SINGLE_HEADING, Interpolate(v), "", SINGLE_CLOSING]
  {
    SingleLinesHaveNoNewline();
    FramedLines(SINGLE_HEADING, [Interpolate(v)], SINGLE_CLOSING);
  }
}
