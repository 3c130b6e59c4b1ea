/**
 * Building the Stylist's "memory" blocks: one conversion note per outcome,
 * joined by newlines, and the serialised substitution map. How Python
 * renders a float and how `json.dumps` lays out the substitutions are
 * not modelled; both are supplied as functions in a Renderer.
 */
module Render {
  import opened Plan
  import opened Conversions

  /** Opaque formatting: f-string rendering of a number, and `json.dumps` of the substitutions. */
  datatype Renderer = Renderer(number: real -> string, substitutions: seq<Substitution> -> string)

  /** f-string rendering of a loosely typed value: strings as themselves, `None` as "None". */
  function ValueText(rd: Renderer, v: Value): (t: string)
    ensures v.Str? ==> t == v.text
    ensures v.Null? ==> t == "None"
    ensures v.Num? ==> t == rd.number(v.number)
  {
    match v
    case Num(x) => rd.number(x)
    case Str(s) => s
    case Null => "None"
  }

  const NoteOpen: string := "Original: "
  const NoteMiddle: string := ". Standardized: "

  /**
   * `f"Original: {amount} {unit}. Standardized: {converted} {to_unit}."`:
   * the note opens with the original amount and unit and ends with the
   * converted amount, the target unit and a full stop, with nothing else
   * in between.
   */
  function NoteLine(rd: Renderer, o: Outcome): (line: string)
    ensures NoteOpen + rd.number(o.originalAmount) + " " + o.originalUnit + NoteMiddle <= line
    ensures var tail := rd.number(o.converted) + " " + ValueText(rd, o.targetUnit) + ".";
      |tail| <= |line| && line[|line| - |tail|..] == tail
    ensures |line| == |NoteOpen + rd.number(o.originalAmount) + " " + o.originalUnit + NoteMiddle|
                      + |rd.number(o.converted) + " " + ValueText(rd, o.targetUnit) + "."|
  {
    var head := NoteOpen + rd.number(o.originalAmount);
    var tail := rd.number(o.converted) + " " + ValueText(rd, o.targetUnit) + ".";
    var middle := " " + o.originalUnit + NoteMiddle;
    assert head + middle + tail == NoteOpen + rd.number(o.originalAmount) + " " + o.originalUnit
      + NoteMiddle + rd.number(o.converted) + " " + ValueText(rd, o.targetUnit) + ".";
    head + middle + tail
  }

  function NoteLines(rd: Renderer, os: seq<Outcome>): seq<string> {
    seq(|os|, i requires 0 <= i < |os| => NoteLine(rd, os[i]))
  }

  /**
   * `sep.join(lines)`: empty for no lines; otherwise it opens with the
   * first line, and a separator follows the first line whenever there is
   * more than one.
   */
  function Join(lines: seq<string>, sep: string): (r: string)
    ensures lines == [] ==> r == []
    ensures lines != [] ==> lines[0] <= r
    ensures |lines| > 1 ==> lines[0] + sep <= r
  {
    if lines == [] then ""
    else if |lines| == 1 then lines[0]
    else lines[0] + sep + Join(lines[1..], sep)
  }

  /** Appending a line to a non-empty list appends one separator and that line to the joined text. */
  lemma {:induction false} JoinAppend(lines: seq<string>, line: string, sep: string)
    requires lines != []
    ensures Join(lines + [line], sep) == Join(lines, sep) + sep + line
  {
    var longer := lines + [line];
    assert longer[0] == lines[0] && longer[1..] == lines[1..] + [line];
    if |lines| == 1 {
      assert longer[1..] == [line];
      assert Join(longer, sep) == lines[0] + sep + Join([line], sep);
    } else {
      JoinAppend(lines[1..], line, sep);
      calc {
        Join(longer, sep);
        lines[0] + sep + Join(lines[1..] + [line], sep);
        lines[0] + sep + (Join(lines[1..], sep) + sep + line);
        (lines[0] + sep + Join(lines[1..], sep)) + sep + line;
      }
    }
  }

  /** The joined text ends with the last line. */
  lemma {:induction false} JoinEndsWithLast(lines: seq<string>, sep: string)
    requires lines != []
    ensures var r := Join(lines, sep); var last := lines[|lines| - 1];
      |last| <= |r| && r[|r| - |last|..] == last
  {
    var last := lines[|lines| - 1];
    if |lines| > 1 {
      var init := lines[..|lines| - 1];
      assert lines == init + [last];
      JoinAppend(init, last, sep);
    }
  }

  /** The joined text is as long as its lines plus one separator between each pair. */
  lemma {:induction false} JoinLength(lines: seq<string>, sep: string)
    ensures |Join(lines, sep)| == TotalLength(lines) + (if lines == [] then 0 else (|lines| - 1) * |sep|)
  {
    if |lines| > 1 {
      JoinLength(lines[1..], sep);
    }
  }

  function TotalLength(lines: seq<string>): nat {
    if lines == [] then 0 else |lines[0]| + TotalLength(lines[1..])
  }

  /**
   * The conversion notes block (`conversion_results_str`): empty without
   * outcomes, exactly the single note for one outcome, and opening with the
   * first outcome's note otherwise.
   */
  function ConversionNotes(rd: Renderer, os: seq<Outcome>): (notes: string)
    ensures os == [] ==> notes == []
    ensures |os| == 1 ==> notes == NoteLine(rd, os[0])
    ensures os != [] ==> NoteLine(rd, os[0]) <= notes
  {
    Join(NoteLines(rd, os), "\n")
  }

  /** Every outcome contributes its note: one more outcome adds a newline and its note to the block. */
  lemma ConversionNotesAppend(rd: Renderer, os: seq<Outcome>, o: Outcome)
    requires os != []
    ensures ConversionNotes(rd, os + [o]) == ConversionNotes(rd, os) + "\n" + NoteLine(rd, o)
  {
    assert NoteLines(rd, os + [o]) == NoteLines(rd, os) + [NoteLine(rd, o)];
    JoinAppend(NoteLines(rd, os), NoteLine(rd, o), "\n");
  }
}
