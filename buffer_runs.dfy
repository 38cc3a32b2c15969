/** Properties of OutputBuffer over several lines: what a caller that, for
    each line, calls `prepare(line)` and then `<<` with the line's text
    obtains. */
module BufferRuns {
  import opened OrgLine
  import opened ListIndentStack
  import opened BufferModel

  datatype Step = Step(line: Line, text: string)

  /** The state after `prepare(line)` and `<< text` for every step in turn. */
  function Run(s: Snapshot, steps: seq<Step>, textile: string -> string): (r: Snapshot)
    requires Inv(s)
    ensures Inv(r)
    decreases |steps|
  {
    if steps == [] then s
    else
      PrepareKeepsInv(s, steps[0].line, textile);
      Run(Appended(Prepared(s, steps[0].line, textile), steps[0].text), steps[1..], textile)
  }

  /** The concatenated texts of the steps. */
  function Texts(steps: seq<Step>): string {
    if steps == [] then "" else steps[0].text + Texts(steps[1..])
  }

  predicate AllOfKind(steps: seq<Step>, k: Kind) {
    forall i :: 0 <= i < |steps| ==> steps[i].line.kind == k
  }

  /** Running two sequences of lines one after the other is running their
      concatenation. */
  lemma {:induction false} RunConcat(s: Snapshot, xs: seq<Step>, ys: seq<Step>, textile: string -> string)
    requires Inv(s)
    ensures Run(s, xs + ys, textile) == Run(Run(s, xs, textile), ys, textile)
    decreases |xs|
  {
    if xs != [] {
      PrepareKeepsInv(s, xs[0].line, textile);
      assert (xs + ys)[1..] == xs[1..] + ys;
      RunConcat(Appended(Prepared(s, xs[0].line, textile), xs[0].text), xs[1..], ys, textile);
    } else {
      assert xs + ys == ys;
    }
  }

  /** A run of one step is that step's `prepare` followed by its `<<`. */
  lemma RunOne(s: Snapshot, x: Step, textile: string -> string)
    requires Inv(s)
    ensures CanDecide(s.outputType, s.listIndentStack, x.line)
    ensures Run(s, [x], textile) == Appended(Prepared(s, x.line, textile), x.text)
  {
    PrepareKeepsInv(s, x.line, textile);
    assert [x][1..] == [];
  }

  /** The sink only grows: whatever it held stays at its front. */
  lemma {:induction false} RunOutputGrows(s: Snapshot, steps: seq<Step>, textile: string -> string)
    requires Inv(s)
    ensures |s.output| <= |Run(s, steps, textile).output|
    ensures Run(s, steps, textile).output[..|s.output|] == s.output
    decreases |steps|
  {
    if steps != [] {
      PrepareKeepsInv(s, steps[0].line, textile);
      var t := Appended(Prepared(s, steps[0].line, textile), steps[0].text);
      PrepareFlushDecision(s, steps[0].line, textile);
      RunOutputGrows(t, steps[1..], textile);
      assert t.output[..|s.output|] == s.output;
    }
  }

  /** Further blank lines after a blank line are absorbed: nothing is
      written, the output type stays blank and no list level is open. */
  lemma {:induction false} BlankRunMerges(s: Snapshot, steps: seq<Step>, textile: string -> string)
    requires Inv(s) && s.outputType == Blank
    requires AllOfKind(steps, Blank)
    ensures Run(s, steps, textile).output == s.output
    ensures Run(s, steps, textile).outputType == Blank
    ensures Run(s, steps, textile).listIndentStack == []
    decreases |steps|
  {
    if steps != [] {
      PrepareKeepsInv(s, steps[0].line, textile);
      var t := Appended(Prepared(s, steps[0].line, textile), steps[0].text);
      assert AllOfKind(steps[1..], Blank);
      BlankRunMerges(t, steps[1..], textile);
    }
  }

  /** A run of blank lines closed by the final flush writes the block pending
      before it (if any) and then exactly one pair of newlines, however many
      blank lines the run has and whatever text they carry. */
  lemma BlankRunEmitsOneSeparator(s: Snapshot, steps: seq<Step>, textile: string -> string)
    requires Inv(s)
    requires steps != [] && AllOfKind(steps, Blank)
    ensures Flushed(Run(s, steps, textile), textile).output ==
      s.output + (if s.outputType == Blank then "" else Emitted(s, textile)) + "\n\n"
  {
    PrepareKeepsInv(s, steps[0].line, textile);
    var t := Appended(Prepared(s, steps[0].line, textile), steps[0].text);
    assert t.output == s.output + (if s.outputType == Blank then "" else Emitted(s, textile));
    assert AllOfKind(steps[1..], Blank);
    BlankRunMerges(t, steps[1..], textile);
  }

  /** Paragraph lines that follow anything but a list item are merged into
      the buffer without any flush, whatever preceded them (a blank run
      included), and leave no list level open. */
  lemma {:induction false} ParagraphRunMerges(s: Snapshot, steps: seq<Step>, textile: string -> string)
    requires Inv(s) && !IsListKind(s.outputType)
    requires AllOfKind(steps, Paragraph)
    ensures Run(s, steps, textile) ==
      s.(buffer := s.buffer + Texts(steps),
         outputType := if steps == [] then s.outputType else Paragraph)
    decreases |steps|
  {
    if steps != [] {
      PrepareKeepsInv(s, steps[0].line, textile);
      var t := Appended(Prepared(s, steps[0].line, textile), steps[0].text);
      assert t == s.(buffer := s.buffer + steps[0].text, outputType := Paragraph);
      assert AllOfKind(steps[1..], Paragraph);
      ParagraphRunMerges(t, steps[1..], textile);
      assert s.buffer + steps[0].text + Texts(steps[1..]) == s.buffer + Texts(steps);
    }
  }

  /** A paragraph block started after anything but a list item and closed by
      the final flush is written once: the modifier once, the merged text
      formatted once, one newline. A blank run just before it writes nothing
      of its own. */
  lemma ModifierOncePerBlock(s: Snapshot, steps: seq<Step>, textile: string -> string, m: string)
    requires Inv(s) && !IsListKind(s.outputType)
    requires s.buffer == "" && s.paragraphModifier == Some(m)
    requires AllOfKind(steps, Paragraph) && Texts(steps) != ""
    ensures Flushed(Run(s, steps, textile), textile).output ==
      s.output + m + textile(Texts(steps)) + "\n"
  {
    ParagraphRunMerges(s, steps, textile);
    var r := Run(s, steps, textile);
    assert r.buffer == Texts(steps) && r.outputType == Paragraph;
    assert Emitted(r, textile) == m + textile(Texts(steps)) + "\n";
  }

  /** A paragraph right after a list item (and its text) continues that item
      exactly when it is indented deeper than the item. */
  lemma ParagraphAfterListItem(s: Snapshot, item: Step, para: Line, textile: string -> string)
    requires Inv(s)
    requires PlainList(item.line) && para.kind == Paragraph
    ensures var t := Run(s, [item], textile);
      CanDecide(t.outputType, t.listIndentStack, para) &&
      (Accumulates(t.outputType, t.listIndentStack, para) <==> para.indent > item.line.indent)
  {
    PrepareKeepsInv(s, item.line, textile);
    assert Run(s, [item], textile) == Appended(Prepared(s, item.line, textile), item.text);
  }

  /** Two ordered items at the same indent, given to a fresh buffer, leave a
      single open level. */
  lemma SiblingItemsShareALevel(sink: string, n: nat, x: string, y: string, textile: string -> string)
    ensures Run(Initial(sink), [Step(Line(OrderedList, n), x), Step(Line(OrderedList, n), y)], textile)
      .listIndentStack == [n]
  {
    var s0 := Initial(sink);
    var a := Step(Line(OrderedList, n), x);
    var b := Step(Line(OrderedList, n), y);
    RunOne(s0, a, textile);
    var s1 := Run(s0, [a], textile);
    assert s1.listIndentStack == [n];
    RunOne(s1, b, textile);
    ReturnToOpenLevel(s1.listIndentStack, b.line, 0);
    RunConcat(s0, [a], [b], textile);
    assert [a] + [b] == [a, b];
  }

  /** A blank line followed by a paragraph line, after anything but a blank
      run: the blank line flushes the pending block, and the paragraph is
      accumulated after the blank line's text without a flush, so the blank
      line's pair of newlines is never written by them. */
  lemma BlankThenParagraph(s: Snapshot, c: Step, d: Step, textile: string -> string)
    requires Inv(s) && s.outputType != Blank
    requires c.line.kind == Blank && d.line.kind == Paragraph
    ensures Run(s, [c, d], textile) ==
      Snapshot(c.text + d.text, Paragraph, s.paragraphModifier, [], s.output + Emitted(s, textile))
  {
    var s3 := Snapshot(c.text, Blank, s.paragraphModifier, [], s.output + Emitted(s, textile));
    assert Run(s, [c], textile) == s3 by {
      RunOne(s, c, textile);
    }
    assert Run(s3, [d], textile) == s3.(buffer := c.text + d.text, outputType := Paragraph) by {
      RunOne(s3, d, textile);
    }
    RunConcat(s, [c], [d], textile);
    assert [c] + [d] == [c, d];
  }

  /** Two paragraph lines, a blank line and a paragraph line given to a fresh
      buffer, then the final flush: two blocks are written and the blank
      line's pair of newlines is not, because the paragraph after the blank
      line is accumulated without a flush. (With the identity formatting
      pass, `Hello`, `world`, a blank line with no text and `New` give
      `"Helloworld\nNew\n"`.) */
  lemma BlankBetweenParagraphsIsAbsorbed(
    sink: string, x: string, y: string, t: string, z: string,
    i: nat, j: nat, k: nat, l: nat, textile: string -> string)
    requires x + y != "" && t + z != ""
    ensures Flushed(Run(Initial(sink), [Step(Line(Paragraph, i), x), Step(Line(Paragraph, j), y),
                                       Step(Line(Blank, k), t), Step(Line(Paragraph, l), z)], textile), textile)
      .output == sink + textile(x + y) + "\n" + textile(t + z) + "\n"
  {
    var a := Step(Line(Paragraph, i), x);
    var b := Step(Line(Paragraph, j), y);
    var c := Step(Line(Blank, k), t);
    var d := Step(Line(Paragraph, l), z);
    var s0 := Initial(sink);
    var s2 := Snapshot(x + y, Paragraph, None, [], sink);
    assert Run(s0, [a, b], textile) == s2 by {
      ParagraphRunMerges(s0, [a, b], textile);
      assert [a, b][1..] == [b] && [b][1..] == [];
      assert Texts([b]) == y + Texts([]);
      assert Texts([a, b]) == x + Texts([b]);
    }
    var s4 := Run(s0, [a, b, c, d], textile);
    assert s4 == Snapshot(t + z, Paragraph, None, [], sink + textile(x + y) + "\n") by {
      BlankThenParagraph(s2, c, d, textile);
      RunConcat(s0, [a, b], [c, d], textile);
      assert [a, b] + [c, d] == [a, b, c, d];
    }
    var head, tail := sink + textile(x + y) + "\n", textile(t + z) + "\n";
    assert Emitted(s4, textile) == tail by {
      assert ModifierText(None) + textile(t + z) == textile(t + z);
    }
    assert head + tail == sink + textile(x + y) + "\n" + textile(t + z) + "\n";
  }
}
