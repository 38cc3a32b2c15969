/** OutputBuffer's state as a value, and what `prepare`, `<<` and `flush!`
    do to it. The class in module Orgmode is proved to follow these. */
module BufferModel {
  import opened OrgLine
  import opened ListIndentStack

  datatype Option<T> = None | Some(value: T)

  /** buffer, output_type, paragraph_modifier, the list indent stack, and
      everything written to the output sink so far. */
  datatype Snapshot = Snapshot(
    buffer: string,
    outputType: Kind,
    paragraphModifier: Option<string>,
    listIndentStack: seq<nat>,
    output: string)

  /** A fresh buffer bound to a sink that already holds `sink`. */
  function Initial(sink: string): Snapshot {
    Snapshot("", Start, None, [], sink)
  }

  /** The invariant `prepare` keeps: the indent stack is strictly increasing,
      and it is non-empty exactly while a list item is being accumulated. */
  ghost predicate Inv(s: Snapshot) {
    StrictlyIncreasing(s.listIndentStack) &&
    (IsListKind(s.outputType) <==> s.listIndentStack != [])
  }

  /** `should_accumulate_output?` compares the line's indent with the top of
      the stack when a paragraph follows a list item; on an empty stack that
      comparison raises. This is the condition under which it does not. */
  predicate CanDecide(outputType: Kind, stack: seq<nat>, line: Line) {
    line.kind == Paragraph && IsListKind(outputType) ==> stack != []
  }

  /** `should_accumulate_output?`: does `line` continue the block being
      accumulated under `outputType`? A blank line continues a blank run
      only; no other non-paragraph line continues anything; a paragraph
      continues a list item only when indented deeper than the top open
      level, and continues anything else. */
  function Accumulates(outputType: Kind, stack: seq<nat>, line: Line): (r: bool)
    requires CanDecide(outputType, stack, line)
    ensures line.kind == Blank ==> (r <==> outputType == Blank)
    ensures line.kind != Blank && line.kind != Paragraph ==> !r
    ensures line.kind == Paragraph && IsListKind(outputType) ==> (r <==> line.indent > Last(stack))
    ensures line.kind == Paragraph && !IsListKind(outputType) ==> r
  {
    if line.kind == Blank && outputType == Blank then true
    else if line.kind != Paragraph then false
    else if IsListKind(outputType) then line.indent > Last(stack)
    else true
  }

  function ModifierText(m: Option<string>): string {
    match m
    case Some(t) => t
    case None => ""
  }

  /** The text `flush!` writes to the sink. */
  function Emitted(s: Snapshot, textile: string -> string): string {
    if s.outputType == Blank then "\n\n"
    else if |s.buffer| > 0 then ModifierText(s.paragraphModifier) + textile(s.buffer) + "\n"
    else ""
  }

  /** `flush!` */
  function Flushed(s: Snapshot, textile: string -> string): Snapshot {
    s.(output := s.output + Emitted(s, textile), buffer := "")
  }

  /** `<<` */
  function Appended(s: Snapshot, str: string): Snapshot {
    s.(buffer := s.buffer + str)
  }

  /** `prepare`: flush unless the line is accumulated (the flush sees the
      previous output type), then record the line's kind and update the
      indent stack. */
  function Prepared(s: Snapshot, line: Line, textile: string -> string): Snapshot
    requires CanDecide(s.outputType, s.listIndentStack, line)
  {
    var t := if Accumulates(s.outputType, s.listIndentStack, line) then s else Flushed(s, textile);
    t.(outputType := line.kind, listIndentStack := MaintainedStack(t.listIndentStack, line))
  }

  /** The invariant makes `prepare` safe to call and is kept by it; afterwards
      the output type is the line's kind, the stack's top is the indent of a
      list item just seen, and the stack is empty after any other line. */
  lemma PrepareKeepsInv(s: Snapshot, line: Line, textile: string -> string)
    requires Inv(s)
    ensures CanDecide(s.outputType, s.listIndentStack, line)
    ensures Inv(Prepared(s, line, textile))
    ensures Prepared(s, line, textile).outputType == line.kind
    ensures PlainList(line) ==> Last(Prepared(s, line, textile).listIndentStack) == line.indent
    ensures !PlainList(line) ==> |Prepared(s, line, textile).listIndentStack| == 0
  {
    MaintainedStackSpec(s.listIndentStack, line);
  }

  /** `prepare` writes to the sink only by flushing, and flushes exactly when
      the line is not accumulated: then the block accumulated under the
      previous output type is emitted and the buffer emptied; otherwise the
      buffer and the sink are left alone. The modifier is never touched. */
  lemma PrepareFlushDecision(s: Snapshot, line: Line, textile: string -> string)
    requires CanDecide(s.outputType, s.listIndentStack, line)
    ensures var r := Prepared(s, line, textile);
      if Accumulates(s.outputType, s.listIndentStack, line) then
        r.output == s.output && r.buffer == s.buffer
      else
        r.output == s.output + Emitted(s, textile) && r.buffer == ""
    ensures Prepared(s, line, textile).paragraphModifier == s.paragraphModifier
  {
  }

  /** What `flush!` writes: two newlines for a blank run whatever the buffer
      holds; otherwise, for a non-empty buffer, the modifier once, the
      formatted buffer and one newline; nothing for an empty buffer. */
  lemma FlushWrites(s: Snapshot, textile: string -> string)
    ensures s.outputType == Blank ==> Flushed(s, textile).output == s.output + "\n\n"
    ensures s.outputType != Blank && s.buffer != [] ==>
      Flushed(s, textile).output == s.output + ModifierText(s.paragraphModifier) + textile(s.buffer) + "\n"
    ensures s.outputType != Blank && s.buffer == [] ==> Flushed(s, textile).output == s.output
    ensures Flushed(s, textile).buffer == ""
    ensures Flushed(s, textile).paragraphModifier == s.paragraphModifier
  {
  }

  /** A second flush with nothing appended in between writes nothing, unless
      a blank run is pending: then it writes the two newlines again. */
  lemma FlushTwice(s: Snapshot, textile: string -> string)
    ensures s.outputType != Blank ==>
      Flushed(Flushed(s, textile), textile) == Flushed(s, textile)
    ensures s.outputType == Blank ==>
      Flushed(Flushed(s, textile), textile).output == Flushed(s, textile).output + "\n\n"
  {
  }
}
