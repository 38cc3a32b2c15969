/** Orgmode::OutputBuffer: accumulates the text of classified org-mode lines
    and writes finished blocks to an output sink. */
module Orgmode {
  import opened OrgLine
  import opened ListIndentStack
  import opened BufferModel

  class OutputBuffer {
    /** The text accumulated for the current block. */
    var buffer: string
    /** The kind of the last line prepared for (`Start` before any). */
    var outputType: Kind
    /** Written before each non-blank block that is flushed. */
    var paragraphModifier: Option<string>
    /** Open list indentation levels, deepest on top. */
    var listIndentStack: seq<nat>
    /** Everything the sink holds; the buffer only ever appends to it. */
    var output: string
    /** The inline formatting pass (`String#textile_substitution`). */
    const textile: string -> string

    function Snap(): Snapshot
      reads this
    {
      Snapshot(buffer, outputType, paragraphModifier, listIndentStack, output)
    }

    ghost predicate Valid()
      reads this
    {
      Inv(Snap())
    }

    /** `initialize(output)`: the sink already holds `sink`. */
    constructor (sink: string, textile: string -> string)
      ensures Valid()
      ensures Snap() == Initial(sink) && this.textile == textile
    {
      buffer := "";
      outputType := Start;
      paragraphModifier := None;
      listIndentStack := [];
      output := sink;
      this.textile := textile;
    }

    /** `prepare(line)` */
    method Prepare(line: Line)
      requires Valid()
      modifies this
      ensures Valid()
      ensures Snap() == Prepared(old(Snap()), line, textile)
      ensures outputType == line.kind
      ensures output == old(output) +
        (if old(ShouldAccumulateOutput(line)) then "" else Emitted(old(Snap()), textile))
    {
      PrepareKeepsInv(Snap(), line, textile);
      if !ShouldAccumulateOutput(line) {
        Flush();
      }
      outputType := line.kind;
      MaintainListIndentStack(line);
    }

    /** `<<(str)` */
    method Append(str: string)
      requires Valid()
      modifies this`buffer
      ensures Valid()
      ensures buffer == old(buffer) + str
      ensures Snap() == Appended(old(Snap()), str)
    {
      buffer := buffer + str;
    }

    /** `flush!` */
    method Flush()
      requires Valid()
      modifies this`buffer, this`output
      ensures Valid()
      ensures buffer == ""
      ensures Snap() == Flushed(old(Snap()), textile)
    {
      if outputType == Blank {
        output := output + "\n\n";
      } else if |buffer| > 0 {
        if paragraphModifier.Some? {
          output := output + paragraphModifier.value;
        }
        output := output + textile(buffer) + "\n";
      }
      buffer := "";
    }

    /** The `paragraph_modifier=` writer. */
    method SetParagraphModifier(m: Option<string>)
      requires Valid()
      modifies this`paragraphModifier
      ensures Valid()
      ensures paragraphModifier == m
      ensures Snap() == old(Snap()).(paragraphModifier := m)
    {
      paragraphModifier := m;
    }

    /** `list_indent_level`: the number of open list levels, which is zero
        exactly when the last line prepared for was not a list item. */
    function ListIndentLevel(): (n: nat)
      reads this
      ensures Valid() ==> (n == 0 <==> !IsListKind(outputType))
    {
      |listIndentStack|
    }

    /** `maintain_list_indent_stack(line)` */
    method MaintainListIndentStack(line: Line)
      modifies this`listIndentStack
      ensures listIndentStack == MaintainedStack(old(listIndentStack), line)
    {
      if PlainList(line) {
        while listIndentStack != [] && Last(listIndentStack) > line.indent
          invariant PopDeeper(listIndentStack, line.indent) == PopDeeper(old(listIndentStack), line.indent)
          decreases |listIndentStack|
        {
          listIndentStack := listIndentStack[..|listIndentStack| - 1];
        }
        if listIndentStack == [] || Last(listIndentStack) < line.indent {
          listIndentStack := listIndentStack + [line.indent];
        }
      } else {
        listIndentStack := [];
      }
    }

    /** `should_accumulate_output?(line)` on the current state. */
    predicate ShouldAccumulateOutput(line: Line)
      reads this
      requires CanDecide(outputType, listIndentStack, line)
    {
      Accumulates(outputType, listIndentStack, line)
    }
  }
}
