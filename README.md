# OutputBuffer of org-ruby, in Dafny

This project models `Orgmode::OutputBuffer`, the stage of the org-mode to
Textile converter that collects already-classified org-mode lines into
blocks and writes each finished block to an output sink. For every line the
driver calls `prepare(line)`, which decides whether the line continues the
block being accumulated or whether the block must be flushed first, and then
`<<` with the line's text; a final `flush!` writes the last block.

- `line.dfy` (module `OrgLine`): the paragraph kinds and the classified line
  (kind and indent). `Start` is the initial output type only; `Line#plain_list?`
  is taken to hold exactly for ordered and unordered list items.
- `indent_stack.dfy` (module `ListIndentStack`): the stack of open list
  levels as a value, what `maintain_list_indent_stack` does to it, and its
  properties (strictly increasing, top is the last list item's indent, exact
  contents).
- `buffer_model.dfy` (module `BufferModel`): the buffer's whole state as a
  value (`Snapshot`) and what `prepare`, `<<` and `flush!` do to it, with the
  invariant "the indent stack is strictly increasing, and non-empty exactly
  while the output type is a list item".
- `output_buffer.dfy` (module `Orgmode`): the class `OutputBuffer` with the
  source's fields, updated in place. Each public method (the constructor,
  `Prepare`, `Append`, `Flush`, `SetParagraphModifier`) is proved to follow
  the value model and to keep the invariant. The private
  `MaintainListIndentStack`, whose popping loop is a `while` loop, runs while
  `Prepare` has already changed the output type, so it is proved only to
  leave the stack `MaintainedStack` specifies.
- `buffer_runs.dfy` (module `BufferRuns`): what several calls in a row do —
  blank runs, paragraph runs, a paragraph after a list item, and a worked
  example.

The inline formatting pass `String#textile_substitution` is an arbitrary
function `string -> string` given to the constructor (field `textile`). The
sink is the string field `output`; the constructor's `sink` argument is what
it already holds, and the buffer only appends to it.

`should_accumulate_output?` compares the line's indent with the top of the
list indent stack when a paragraph follows a list item
(lib/orgmode_parser/output_buffer.rb:94); on an empty stack Ruby raises,
because the top is `nil`. The model makes this a precondition (`CanDecide`),
which the class invariant discharges: `output_type` becomes a list kind only
through `prepare` on a list item, which leaves a non-empty stack.

A blank line between two paragraphs writes no pair of newlines: the
paragraph after it is accumulated without a flush (:84-96 return true when
the output type is `:blank`). `Hello`, `world`, a blank line, `New` give
`"Helloworld\nNew\n"` with the identity formatting pass
(`BufferRuns.BlankBetweenParagraphsIsAbsorbed` states this for any texts,
indents and formatting pass).

## Model

`BufferModel.Prepared`, `Flushed`, `Emitted` and `Appended` are the value
forms of `prepare`, `flush!` (the state, and the text written) and `<<`;
`ListIndentStack.PopDeeper` and `MaintainedStack` are the value forms of the
popping loop and of `maintain_list_indent_stack`;
`Orgmode.OutputBuffer.ShouldAccumulateOutput` is `BufferModel.Accumulates`
applied to the object's fields. Their properties are stated by the members
below.

| member | source | states |
|---|---|---|
| `Orgmode.OutputBuffer.constructor` | lib/orgmode_parser/output_buffer.rb:21-26 | a new buffer is empty, has output type `start`, no modifier, no open list level, and the sink holds what it held; the invariant holds |
| `Orgmode.OutputBuffer.Prepare` | lib/orgmode_parser/output_buffer.rb:30-36 | flushes exactly when the line is not accumulated, the flush writing the block of the previous output type; then the output type is the line's kind and the stack is updated; keeps the invariant |
| `Orgmode.OutputBuffer.Append` | lib/orgmode_parser/output_buffer.rb:39-41 | the text is appended verbatim to the buffer and nothing else changes |
| `Orgmode.OutputBuffer.Flush` | lib/orgmode_parser/output_buffer.rb:44-52 | the sink gets exactly the block's text (see `FlushWrites`) and the buffer is empty afterwards; nothing else changes |
| `Orgmode.OutputBuffer.SetParagraphModifier` | lib/orgmode_parser/output_buffer.rb:17 | the modifier is replaced and nothing else changes |
| `Orgmode.OutputBuffer.ListIndentLevel` | lib/orgmode_parser/output_buffer.rb:55-57 | the number of open list levels is zero exactly when the last line prepared for was not a list item |
| `Orgmode.OutputBuffer.MaintainListIndentStack` | lib/orgmode_parser/output_buffer.rb:62-75 | the popping loop and the push leave the stack `MaintainedStack` specifies |
| `ListIndentStack.PopDeeperSpec` | lib/orgmode_parser/output_buffer.rb:64-67 | popping keeps a bottom part of the stack whose top is not deeper than the indent, and removes only deeper levels |
| `ListIndentStack.MaintainedStackSpec` | lib/orgmode_parser/output_buffer.rb:62-75 | the stack stays strictly increasing; after a list item it is non-empty, its top is the item's indent and it holds exactly the old levels shallower than the item plus the item's; after any other line it is empty |
| `ListIndentStack.ReturnToOpenLevel` | lib/orgmode_parser/output_buffer.rb:64-71 | an item at the depth of an open level closes just the levels above it; a sibling at the top's depth leaves the stack unchanged |
| `BufferModel.Accumulates` | lib/orgmode_parser/output_buffer.rb:81-97 | a blank line merges iff a blank run is pending; other non-paragraph lines never merge; a paragraph after a list item merges iff it is indented deeper than the top level; any other paragraph merges |
| `BufferModel.PrepareKeepsInv` | lib/orgmode_parser/output_buffer.rb:30-36 | under the invariant the merge decision cannot raise; the invariant is kept; the output type becomes the line's kind; the stack's top is a list item's indent, and the stack is empty after any other line |
| `BufferModel.PrepareFlushDecision` | lib/orgmode_parser/output_buffer.rb:30-35 | an accumulated line leaves the buffer and the sink alone; otherwise the block of the previous output type is written and the buffer emptied; the modifier is never touched |
| `BufferModel.FlushWrites` | lib/orgmode_parser/output_buffer.rb:44-52 | a pending blank run writes exactly two newlines whatever the buffer holds; a non-empty buffer writes the modifier (if set), the formatted buffer and one newline; an empty one writes nothing; the buffer is emptied and the modifier kept |
| `BufferModel.FlushTwice` | lib/orgmode_parser/output_buffer.rb:44-52 | a second flush with nothing appended writes nothing unless a blank run is pending, when it writes two newlines again |
| `BufferRuns.RunOutputGrows` | lib/orgmode_parser/output_buffer.rb:44-52 | over any sequence of lines the sink only grows at its end |
| `BufferRuns.BlankRunMerges` | lib/orgmode_parser/output_buffer.rb:84 | blank lines after a blank line write nothing and leave the output type blank with no open list level |
| `BufferRuns.BlankRunEmitsOneSeparator` | lib/orgmode_parser/output_buffer.rb:45-46 | a run of any number of blank lines closed by a flush writes the pending block and then exactly one pair of newlines |
| `BufferRuns.ParagraphRunMerges` | lib/orgmode_parser/output_buffer.rb:86-96 | paragraphs after anything but a list item are merged into the buffer with no flush, a blank run included |
| `BufferRuns.ModifierOncePerBlock` | lib/orgmode_parser/output_buffer.rb:47-49 | a merged paragraph block is written as the modifier once, the whole text formatted once, and one newline |
| `BufferRuns.ParagraphAfterListItem` | lib/orgmode_parser/output_buffer.rb:88-95 | a paragraph right after a list item continues it exactly when indented deeper than the item |
| `BufferRuns.SiblingItemsShareALevel` | lib/orgmode_parser/output_buffer.rb:68-71 | two ordered items at the same indent `n`, given to a fresh buffer, leave the stack `[n]`, not `[n, n]` |
| `BufferRuns.BlankThenParagraph` | lib/orgmode_parser/output_buffer.rb:84-96 | after anything but a blank run, a blank line flushes the pending block and the paragraph after it is accumulated with no flush: the state is exactly the blank's and the paragraph's texts in the buffer, type paragraph, no open level, and only the old block written |
| `BufferRuns.BlankBetweenParagraphsIsAbsorbed` | lib/orgmode_parser/output_buffer.rb:30-34 | paragraphs `x`, `y`, a blank line `t` and a paragraph `z` (with `x + y` and `t + z` non-empty), then the final flush, write exactly `textile(x + y) + "\n" + textile(t + z) + "\n"`: two blocks, and no pair of newlines for the blank line |

## Left out

- The `output_type=` writer (`attr_accessor`, :13): setting the output type from outside could break the invariant that makes :94 safe, so the output type changes only through `Prepare`.
- The `buffer` reader (:10) hands out the buffer string itself, which Ruby callers could mutate in place; the model's `buffer` is a value, so that aliasing is not captured.
- `String#textile_substitution` is not part of this model: it is an arbitrary function supplied to the constructor, and Textile markup is not modelled.
- The sink is a string that is appended to; the output object's own behaviour (an IO stream, say) is not modelled.
- The line classifier (`Line#paragraph_type`, `#plain_list?`, `#indent`) is not part of this model; lines arrive with kind and indent.
- The driver loop that calls `prepare`, `<<` and the final `flush!` is not part of this model; `BufferRuns.Run` states what such a loop obtains.
