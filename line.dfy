/** The classified org-mode line that OutputBuffer consumes: only its
    paragraph kind and its indentation matter to the buffer. */
module OrgLine {

  /** The paragraph kinds OutputBuffer distinguishes. `Start` is the
      sentinel a fresh buffer's output type holds; no line carries it.
      `Other` stands for every kind the buffer does not special-case
      (headings, tables, ...). */
  datatype Kind = Start | Blank | Paragraph | OrderedList | UnorderedList | Other

  /** The kinds a line can have. */
  type LineKind = k: Kind | k != Start witness Blank

  datatype Line = Line(kind: LineKind, indent: nat)

  predicate IsListKind(k: Kind) {
    k == OrderedList || k == UnorderedList
  }

  /** `Line#plain_list?`: true exactly for ordered and unordered list items
      (the classifier itself is not part of this model). */
  predicate PlainList(line: Line) {
    IsListKind(line.kind)
  }
}
