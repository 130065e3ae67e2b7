/** The editor values the core reads: a document is its lines, an anchor is a
    cursor line or a selection, and the context to extract is given by the
    endpoints of two line ranges. */
module Editor {

  /** The endpoints of `new vscode.Range(startLine, 0, endLine, 0)`. When
      `startLine <= endLine` it runs from the start of `startLine` up to the
      start of `endLine`, so `endLine` itself is not in it. An inverted pair
      is kept as given; the editor would swap it. */
  datatype LineRange = LineRange(startLine: int, endLine: int)

  /** The ranges of code above and below the anchor that a command extracts. */
  datatype Around = Around(above: LineRange, below: LineRange)

  /** The lines a selection starts and ends on, and whether it is empty. */
  datatype Selection = Selection(startLine: nat, endLine: nat, isEmpty: bool)

  /** A selection the editor can hold in `doc`. */
  predicate ValidSelection(doc: seq<string>, sel: Selection) {
    sel.startLine <= sel.endLine < |doc| && (sel.isEmpty ==> sel.startLine == sel.endLine)
  }

  /** The `{ expert, language }` pair chosen for a document language id. */
  datatype ExpertAndLanguage = ExpertAndLanguage(expert: string, language: string)
}
