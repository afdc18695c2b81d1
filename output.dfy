/** The renderer's output: a growing list of lines. */
module Output {

  /**
   * The line buffer every renderer appends to with `emitLine`. Indentation and
   * blank-line bookkeeping are not part of this model: a line is its text.
   */
  class LineBuffer {
    var lines: seq<string>

    constructor ()
      ensures lines == []
    {
      lines := [];
    }

    method EmitLine(line: string)
      modifies this
      ensures lines == old(lines) + [line]
    {
      lines := lines + [line];
    }
  }
}
