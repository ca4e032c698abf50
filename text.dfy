/** Text as the source writes it: multi-line string literals. */
module Text {

  /** The lines joined with a line feed between each two, as a multi-line string literal holds them. */
  function Unlines(lines: seq<string>): string {
    if |lines| == 0 then ""
    else if |lines| == 1 then lines[0]
    else lines[0] + "\n" + Unlines(lines[1..])
  }
}
