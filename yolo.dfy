/** What the dataset tools share about YOLO label files. */
module Yolo {
  import opened PyText

  /** One `.txt` label file: its directory entry name and its lines as `readlines()` gives them. */
  datatype LabelFile = LabelFile(name: string, lines: seq<string>)

  /** The tokens of a label line.  The tools write `line.strip().split()`; splitting alone gives the same
      tokens (`TokensAreStripSplit`), so that is the definition. */
  function Tokens(line: string): seq<string> {
    Split(line)
  }

  lemma TokensAreStripSplit(line: string)
    ensures Tokens(line) == Split(Strip(line))
  {
    SplitOfStrip(line);
  }
}
