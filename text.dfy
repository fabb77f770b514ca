/** Reading a newline-terminated text back as its lines. */
module Text {

  /** The length of the first line of `s`: the index of its first newline, or `|s|` when it has none. */
  function LineEnd(s: string): (i: nat)
    ensures i <= |s|
    ensures forall j :: 0 <= j < i ==> s[j] != '\n'
    ensures i < |s| ==> s[i] == '\n'
  {
    if s == [] || s[0] == '\n' then 0 else 1 + LineEnd(s[1..])
  }

  /** The lines of `s`, each without its newline; text after the last newline is a last line of its own. */
  function Lines(s: string): seq<string>
    decreases |s|
  {
    if s == [] then []
    else
      var i := LineEnd(s);
      if i == |s| then [s] else [s[..i]] + Lines(s[i + 1..])
  }

  /** `line` terminated by a newline. */
  function Line(line: string): string
  {
    line + "\n"
  }

  /** A line free of newlines, followed by one, is read back as the first line. */
  lemma LinesCons(line: string, rest: string)
    requires '\n' !in line
    ensures Lines(Line(line) + rest) == [line] + Lines(rest)
  {
    var s := Line(line) + rest;
    assert s[|line|] == '\n';
    assert forall j :: 0 <= j < |line| ==> s[j] == line[j];
    assert LineEnd(s) == |line|;
    assert s[..|line|] == line;
    assert s[|line| + 1..] == rest;
  }

  /** The lines of `ls`, each terminated by a newline, as one text. */
  function Unlines(ls: seq<string>): string
  {
    if ls == [] then "" else Line(ls[0]) + Unlines(ls[1..])
  }

  /** Lines without line breaks, joined and split again, are the lines themselves. */
  lemma {:induction false} LinesUnlines(ls: seq<string>)
    requires forall i :: 0 <= i < |ls| ==> '\n' !in ls[i]
    ensures Lines(Unlines(ls)) == ls
  {
    if ls != [] {
      LinesUnlines(ls[1..]);
      LinesCons(ls[0], Unlines(ls[1..]));
    }
  }
}
