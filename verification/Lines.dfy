/** JavaScript's `split("\n")`, and the join that undoes it. */
module Lines {

  /** No line of a split text holds a newline. */
  ghost predicate NoNewline(s: string) { '\n' !in s }

  function SplitLines(s: string): (lines: seq<string>)
    ensures lines != []
    ensures forall i :: 0 <= i < |lines| ==> NoNewline(lines[i])
  {
    if s == "" then [""]
    else
      var rest := SplitLines(s[1..]);
      if s[0] == '\n' then [""] + rest else [[s[0]] + rest[0]] + rest[1..]
  }

  function JoinLines(lines: seq<string>): string {
    if lines == [] then ""
    else if |lines| == 1 then lines[0]
    else lines[0] + "\n" + JoinLines(lines[1..])
  }

  lemma {:induction false} JoinUndoesSplit(s: string)
    ensures JoinLines(SplitLines(s)) == s
  {
    if s != "" {
      JoinUndoesSplit(s[1..]);
      var rest := SplitLines(s[1..]);
      var lines := SplitLines(s);
      assert lines[1..] == if s[0] == '\n' then rest else rest[1..];
    }
  }

  lemma {:induction false} SplitUndoesJoin(lines: seq<string>)
    requires lines != [] && forall i :: 0 <= i < |lines| ==> NoNewline(lines[i])
    ensures SplitLines(JoinLines(lines)) == lines
    decreases |lines|, |lines[0]|
  {
    if lines[0] == "" {
      if |lines| > 1 {
        SplitUndoesJoin(lines[1..]);
        assert JoinLines(lines)[1..] == JoinLines(lines[1..]);
      }
    } else {
      var shorter := [lines[0][1..]] + lines[1..];
      forall i | 0 <= i < |shorter| ensures NoNewline(shorter[i]) {
        if i > 0 { assert shorter[i] == lines[i]; }
      }
      SplitUndoesJoin(shorter);
      assert shorter[1..] == lines[1..];
      var text := JoinLines(lines);
      assert text[1..] == JoinLines(shorter);
      assert text[0] == lines[0][0] && NoNewline(lines[0]);
      assert [text[0]] + shorter[0] == lines[0];
    }
  }
}
