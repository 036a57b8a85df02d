/** The bounded line diff of the review page (web/src/diff.ts). */
module LineDiff {
  import opened Options
  import opened CommonSubsequences
  import opened Lines

  datatype Kind = Same | Add | Remove
  datatype DiffLine = DiffLine(kind: Kind, text: string)
  const CELL_LIMIT := 200_000
  const WORD := 65536

  function TextLines(s: string): seq<string> { if s == "" then [] else SplitLines(s) }

  /** The lines of one side: everything but the other side's own lines. */
  function Side(d: seq<DiffLine>, hidden: Kind): seq<string> {
    if d == [] then []
    else (if d[0].kind == hidden then [] else [d[0].text]) + Side(d[1..], hidden)
  }

  /** The lines the diff keeps, in order. */
  function Kept(d: seq<DiffLine>): seq<string> {
    if d == [] then [] else (if d[0].kind == Same then [d[0].text] else []) + Kept(d[1..])
  }

  /** The diff the review page shows: keep a common head, else prefer an addition when it loses nothing. */
  ghost function Render(a: seq<string>, b: seq<string>): (d: seq<DiffLine>)
    decreases |a| + |b|
  {
    if a == [] && b == [] then []
    else if a != [] && b != [] && a[0] == b[0] then [DiffLine(Same, a[0])] + Render(a[1..], b[1..])
    else if b != [] && (a == [] || Lcs(a, b[1..]) >= Lcs(a[1..], b)) then [DiffLine(Add, b[0])] + Render(a, b[1..])
    else [DiffLine(Remove, a[0])] + Render(a[1..], b)
  }

  /** The two sides are the two texts, line by line; the kept lines are as many as can be kept. */
  ghost predicate MinimalDiff(d: seq<DiffLine>, a: seq<string>, b: seq<string>) {
    Side(d, Add) == a && Side(d, Remove) == b && Longest(|Kept(d)|, a, b)
  }

  lemma {:induction false} RenderSides(a: seq<string>, b: seq<string>)
    ensures Side(Render(a, b), Add) == a && Side(Render(a, b), Remove) == b
    ensures |Kept(Render(a, b))| == Lcs(a, b)
    decreases |a| + |b|
  {
    if a != [] || b != [] {
      var d := Render(a, b);
      if a != [] && b != [] && a[0] == b[0] {
        RenderSides(a[1..], b[1..]);
        assert d[1..] == Render(a[1..], b[1..]);
      } else if b != [] && (a == [] || Lcs(a, b[1..]) >= Lcs(a[1..], b)) {
        RenderSides(a, b[1..]);
        assert d[1..] == Render(a, b[1..]);
      } else {
        RenderSides(a[1..], b);
        assert d[1..] == Render(a[1..], b);
      }
    }
  }

  lemma RenderIsMinimal(a: seq<string>, b: seq<string>)
    ensures MinimalDiff(Render(a, b), a, b)
  {
    RenderSides(a, b);
    LcsIsLongest(Lcs(a, b), a, b);
  }

  lemma {:induction false} KeptIsCommon(d: seq<DiffLine>)
    ensures Common(Kept(d), Side(d, Add), Side(d, Remove))
  {
    if d != [] {
      KeptIsCommon(d[1..]);
      var old_, new_ := Side(d, Add), Side(d, Remove);
      match d[0].kind
      case Same =>
        assert old_[1..] == Side(d[1..], Add) && new_[1..] == Side(d[1..], Remove);
        assert Kept(d)[1..] == Kept(d[1..]);
      case Add =>
        assert old_ == Side(d[1..], Add) && new_[1..] == Side(d[1..], Remove);
        assert Kept(d) == Kept(d[1..]);
      case Remove =>
        assert old_[1..] == Side(d[1..], Add) && new_ == Side(d[1..], Remove);
        assert Kept(d) == Kept(d[1..]);
    }
  }

  /** No list of same, add and remove lines between the same two texts keeps more lines. */
  lemma NoDiffKeepsMore(d: seq<DiffLine>)
    ensures |Kept(d)| <= |Kept(Render(Side(d, Add), Side(d, Remove)))|
  {
    KeptIsCommon(d);
    RenderIsMinimal(Side(d, Add), Side(d, Remove));
  }

  /** The position of a table cell in the flat buffer. */
  function Cell(row: nat, column: nat, width: nat): nat { row * width + column }

  lemma {:induction false} RowsApart(r1: nat, r2: nat, width: nat)
    requires r1 < r2
    ensures r1 * width + width <= r2 * width
    decreases r2
  {
    if r1 + 1 < r2 { RowsApart(r1, r2 - 1, width); }
  }

  lemma CellInBounds(row: nat, column: nat, height: nat, width: nat)
    requires row < height && column < width
    ensures Cell(row, column, width) < height * width
  {
    RowsApart(row, height, width);
  }

  lemma CellsDistinct(r1: nat, c1: nat, r2: nat, c2: nat, width: nat)
    requires c1 < width && c2 < width && Cell(r1, c1, width) == Cell(r2, c2, width)
    ensures r1 == r2 && c1 == c2
  {
    if r1 < r2 { RowsApart(r1, r2, width); }
    if r2 < r1 { RowsApart(r2, r1, width); }
  }

  lemma {:induction false} SmallSide(m: nat, n: nat)
    requires m >= 447 && n >= 447
    ensures (m + 1) * (n + 1) > CELL_LIMIT
  {
    RowsApart(447, m + 1, n + 1);
  }

  /** Under the cell limit the shorter side has at most 446 lines, so an entry fits 16 bits. */
  lemma EntryFitsWord<T>(a: seq<T>, b: seq<T>, i: nat, j: nat)
    requires (|a| + 1) * (|b| + 1) <= CELL_LIMIT && i <= |a| && j <= |b|
    ensures Lcs(a[i..], b[j..]) < 447 < WORD
  {
    LcsAtMostShorter(a[i..], b[j..]);
    if |a| >= 447 && |b| >= 447 { SmallSide(|a|, |b|); }
  }

  ghost predicate Holds(table: seq<nat>, a: seq<string>, b: seq<string>, i: nat, j: nat)
    requires i <= |a| && j <= |b|
  {
    && Cell(i, j, |b| + 1) < |table|
    && table[Cell(i, j, |b| + 1)] == Lcs(a[i..], b[j..])
  }

  /** The table holds the recurrence in its margins, in every row below `row`, and in `row` from `column` on. */
  ghost predicate Filled(table: seq<nat>, a: seq<string>, b: seq<string>, row: nat, column: nat) {
    forall i, j :: 0 <= i <= |a| && 0 <= j <= |b| && (i > row || (i == row && j >= column) || i == |a| || j == |b|) ==>
      Holds(table, a, b, i, j)
  }

  lemma EmptyFilled(table: seq<nat>, a: seq<string>, b: seq<string>)
    requires |table| == (|a| + 1) * (|b| + 1) && forall k :: 0 <= k < |table| ==> table[k] == 0
    ensures Filled(table, a, b, |a|, 0)
  {
    forall i, j | 0 <= i <= |a| && 0 <= j <= |b| && (i == |a| || j == |b|) ensures Holds(table, a, b, i, j) {
      CellInBounds(i, j, |a| + 1, |b| + 1);
    }
  }

  /** Writing the next cell extends the filled part. */
  lemma FillNext(table: seq<nat>, a: seq<string>, b: seq<string>, row: nat, column: nat, value: nat)
    requires |table| == (|a| + 1) * (|b| + 1) && row < |a| && column < |b|
    requires Filled(table, a, b, row, column + 1) && value == Lcs(a[row..], b[column..])
    requires Cell(row, column, |b| + 1) < |table|
    ensures Filled(table[Cell(row, column, |b| + 1) := value], a, b, row, column)
  {
    var next := table[Cell(row, column, |b| + 1) := value];
    forall i, j | 0 <= i <= |a| && 0 <= j <= |b| && (i > row || (i == row && j >= column) || i == |a| || j == |b|)
      ensures Holds(next, a, b, i, j)
    {
      if i == row && j == column {
      } else {
        assert Holds(table, a, b, i, j);
        if Cell(i, j, |b| + 1) == Cell(row, column, |b| + 1) { CellsDistinct(i, j, row, column, |b| + 1); }
      }
    }
  }

  lemma Recurrence(a: seq<string>, b: seq<string>, i: nat, j: nat)
    requires i < |a| && j < |b|
    ensures Lcs(a[i..], b[j..]) == if a[i] == b[j] then 1 + Lcs(a[i + 1..], b[j + 1..])
                                   else Max(Lcs(a[i + 1..], b[j..]), Lcs(a[i..], b[j + 1..]))
  {
    assert a[i..][1..] == a[i + 1..] && b[j..][1..] == b[j + 1..];
  }

  /** One cell, from the three below and to the right of it; the word it is stored in is wide enough. */
  method FillCell(a: seq<string>, b: seq<string>, table: array<nat>, row: nat, column: nat)
    requires (|a| + 1) * (|b| + 1) <= CELL_LIMIT && table.Length == (|a| + 1) * (|b| + 1)
    requires row < |a| && column < |b| && Filled(table[..], a, b, row, column + 1)
    modifies table
    ensures Filled(table[..], a, b, row, column)
  {
    var height, width := |a| + 1, |b| + 1;
    var index := Cell(row, column, width);
    CellInBounds(row, column, height, width);
    assert Holds(table[..], a, b, row + 1, column + 1);
    assert Holds(table[..], a, b, row + 1, column);
    assert Holds(table[..], a, b, row, column + 1);
    Recurrence(a, b, row, column);
    EntryFitsWord(a, b, row, column);
    var value := if a[row] == b[column] then 1 + table[Cell(row + 1, column + 1, width)]
                 else Max(table[Cell(row + 1, column, width)], table[index + 1]);
    FillNext(table[..], a, b, row, column, value);
    table[index] := value % WORD;
  }

  method FillTable(a: seq<string>, b: seq<string>) returns (table: array<nat>)
    requires (|a| + 1) * (|b| + 1) <= CELL_LIMIT
    ensures fresh(table) && table.Length == (|a| + 1) * (|b| + 1)
    ensures Filled(table[..], a, b, 0, 0)
  {
    table := new nat[(|a| + 1) * (|b| + 1)](_ => 0);
    var row := |a|;
    EmptyFilled(table[..], a, b);
    while row > 0
      invariant 0 <= row <= |a|
      invariant Filled(table[..], a, b, row, 0)
    {
      row := row - 1;
      var column := |b|;
      while column > 0
        invariant 0 <= row < |a| && 0 <= column <= |b|
        invariant Filled(table[..], a, b, row, column)
      {
        column := column - 1;
        FillCell(a, b, table, row, column);
      }
    }
  }

  /** `done` renders everything before line `i` of the old and line `j` of the new text. */
  ghost predicate Rendered(done: seq<DiffLine>, a: seq<string>, b: seq<string>, i: nat, j: nat) {
    i <= |a| && j <= |b| && done + Render(a[i..], b[j..]) == Render(a, b)
  }

  lemma RenderNext(done: seq<DiffLine>, a: seq<string>, b: seq<string>, i: nat, j: nat)
    requires Rendered(done, a, b, i, j) && (i < |a| || j < |b|)
    ensures i < |a| && j < |b| && a[i] == b[j] ==> Rendered(done + [DiffLine(Same, a[i])], a, b, i + 1, j + 1)
    ensures j < |b| && (i == |a| || (a[i] != b[j] && Lcs(a[i..], b[j + 1..]) >= Lcs(a[i + 1..], b[j..]))) ==>
              Rendered(done + [DiffLine(Add, b[j])], a, b, i, j + 1)
    ensures i < |a| && (j == |b| || (a[i] != b[j] && Lcs(a[i..], b[j + 1..]) < Lcs(a[i + 1..], b[j..]))) ==>
              Rendered(done + [DiffLine(Remove, a[i])], a, b, i + 1, j)
  {
    var rest := Render(a[i..], b[j..]);
    if i < |a| { assert a[i..][1..] == a[i + 1..]; }
    if j < |b| { assert b[j..][1..] == b[j + 1..]; }
    assert done + rest == (done + [rest[0]]) + rest[1..];
  }

  method Walk(a: seq<string>, b: seq<string>, table: array<nat>) returns (result: seq<DiffLine>)
    requires table.Length == (|a| + 1) * (|b| + 1) && Filled(table[..], a, b, 0, 0)
    ensures result == Render(a, b)
  {
    var width := |b| + 1;
    result := [];
    var i, j := 0, 0;
    assert a[0..] == a && b[0..] == b;
    while i < |a| || j < |b|
      invariant Rendered(result, a, b, i, j)
      decreases |a| - i + |b| - j
    {
      RenderNext(result, a, b, i, j);
      if i < |a| && j < |b| {
        assert Holds(table[..], a, b, i, j + 1) && Holds(table[..], a, b, i + 1, j);
      }
      if i < |a| && j < |b| && a[i] == b[j] {
        result := result + [DiffLine(Same, a[i])];
        i, j := i + 1, j + 1;
      } else if j < |b| && (i == |a| || table[Cell(i, j + 1, width)] >= table[Cell(i + 1, j, width)]) {
        result := result + [DiffLine(Add, b[j])];
        j := j + 1;
      } else {
        result := result + [DiffLine(Remove, a[i])];
        i := i + 1;
      }
    }
  }

  method Diff(before: string, after: string) returns (r: Option<seq<DiffLine>>)
    ensures r.None? <==> (|TextLines(before)| + 1) * (|TextLines(after)| + 1) > CELL_LIMIT
    ensures r.Some? ==> r.value == Render(TextLines(before), TextLines(after))
    ensures r.Some? ==> MinimalDiff(r.value, TextLines(before), TextLines(after))
    ensures r.Some? ==> JoinLines(Side(r.value, Add)) == before && JoinLines(Side(r.value, Remove)) == after
  {
    var a, b := TextLines(before), TextLines(after);
    if (|a| + 1) * (|b| + 1) > CELL_LIMIT { return None; }
    var table := FillTable(a, b);
    var result := Walk(a, b, table);
    RenderIsMinimal(a, b);
    JoinUndoesSplit(before);
    JoinUndoesSplit(after);
    return Some(result);
  }
}
