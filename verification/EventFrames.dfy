/** Server-sent event framing: the client's splitter and parser (web/src/app/useEventStream.ts)
    against the page printed by the server (internal/controlplane/events.go), however the
    network cuts the stream. */
module EventFrames {
  import opened Lines

  // --- Splitting a buffer -------------------------------------------------

  /** `replace(/\r\n/g, "\n")` */
  function ReplaceCrlf(s: string): string {
    if s == "" then ""
    else if |s| > 1 && s[0] == '\r' && s[1] == '\n' then "\n" + ReplaceCrlf(s[2..])
    else [s[0]] + ReplaceCrlf(s[1..])
  }

  /** `replace(/\r/g, "\n")` */
  function ReplaceCr(s: string): (r: string)
    ensures |r| == |s| && '\r' !in r
  {
    if s == "" then "" else [if s[0] == '\r' then '\n' else s[0]] + ReplaceCr(s[1..])
  }

  function Normalize(s: string): string { ReplaceCr(ReplaceCrlf(s)) }

  ghost predicate BlankAt(s: string, i: nat) { i + 1 < |s| && s[i] == '\n' && s[i + 1] == '\n' }

  /** `indexOf("\n\n")`, with the length of the text for "not found". */
  method IndexOfBlank(s: string) returns (i: nat)
    ensures i == FirstBlank(s)
  {
    i := 0;
    while i + 1 < |s| && !(s[i] == '\n' && s[i + 1] == '\n')
      invariant i <= |s| && forall k :: 0 <= k < i ==> !BlankAt(s, k)
    {
      i := i + 1;
    }
    if i + 1 >= |s| { i := |s|; }
    FirstBlankIs(s, i);
  }

  ghost function FirstBlank(s: string): (i: nat)
    ensures i <= |s| && (i < |s| ==> BlankAt(s, i)) && forall k :: 0 <= k < i ==> !BlankAt(s, k)
  {
    if s == "" then 0 else if BlankAt(s, 0) then 0
    else
      var i := FirstBlank(s[1..]);
      assert forall k :: 0 < k && BlankAt(s, k) ==> BlankAt(s[1..], k - 1);
      1 + i
  }

  lemma FirstBlankIs(s: string, i: nat)
    requires i <= |s| && (i < |s| ==> BlankAt(s, i)) && forall k :: 0 <= k < i ==> !BlankAt(s, k)
    ensures FirstBlank(s) == i
  {
  }

  datatype Split = Split(frames: seq<string>, rest: string)

  /** The frames of a text, cut at the leftmost blank lines, and the partial frame left over. */
  ghost function Frames(text: string): Split
    decreases |text|
  {
    var i := FirstBlank(text);
    if i == |text| then Split([], text)
    else
      var later := Frames(text[i + 2..]);
      Split([text[..i]] + later.frames, later.rest)
  }

  method SplitFrames(buffer: string) returns (r: Split)
    ensures r == Frames(Normalize(buffer))
  {
    var rest := Normalize(buffer);
    ghost var text := rest;
    var frames: seq<string> := [];
    var index := IndexOfBlank(rest);
    while index < |rest|
      invariant index == FirstBlank(rest)
      invariant Frames(text) == Split(frames + Frames(rest).frames, Frames(rest).rest)
      decreases |rest|
    {
      ghost var later := Frames(rest[index + 2..]);
      assert frames + ([rest[..index]] + later.frames) == (frames + [rest[..index]]) + later.frames;
      frames := frames + [rest[..index]];
      rest := rest[index + 2..];
      index := IndexOfBlank(rest);
    }
    return Split(frames, rest);
  }

  /** Undoes a split: the text is recovered, so different texts split differently. */
  ghost function Unsplit(s: Split): string
    decreases |s.frames|
  {
    if s.frames == [] then s.rest else s.frames[0] + "\n\n" + Unsplit(Split(s.frames[1..], s.rest))
  }

  lemma {:induction false} UnsplitFrames(text: string)
    ensures Unsplit(Frames(text)) == text
    decreases |text|
  {
    var i := FirstBlank(text);
    if i < |text| {
      UnsplitFrames(text[i + 2..]);
      var s, later := Frames(text), Frames(text[i + 2..]);
      assert s.frames[1..] == later.frames;
      assert text == text[..i] + "\n\n" + text[i + 2..];
    }
  }

  // --- A stream arriving in chunks ----------------------------------------

  /** The reader loop: the partial frame is kept and prepended to the next chunk. */
  ghost function Received(chunks: seq<string>): Split {
    if chunks == [] then Split([], "")
    else
      var before := Received(chunks[..|chunks| - 1]);
      var s := Frames(Normalize(before.rest + chunks[|chunks| - 1]));
      Split(before.frames + s.frames, s.rest)
  }

  method Receive(chunks: seq<string>) returns (r: Split)
    ensures r == Received(chunks)
  {
    var frames: seq<string>, buffer := [], "";
    for n := 0 to |chunks|
      invariant Received(chunks[..n]) == Split(frames, buffer)
    {
      var split := SplitFrames(buffer + chunks[n]);
      assert chunks[..n + 1][..n] == chunks[..n];
      frames, buffer := frames + split.frames, split.rest;
    }
    assert chunks[..|chunks|] == chunks;
    return Split(frames, buffer);
  }

  function Concat(chunks: seq<string>): string {
    if chunks == [] then "" else Concat(chunks[..|chunks| - 1]) + chunks[|chunks| - 1]
  }

  /** A chunk boundary falls between a carriage return and its line feed. */
  ghost predicate CutsCrlf(chunks: seq<string>) {
    exists n :: 0 <= n < |chunks| && Cut(Concat(chunks[..n]), chunks[n])
  }

  ghost predicate Cut(before: string, after: string) {
    before != "" && after != "" && before[|before| - 1] == '\r' && after[0] == '\n'
  }

  lemma FirstBlankStays(t: string, u: string)
    requires FirstBlank(t) < |t|
    ensures FirstBlank(t + u) == FirstBlank(t)
  {
    var i := FirstBlank(t);
    assert forall k :: 0 <= k <= i ==> (BlankAt(t + u, k) <==> BlankAt(t, k));
    FirstBlankIs(t + u, i);
  }

  lemma FramesCons(head: string, tail: string)
    requires FirstBlank(head + "\n\n" + tail) == |head|
    ensures Frames(head + "\n\n" + tail) == Split([head] + Frames(tail).frames, Frames(tail).rest)
  {
    var text := head + "\n\n" + tail;
    assert text[..|head|] == head && text[|head| + 2..] == tail;
  }

  lemma CutAtBlank(text: string) returns (head: string, tail: string)
    requires FirstBlank(text) < |text|
    ensures text == head + "\n\n" + tail && |head| == FirstBlank(text)
  {
    var i := FirstBlank(text);
    head, tail := text[..i], text[i + 2..];
  }

  /** Splitting `u` after `t` resumes from the partial frame that `t` left. */
  ghost function Resumed(s: Split, u: string): Split {
    Split(s.frames + Frames(s.rest + u).frames, Frames(s.rest + u).rest)
  }

  lemma ResumedCons(head: string, s: Split, u: string)
    ensures Resumed(Split([head] + s.frames, s.rest), u) == Split([head] + Resumed(s, u).frames, Resumed(s, u).rest)
  {
    var more := Frames(s.rest + u).frames;
    assert ([head] + s.frames) + more == [head] + (s.frames + more);
  }

  lemma FramesConsLonger(head: string, tail: string, u: string)
    requires FirstBlank(head + "\n\n" + tail) == |head|
    ensures Frames(head + "\n\n" + tail + u) == Split([head] + Frames(tail + u).frames, Frames(tail + u).rest)
  {
    FirstBlankStays(head + "\n\n" + tail, u);
    assert head + "\n\n" + tail + u == head + "\n\n" + (tail + u);
    FramesCons(head, tail + u);
  }

  lemma {:induction false} FramesResume(t: string, u: string)
    ensures Frames(t + u) == Resumed(Frames(t), u)
    decreases |t|
  {
    if FirstBlank(t) == |t| {
      assert Frames(t) == Split([], t);
    } else {
      var head, tail := CutAtBlank(t);
      FramesCons(head, tail);
      FramesConsLonger(head, tail, u);
      FramesResume(tail, u);
      ResumedCons(head, Frames(tail), u);
    }
  }

  lemma {:induction false} ReplaceCrlfLf(s: string, t: string)
    requires '\r' !in s
    ensures ReplaceCrlf(s + t) == s + ReplaceCrlf(t)
  {
    if s == "" {
      assert s + t == t;
    } else {
      assert (s + t)[1..] == s[1..] + t;
      ReplaceCrlfLf(s[1..], t);
    }
  }

  lemma {:induction false} ReplaceCrConcat(s: string, t: string)
    ensures ReplaceCr(s + t) == ReplaceCr(s) + ReplaceCr(t)
  {
    if s == "" {
      assert s + t == t;
    } else {
      assert (s + t)[1..] == s[1..] + t;
      ReplaceCrConcat(s[1..], t);
    }
  }

  lemma {:induction false} NoCrUnchanged(s: string)
    requires '\r' !in s
    ensures ReplaceCr(s) == s
  {
    if s != "" { NoCrUnchanged(s[1..]); }
  }

  /** Normalising piecewise differs from normalising the whole by exactly one newline per cut. */
  lemma {:induction false} ReplaceCrlfConcat(s: string, t: string)
    ensures !Cut(s, t) ==> ReplaceCrlf(s + t) == ReplaceCrlf(s) + ReplaceCrlf(t)
    ensures Cut(s, t) ==> |ReplaceCrlf(s + t)| + 1 == |ReplaceCrlf(s)| + |ReplaceCrlf(t)|
    decreases |s|
  {
    if s == "" {
      assert s + t == t;
    } else if |s| == 1 {
      LastChar(s, t);
    } else {
      var head, tail := ReplaceStep(s, t);
      ReplaceCrlfConcat(tail, t);
      assert head + (ReplaceCrlf(tail) + ReplaceCrlf(t)) == (head + ReplaceCrlf(tail)) + ReplaceCrlf(t);
    }
  }

  lemma ReplaceStep(s: string, t: string) returns (head: string, tail: string)
    requires |s| > 1
    ensures |tail| < |s| && (Cut(s, t) <==> Cut(tail, t))
    ensures ReplaceCrlf(s) == head + ReplaceCrlf(tail) && ReplaceCrlf(s + t) == head + ReplaceCrlf(tail + t)
  {
    var skip := if s[0] == '\r' && s[1] == '\n' then 2 else 1;
    head, tail := if skip == 2 then "\n" else [s[0]], s[skip..];
    assert (s + t)[skip..] == tail + t;
  }

  lemma LastChar(s: string, t: string)
    requires |s| == 1
    ensures !Cut(s, t) ==> ReplaceCrlf(s + t) == ReplaceCrlf(s) + ReplaceCrlf(t)
    ensures Cut(s, t) ==> |ReplaceCrlf(s + t)| + 1 == |ReplaceCrlf(s)| + |ReplaceCrlf(t)|
  {
    assert (s + t)[1..] == t && s[1..] == "";
    assert ReplaceCrlf(s) == s;
    if Cut(s, t) {
      assert (s + t)[2..] == t[1..];
      assert ReplaceCrlf(t) == [t[0]] + ReplaceCrlf(t[1..]);
    }
  }

  ghost function NormalizedPieces(chunks: seq<string>): string {
    if chunks == [] then "" else NormalizedPieces(chunks[..|chunks| - 1]) + Normalize(chunks[|chunks| - 1])
  }

  lemma {:induction false} ReceivedSplitsPieces(chunks: seq<string>)
    ensures Received(chunks) == Frames(NormalizedPieces(chunks))
    ensures '\r' !in NormalizedPieces(chunks) && '\r' !in Received(chunks).rest
  {
    if chunks == [] {
    } else {
      var front, last := chunks[..|chunks| - 1], chunks[|chunks| - 1];
      ReceivedSplitsPieces(front);
      var before := Received(front);
      ReplaceCrlfLf(before.rest, last);
      ReplaceCrConcat(before.rest, ReplaceCrlf(last));
      NoCrUnchanged(before.rest);
      FramesResume(NormalizedPieces(front), Normalize(last));
      RestIsSuffix(NormalizedPieces(chunks));
    }
  }

  lemma {:induction false} RestIsSuffix(text: string)
    ensures forall c :: c in Frames(text).rest ==> c in text
    ensures forall f, c :: f in Frames(text).frames && c in f ==> c in text
    decreases |text|
  {
    var i := FirstBlank(text);
    if i < |text| { RestIsSuffix(text[i + 2..]); }
  }

  lemma CutsLast(chunks: seq<string>)
    requires chunks != []
    ensures CutsCrlf(chunks) <==> CutsCrlf(chunks[..|chunks| - 1]) || Cut(Concat(chunks[..|chunks| - 1]), chunks[|chunks| - 1])
  {
    var front := chunks[..|chunks| - 1];
    forall m | 0 <= m < |front| ensures Cut(Concat(front[..m]), front[m]) <==> Cut(Concat(chunks[..m]), chunks[m]) {
      assert front[..m] == chunks[..m];
    }
  }

  lemma {:induction false} PiecesAgainstWhole(chunks: seq<string>)
    ensures !CutsCrlf(chunks) ==> NormalizedPieces(chunks) == Normalize(Concat(chunks))
    ensures CutsCrlf(chunks) ==> |NormalizedPieces(chunks)| > |Normalize(Concat(chunks))|
  {
    if chunks != [] {
      var front, last := chunks[..|chunks| - 1], chunks[|chunks| - 1];
      PiecesAgainstWhole(front);
      CutsLast(chunks);
      ReplaceCrlfConcat(Concat(front), last);
      ReplaceCrConcat(ReplaceCrlf(Concat(front)), ReplaceCrlf(last));
    }
  }

  /** Chunk by chunk gives the frames of the whole stream exactly when no boundary cuts a CRLF. */
  lemma ChunkingIsExact(chunks: seq<string>)
    ensures Received(chunks) == Frames(Normalize(Concat(chunks))) <==> !CutsCrlf(chunks)
  {
    ReceivedSplitsPieces(chunks);
    PiecesAgainstWhole(chunks);
    UnsplitFrames(NormalizedPieces(chunks));
    UnsplitFrames(Normalize(Concat(chunks)));
  }

  /** A carriage return and its line feed in two chunks: the client sees an empty line that was never sent. */
  lemma CutCrlfSplitsFrame()
    ensures Received(["a\r", "\nb"]) != Frames(Normalize("a\r\nb"))
  {
    var chunks := ["a\r", "\nb"];
    assert chunks[..1] == ["a\r"] && chunks[..1][..0] == [];
    assert Concat(chunks[..1]) == "" + "a\r" == "a\r";
    assert Concat(chunks) == "a\r" + "\nb" == "a\r\nb";
    assert Cut(Concat(chunks[..1]), chunks[1]);
    ChunkingIsExact(chunks);
  }

  // --- One frame ------------------------------------------------------------

  datatype Frame = Frame(event: string, data: string, id: string)

  ghost function IndexOf(line: string, c: char): (i: nat)
    ensures i <= |line| && (i < |line| ==> line[i] == c) && forall k :: 0 <= k < i ==> line[k] != c
  {
    if line == "" || line[0] == c then 0 else 1 + IndexOf(line[1..], c)
  }

  /** A line that is neither blank nor a comment. */
  predicate IsField(line: string) { line != "" && line[0] != ':' }

  ghost function FieldName(line: string): string { line[..IndexOf(line, ':')] }

  ghost function FieldValue(line: string): string {
    var colon := IndexOf(line, ':');
    if colon == |line| then ""
    else
      var value := line[colon + 1..];
      if value != "" && value[0] == ' ' then value[1..] else value
  }

  /** The values given to one field, in order. */
  ghost function Values(lines: seq<string>, field: string): seq<string> {
    if lines == [] then []
    else
      var last := lines[|lines| - 1];
      Values(lines[..|lines| - 1], field) + if IsField(last) && FieldName(last) == field then [FieldValue(last)] else []
  }

  function LastOr(values: seq<string>, default: string): string {
    if values == [] then default else values[|values| - 1]
  }

  /** Section 9.2.6 of the WHATWG HTML Standard: the last event and id count, data lines are joined. */
  ghost function Parsed(raw: string): Frame {
    var lines := SplitLines(raw);
    Frame(LastOr(Values(lines, "event"), "message"), JoinLines(Values(lines, "data")), LastOr(Values(lines, "id"), ""))
  }

  method ParseField(line: string) returns (field: string, value: string)
    ensures field == FieldName(line) && value == FieldValue(line)
  {
    var colon := 0;
    while colon < |line| && line[colon] != ':'
      invariant colon <= |line| && forall k :: 0 <= k < colon ==> line[k] != ':'
    {
      colon := colon + 1;
    }
    field := line[..colon];
    value := if colon == |line| then "" else line[colon + 1..];
    if value != "" && value[0] == ' ' { value := value[1..]; }
  }

  lemma ValuesNext(lines: seq<string>, n: nat, field: string)
    requires n < |lines|
    ensures Values(lines[..n + 1], field) ==
            Values(lines[..n], field) + if IsField(lines[n]) && FieldName(lines[n]) == field then [FieldValue(lines[n])] else []
  {
    assert lines[..n + 1][..n] == lines[..n];
  }

  method ParseFrame(raw: string) returns (f: Frame)
    ensures f == Parsed(raw)
  {
    var event, id := "message", "";
    var dataLines: seq<string> := [];
    var lines := SplitLines(raw);
    for n := 0 to |lines|
      invariant event == LastOr(Values(lines[..n], "event"), "message")
      invariant id == LastOr(Values(lines[..n], "id"), "")
      invariant dataLines == Values(lines[..n], "data")
    {
      ValuesNext(lines, n, "event");
      ValuesNext(lines, n, "id");
      ValuesNext(lines, n, "data");
      if lines[n] != "" && lines[n][0] != ':' {
        var field, value := ParseField(lines[n]);
        if field == "event" { event := value; }
        else if field == "data" { dataLines := dataLines + [value]; }
        else if field == "id" { id := value; }
      }
    }
    assert lines[..|lines|] == lines;
    return Frame(event, JoinLines(dataLines), id);
  }

  // --- End to end -------------------------------------------------------------

  /** One page as the server sends it: the cursor is acknowledged with the whole page. */
  datatype Page = Page(cursor: string, payload: string)

  /** Cursors are URL-safe base64 and payloads are JSON, so neither holds a raw line break. */
  ghost predicate OneLine(s: string) { '\n' !in s && '\r' !in s }

  ghost predicate Printable(p: Page) { OneLine(p.cursor) && OneLine(p.payload) }

  function Body(p: Page): string { "id: " + p.cursor + "\n" + ("event: accp.events\n" + ("data: " + p.payload)) }

  function Print(p: Page): string { Body(p) + "\n\n" }

  lemma LinesOfBody(p: Page)
    requires Printable(p)
    ensures SplitLines(Body(p)) == ["id: " + p.cursor, "event: accp.events", "data: " + p.payload]
  {
    var lines := ["id: " + p.cursor, "event: accp.events", "data: " + p.payload];
    assert lines[1..] == [lines[1], lines[2]] && lines[1..][1..] == [lines[2]];
    assert JoinLines(lines[1..]) == "event: accp.events" + "\n" + ("data: " + p.payload);
    assert JoinLines(lines) == Body(p);
    SplitUndoesJoin(lines);
  }

  ghost predicate HasField(line: string, name: string, value: string) {
    IsField(line) && FieldName(line) == name && FieldValue(line) == value
  }

  lemma NamedField(name: string, value: string)
    requires name != "" && ':' !in name
    ensures HasField(name + ": " + value, name, value)
  {
    var line := name + ": " + value;
    assert forall k :: 0 <= k < |name| ==> line[k] == name[k];
    assert line[|name|] == ':' && line[..|name|] == name;
    assert line[|name| + 1..] == " " + value;
    assert (" " + value)[1..] == value;
  }

  lemma IdLine(cursor: string)
    ensures HasField("id: " + cursor, "id", cursor)
  {
    NamedField("id", cursor);
    assert "id" + ": " == "id: ";
  }

  lemma EventLine()
    ensures HasField("event: accp.events", "event", "accp.events")
  {
    NamedField("event", "accp.events");
    assert "event" + ": " + "accp.events" == "event: accp.events";
  }

  lemma DataLine(payload: string)
    ensures HasField("data: " + payload, "data", payload)
  {
    NamedField("data", payload);
    assert "data" + ": " == "data: ";
  }

  /** What one line gives a field. */
  ghost function Given(line: string, field: string): seq<string> {
    if IsField(line) && FieldName(line) == field then [FieldValue(line)] else []
  }

  lemma GivenLast(lines: seq<string>, line: string, field: string)
    ensures Values(lines + [line], field) == Values(lines, field) + Given(line, field)
  {
    assert (lines + [line])[..|lines|] == lines;
  }

  lemma GivenOfThree(a: string, b: string, c: string, field: string)
    ensures Values([a, b, c], field) == Given(a, field) + Given(b, field) + Given(c, field)
  {
    GivenLast([], a, field);
    GivenLast([a], b, field);
    GivenLast([a, b], c, field);
    assert [] + [a] == [a] && [a] + [b] == [a, b] && [a, b] + [c] == [a, b, c];
  }

  /** Three fields with distinct names: each name has exactly its own value. */
  lemma ThreeFields(a: string, b: string, c: string, cursor: string, payload: string)
    requires HasField(a, "id", cursor) && HasField(b, "event", "accp.events") && HasField(c, "data", payload)
    ensures Values([a, b, c], "id") == [cursor]
    ensures Values([a, b, c], "event") == ["accp.events"]
    ensures Values([a, b, c], "data") == [payload]
  {
    assert |"id"| == 2 && |"event"| == 5 && |"data"| == 4;
    forall field | field in {"id", "event", "data"}
      ensures Values([a, b, c], field) == (if field == "id" then [cursor] else []) + (if field == "event" then ["accp.events"] else [])
                                          + (if field == "data" then [payload] else [])
    {
      GivenOfThree(a, b, c, field);
    }
  }

  /** Parsing inverts printing. */
  lemma ParseUndoesPrint(p: Page)
    requires Printable(p)
    ensures Parsed(Body(p)) == Frame("accp.events", p.payload, p.cursor)
  {
    LinesOfBody(p);
    IdLine(p.cursor);
    EventLine();
    DataLine(p.payload);
    ThreeFields("id: " + p.cursor, "event: accp.events", "data: " + p.payload, p.cursor, p.payload);
  }

  function PrintAll(pages: seq<Page>): string {
    if pages == [] then "" else Print(pages[0]) + PrintAll(pages[1..])
  }

  lemma BodyHasNoBlank(p: Page)
    requires Printable(p)
    ensures forall k :: 0 <= k <= |Body(p)| ==> (BlankAt(Print(p), k) <==> k == |Body(p)|)
  {
    var id, event, data := "id: " + p.cursor, "event: accp.events", "data: " + p.payload;
    var text := Print(p);
    assert text == id + "\n" + event + "\n" + data + "\n\n";
    forall k | 0 <= k < |Body(p)| ensures !BlankAt(text, k) {
      if k < |id| { assert text[k] == id[k]; }
      else if k == |id| { assert text[k + 1] == 'e'; }
      else if k < |id| + 1 + |event| { assert text[k] == event[k - |id| - 1]; }
      else if k == |id| + 1 + |event| { assert text[k + 1] == 'd'; }
      else { assert text[k] == data[k - |id| - |event| - 2]; }
    }
  }

  ghost function Bodies(pages: seq<Page>): (bodies: seq<string>)
    ensures |bodies| == |pages| && forall n :: 0 <= n < |pages| ==> bodies[n] == Body(pages[n])
  {
    if pages == [] then [] else [Body(pages[0])] + Bodies(pages[1..])
  }

  lemma FirstPage(p: Page, later: string)
    requires Printable(p)
    ensures Frames(Print(p) + later) == Split([Body(p)] + Frames(later).frames, Frames(later).rest)
  {
    BodyHasNoBlank(p);
    FirstBlankIs(Print(p), |Body(p)|);
    FirstBlankStays(Print(p), later);
    assert Print(p) + later == Body(p) + "\n\n" + later;
    FramesCons(Body(p), later);
  }

  lemma {:induction false} FramesOfPages(pages: seq<Page>)
    requires forall p :: p in pages ==> Printable(p)
    ensures Frames(PrintAll(pages)) == Split(Bodies(pages), "")
  {
    if pages == [] {
    } else {
      FramesOfPages(pages[1..]);
      FirstPage(pages[0], PrintAll(pages[1..]));
    }
  }

  lemma {:induction false} PagesHoldNoCr(pages: seq<Page>)
    requires forall p :: p in pages ==> Printable(p)
    ensures '\r' !in PrintAll(pages)
  {
    if pages != [] {
      PagesHoldNoCr(pages[1..]);
      assert Printable(pages[0]);
      assert '\r' !in Body(pages[0]) && '\r' !in Print(pages[0]);
    }
  }

  lemma {:induction false} NoCrNoCut(chunks: seq<string>)
    requires '\r' !in Concat(chunks)
    ensures !CutsCrlf(chunks)
  {
    if chunks != [] {
      var n := |chunks| - 1;
      var front := chunks[..n];
      assert forall c :: c in Concat(front) ==> c in Concat(chunks);
      NoCrNoCut(front);
      forall m | 0 <= m <= n ensures !Cut(Concat(chunks[..m]), chunks[m]) {
        if m < n {
          assert front[..m] == chunks[..m];
          assert !Cut(Concat(front[..m]), front[m]);
        }
      }
    }
  }

  /** However the network cuts a stream of pages, the client parses exactly those pages, in order. */
  lemma StreamDeliversPages(pages: seq<Page>, chunks: seq<string>)
    requires forall p :: p in pages ==> Printable(p)
    requires Concat(chunks) == PrintAll(pages)
    ensures |Received(chunks).frames| == |pages| && Received(chunks).rest == ""
    ensures forall n :: 0 <= n < |pages| ==>
              Parsed(Received(chunks).frames[n]) == Frame("accp.events", pages[n].payload, pages[n].cursor)
  {
    FramesOfPages(pages);
    PagesHoldNoCr(pages);
    NoCrNoCut(chunks);
    ChunkingIsExact(chunks);
    ReplaceCrlfLf(Concat(chunks), "");
    assert Concat(chunks) + "" == Concat(chunks);
    NoCrUnchanged(Concat(chunks));
    forall n | 0 <= n < |pages| ensures Parsed(Received(chunks).frames[n]) == Frame("accp.events", pages[n].payload, pages[n].cursor) {
      ParseUndoesPrint(pages[n]);
    }
  }
}
