/** The chat stream between server and browser: frames printed by internal/api/streaming.go and parsed
    incrementally by frontend/src/services/api.ts. The format is the part of section 9.2.6 of the WHATWG HTML
    Living Standard in which an event is a block of `data:` lines, each of which is taken on its own. */
module SseFraming {
  import opened Options
  import opened Text

  const FIELD := "data:"

  // ------------------------------------------------------------------ what a complete text means

  /** The white space of ECMAScript, as String.prototype.trim and \s understand it. */
  predicate JsSpace(c: char) { (IsSpace(c) && c != '\U{0085}') || c == '\U{FEFF}' }

  /** JavaScript and Go disagree on two characters. */
  lemma JsSpaceIff(c: char)
    ensures JsSpace(c) <==> if c in ['\U{0085}', '\U{FEFF}'] then c == '\U{FEFF}' else IsSpace(c)
  {
  }

  function JsTrimStart(s: string): (t: string)
    ensures |t| <= |s| && (t != "" ==> !JsSpace(t[0]))
  {
    if s != [] && JsSpace(s[0]) then JsTrimStart(s[1..]) else s
  }

  function JsTrimEnd(s: string): string {
    if s != [] && JsSpace(s[|s| - 1]) then JsTrimEnd(s[..|s| - 1]) else s
  }

  function JsTrim(s: string): string { JsTrimEnd(JsTrimStart(s)) }

  function SplitLines(s: string): (lines: seq<string>)
    ensures lines != []
  {
    if s == [] then [""]
    else
      var rest := SplitLines(s[1..]);
      if s[0] == '\n' then [""] + rest else [[s[0]] + rest[0]] + rest[1..]
  }

  /** The value a line carries, if it is a data line whose text parses. */
  function LineEvents<V>(line: string, parse: string -> Option<V>): seq<V> {
    var trimmed := JsTrim(line);
    if !(FIELD <= trimmed) then []
    else
      var json := JsTrimStart(trimmed[|FIELD|..]);
      if json == "" then []
      else match parse(json) { case None => [] case Some(v) => [v] }
  }

  function LinesEvents<V>(lines: seq<string>, parse: string -> Option<V>): seq<V> {
    if lines == [] then []
    else LinesEvents(lines[..|lines| - 1], parse) + LineEvents(lines[|lines| - 1], parse)
  }

  function BlockEvents<V>(block: string, parse: string -> Option<V>): seq<V> {
    LinesEvents(SplitLines(block), parse)
  }

  // ------------------------------------------------------------------ what a line and a block mean

  predicate Blank(s: string) { forall c <- s :: JsSpace(c) }

  predicate Bounded(s: string) { s != "" && !JsSpace(s[0]) && !JsSpace(s[|s| - 1]) }

  lemma {:induction false} TrimStartOf(pre: string, t: string)
    requires Blank(pre) && (t == "" || !JsSpace(t[0]))
    ensures JsTrimStart(pre + t) == t
  {
    if pre == "" {
      assert pre + t == t;
    } else {
      assert pre + t == [pre[0]] + (pre[1..] + t) && pre[0] in pre;
      assert (pre + t)[1..] == pre[1..] + t;
      TrimStartOf(pre[1..], t);
    }
  }

  lemma {:induction false} TrimEndOf(t: string, post: string)
    requires Blank(post) && (t == "" || !JsSpace(t[|t| - 1]))
    ensures JsTrimEnd(t + post) == t
  {
    if post == "" {
      assert t + post == t;
    } else {
      var n := |post| - 1;
      assert (t + post)[..|t + post| - 1] == t + post[..n] && post[n] in post;
      TrimEndOf(t, post[..n]);
    }
  }

  /** A data line gives the value of what follows `data:`, the white space around it left out, if that parses. */
  lemma DataLine<V>(pre: string, gap: string, json: string, post: string, parse: string -> Option<V>)
    requires Blank(pre) && Blank(gap) && Blank(post) && Bounded(json)
    ensures LineEvents(pre + ("data:" + gap + json + post), parse)
            == match parse(json) { case None => [] case Some(v) => [v] }
  {
    var body := "data:" + (gap + json);
    assert "data:" + gap + json + post == body + post && body[|body| - 1] == json[|json| - 1];
    TrimStartOf(pre, body + post);
    TrimEndOf(body, post);
    TrimStartOf(gap, json);
    FieldValue(gap + json);
  }

  lemma FieldValue(rest: string)
    ensures FIELD <= "data:" + rest && ("data:" + rest)[|FIELD|..] == rest
  {
  }

  /** A line that does not begin with `data:` behind its white space gives nothing, nor does one with nothing behind. */
  lemma OtherLine<V>(pre: string, t: string, parse: string -> Option<V>)
    requires Blank(pre) && (t == "" || !JsSpace(t[0])) && !("data:" <= t)
    ensures LineEvents(pre + t, parse) == []
  {
    TrimStartOf(pre, t);
    TrimEndIsPrefix(t);
  }

  lemma EmptyLine<V>(pre: string, post: string, parse: string -> Option<V>)
    requires Blank(pre) && Blank(post)
    ensures LineEvents(pre + ("data:" + post), parse) == []
  {
    TrimStartOf(pre, "data:" + post);
    TrimEndOf("data:", post);
    assert "data:"[|FIELD|..] == "";
  }

  lemma {:induction false} TrimEndIsPrefix(t: string)
    ensures JsTrimEnd(t) <= t
  {
    if t != "" && JsSpace(t[|t| - 1]) {
      TrimEndIsPrefix(t[..|t| - 1]);
    }
  }

  function JoinLines(lines: seq<string>): string
    requires lines != []
  {
    if |lines| == 1 then lines[0] else lines[0] + "\n" + JoinLines(lines[1..])
  }

  /** The lines of a text have no line feeds, and put together with one between each give the text. */
  lemma {:induction false} SplitLinesJoin(s: string)
    ensures JoinLines(SplitLines(s)) == s && forall line <- SplitLines(s) :: '\n' !in line
  {
    if s == "" {
    } else {
      var rest := SplitLines(s[1..]);
      SplitLinesJoin(s[1..]);
      assert s == [s[0]] + s[1..];
      var lines := SplitLines(s);
      if s[0] == '\n' {
        assert lines[1..] == rest;
      } else {
        assert lines[1..] == rest[1..];
        if |rest| == 1 {
          assert JoinLines(lines) == [s[0]] + rest[0];
        } else {
          Regroup([s[0]], rest[0], "\n");
          Regroup([s[0]], rest[0] + "\n", JoinLines(rest[1..]));
        }
        assert forall line <- lines :: line == [s[0]] + rest[0] || line in rest;
      }
    }
  }

  /** The events of a block are those of its lines, in order. */
  lemma {:induction false} LinesAdd<V>(xs: seq<string>, line: string, parse: string -> Option<V>)
    ensures LinesEvents([], parse) == []
    ensures LinesEvents(xs + [line], parse) == LinesEvents(xs, parse) + LineEvents(line, parse)
  {
    assert (xs + [line])[..|xs|] == xs;
  }

  predicate BoundaryAt(s: string, i: int) { 0 <= i && i + 2 <= |s| && s[i] == '\n' && s[i + 1] == '\n' }

  /** text.indexOf of two line feeds, with |s| standing for "not found". */
  function FirstBoundary(s: string): (i: nat)
    ensures i <= |s|
  {
    BoundaryFrom(s, 0)
  }

  function BoundaryFrom(s: string, from: nat): (i: nat)
    requires from <= |s|
    ensures from <= i <= |s|
    decreases |s| - from
  {
    if from == |s| || BoundaryAt(s, from) then from else BoundaryFrom(s, from + 1)
  }

  lemma {:induction false} BoundaryFromIsFirst(s: string, from: nat)
    requires from <= |s|
    ensures var i := BoundaryFrom(s, from);
            (i < |s| ==> BoundaryAt(s, i)) && (forall j | from <= j < i :: !BoundaryAt(s, j))
    decreases |s| - from
  {
    if from < |s| && !BoundaryAt(s, from) {
      BoundaryFromIsFirst(s, from + 1);
    }
  }

  /** A text up to its first two line feeds is one block, and what follows them is read on. Without two line feeds
      there is none. */
  lemma FirstBlock<V>(before: string, after: string, read: string -> seq<V>)
    requires forall j | 0 <= j < |before| :: before[j] == '\n' ==> j + 1 < |before| && before[j + 1] != '\n'
    ensures Events(before + "\n\n" + after, read) == read(before) + Events(after, read)
    ensures Rest(before + "\n\n" + after) == Rest(after)
    ensures Events(before, read) == [] && Rest(before) == before
    ensures Events(before + "\n", read) == [] && Rest(before + "\n") == before + "\n"
  {
    var text, i := before + "\n\n" + after, |before|;
    FirstBoundaryIs(text, i);
    assert text[..i] == before && text[i + 2..] == after;
    BoundaryFromIsFirst(before, 0);
    BoundaryFromIsFirst(before + "\n", 0);
  }

  /** FirstBoundary finds the first blank line, and finds none exactly when there is none. */
  lemma FirstBoundaryIs(s: string, i: nat)
    requires BoundaryAt(s, i) && forall j | 0 <= j < i :: !BoundaryAt(s, j)
    ensures FirstBoundary(s) == i
  {
    BoundaryFromIsFirst(s, 0);
  }

  function BlockReader<V>(parse: string -> Option<V>): string -> seq<V> { block => BlockEvents(block, parse) }

  /** All events of a text: what `read` makes of each block that a blank line ends. */
  function Events<V>(text: string, read: string -> seq<V>): seq<V>
    decreases |text|
  {
    var i := FirstBoundary(text);
    if i + 2 > |text| then [] else read(text[..i]) + Events(text[i + 2..], read)
  }

  /** What is left after the last blank line. */
  function Rest(text: string): string
    decreases |text|
  {
    var i := FirstBoundary(text);
    if i + 2 > |text| then text else Rest(text[i + 2..])
  }

  function Concat(chunks: seq<string>): string {
    if chunks == [] then "" else Concat(chunks[..|chunks| - 1]) + chunks[|chunks| - 1]
  }

  // ------------------------------------------------------------------ chunk boundaries do not matter

  /** A boundary found in a prefix is where the whole text has its first boundary. */
  lemma BoundaryInPrefix(a: string, b: string)
    requires FirstBoundary(a) + 2 <= |a|
    ensures FirstBoundary(a + b) == FirstBoundary(a)
  {
    var i := FirstBoundary(a);
    BoundaryFromIsFirst(a, 0);
    forall j | 0 <= j <= i ensures BoundaryAt(a + b, j) == BoundaryAt(a, j) {
    }
    FirstBoundaryIs(a + b, i);
  }

  /** Reading a text in two parts, keeping what is left over, is reading it whole. */
  lemma {:induction false} EventsAppend<V>(a: string, b: string, read: string -> seq<V>)
    ensures Events(a + b, read) == Events(a, read) + Events(Rest(a) + b, read)
    ensures Rest(a + b) == Rest(Rest(a) + b)
    decreases |a|
  {
    var i := FirstBoundary(a);
    if i + 2 <= |a| {
      var tail := a[i + 2..];
      BoundaryInPrefix(a, b);
      SliceInPrefix(a, b, i);
      EventsAppend(tail, b, read);
      Regroup(read(a[..i]), Events(tail, read), Events(Rest(tail) + b, read));
    } else {
      assert [] + Events(a + b, read) == Events(a + b, read);
    }
  }

  lemma SliceInPrefix(a: string, b: string, i: nat)
    requires i + 2 <= |a|
    ensures (a + b)[..i] == a[..i] && (a + b)[i + 2..] == a[i + 2..] + b
  {
  }

  /** Taking the first block off a text. */
  lemma TakeBlock<V>(found: seq<V>, text: string, head: seq<V>, tail: string, read: string -> seq<V>)
    requires FirstBoundary(text) + 2 <= |text|
    requires head == read(text[..FirstBoundary(text)]) && tail == text[FirstBoundary(text) + 2..]
    ensures found + Events(text, read) == found + head + Events(tail, read)
    ensures Rest(text) == Rest(tail)
  {
    assert Events(text, read) == head + Events(tail, read);
    Regroup(found, head, Events(tail, read));
  }

  /** What has been yielded at any moment is a prefix of what the whole stream will yield. */
  lemma EventsOnlyGrow<V>(soFar: string, later: string, read: string -> seq<V>)
    ensures Events(soFar, read) <= Events(soFar + later, read)
  {
    EventsAppend(soFar, later, read);
  }

  /** The client's loop over the decoded network chunks. */
  method StreamResponse<V>(chunks: seq<string>, parse: string -> Option<V>) returns (yielded: seq<V>, buffer: string)
    ensures yielded == Events(Concat(chunks), BlockReader(parse))
    ensures buffer == Rest(Concat(chunks))
  {
    yielded, buffer := [], "";
    for n := 0 to |chunks|
      invariant yielded == Events(Concat(chunks[..n]), BlockReader(parse))
      invariant buffer == Rest(Concat(chunks[..n]))
    {
      assert chunks[..n + 1][..n] == chunks[..n];
      EventsAppend(Concat(chunks[..n]), chunks[n], BlockReader(parse));
      var found;
      found, buffer := Drain(buffer + chunks[n], parse);
      yielded := yielded + found;
    }
    assert chunks[..|chunks|] == chunks;
  }

  /** The loop that takes complete blocks off the buffer. */
  method Drain<V>(text: string, parse: string -> Option<V>) returns (found: seq<V>, buffer: string)
    ensures found == Events(text, BlockReader(parse)) && buffer == Rest(text)
  {
    ghost var read := BlockReader(parse);
    found, buffer := [], text;
    var boundaryIndex := FirstBoundary(buffer);
    assert [] + Events(text, read) == Events(text, read);
    while boundaryIndex + 2 <= |buffer|
      invariant boundaryIndex == FirstBoundary(buffer)
      invariant found + Events(buffer, read) == Events(text, read)
      invariant Rest(buffer) == Rest(text)
      decreases |buffer|
    {
      var rawEvent := buffer[..boundaryIndex];
      var events := ReadBlock(rawEvent, parse);
      TakeBlock(found, buffer, events, buffer[boundaryIndex + 2..], read);
      buffer := buffer[boundaryIndex + 2..];
      found := found + events;
      boundaryIndex := FirstBoundary(buffer);
    }
  }

  /** The loop over the lines of one block. */
  method ReadBlock<V>(rawEvent: string, parse: string -> Option<V>) returns (found: seq<V>)
    ensures found == BlockEvents(rawEvent, parse)
  {
    found := [];
    var lines := SplitLines(rawEvent);
    for i := 0 to |lines|
      invariant found == LinesEvents(lines[..i], parse)
    {
      assert lines[..i + 1][..i] == lines[..i];
      var trimmed := JsTrim(lines[i]);
      if !(FIELD <= trimmed) {
        continue;
      }
      var json := JsTrimStart(trimmed[|FIELD|..]);
      if json == "" {
        continue;
      }
      match parse(json) {
        case None =>
        case Some(v) => found := found + [v];
      }
    }
    assert lines[..|lines|] == lines;
  }

  // ------------------------------------------------------------------ printing

  /** The response body that the server writes to. */
  class ResponseWriter {
    var written: string

    constructor ()
      ensures written == ""
    {
      written := "";
    }

    /** streamFn: one frame for a chunk that marshals, nothing for one that does not. */
    method Stream<V>(chunk: V, marshal: V -> Option<string>)
      modifies this
      ensures written == old(written) + Frame(chunk, marshal)
    {
      var data := marshal(chunk);
      if data.None? {
        return;
      }
      written := written + "data: ";
      written := written + data.value;
      written := written + "\n\n";
      assert written == old(written) + Frame(chunk, marshal);
    }
  }

  function Frame<V>(chunk: V, marshal: V -> Option<string>): string {
    match marshal(chunk) { case None => "" case Some(p) => "data: " + p + "\n\n" }
  }

  function Printed<V>(chunks: seq<V>, marshal: V -> Option<string>): string {
    if chunks == [] then "" else Printed(chunks[..|chunks| - 1], marshal) + Frame(chunks[|chunks| - 1], marshal)
  }

  /** The chunks that marshal, in order. */
  function Marshalled<V>(chunks: seq<V>, marshal: V -> Option<string>): seq<V> {
    if chunks == [] then []
    else
      var n := |chunks| - 1;
      Marshalled(chunks[..n], marshal) + (if marshal(chunks[n]).Some? then [chunks[n]] else [])
  }

  /** Marshalled JSON objects have no raw line feed, and what was marshalled parses back. */
  ghost predicate JsonObjects<V(!new)>(marshal: V -> Option<string>, parse: string -> Option<V>) {
    forall v: V | marshal(v).Some? ::
      var p := marshal(v).value;
      |p| >= 2 && p[0] == '{' && p[|p| - 1] == '}' && '\n' !in p && parse(p) == Some(v)
  }

  lemma {:induction false} OneLine(s: string)
    requires '\n' !in s
    ensures SplitLines(s) == [s]
  {
    if s == [] {
    } else {
      OneLine(s[1..]);
      assert [s[0]] + s[1..] == s;
    }
  }

  /** A frame is one block holding one data line. */
  lemma FrameEvents<V(!new)>(v: V, marshal: V -> Option<string>, parse: string -> Option<V>)
    requires JsonObjects(marshal, parse)
    ensures Events(Frame(v, marshal), BlockReader(parse)) == if marshal(v).Some? then [v] else []
    ensures Rest(Frame(v, marshal)) == ""
  {
    if marshal(v).Some? {
      var p := marshal(v).value;
      var line := "data: " + p;
      var f := Frame(v, marshal);
      LineBoundary(line);
      assert f == line + "\n\n" && f[..|line|] == line && f[|line| + 2..] == "";
      assert FirstBoundary(f) == |line|;
      OneLine(line);
      assert JsTrim(line) == line;
      assert line[|FIELD|..] == " " + p;
      assert JsTrimStart(" " + p) == p by { assert (" " + p)[1..] == p; }
      assert LineEvents(line, parse) == [v];
      assert LinesEvents([line], parse) == [v] by { assert [line][..0] == []; }
    }
  }

  lemma LineBoundary(line: string)
    requires '\n' !in line
    ensures FirstBoundary(line + "\n\n") == |line|
  {
    var f := line + "\n\n";
    forall j | 0 <= j <= |line| ensures BoundaryAt(f, j) == (j == |line|) {
      if j < |line| {
        assert f[j] == line[j];
      }
    }
    FirstBoundaryIs(f, |line|);
  }

  /** Printing and then parsing gives back exactly the chunks that marshalled and leaves the buffer empty. */
  lemma {:induction false} PrintedEvents<V(!new)>(chunks: seq<V>, marshal: V -> Option<string>,
                                                 parse: string -> Option<V>)
    requires JsonObjects(marshal, parse)
    ensures Events(Printed(chunks, marshal), BlockReader(parse)) == Marshalled(chunks, marshal)
    ensures Rest(Printed(chunks, marshal)) == ""
  {
    if chunks == [] {
    } else {
      var n := |chunks| - 1;
      var f := Frame(chunks[n], marshal);
      PrintedEvents(chunks[..n], marshal, parse);
      EventsAppend(Printed(chunks[..n], marshal), f, BlockReader(parse));
      assert "" + f == f;
      FrameEvents(chunks[n], marshal, parse);
    }
  }

  /** However the network cuts the server's output into chunks, the client yields what was streamed. */
  method RoundTrip<V(!new)>(chunks: seq<V>, network: seq<string>, marshal: V -> Option<string>,
                            parse: string -> Option<V>)
    returns (yielded: seq<V>, buffer: string)
    requires JsonObjects(marshal, parse)
    requires Concat(network) == Printed(chunks, marshal)
    ensures yielded == Marshalled(chunks, marshal) && buffer == ""
  {
    yielded, buffer := StreamResponse(network, parse);
    PrintedEvents(chunks, marshal, parse);
  }
}
