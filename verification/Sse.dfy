/**
 The SDK's parser of `text/event-stream`: lines end in LF, CR or CRLF, a blank line dispatches,
 ids are carried forward. Chunks arrive decoded, cut anywhere.
 */
module Sse {
  import opened Prelude

  datatype ServerSentEvent = ServerSentEvent(event: string, data: string, id: Option<string>)

  /** The fields collected since the last dispatch; `id` outlives it. */
  datatype Pending = Pending(event: Option<string>, id: Option<string>, dataLines: seq<string>)

  function IndexOfLineEnd(s: string): (i: int)
    ensures -1 <= i < |s|
    ensures i == -1 <==> NoLineEnd(s)
    ensures i >= 0 ==> (s[i] == '\n' || s[i] == '\r') && NoLineEnd(s[..i])
  {
    var lf, cr := IndexOf(s, '\n'), IndexOf(s, '\r');
    if lf == -1 then cr else if cr == -1 then lf else if lf < cr then lf else cr
  }

  predicate NoLineEnd(s: string) {
    '\n' !in s && '\r' !in s
  }

  function LineEndLength(s: string, i: nat): (n: nat)
    requires i < |s|
    ensures 1 <= n && i + n <= |s|
  {
    if s[i] == '\r' && i + 1 < |s| && s[i + 1] == '\n' then 2 else 1
  }

  function Dispatched(p: Pending): seq<ServerSentEvent> {
    if p.dataLines == [] && p.event.None? then []
    else [ServerSentEvent(if p.event.Some? then p.event.value else "message", Joined(p.dataLines), p.id)]
  }

  function Joined(lines: seq<string>): string {
    if lines == [] then "" else Join(lines)
  }

  function Cleared(p: Pending): Pending {
    p.(event := None, dataLines := [])
  }

  function Field(line: string): string {
    var sep := IndexOf(line, ':');
    if sep == -1 then line else line[..sep]
  }

  function Unspaced(s: string): string {
    if s != "" && s[0] == ' ' then s[1..] else s
  }

  function Value(line: string): string {
    var sep := IndexOf(line, ':');
    if sep == -1 then "" else Unspaced(line[sep + 1..])
  }

  /** A line that is not blank. */
  function WithLine(p: Pending, line: string): Pending
    requires line != ""
  {
    if line[0] == ':' then p
    else if Field(line) == "event" then p.(event := Some(Value(line)))
    else if Field(line) == "data" then p.(dataLines := p.dataLines + [Value(line)])
    else if Field(line) == "id" then p.(id := Some(Value(line)))
    else p
  }

  function LineEvents(p: Pending, line: string): seq<ServerSentEvent> {
    if line == "" then Dispatched(p) else []
  }

  function AfterLine(p: Pending, line: string): Pending {
    if line == "" then (if Dispatched(p) == [] then p else Cleared(p)) else WithLine(p, line)
  }

  /** The events of these lines and of the end of the stream after them. */
  function Total(p: Pending, lines: seq<string>): seq<ServerSentEvent>
    decreases |lines|
  {
    if lines == [] then Dispatched(p) else LineEvents(p, lines[0]) + Total(AfterLine(p, lines[0]), lines[1..])
  }

  /** The complete lines of a text, the first with `current` before it, and what is left. */
  datatype Split = Split(lines: seq<string>, rest: string)

  function LinesFrom(current: string, text: string): Split
    decreases |text|
  {
    if text == "" then Split([], current)
    else if text[0] == '\n' || text[0] == '\r' then
      var more := LinesFrom("", text[LineEndLength(text, 0)..]);
      more.(lines := [current] + more.lines)
    else LinesFrom(current + [text[0]], text[1..])
  }

  function Lines(text: string): Split {
    LinesFrom("", text)
  }

  /** The lines of a stream read in these chunks; a last line without an end is not read. */
  function LinesRead(chunks: seq<string>, buffer: string): seq<string>
    decreases |chunks|
  {
    if chunks == [] then []
    else
      var s := LinesFrom(buffer, chunks[0]);
      s.lines + LinesRead(chunks[1..], s.rest)
  }

  const START := Pending(None, None, [])

  function EventsOf(chunks: seq<string>): seq<ServerSentEvent> {
    Total(START, LinesRead(chunks, ""))
  }

  /** Text before the first line end joins the line being read. */
  lemma {:induction false} SkipTo(current: string, text: string, i: nat)
    requires i <= |text| && NoLineEnd(text[..i])
    ensures LinesFrom(current, text) == LinesFrom(current + text[..i], text[i..])
    decreases i
  {
    if i == 0 {
      assert current + text[..0] == current && text[0..] == text;
    } else {
      var rest := text[1..];
      assert text[..i][0] == text[0] && text[..i][1..] == rest[..i-1];
      SkipTo(current + [text[0]], rest, i - 1);
      assert current + [text[0]] + rest[..i-1] == current + text[..i];
    }
  }

  /** The loop's way to the next line is the definition's. */
  lemma TakeLine(buffer: string)
    ensures var i := IndexOfLineEnd(buffer);
            if i == -1 then Lines(buffer) == Split([], buffer)
            else
              var more := Lines(buffer[i + LineEndLength(buffer, i)..]);
              Lines(buffer) == Split([buffer[..i]] + more.lines, more.rest)
  {
    var i := IndexOfLineEnd(buffer);
    if i == -1 {
      assert buffer[..|buffer|] == buffer;
      SkipTo("", buffer, |buffer|);
      assert "" + buffer == buffer;
    } else {
      SkipTo("", buffer, i);
      assert "" + buffer[..i] == buffer[..i];
      LineTaken(buffer, i);
    }
  }

  lemma LineTaken(text: string, i: nat)
    requires i < |text| && (text[i] == '\n' || text[i] == '\r')
    ensures var more := Lines(text[i + LineEndLength(text, i)..]);
            LinesFrom(text[..i], text[i..]) == Split([text[..i]] + more.lines, more.rest)
  {
  }

  method ReadLine(line: string, p: Pending) returns (events: seq<ServerSentEvent>, q: Pending)
    ensures events == LineEvents(p, line) && q == AfterLine(p, line)
  {
    var event, id, dataLines := p.event, p.id, p.dataLines;
    events := [];
    if line == "" {
      if dataLines != [] || event.Some? {
        events := [ServerSentEvent(if event.Some? then event.value else "message", Joined(dataLines), id)];
        event, dataLines := None, [];
      }
    } else if line[0] != ':' {
      var field, value := Field(line), Value(line);
      if field == "event" {
        event := Some(value);
      } else if field == "data" {
        dataLines := dataLines + [value];
      } else if field == "id" {
        id := Some(value);
      }
    }
    q := Pending(event, id, dataLines);
  }

  lemma TakeStep(p: Pending, buffer: string, later: seq<string>)
    requires !NoLineEnd(buffer)
    ensures var i := IndexOfLineEnd(buffer);
            var rest := buffer[i + LineEndLength(buffer, i)..];
            && Lines(buffer).rest == Lines(rest).rest
            && Total(p, Lines(buffer).lines + later)
               == LineEvents(p, buffer[..i]) + Total(AfterLine(p, buffer[..i]), Lines(rest).lines + later)
  {
    TakeLine(buffer);
    var i := IndexOfLineEnd(buffer);
    FirstOf(p, buffer[..i], Lines(buffer[i + LineEndLength(buffer, i)..]).lines, later);
  }

  lemma FirstOf(p: Pending, line: string, more: seq<string>, later: seq<string>)
    ensures Total(p, [line] + more + later) == LineEvents(p, line) + Total(AfterLine(p, line), more + later)
  {
    TotalOfFirst(p, line, more + later);
    assert [line] + more + later == [line] + (more + later);
  }

  method ReadNext(buffer: string, p: Pending, ghost later: seq<string>)
    returns (events: seq<ServerSentEvent>, q: Pending, rest: string)
    requires !NoLineEnd(buffer)
    ensures |rest| < |buffer| && Lines(rest).rest == Lines(buffer).rest
    ensures events + Total(q, Lines(rest).lines + later) == Total(p, Lines(buffer).lines + later)
  {
    TakeStep(p, buffer, later);
    var lineEnd := IndexOfLineEnd(buffer);
    var line := buffer[..lineEnd];
    rest := buffer[lineEnd + LineEndLength(buffer, lineEnd)..];
    events, q := ReadLine(line, p);
  }

  method ReadChunk(start: string, p: Pending, ghost later: seq<string>)
    returns (events: seq<ServerSentEvent>, q: Pending, buffer: string)
    ensures buffer == Lines(start).rest && NoLineEnd(buffer)
    ensures events + Total(q, later) == Total(p, Lines(start).lines + later)
  {
    events, q, buffer := [], p, start;
    ghost var target := Total(p, Lines(start).lines + later);
    while IndexOfLineEnd(buffer) != -1
      invariant Lines(buffer).rest == Lines(start).rest
      invariant events + Total(q, Lines(buffer).lines + later) == target
      decreases |buffer|
    {
      var more;
      more, q, buffer := ReadNext(buffer, q, later);
      Regroup(events, more, Total(q, Lines(buffer).lines + later));
      events := events + more;
    }
    TakeLine(buffer);
    assert [] + later == later;
  }

  lemma TotalOfFirst(p: Pending, line: string, more: seq<string>)
    ensures Total(p, [line] + more) == LineEvents(p, line) + Total(AfterLine(p, line), more)
  {
  }

  method ParseSse(chunks: seq<string>) returns (events: seq<ServerSentEvent>)
    ensures events == EventsOf(chunks)
  {
    events := [];
    var buffer, p := "", START;
    for k := 0 to |chunks|
      invariant NoLineEnd(buffer)
      invariant events + Total(p, LinesRead(chunks[k..], buffer)) == EventsOf(chunks)
    {
      var text := buffer + chunks[k];
      assert chunks[k..][1..] == chunks[k+1..];
      assert text[..|buffer|] == buffer && text[|buffer|..] == chunks[k] && "" + buffer == buffer;
      SkipTo("", text, |buffer|);
      var more;
      more, p, buffer := ReadChunk(text, p, LinesRead(chunks[k+1..], Lines(text).rest));
      Regroup(events, more, Total(p, LinesRead(chunks[k+1..], buffer)));
      events := events + more;
    }
    events := events + Dispatched(p);
  }

  // ---- Chunking ----

  predicate CutsCrlf(a: string, b: string) {
    a != "" && b != "" && a[|a|-1] == '\r' && b[0] == '\n'
  }

  /** The lines of a text cut in two are those of the parts, what the first leaves joined to the second. */
  lemma {:induction false} LinesInParts(current: string, a: string, b: string)
    requires !CutsCrlf(a, b)
    ensures var s := LinesFrom(current, a);
            var t := LinesFrom(s.rest, b);
            LinesFrom(current, a + b) == Split(s.lines + t.lines, t.rest)
    decreases |a|
  {
    if a == "" {
      assert a + b == b;
    } else if a[0] == '\n' || a[0] == '\r' {
      var n := LineEndLength(a, 0);
      assert LineEndLength(a + b, 0) == n && (a + b)[n..] == a[n..] + b;
      LinesInParts("", a[n..], b);
    } else {
      assert (a + b)[1..] == a[1..] + b;
      LinesInParts(current + [a[0]], a[1..], b);
    }
  }

  predicate CrlfWhole(chunks: seq<string>) {
    forall k :: 0 <= k < |chunks| ==> !CutsCrlf(chunks[k], Concat(chunks[k+1..]))
  }

  lemma CrlfWholeTail(chunks: seq<string>)
    requires CrlfWhole(chunks) && chunks != []
    ensures CrlfWhole(chunks[1..]) && !CutsCrlf(chunks[0], Concat(chunks[1..]))
  {
  }

  lemma {:induction false} ChunkingFrom(chunks: seq<string>, buffer: string)
    requires CrlfWhole(chunks)
    ensures LinesRead(chunks, buffer) == LinesFrom(buffer, Concat(chunks)).lines
    decreases |chunks|
  {
    if chunks != [] {
      CrlfWholeTail(chunks);
      ChunkingFrom(chunks[1..], LinesFrom(buffer, chunks[0]).rest);
      LinesInParts(buffer, chunks[0], Concat(chunks[1..]));
    }
  }

  lemma LinesReadOnce(text: string)
    ensures LinesRead([text], "") == Lines(text).lines
  {
  }

  /** What is parsed depends on the text alone, when no chunk ends inside a CRLF. */
  lemma ChunkInvariance(chunks: seq<string>)
    requires CrlfWhole(chunks)
    ensures EventsOf(chunks) == EventsOf([Concat(chunks)])
  {
    ChunkingFrom(chunks, "");
    LinesReadOnce(Concat(chunks));
  }

  // ---- A CRLF cut in two ----

  predicate EndsInCr(a: string) {
    a != "" && a[|a|-1] == '\r'
  }

  lemma LinesOfFeed(b: string)
    ensures Lines("\n" + b) == Split([""] + Lines(b).lines, Lines(b).rest)
  {
  }

  lemma CrlfAtEnd(current: string, a: string, feed: string)
    requires a == "\r" && feed != "" && feed[0] == '\n'
    ensures LinesFrom(current, a) == Split([current], "")
    ensures LinesFrom(current, a + feed) == Split([current] + Lines(feed[1..]).lines, Lines(feed[1..]).rest)
  {
    assert (a + feed)[0] == '\r' && (a + feed)[1] == '\n' && (a + feed)[2..] == feed[1..];
  }

  lemma LineEndFirst(current: string, a: string, feed: string)
    requires |a| > 1 && (a[0] == '\n' || a[0] == '\r')
    ensures LineEndLength(a + feed, 0) == LineEndLength(a, 0)
    ensures (a + feed)[LineEndLength(a, 0)..] == a[LineEndLength(a, 0)..] + feed
  {
  }

  lemma {:induction false} LinesOfCrlf(current: string, a: string, feed: string)
    requires EndsInCr(a) && feed != "" && feed[0] == '\n'
    ensures LinesFrom(current, a).rest == ""
    ensures LinesFrom(current, a + feed) == Split(LinesFrom(current, a).lines + Lines(feed[1..]).lines, Lines(feed[1..]).rest)
    decreases |a|
  {
    if |a| == 1 {
      CrlfAtEnd(current, a, feed);
    } else if a[0] == '\n' || a[0] == '\r' {
      LineEndFirst(current, a, feed);
      LinesOfCrlf("", a[LineEndLength(a, 0)..], feed);
    } else {
      assert (a + feed)[1..] == a[1..] + feed;
      LinesOfCrlf(current + [a[0]], a[1..], feed);
    }
  }

  function EventsOfLines(p: Pending, lines: seq<string>): seq<ServerSentEvent>
    decreases |lines|
  {
    if lines == [] then [] else LineEvents(p, lines[0]) + EventsOfLines(AfterLine(p, lines[0]), lines[1..])
  }

  function AfterLines(p: Pending, lines: seq<string>): Pending
    decreases |lines|
  {
    if lines == [] then p else AfterLines(AfterLine(p, lines[0]), lines[1..])
  }

  lemma {:induction false} TotalInParts(p: Pending, a: seq<string>, b: seq<string>)
    ensures Total(p, a + b) == EventsOfLines(p, a) + Total(AfterLines(p, a), b)
    decreases |a|
  {
    if a == [] {
      assert a + b == b;
    } else {
      assert (a + b)[1..] == a[1..] + b;
      TotalInParts(AfterLine(p, a[0]), a[1..], b);
    }
  }

  lemma CutLines(a: string, b: string)
    requires EndsInCr(a)
    ensures LinesRead([a + ("\n" + b)], "") == Lines(a).lines + Lines(b).lines
    ensures LinesRead([a, "\n" + b], "") == Lines(a).lines + ([""] + Lines(b).lines)
  {
    assert ("\n" + b)[1..] == b;
    LinesOfCrlf("", a, "\n" + b);
    LinesOfFeed(b);
    LinesReadOnce(a + ("\n" + b));
    LinesReadOnce("\n" + b);
    assert [a, "\n" + b][1..] == ["\n" + b];
  }

  /** Text cut inside a CRLF parses as the whole text with a blank line where it was cut. */
  lemma CutCrlf(a: string, b: string)
    requires EndsInCr(a)
    ensures var p := AfterLines(START, Lines(a).lines);
            var events := EventsOfLines(START, Lines(a).lines);
            && EventsOf([a + ("\n" + b)]) == events + Total(p, Lines(b).lines)
            && EventsOf([a, "\n" + b]) == events + (Dispatched(p) + Total(AfterLine(p, ""), Lines(b).lines))
  {
    CutLines(a, b);
    TotalInParts(START, Lines(a).lines, Lines(b).lines);
    TotalInParts(START, Lines(a).lines, [""] + Lines(b).lines);
    assert ([""] + Lines(b).lines)[1..] == Lines(b).lines;
  }

  const MORE := "data: x\n\n"

  lemma LinesOfLine(line: string, b: string)
    requires NoLineEnd(line)
    ensures Lines(line + "\n" + b) == Split([line] + Lines(b).lines, Lines(b).rest)
  {
    var s := line + "\n" + b;
    assert s[..|line|] == line && s[|line|..] == "\n" + b && "" + line == line;
    SkipTo("", s, |line|);
    assert ("\n" + b)[1..] == b;
  }

  lemma TotalOfMore(p: Pending)
    ensures |Total(p, Lines(MORE).lines)| == 1
  {
    LinesOfMore();
    TotalOfLine(p, "data", "x", [""]);
    var q := Gathered(p, "data", "x");
    TotalOfFirst(q, "", []);
    assert [""] + [] == [""];
  }

  lemma LinesOfMore()
    ensures Lines(MORE).lines == ["data" + ": " + "x"] + [""]
  {
    LinesOfLine("data" + ": " + "x", "\n");
    LinesOfFeed("");
    assert "data" + ": " + "x" + "\n" + "\n" == MORE && "\n" + "" == "\n";
  }

  lemma PendingShows(a: string)
    requires EndsInCr(a) && Dispatched(AfterLines(START, Lines(a).lines)) != []
    ensures |EventsOf([a, "\n" + MORE])| == |EventsOf([a + ("\n" + MORE)])| + 1
  {
    var p := AfterLines(START, Lines(a).lines);
    CutCrlf(a, MORE);
    TotalOfMore(p);
    TotalOfMore(AfterLine(p, ""));
  }

  predicate CutInvisible(a: string, b: string) {
    EventsOf([a, "\n" + b]) == EventsOf([a + ("\n" + b)])
  }

  lemma NothingPendingHides(a: string, b: string)
    requires EndsInCr(a) && Dispatched(AfterLines(START, Lines(a).lines)) == []
    ensures CutInvisible(a, b)
  {
    CutCrlf(a, b);
  }

  /** Cutting a CRLF is invisible, whatever follows, exactly when nothing is pending there. */
  lemma CutIsInvisibleIff(a: string)
    requires EndsInCr(a)
    ensures (forall b :: CutInvisible(a, b)) <==> Dispatched(AfterLines(START, Lines(a).lines)) == []
  {
    if Dispatched(AfterLines(START, Lines(a).lines)) == [] {
      forall b ensures CutInvisible(a, b) {
        NothingPendingHides(a, b);
      }
    } else {
      PendingShows(a);
      assert !CutInvisible(a, MORE);
    }
  }

  /** Nothing is pending wherever a chunk ends inside a CRLF. */
  predicate CutsAreQuiet(p: Pending, chunks: seq<string>, buffer: string)
    decreases |chunks|
  {
    chunks == [] ||
    var s := LinesFrom(buffer, chunks[0]);
    var q := AfterLines(p, s.lines);
    (CutsCrlf(chunks[0], Concat(chunks[1..])) ==> Dispatched(q) == []) && CutsAreQuiet(q, chunks[1..], s.rest)
  }

  lemma QuietBlank(p: Pending, lines: seq<string>)
    requires Dispatched(p) == []
    ensures Total(p, [""] + lines) == Total(p, lines)
  {
  }

  /** A feed that opens a chunk is a blank line for the reader, and nothing for the text. */
  lemma QuietCut(p: Pending, current: string, a: string, feed: string)
    requires EndsInCr(a) && feed != "" && feed[0] == '\n'
    ensures var s := LinesFrom(current, a);
            Dispatched(AfterLines(p, s.lines)) == [] ==>
              s.rest == "" && EventsOfLines(p, s.lines) + Total(AfterLines(p, s.lines), Lines(feed).lines)
                              == Total(p, LinesFrom(current, a + feed).lines)
  {
    var s := LinesFrom(current, a);
    var more := Lines(feed[1..]).lines;
    LinesOfCrlf(current, a, feed);
    TotalInParts(p, s.lines, more);
    assert feed == "\n" + feed[1..];
    LinesOfFeed(feed[1..]);
    if Dispatched(AfterLines(p, s.lines)) == [] {
      QuietBlank(AfterLines(p, s.lines), more);
    }
  }

  lemma {:induction false} QuietFrom(p: Pending, chunks: seq<string>, buffer: string)
    requires CutsAreQuiet(p, chunks, buffer)
    ensures Total(p, LinesRead(chunks, buffer)) == Total(p, LinesFrom(buffer, Concat(chunks)).lines)
    decreases |chunks|
  {
    if chunks != [] {
      var s, rest := LinesFrom(buffer, chunks[0]), Concat(chunks[1..]);
      var q := AfterLines(p, s.lines);
      QuietFrom(q, chunks[1..], s.rest);
      TotalInParts(p, s.lines, LinesRead(chunks[1..], s.rest));
      if CutsCrlf(chunks[0], rest) {
        QuietCut(p, buffer, chunks[0], rest);
      } else {
        LinesInParts(buffer, chunks[0], rest);
        TotalInParts(p, s.lines, LinesFrom(s.rest, rest).lines);
      }
    }
  }

  /** However a text is cut, the events are those of the text when nothing is pending at each cut CRLF. */
  lemma QuietCutsAreInvisible(chunks: seq<string>)
    requires CutsAreQuiet(START, chunks, "")
    ensures EventsOf(chunks) == EventsOf([Concat(chunks)])
  {
    QuietFrom(START, chunks, "");
    LinesReadOnce(Concat(chunks));
  }

  lemma LinesOfCr(line: string)
    requires NoLineEnd(line)
    ensures Lines(line + "\r") == Split([line], "")
  {
    var s := line + "\r";
    assert s[..|line|] == line && s[|line|..] == "\r" && "" + line == line;
    SkipTo("", s, |line|);
  }

  lemma LinesOfOneData(value: string)
    requires NoLineEnd(value)
    ensures Lines("data" + ": " + value + "\n" + "\n").lines == ["data" + ": " + value] + [""]
  {
    LinesOfLine("data" + ": " + value, "\n");
    LinesOfFeed("");
    assert "\n" + "" == "\n";
  }

  lemma TotalOfOneData(p: Pending, value: string)
    ensures Total(p, ["data" + ": " + value] + [""]) == Dispatched(p.(dataLines := p.dataLines + [value]))
  {
    TotalOfLine(p, "data", value, [""]);
    TotalOfFirst(Gathered(p, "data", value), "", []);
    assert [""] + [] == [""];
  }

  lemma OneDataPending(x: string)
    requires NoLineEnd(x)
    ensures var a := "data" + ": " + x + "\r";
            && EndsInCr(a) && EventsOfLines(START, Lines(a).lines) == []
            && AfterLines(START, Lines(a).lines) == Pending(None, None, [x])
  {
    var line := "data" + ": " + x;
    LinesOfCr(line);
    FieldLine("data", x);
    assert AfterLine(START, line) == Pending(None, None, [x]) && [line][1..] == [];
  }

  lemma OneOrTwo(a: string, b: string, x: string, y: string)
    requires EndsInCr(a) && EventsOfLines(START, Lines(a).lines) == []
    requires AfterLines(START, Lines(a).lines) == Pending(None, None, [x])
    requires Total(Pending(None, None, [x]), Lines(b).lines) == Dispatched(Pending(None, None, [x, y]))
    requires Total(START, Lines(b).lines) == Dispatched(Pending(None, None, [y]))
    ensures EventsOf([a + ("\n" + b)]) == [ServerSentEvent("message", x + ("\n" + y), None)]
    ensures EventsOf([a, "\n" + b]) == [ServerSentEvent("message", x, None), ServerSentEvent("message", y, None)]
  {
    CutCrlf(a, b);
    JoinHead(x, [y]);
    assert [x] + [y] == [x, y];
    assert AfterLine(Pending(None, None, [x]), "") == START;
  }

  /** One event of two data lines, or two events when a chunk ends inside the CRLF between them. */
  lemma CutCrlfCanShow(x: string, y: string)
    requires NoLineEnd(x) && NoLineEnd(y)
    ensures var a, b := "data" + ": " + x + "\r", "data" + ": " + y + "\n" + "\n";
            && EventsOf([a + ("\n" + b)]) == [ServerSentEvent("message", x + ("\n" + y), None)]
            && EventsOf([a, "\n" + b]) == [ServerSentEvent("message", x, None), ServerSentEvent("message", y, None)]
  {
    OneDataPending(x);
    LinesOfOneData(y);
    TotalOfOneData(Pending(None, None, [x]), y);
    TotalOfOneData(START, y);
    assert [x] + [y] == [x, y] && [] + [y] == [y];
    OneOrTwo("data" + ": " + x + "\r", "data" + ": " + y + "\n" + "\n", x, y);
  }

  // ---- Round trip ----

  lemma FieldLine(name: string, value: string)
    requires name != "" && ':' !in name
    ensures var line := name + ": " + value;
            line[0] != ':' && Field(line) == name && Value(line) == value
  {
    var line := name + ": " + value;
    assert line[|name|] == ':' && line[..|name|] == name;
    FirstAt(line, ':', |name|);
    assert line[|name| + 1..] == " " + value && (" " + value)[1..] == value;
  }

  function DataField(lines: seq<string>): string {
    if lines == [] then "" else "data" + ": " + lines[0] + "\n" + DataField(lines[1..])
  }

  function IdField(id: Option<string>): string {
    if id.None? then "" else "id" + ": " + id.value + "\n"
  }

  /** An event as the server writes it, its data one line per line. */
  function Frame(e: ServerSentEvent): string {
    "event" + ": " + e.event + "\n" + (DataField(SplitFrom("", e.data)) + (IdField(e.id) + "\n"))
  }

  function Serialise(events: seq<ServerSentEvent>): string {
    if events == [] then "" else Frame(events[0]) + Serialise(events[1..])
  }

  predicate Writable(e: ServerSentEvent) {
    NoLineEnd(e.event) && '\r' !in e.data && (e.id.Some? ==> NoLineEnd(e.id.value))
  }

  /** Each event with the last id at or before it. */
  function Carried(events: seq<ServerSentEvent>, id: Option<string>): seq<ServerSentEvent> {
    if events == [] then []
    else
      var last := if events[0].id.Some? then events[0].id else id;
      [events[0].(id := last)] + Carried(events[1..], last)
  }

  function DataLines(lines: seq<string>): seq<string> {
    if lines == [] then [] else ["data" + ": " + lines[0]] + DataLines(lines[1..])
  }

  function IdLines(id: Option<string>): seq<string> {
    if id.None? then [] else ["id" + ": " + id.value]
  }

  function FrameLines(e: ServerSentEvent): seq<string> {
    ["event" + ": " + e.event] + (DataLines(SplitFrom("", e.data)) + (IdLines(e.id) + [""]))
  }

  lemma {:induction false} LinesOfData(lines: seq<string>, b: string)
    requires forall i :: 0 <= i < |lines| ==> NoLineEnd(lines[i])
    ensures Lines(DataField(lines) + b) == Split(DataLines(lines) + Lines(b).lines, Lines(b).rest)
  {
    if lines == [] {
      assert DataField(lines) + b == b;
    } else {
      var tail := DataField(lines[1..]) + b;
      assert DataField(lines) + b == "data" + ": " + lines[0] + "\n" + tail;
      LinesOfLine("data" + ": " + lines[0], tail);
      LinesOfData(lines[1..], b);
    }
  }

  lemma LinesOfId(id: Option<string>, b: string)
    requires id.Some? ==> NoLineEnd(id.value)
    ensures Lines(IdField(id) + b) == Split(IdLines(id) + Lines(b).lines, Lines(b).rest)
  {
    if id.Some? {
      LinesOfLine("id" + ": " + id.value, b);
    } else {
      assert "" + b == b;
    }
  }

  lemma {:induction false} PiecesHaveNo(current: string, text: string, c: char)
    requires c !in current && c !in text
    ensures forall line :: line in SplitFrom(current, text) ==> c !in line
    decreases |text|
  {
    if text != "" {
      if text[0] == '\n' {
        PiecesHaveNo("", text[1..], c);
      } else {
        PiecesHaveNo(current + [text[0]], text[1..], c);
      }
    }
  }

  lemma LinesOfFrame(e: ServerSentEvent, b: string)
    requires Writable(e)
    ensures Lines(Frame(e) + b) == Split(FrameLines(e) + Lines(b).lines, Lines(b).rest)
  {
    var pieces := SplitFrom("", e.data);
    PiecesHaveNoFeed("", e.data);
    PiecesHaveNo("", e.data, '\r');
    var blank := "\n" + b;
    var ided := IdField(e.id) + blank;
    var rest := DataField(pieces) + ided;
    assert Frame(e) + b == "event" + ": " + e.event + "\n" + rest;
    LinesOfLine("event" + ": " + e.event, rest);
    LinesOfData(pieces, ided);
    LinesOfId(e.id, blank);
    LinesOfFeed(b);
    assert FrameLines(e) + Lines(b).lines
        == ["event" + ": " + e.event] + (DataLines(pieces) + (IdLines(e.id) + ([""] + Lines(b).lines)));
  }

  function Gathered(p: Pending, name: string, value: string): Pending {
    if name == "event" then p.(event := Some(value))
    else if name == "data" then p.(dataLines := p.dataLines + [value])
    else if name == "id" then p.(id := Some(value))
    else p
  }

  lemma FieldOfName(name: string)
    requires ':' !in name
    ensures Field(name) == name && Value(name) == ""
  {
  }

  lemma FieldUnspaced(name: string, value: string)
    requires ':' !in name && !([' '] <= value)
    ensures Field(name + ":" + value) == name && Value(name + ":" + value) == value
  {
    var line := name + ":" + value;
    assert line[|name|] == ':' && line[..|name|] == name && line[|name| + 1..] == value;
    FirstAt(line, ':', |name|);
  }

  lemma Gathers(p: Pending, line: string, name: string, value: string)
    requires line != "" && line[0] != ':' && Field(line) == name && Value(line) == value
    ensures WithLine(p, line) == Gathered(p, name, value)
  {
  }

  lemma CommentGathersNothing(p: Pending, text: string)
    ensures WithLine(p, ":" + text) == p
  {
  }

  /**
   What any line means. It is blank, a comment, a name alone, or a name, a colon and a value, whose
   first space does not count; only the three names gather anything.
   */
  lemma LineMeans(p: Pending, name: string, value: string)
    requires name != "" && ':' !in name
    ensures WithLine(p, ":" + value) == p
    ensures WithLine(p, name) == Gathered(p, name, "")
    ensures WithLine(p, name + ": " + value) == Gathered(p, name, value)
    ensures !([' '] <= value) ==> WithLine(p, name + ":" + value) == Gathered(p, name, value)
  {
    CommentGathersNothing(p, value);
    FieldOfName(name);
    Gathers(p, name, name, "");
    FieldLine(name, value);
    Gathers(p, name + ": " + value, name, value);
    if !([' '] <= value) {
      FieldUnspaced(name, value);
      Gathers(p, name + ":" + value, name, value);
    }
  }

  lemma TotalOfLine(p: Pending, name: string, value: string, more: seq<string>)
    requires name != "" && ':' !in name
    ensures Total(p, [name + ": " + value] + more) == Total(Gathered(p, name, value), more)
  {
    FieldLine(name, value);
    Gathers(p, name + ": " + value, name, value);
    TotalOfFirst(p, name + ": " + value, more);
  }

  lemma TotalOfFirstData(p: Pending, lines: seq<string>, more: seq<string>)
    requires lines != []
    ensures Total(p, DataLines(lines) + more)
         == Total(Pending(p.event, p.id, p.dataLines + [lines[0]]), DataLines(lines[1..]) + more)
  {
    var rest := DataLines(lines[1..]) + more;
    assert DataLines(lines) + more == ["data" + ": " + lines[0]] + rest;
    TotalOfLine(p, "data", lines[0], rest);
  }

  lemma {:induction false} TotalOfData(p: Pending, lines: seq<string>, more: seq<string>, all: seq<string>)
    requires all == p.dataLines + lines
    ensures Total(p, DataLines(lines) + more) == Total(Pending(p.event, p.id, all), more)
    decreases |lines|
  {
    if lines == [] {
      assert all == p.dataLines && DataLines(lines) + more == more;
    } else {
      var q := Pending(p.event, p.id, p.dataLines + [lines[0]]);
      TotalOfFirstData(p, lines, more);
      MoveHead(p.dataLines, lines);
      TotalOfData(q, lines[1..], more, all);
    }
  }

  lemma TotalOfId(p: Pending, id: Option<string>, more: seq<string>)
    ensures Total(p, IdLines(id) + more) == Total(p.(id := if id.Some? then id else p.id), more)
  {
    if id.Some? {
      TotalOfLine(p, "id", id.value, more);
    } else {
      assert [] + more == more;
    }
  }

  lemma TotalOfParts(id: Option<string>, event: string, pieces: seq<string>, own: Option<string>, more: seq<string>)
    requires pieces != []
    ensures var last := if own.Some? then own else id;
            Total(Pending(None, id, []), ["event" + ": " + event] + (DataLines(pieces) + (IdLines(own) + ([""] + more))))
            == [ServerSentEvent(event, Join(pieces), last)] + Total(Pending(None, last, []), more)
  {
    var ided := IdLines(own) + ([""] + more);
    TotalOfLine(Pending(None, id, []), "event", event, DataLines(pieces) + ided);
    TotalOfData(Pending(Some(event), id, []), pieces, ided, pieces);
    TotalOfId(Pending(Some(event), id, pieces), own, [""] + more);
    assert ([""] + more)[1..] == more;
  }

  lemma PartsOfFrame(first: seq<string>, data: seq<string>, ids: seq<string>, more: seq<string>)
    ensures first + (data + (ids + [""])) + more == first + (data + (ids + ([""] + more)))
  {
  }

  lemma TotalOfFrame(id: Option<string>, e: ServerSentEvent, more: seq<string>)
    ensures var last := if e.id.Some? then e.id else id;
            Total(Pending(None, id, []), FrameLines(e) + more) == [e.(id := last)] + Total(Pending(None, last, []), more)
  {
    var pieces := SplitFrom("", e.data);
    SplitThenJoin("", e.data);
    assert "" + e.data == e.data;
    PartsOfFrame(["event" + ": " + e.event], DataLines(pieces), IdLines(e.id), more);
    TotalOfParts(id, e.event, pieces, e.id, more);
  }

  lemma {:induction false} RoundTripFrom(events: seq<ServerSentEvent>, id: Option<string>)
    requires forall i :: 0 <= i < |events| ==> Writable(events[i])
    ensures Total(Pending(None, id, []), Lines(Serialise(events)).lines) == Carried(events, id)
    decreases |events|
  {
    if events != [] {
      var e := events[0];
      LinesOfFrame(e, Serialise(events[1..]));
      TotalOfFrame(id, e, Lines(Serialise(events[1..])).lines);
      RoundTripFrom(events[1..], if e.id.Some? then e.id else id);
    }
  }

  lemma {:induction false} ConcatHasNo(chunks: seq<string>, c: char)
    requires c !in Concat(chunks)
    ensures forall k :: 0 <= k < |chunks| ==> c !in chunks[k]
  {
    if chunks != [] {
      assert Concat(chunks) == chunks[0] + Concat(chunks[1..]);
      ConcatHasNo(chunks[1..], c);
      forall k | 0 <= k < |chunks| ensures c !in chunks[k] {
        if k > 0 {
          assert chunks[k] == chunks[1..][k-1];
        }
      }
    }
  }

  lemma {:induction false} SerialisedHasNoCr(events: seq<ServerSentEvent>)
    requires forall i :: 0 <= i < |events| ==> Writable(events[i])
    ensures '\r' !in Serialise(events)
  {
    if events != [] {
      SerialisedHasNoCr(events[1..]);
      PiecesHaveNo("", events[0].data, '\r');
      DataFieldHasNoCr(SplitFrom("", events[0].data));
      assert '\r' !in Frame(events[0]);
    }
  }

  lemma {:induction false} DataFieldHasNoCr(lines: seq<string>)
    requires forall line :: line in lines ==> '\r' !in line
    ensures '\r' !in DataField(lines)
  {
    if lines != [] {
      assert lines[0] in lines;
      assert forall line :: line in lines[1..] ==> line in lines;
      DataFieldHasNoCr(lines[1..]);
    }
  }

  lemma NoCrIsWhole(chunks: seq<string>)
    requires '\r' !in Concat(chunks)
    ensures CrlfWhole(chunks)
  {
  }

  /** Events written out and read back in any chunks come back, each with the id carried to it. */
  lemma RoundTrip(events: seq<ServerSentEvent>, chunks: seq<string>)
    requires forall i :: 0 <= i < |events| ==> Writable(events[i])
    requires Concat(chunks) == Serialise(events)
    ensures EventsOf(chunks) == Carried(events, None)
  {
    SerialisedHasNoCr(events);
    NoCrIsWhole(chunks);
    ChunkingFrom(chunks, "");
    RoundTripFrom(events, None);
  }
}
