/**
 The router's relay of a completion stream: frames end at a blank line, each frame's data lines
 are joined, and `[DONE]` ends the relay. Shown to agree with the SDK's parser.
 */
module SseRelay {
  import opened Prelude
  import opened Sse

  predicate BlankAt(s: string, i: nat) {
    i + 1 < |s| && s[i] == '\n' && s[i + 1] == '\n'
  }

  /** indexOf("\n\n"). */
  function IndexOfBlank(s: string): (i: int)
    ensures -1 <= i < |s|
    ensures i >= 0 ==> BlankAt(s, i)
    ensures forall k: nat :: (if i == -1 then k < |s| else k < i) ==> !BlankAt(s, k)
  {
    BlankFrom(s, 0)
  }

  function BlankFrom(s: string, from: nat): (i: int)
    requires from <= |s|
    ensures -1 <= i < |s|
    ensures i >= 0 ==> i >= from && BlankAt(s, i)
    ensures forall k: nat :: from <= k && (if i == -1 then k < |s| else k < i) ==> !BlankAt(s, k)
    decreases |s| - from
  {
    if from == |s| then -1 else if BlankAt(s, from) then from else BlankFrom(s, from + 1)
  }

  const DATA := "data:"

  function DataOfLine(line: string): seq<string> {
    if DATA <= line then [Unspaced(line[|DATA|..])] else []
  }

  function DataOf(lines: seq<string>): seq<string> {
    if lines == [] then [] else DataOfLine(lines[0]) + DataOf(lines[1..])
  }

  function Payload(dataLines: seq<string>): seq<string> {
    if dataLines == [] then [] else [Join(dataLines)]
  }

  /** The payloads of the complete frames of a text, the first with `current` before it, and what is left. */
  datatype Framed = Framed(payloads: seq<string>, rest: string)

  function FramesFrom(current: string, text: string): Framed
    decreases |text|
  {
    if text == "" then Framed([], current)
    else if BlankAt(text, 0) then
      var more := FramesFrom("", text[2..]);
      more.(payloads := Payload(DataOf(SplitFrom("", current))) + more.payloads)
    else FramesFrom(current + [text[0]], text[1..])
  }

  function Frames(text: string): Framed {
    FramesFrom("", text)
  }

  const DONE := "[DONE]"

  function UpTo(payloads: seq<string>, last: string): seq<string> {
    if payloads == [] then []
    else if payloads[0] == last then [last]
    else [payloads[0]] + UpTo(payloads[1..], last)
  }

  function UntilDone(payloads: seq<string>): seq<string> {
    UpTo(payloads, DONE)
  }

  /** The relay passes payloads on up to and including the first `[DONE]`. */
  lemma {:induction false} DoneEnds(payloads: seq<string>)
    ensures UntilDone(payloads) <= payloads
    ensures "[DONE]" !in payloads ==> UntilDone(payloads) == payloads
    ensures "[DONE]" in payloads ==>
      var n := |UntilDone(payloads)|;
      n > 0 && payloads[n-1] == "[DONE]" && "[DONE]" !in payloads[..n-1]
  {
    if payloads != [] && payloads[0] != "[DONE]" {
      DoneEnds(payloads[1..]);
      assert payloads == [payloads[0]] + payloads[1..];
      var n := |UntilDone(payloads)|;
      if "[DONE]" in payloads {
        assert payloads[..n-1] == [payloads[0]] + payloads[1..][..n-2];
      }
    }
  }

  lemma SkipOne(current: string, text: string)
    requires text != "" && !BlankAt(text, 0)
    ensures FramesFrom(current, text) == FramesFrom(current + [text[0]], text[1..])
  {
  }

  lemma FirstOf(current: string, text: string, i: nat)
    requires 0 < i <= |text|
    ensures current + [text[0]] + text[1..][..i-1] == current + text[..i] && text[1..][i-1..] == text[i..]
  {
  }

  lemma {:induction false} SkipToBlank(current: string, text: string, i: nat)
    requires i <= |text| && forall k: nat :: k < i ==> !BlankAt(text, k)
    ensures FramesFrom(current, text) == FramesFrom(current + text[..i], text[i..])
    decreases i
  {
    if i == 0 {
      assert current + text[..0] == current && text[0..] == text;
    } else {
      var rest := text[1..];
      forall k: nat | k < i - 1 ensures !BlankAt(rest, k) {
        assert !BlankAt(text, k + 1);
      }
      SkipOne(current, text);
      SkipToBlank(current + [text[0]], rest, i - 1);
      FirstOf(current, text, i);
    }
  }

  /** The first frame of a buffer stays the first whatever arrives later. */
  lemma TakeFrame(buf: string, later: string)
    requires IndexOfBlank(buf) != -1
    ensures var i := IndexOfBlank(buf);
            var first := Payload(DataOf(SplitFrom("", buf[..i])));
            Frames(buf + later).payloads == first + Frames(buf[i + 2..] + later).payloads
  {
    var i := IndexOfBlank(buf);
    var text := buf + later;
    forall k: nat | k < i ensures !BlankAt(text, k) {
      assert !BlankAt(buf, k);
    }
    SkipToBlank("", text, i);
    assert "" + text[..i] == buf[..i];
    var tail := text[i..];
    assert BlankAt(tail, 0) && tail[2..] == buf[i + 2..] + later;
  }

  lemma NoFrame(buf: string)
    requires IndexOfBlank(buf) == -1
    ensures Frames(buf).payloads == []
  {
    SkipToBlank("", buf, |buf|);
  }

  lemma UpToStep(first: seq<string>, rest: seq<string>, last: string)
    requires |first| <= 1
    ensures UpTo(first + rest, last) == if first == [last] then [last] else first + UpTo(rest, last)
  {
    if first == [] {
      assert first + rest == rest && [] + UpTo(rest, last) == UpTo(rest, last);
    } else {
      assert (first + rest)[1..] == rest && first == [first[0]];
    }
  }

  lemma DataOfNext(before: seq<string>, lines: seq<string>, i: nat)
    requires i < |lines|
    ensures before + DataOf(lines[i..]) == before + DataOfLine(lines[i]) + DataOf(lines[i+1..])
  {
    assert lines[i..][1..] == lines[i+1..];
  }

  method FrameData(frame: string) returns (dataLines: seq<string>)
    ensures dataLines == DataOf(SplitFrom("", frame))
  {
    dataLines := [];
    var lines := SplitFrom("", frame);
    for i := 0 to |lines|
      invariant dataLines + DataOf(lines[i..]) == DataOf(lines)
    {
      DataOfNext(dataLines, lines, i);
      if DATA <= lines[i] {
        dataLines := dataLines + [Unspaced(lines[i][|DATA|..])];
      }
    }
  }

  lemma TakeStep(buf: string, later: string, i: nat, first: seq<string>)
    requires i == IndexOfBlank(buf) && first == Payload(DataOf(SplitFrom("", buf[..i])))
    ensures UntilDone(Frames(buf + later).payloads)
         == if first == [DONE] then [DONE] else first + UntilDone(Frames(buf[i + 2..] + later).payloads)
  {
    TakeFrame(buf, later);
    UpToStep(first, Frames(buf[i + 2..] + later).payloads, DONE);
  }

  method NextFrame(buf: string, sep: nat, ghost later: string) returns (payload: seq<string>, rest: string)
    requires sep == IndexOfBlank(buf)
    ensures |rest| < |buf| && |payload| <= 1
    ensures UntilDone(Frames(buf + later).payloads)
         == if payload == [DONE] then [DONE] else payload + UntilDone(Frames(rest + later).payloads)
  {
    var dataLines := FrameData(buf[..sep]);
    rest := buf[sep + 2..];
    payload := if dataLines == [] then [] else [Join(dataLines)];
    TakeStep(buf, later, sep, payload);
  }

  /** The frames one read completes; `later` is what is still to come. */
  method RelayFrames(text: string, ghost later: string) returns (yielded: seq<string>, buf: string, done: bool)
    ensures IndexOfBlank(buf) == -1 || done
    ensures UntilDone(Frames(text + later).payloads)
         == if done then yielded else yielded + UntilDone(Frames(buf + later).payloads)
  {
    yielded, buf, done := [], text, false;
    ghost var target := UntilDone(Frames(text + later).payloads);
    var sep := IndexOfBlank(buf);
    while sep != -1
      invariant sep == IndexOfBlank(buf)
      invariant yielded + UntilDone(Frames(buf + later).payloads) == target
      decreases |buf|
    {
      var payload;
      payload, buf := NextFrame(buf, sep, later);
      sep := IndexOfBlank(buf);
      Regroup(yielded, payload, UntilDone(Frames(buf + later).payloads));
      yielded := yielded + payload;
      if payload == [DONE] {
        done := true;
        return;
      }
    }
  }

  lemma ConcatStep(buf: string, chunks: seq<string>, k: nat)
    requires k < |chunks|
    ensures buf + Concat(chunks[k..]) == buf + chunks[k] + Concat(chunks[k+1..])
  {
  }

  /** However the stream is cut into chunks, the relay yields the payloads of its text up to `[DONE]`. */
  method RelayStream(chunks: seq<string>) returns (yielded: seq<string>)
    ensures yielded == UntilDone(Frames(Concat(chunks)).payloads)
  {
    yielded := [];
    var buf := "";
    ghost var target := UntilDone(Frames(Concat(chunks)).payloads);
    assert chunks[0..] == chunks && "" + Concat(chunks) == Concat(chunks);
    for k := 0 to |chunks|
      invariant IndexOfBlank(buf) == -1
      invariant yielded + UntilDone(Frames(buf + Concat(chunks[k..])).payloads) == target
    {
      ghost var later := Concat(chunks[k+1..]);
      ConcatStep(buf, chunks, k);
      var more, done;
      more, buf, done := RelayFrames(buf + chunks[k], later);
      Regroup(yielded, more, UntilDone(Frames(buf + later).payloads));
      yielded := yielded + more;
      if done {
        return;
      }
    }
    assert buf + "" == buf;
    NoFrame(buf);
  }

  // ---- Agreement with the SDK's parser ----

  /** Blank, a comment, or a field other than `event`; a `data` field has its colon. */
  predicate Plain(line: string) {
    line == "" || (Field(line) != "event" && (Field(line) == "data" ==> ':' in line))
  }

  function Datas(events: seq<ServerSentEvent>): seq<string> {
    if events == [] then [] else [events[0].data] + Datas(events[1..])
  }

  lemma DataLine(line: string)
    ensures DATA <= line <==> Field(line) == "data" && ':' in line
    ensures DATA <= line ==> Value(line) == Unspaced(line[|DATA|..]) && line[0] != ':'
  {
    var i := IndexOf(line, ':');
    if DATA <= line {
      assert line[..|DATA|] == DATA && line[4] == ':' && line[..4] == "data";
      FirstAt(line, ':', 4);
    }
    if Field(line) == "data" && ':' in line {
      assert line[..i] == "data" && i == 4;
      assert line[..5] == "data" + [':'];
    }
  }

  /** After plain lines the SDK has pending just the data the relay finds in them. */
  lemma PlainLine(p: Pending, line: string)
    requires Plain(line) && line != "" && p.event.None?
    ensures var q := AfterLine(p, line);
            LineEvents(p, line) == [] && q.event.None? && q.dataLines == p.dataLines + DataOfLine(line)
  {
    DataLine(line);
  }

  /** Lines written out, each with its line feed. */
  function Text(lines: seq<string>): string {
    if lines == [] then "" else lines[0] + "\n" + Text(lines[1..])
  }

  predicate NoFeeds(lines: seq<string>) {
    forall i :: 0 <= i < |lines| ==> NoLineEnd(lines[i])
  }

  lemma {:induction false} SplitFirst(current: string, line: string, rest: string)
    requires '\n' !in line
    ensures SplitFrom(current, line + "\n" + rest) == [current + line] + SplitFrom("", rest)
    decreases |line|
  {
    var s := line + "\n" + rest;
    if line == "" {
      assert s[0] == '\n' && s[1..] == rest && current + line == current;
    } else {
      assert s[1..] == line[1..] + "\n" + rest;
      SplitFirst(current + [line[0]], line[1..], rest);
      assert current + [line[0]] + line[1..] == current + line;
    }
  }

  lemma {:induction false} SplitWhole(current: string, line: string)
    requires '\n' !in line
    ensures SplitFrom(current, line) == [current + line]
    decreases |line|
  {
    if line == "" {
      assert current + line == current;
    } else {
      SplitWhole(current + [line[0]], line[1..]);
      assert current + [line[0]] + line[1..] == current + line;
    }
  }

  lemma {:induction false} SplitText(lines: seq<string>, last: string)
    requires NoFeeds(lines) && '\n' !in last
    ensures SplitFrom("", Text(lines) + last) == lines + [last]
  {
    if lines == [] {
      SplitWhole("", last);
      assert Text(lines) + last == last && "" + last == last;
    } else {
      assert Text(lines) + last == lines[0] + "\n" + (Text(lines[1..]) + last);
      SplitFirst("", lines[0], Text(lines[1..]) + last);
      assert "" + lines[0] == lines[0];
      SplitText(lines[1..], last);
    }
  }

  lemma {:induction false} TextAppend(lines: seq<string>, line: string)
    ensures Text(lines + [line]) == Text(lines) + line + "\n"
  {
    if lines == [] {
      assert lines + [line] == [line] && [line][1..] == [];
      assert line + "\n" + "" == "" + line + "\n";
    } else {
      assert (lines + [line])[1..] == lines[1..] + [line];
      TextAppend(lines[1..], line);
      assert lines[0] + "\n" + (Text(lines[1..]) + line + "\n") == Text(lines) + line + "\n";
    }
  }

  lemma {:induction false} DataAppend(lines: seq<string>, line: string)
    ensures DataOf(lines + [line]) == DataOf(lines) + DataOfLine(line)
  {
    if lines == [] {
      assert lines + [line] == [line] && [line][1..] == [];
    } else {
      assert (lines + [line])[1..] == lines[1..] + [line];
      DataAppend(lines[1..], line);
    }
  }

  /** `lines` were read since the last frame and are pending as `p`; only the first may be blank. */
  ghost predicate InFrame(p: Pending, lines: seq<string>) {
    && p.event.None? && p.dataLines == DataOf(lines) && NoFeeds(lines)
    && forall i :: 1 <= i < |lines| ==> lines[i] != ""
  }

  ghost predicate AllPlain(lines: seq<string>) {
    forall i :: 0 <= i < |lines| ==> Plain(lines[i])
  }

  lemma PlainTail(first: string, rest: seq<string>)
    requires AllPlain([first] + rest)
    ensures Plain(first) && AllPlain(rest)
  {
    assert ([first] + rest)[0] == first;
    assert forall i :: 0 <= i < |rest| ==> rest[i] == ([first] + rest)[i+1];
  }

  lemma LineInFrame(p: Pending, lines: seq<string>, line: string)
    requires InFrame(p, lines) && Plain(line) && NoLineEnd(line) && (line == "" ==> lines == [])
    ensures LineEvents(p, line) == [] && InFrame(AfterLine(p, line), lines + [line])
  {
    DataAppend(lines, line);
    if line != "" {
      PlainLine(p, line);
    }
  }

  lemma DatasOfTotal(p: Pending, line: string, more: seq<string>)
    requires p.event.None?
    ensures Datas(Total(p, [line] + more))
         == (if line == "" then Payload(p.dataLines) else []) + Datas(Total(AfterLine(p, line), more))
  {
    TotalOfFirst(p, line, more);
    var rest := Total(AfterLine(p, line), more);
    if LineEvents(p, line) == [] {
      assert [] + rest == rest;
    } else {
      assert (LineEvents(p, line) + rest)[1..] == rest;
    }
  }

  /** The payload of the complete lines after the last blank line; only the SDK reports it. */
  function Unframed(rest: string): seq<string> {
    Payload(DataOf(Lines(rest).lines))
  }

  lemma {:induction false} LinesOfText(lines: seq<string>, line: string)
    requires NoFeeds(lines) && NoLineEnd(line)
    ensures Lines(Text(lines) + line) == Split(lines, line)
  {
    if lines == [] {
      assert Text(lines) + line == line && line[..|line|] == line && line[|line|..] == "" && "" + line == line;
      SkipTo("", line, |line|);
    } else {
      assert Text(lines) + line == lines[0] + "\n" + (Text(lines[1..]) + line);
      LinesOfLine(lines[0], Text(lines[1..]) + line);
      LinesOfText(lines[1..], line);
    }
  }

  /** The relay reading a frame and the SDK reading its lines stay together. */
  lemma {:induction false} Together(p: Pending, lines: seq<string>, line: string, text: string)
    requires InFrame(p, lines) && NoLineEnd(line) && '\r' !in text
    requires line == "" && lines != [] && text != "" ==> text[0] != '\n'
    requires AllPlain(LinesFrom(line, text).lines)
    ensures var framed := FramesFrom(Text(lines) + line, text);
            Datas(Total(p, LinesFrom(line, text).lines)) == framed.payloads + Unframed(framed.rest)
    decreases |text|
  {
    if text == "" {
      LinesOfText(lines, line);
    } else if text[0] == '\n' {
      EndOfLine(p, lines, line, text);
    } else {
      var longer := line + [text[0]];
      assert Text(lines) + line + [text[0]] == Text(lines) + longer;
      Together(p, lines, longer, text[1..]);
    }
  }

  lemma {:induction false} EndOfLine(p: Pending, lines: seq<string>, line: string, text: string)
    requires InFrame(p, lines) && NoLineEnd(line) && '\r' !in text
    requires text != "" && text[0] == '\n' && (line == "" ==> lines == [])
    requires AllPlain(LinesFrom(line, text).lines)
    ensures var framed := FramesFrom(Text(lines) + line, text);
            Datas(Total(p, LinesFrom(line, text).lines)) == framed.payloads + Unframed(framed.rest)
    decreases |text|, 0
  {
    var rest := text[1..];
    var read := LinesFrom(line, text).lines;
    assert read == [line] + Lines(rest).lines;
    PlainTail(line, Lines(rest).lines);
    LineInFrame(p, lines, line);
    DatasOfTotal(p, line, Lines(rest).lines);
    TextAppend(lines, line);
    assert Text(lines) + line + [text[0]] == Text(lines + [line]) + "";
    var q := AfterLine(p, line);
    if BlankAt(text, 0) {
      assert text == "\n" + rest;
      EndOfFrame(q, lines, line, rest);
    } else {
      Together(q, lines + [line], "", rest);
    }
  }

  lemma SdkEndsFrame(q: Pending, rest: string)
    requires q.event.None? && rest != "" && rest[0] == '\n'
    ensures var after := rest[1..];
            && Lines(rest).lines == [""] + Lines(after).lines
            && Datas(Total(q, Lines(rest).lines)) == Payload(q.dataLines) + Datas(Total(AfterLine(q, ""), Lines(after).lines))
            && AfterLine(q, "").event.None? && AfterLine(q, "").dataLines == []
  {
    DatasOfTotal(q, "", Lines(rest[1..]).lines);
  }

  lemma NoFeedsIn(lines: seq<string>, line: string)
    requires NoFeeds(lines + [line])
    ensures NoFeeds(lines) && NoLineEnd(line)
  {
    assert forall i :: 0 <= i < |lines| ==> lines[i] == (lines + [line])[i];
    assert (lines + [line])[|lines|] == line;
  }

  lemma FrameEnds(current: string, rest: string)
    requires rest != "" && rest[0] == '\n'
    ensures var after := Frames(rest[1..]);
            FramesFrom(current, "\n" + rest) == Framed(Payload(DataOf(SplitFrom("", current))) + after.payloads, after.rest)
  {
    var text := "\n" + rest;
    assert BlankAt(text, 0) && text[2..] == rest[1..];
  }

  lemma RelayEndsFrame(lines: seq<string>, line: string, rest: string)
    requires NoFeeds(lines) && NoLineEnd(line) && rest != "" && rest[0] == '\n'
    ensures var framed := FramesFrom(Text(lines) + line, "\n" + rest);
            var after := Frames(rest[1..]);
            framed == Framed(Payload(DataOf(lines + [line])) + after.payloads, after.rest)
  {
    SplitText(lines, line);
    FrameEnds(Text(lines) + line, rest);
  }

  lemma {:induction false} EndOfFrame(q: Pending, lines: seq<string>, line: string, rest: string)
    requires InFrame(q, lines + [line]) && '\r' !in rest
    requires rest != "" && rest[0] == '\n' && AllPlain(Lines(rest).lines)
    ensures var framed := FramesFrom(Text(lines) + line, "\n" + rest);
            Datas(Total(q, Lines(rest).lines)) == framed.payloads + Unframed(framed.rest)
    decreases |rest|, 1
  {
    var after := rest[1..];
    SdkEndsFrame(q, rest);
    NoFeedsIn(lines, line);
    RelayEndsFrame(lines, line, rest);
    PlainTail("", Lines(after).lines);
    Together(AfterLine(q, ""), [], "", after);
    assert Text([]) + "" == "";
    Regroup(Payload(q.dataLines), Frames(after).payloads, Unframed(Frames(after).rest));
  }

  /**
   On any text of LF-ended plain lines, in any chunks, the SDK reports the relay's payloads and
   then the data lines after the last blank line, if there are any.
   */
  lemma ReadersCompared(text: string, chunks: seq<string>)
    requires '\r' !in text && AllPlain(Lines(text).lines) && Concat(chunks) == text
    ensures Datas(EventsOf(chunks)) == Frames(text).payloads + Unframed(Frames(text).rest)
    ensures Datas(EventsOf(chunks)) == Frames(text).payloads <==> Unframed(Frames(text).rest) == []
  {
    NoCrIsWhole(chunks);
    ChunkingFrom(chunks, "");
    assert InFrame(START, []) && Text([]) + "" == "";
    Together(START, [], "", text);
  }

  /** No text, one line feed, or a blank line at the end. */
  predicate EndsBlank(text: string) {
    text == "" || text == "\n" || (|text| > 1 && BlankAt(text, |text| - 2))
  }

  lemma {:induction false} NothingLeft(current: string, text: string)
    requires EndsBlank(current + text) && forall k: nat :: k < |current| ==> !BlankAt(current + text, k)
    ensures FramesFrom(current, text).rest == "" || FramesFrom(current, text).rest == "\n"
    decreases |text|
  {
    var whole := current + text;
    if text == "" {
      assert whole == current;
    } else if BlankAt(text, 0) {
      var rest := text[2..];
      assert |rest| > 1 ==> rest[|rest| - 2] == whole[|whole| - 2] && rest[|rest| - 1] == whole[|whole| - 1];
      assert |rest| == 1 ==> rest == [whole[|whole| - 1]];
      assert "" + rest == rest;
      NothingLeft("", rest);
    } else {
      assert current + [text[0]] + text[1..] == whole;
      forall k: nat | k < |current| + 1 ensures !BlankAt(whole, k) {
        if k == |current| {
          assert BlankAt(whole, k) ==> BlankAt(text, 0);
        }
      }
      NothingLeft(current + [text[0]], text[1..]);
    }
  }

  /** When the text ends in a blank line both readers yield the same payloads, up to `[DONE]`. */
  lemma ReadersAgree(text: string, chunks: seq<string>)
    requires '\r' !in text && AllPlain(Lines(text).lines) && EndsBlank(text) && Concat(chunks) == text
    ensures Datas(EventsOf(chunks)) == Frames(text).payloads
    ensures UntilDone(Datas(EventsOf(chunks))) == UntilDone(Frames(text).payloads)
  {
    ReadersCompared(text, chunks);
    assert "" + text == text;
    NothingLeft("", text);
    if Frames(text).rest == "\n" {
      LinesOfFeed("");
      assert "\n" + "" == "\n";
      assert Lines("\n").lines == [""] && DataOf([""][1..]) == [];
    }
  }
}
