/**
 Reading and following a session's JSONL. Another process appends to the file, so a read may
 end inside a line; a client may reconnect at any time with the id of the last event it got.
 JSON parsing is a parameter, and so is the text the reader extracts from a message.
 */
module EventLog {
  import opened Prelude

  datatype Block =
    | Thinking(text: string)
    | ToolCall(id: Option<string>, name: string)
    | OtherBlock

  datatype Message =
    | User(text: string, runtimeNotice: bool)
    | Assistant(blocks: seq<Block>, text: string)
    | ToolResult(text: string)

  datatype PiLine =
    | ModelChange(id: Option<string>, model: Option<string>)
    | ThinkingLevelChange(id: Option<string>, level: string)
    | Compaction(id: Option<string>, summary: string)
    | MessageLine(id: Option<string>, message: Message)
    | OtherLine

  datatype Kind =
    | SessionModelChange | SessionThinkingLevelChange | SessionCompaction | SessionRuntimeNotice
    | UserMessage | AgentThinking | AgentToolUse | AgentMessage | AgentToolResult

  datatype Event = Event(id: string, kind: Kind, content: string)

  type Parser = string -> Option<PiLine>

  // ---- Event ids ----

  function IdOf(line: PiLine): string {
    if line.OtherLine? || line.id.None? then "" else line.id.value
  }

  function ThinkingId(lineId: string, index: nat): string {
    lineId + ":thinking:" + Decimal(index)
  }

  function ToolId(lineId: string, key: string): string {
    lineId + ":tool:" + key
  }

  function ThinkingEvents(lineId: string, blocks: seq<Block>, index: nat): seq<Event> {
    if blocks == [] then []
    else if blocks[0].Thinking? && blocks[0].text != "" then
      [Event(ThinkingId(lineId, index), AgentThinking, blocks[0].text)]
      + ThinkingEvents(lineId, blocks[1..], index + 1)
    else ThinkingEvents(lineId, blocks[1..], index)
  }

  /** The key of a tool call in its event id: its own id, or its position among the calls. */
  function ToolKey(block: Block, index: nat): string
    requires block.ToolCall?
  {
    if block.id.Some? then block.id.value else Decimal(index)
  }

  function ToolEvents(lineId: string, blocks: seq<Block>, index: nat): seq<Event> {
    if blocks == [] then []
    else if blocks[0].ToolCall? && blocks[0].name != "" then
      [Event(ToolId(lineId, ToolKey(blocks[0], index)), AgentToolUse, blocks[0].name)]
      + ToolEvents(lineId, blocks[1..], index + 1)
    else ToolEvents(lineId, blocks[1..], index)
  }

  function MapLineToEvents(line: PiLine): seq<Event> {
    var id := IdOf(line);
    match line
    case ModelChange(_, model) => if model.None? then [] else [Event(id, SessionModelChange, model.value)]
    case ThinkingLevelChange(_, level) => [Event(id, SessionThinkingLevelChange, level)]
    case Compaction(_, summary) => [Event(id, SessionCompaction, summary)]
    case OtherLine => []
    case MessageLine(_, message) =>
      match message
      case User(text, notice) =>
        if text == "" then [] else [Event(id, if notice then SessionRuntimeNotice else UserMessage, text)]
      case Assistant(blocks, text) =>
        ThinkingEvents(id, blocks, 0) + ToolEvents(id, blocks, 0)
        + if text == "" then [] else [Event(id, AgentMessage, text)]
      case ToolResult(text) => [Event(id, AgentToolResult, if text == "" then "(no output)" else text)]
  }

  method MapBlocks(lineId: string, blocks: seq<Block>) returns (events: seq<Event>)
    ensures events == ThinkingEvents(lineId, blocks, 0) + ToolEvents(lineId, blocks, 0)
  {
    events := [];
    var thinkingIdx := 0;
    for i := 0 to |blocks|
      invariant events + ThinkingEvents(lineId, blocks[i..], thinkingIdx) == ThinkingEvents(lineId, blocks, 0)
    {
      assert blocks[i..][1..] == blocks[i+1..];
      if blocks[i].Thinking? && blocks[i].text != "" {
        events := events + [Event(ThinkingId(lineId, thinkingIdx), AgentThinking, blocks[i].text)];
        thinkingIdx := thinkingIdx + 1;
      }
    }
    var toolIdx := 0;
    for i := 0 to |blocks|
      invariant events + ToolEvents(lineId, blocks[i..], toolIdx)
             == ThinkingEvents(lineId, blocks, 0) + ToolEvents(lineId, blocks, 0)
    {
      assert blocks[i..][1..] == blocks[i+1..];
      if blocks[i].ToolCall? && blocks[i].name != "" {
        events := events + [Event(ToolId(lineId, ToolKey(blocks[i], toolIdx)), AgentToolUse, blocks[i].name)];
        toolIdx := toolIdx + 1;
      }
    }
  }

  // ---- Reading ----

  predicate Blank(line: string) {
    forall i :: 0 <= i < |line| ==> IsWhitespace(line[i] as int)
  }

  function LineEvents(parse: Parser, line: string): seq<Event> {
    if Blank(line) || parse(line).None? then [] else MapLineToEvents(parse(line).value)
  }

  function EventsOfLines(parse: Parser, lines: seq<string>): seq<Event> {
    if lines == [] then [] else LineEvents(parse, lines[0]) + EventsOfLines(parse, lines[1..])
  }

  /** What `listBySession` makes of the file's text. */
  function EventsIn(parse: Parser, text: string): seq<Event> {
    EventsOfLines(parse, SplitFrom("", text))
  }

  lemma EventsOfHead(parse: Parser, head: string, rest: seq<string>)
    ensures EventsOfLines(parse, [head] + rest) == LineEvents(parse, head) + EventsOfLines(parse, rest)
  {
  }

  method ReadLine(parse: Parser, line: string) returns (events: seq<Event>)
    ensures events == LineEvents(parse, line)
  {
    if Blank(line) {
      return [];
    }
    var parsed := parse(line);
    if parsed.None? {
      return [];
    }
    events := MapLineToEvents(parsed.value);
  }

  lemma EventsFromStep(parse: Parser, lines: seq<string>, i: nat, before: seq<Event>)
    requires i < |lines|
    ensures before + EventsOfLines(parse, lines[i..])
         == before + LineEvents(parse, lines[i]) + EventsOfLines(parse, lines[i+1..])
  {
  }

  method ListBySession(parse: Parser, raw: string) returns (events: seq<Event>)
    ensures events == EventsIn(parse, raw)
  {
    events := [];
    var lines := SplitFrom("", raw);
    for i := 0 to |lines|
      invariant events + EventsOfLines(parse, lines[i..]) == EventsOfLines(parse, lines)
    {
      EventsFromStep(parse, lines, i, events);
      var more := ReadLine(parse, lines[i]);
      events := events + more;
    }
  }

  // ---- What the events say ----

  /** Thinking blocks with text among the first `n`: the number the next one gets. */
  function ThinkingBefore(blocks: seq<Block>, n: nat): nat
    requires n <= |blocks|
  {
    |set i | 0 <= i < n && blocks[i].Thinking? && blocks[i].text != ""|
  }

  function CallsBefore(blocks: seq<Block>, n: nat): nat
    requires n <= |blocks|
  {
    |set i | 0 <= i < n && blocks[i].ToolCall? && blocks[i].name != ""|
  }

  predicate ThinksAt(lineId: string, blocks: seq<Block>, i: nat, e: Event) {
    && i < |blocks| && blocks[i] == Thinking(e.content) && e.content != ""
    && e.id == lineId + ":thinking:" + Decimal(ThinkingBefore(blocks, i))
  }

  predicate CallsAt(lineId: string, blocks: seq<Block>, i: nat, e: Event) {
    && i < |blocks| && blocks[i].ToolCall? && blocks[i].name == e.content != ""
    && e.id == lineId + ":tool:" + if blocks[i].id.Some? then blocks[i].id.value else Decimal(CallsBefore(blocks, i))
  }

  /** What each kind of line is evidence of. */
  ghost predicate Says(line: PiLine, e: Event) {
    match line
    case ModelChange(id, model) => e.kind == SessionModelChange && model == Some(e.content) && e.id == Named(id)
    case ThinkingLevelChange(id, level) => e.kind == SessionThinkingLevelChange && e.content == level && e.id == Named(id)
    case Compaction(id, summary) => e.kind == SessionCompaction && e.content == summary && e.id == Named(id)
    case OtherLine => false
    case MessageLine(id, User(text, notice)) =>
      && text != "" && e.content == text && e.id == Named(id)
      && e.kind == if notice then SessionRuntimeNotice else UserMessage
    case MessageLine(id, ToolResult(text)) =>
      && e.kind == AgentToolResult && e.id == Named(id)
      && (text != "" ==> e.content == text) && (text == "" ==> e.content == "(no output)")
    case MessageLine(id, Assistant(blocks, text)) =>
      || (e.kind == AgentThinking && ThinksFrom(Named(id), blocks, 0, e))
      || (e.kind == AgentToolUse && CallsFrom(Named(id), blocks, 0, e))
      || (e.kind == AgentMessage && text != "" && e.content == text && e.id == Named(id))
  }

  function Named(id: Option<string>): string {
    if id.Some? then id.value else ""
  }

  lemma ThinkingBeforeNext(blocks: seq<Block>, n: nat)
    requires n < |blocks|
    ensures ThinkingBefore(blocks, n + 1) ==
            ThinkingBefore(blocks, n) + if blocks[n].Thinking? && blocks[n].text != "" then 1 else 0
  {
    var before, after := set i | 0 <= i < n && blocks[i].Thinking? && blocks[i].text != "", set i | 0 <= i < n + 1 && blocks[i].Thinking? && blocks[i].text != "";
    assert after == before + if blocks[n].Thinking? && blocks[n].text != "" then {n} else {};
  }

  lemma CallsBeforeNext(blocks: seq<Block>, n: nat)
    requires n < |blocks|
    ensures CallsBefore(blocks, n + 1) == CallsBefore(blocks, n) + if blocks[n].ToolCall? && blocks[n].name != "" then 1 else 0
  {
    var before, after := set i | 0 <= i < n && blocks[i].ToolCall? && blocks[i].name != "", set i | 0 <= i < n + 1 && blocks[i].ToolCall? && blocks[i].name != "";
    assert after == before + if blocks[n].ToolCall? && blocks[n].name != "" then {n} else {};
  }

  ghost predicate ThinksFrom(lineId: string, blocks: seq<Block>, n: nat, e: Event) {
    exists i: nat :: n <= i && ThinksAt(lineId, blocks, i, e)
  }

  ghost predicate CallsFrom(lineId: string, blocks: seq<Block>, n: nat, e: Event) {
    exists i: nat :: n <= i && CallsAt(lineId, blocks, i, e)
  }

  lemma {:induction false} ThinkingSaid(lineId: string, blocks: seq<Block>, n: nat, e: Event)
    requires n <= |blocks|
    ensures e in ThinkingEvents(lineId, blocks[n..], ThinkingBefore(blocks, n)) <==>
      e.kind == AgentThinking && ThinksFrom(lineId, blocks, n, e)
    decreases |blocks| - n
  {
    if n < |blocks| {
      var index := ThinkingBefore(blocks, n);
      assert blocks[n..][1..] == blocks[n+1..] && blocks[n..][0] == blocks[n];
      ThinkingBeforeNext(blocks, n);
      ThinkingSaid(lineId, blocks, n + 1, e);
      assert ThinksFrom(lineId, blocks, n, e) <==> ThinksAt(lineId, blocks, n, e) || ThinksFrom(lineId, blocks, n + 1, e);
      if blocks[n].Thinking? && blocks[n].text != "" {
        InHead(Event(ThinkingId(lineId, index), AgentThinking, blocks[n].text), ThinkingEvents(lineId, blocks[n+1..], index + 1), e);
      }
    }
  }

  lemma InHead(head: Event, rest: seq<Event>, e: Event)
    ensures e in [head] + rest <==> e == head || e in rest
  {
  }

  lemma {:induction false} CallsSaid(lineId: string, blocks: seq<Block>, n: nat, e: Event)
    requires n <= |blocks|
    ensures e in ToolEvents(lineId, blocks[n..], CallsBefore(blocks, n)) <==>
      e.kind == AgentToolUse && CallsFrom(lineId, blocks, n, e)
    decreases |blocks| - n
  {
    if n < |blocks| {
      var index := CallsBefore(blocks, n);
      assert blocks[n..][1..] == blocks[n+1..] && blocks[n..][0] == blocks[n];
      CallsBeforeNext(blocks, n);
      CallsSaid(lineId, blocks, n + 1, e);
      assert CallsFrom(lineId, blocks, n, e) <==> CallsAt(lineId, blocks, n, e) || CallsFrom(lineId, blocks, n + 1, e);
      if blocks[n].ToolCall? && blocks[n].name != "" {
        InHead(Event(ToolId(lineId, ToolKey(blocks[n], index)), AgentToolUse, blocks[n].name),
               ToolEvents(lineId, blocks[n+1..], index + 1), e);
      }
    }
  }

  /** A line is mapped to exactly the events it says. */
  lemma LineSays(line: PiLine, e: Event)
    ensures e in MapLineToEvents(line) <==> Says(line, e)
  {
    if line.MessageLine? && line.message.Assistant? {
      var blocks := line.message.blocks;
      assert blocks[0..] == blocks;
      ThinkingSaid(IdOf(line), blocks, 0, e);
      CallsSaid(IdOf(line), blocks, 0, e);
    }
  }

  /** Each thinking event stands at its number. */
  ghost predicate ThinkingInPlace(lineId: string, blocks: seq<Block>, k: nat, e: Event) {
    exists b: nat :: ThinksAt(lineId, blocks, b, e) && ThinkingBefore(blocks, b) == k
  }

  ghost predicate CallInPlace(lineId: string, blocks: seq<Block>, k: nat, e: Event) {
    exists b: nat :: CallsAt(lineId, blocks, b, e) && CallsBefore(blocks, b) == k
  }

  lemma {:induction false} ThinkingPlaces(lineId: string, blocks: seq<Block>, n: nat)
    requires n <= |blocks|
    ensures var base, events := ThinkingBefore(blocks, n), ThinkingEvents(lineId, blocks[n..], ThinkingBefore(blocks, n));
            && base + |events| == ThinkingBefore(blocks, |blocks|)
            && forall k :: 0 <= k < |events| ==> events[k].kind == AgentThinking && ThinkingInPlace(lineId, blocks, base + k, events[k])
    decreases |blocks| - n
  {
    if n < |blocks| {
      var base, events := ThinkingBefore(blocks, n), ThinkingEvents(lineId, blocks[n..], ThinkingBefore(blocks, n));
      assert blocks[n..][1..] == blocks[n+1..] && blocks[n..][0] == blocks[n];
      ThinkingBeforeNext(blocks, n);
      ThinkingPlaces(lineId, blocks, n + 1);
      if blocks[n].Thinking? && blocks[n].text != "" {
        assert ThinksAt(lineId, blocks, n, events[0]);
        assert forall k :: 0 < k < |events| ==> events[k] == ThinkingEvents(lineId, blocks[n+1..], base + 1)[k - 1];
      }
    }
  }

  lemma {:induction false} CallPlaces(lineId: string, blocks: seq<Block>, n: nat)
    requires n <= |blocks|
    ensures var base, events := CallsBefore(blocks, n), ToolEvents(lineId, blocks[n..], CallsBefore(blocks, n));
            && base + |events| == CallsBefore(blocks, |blocks|)
            && forall k :: 0 <= k < |events| ==> events[k].kind == AgentToolUse && CallInPlace(lineId, blocks, base + k, events[k])
    decreases |blocks| - n
  {
    if n < |blocks| {
      var base, events := CallsBefore(blocks, n), ToolEvents(lineId, blocks[n..], CallsBefore(blocks, n));
      assert blocks[n..][1..] == blocks[n+1..] && blocks[n..][0] == blocks[n];
      CallsBeforeNext(blocks, n);
      CallPlaces(lineId, blocks, n + 1);
      if blocks[n].ToolCall? && blocks[n].name != "" {
        assert CallsAt(lineId, blocks, n, events[0]);
        assert forall k :: 0 < k < |events| ==> events[k] == ToolEvents(lineId, blocks[n+1..], base + 1)[k - 1];
      }
    }
  }

  /** All the thinking in block order, then all the calls in block order, then the text if there is one. */
  ghost predicate AssistantInOrder(id: string, blocks: seq<Block>, text: string, events: seq<Event>) {
    var thinking, calls := ThinkingBefore(blocks, |blocks|), CallsBefore(blocks, |blocks|);
    && |events| == thinking + calls + (if text != "" then 1 else 0)
    && (forall k :: 0 <= k < thinking ==> events[k].kind == AgentThinking && ThinkingInPlace(id, blocks, k, events[k]))
    && (forall k :: thinking <= k < thinking + calls ==>
          events[k].kind == AgentToolUse && CallInPlace(id, blocks, k - thinking, events[k]))
    && (text != "" ==> events[thinking + calls] == Event(id, AgentMessage, text))
  }

  lemma PartsInOrder(id: string, blocks: seq<Block>, text: string, a: seq<Event>, b: seq<Event>)
    requires |a| == ThinkingBefore(blocks, |blocks|) && |b| == CallsBefore(blocks, |blocks|)
    requires forall k :: 0 <= k < |a| ==> a[k].kind == AgentThinking && ThinkingInPlace(id, blocks, k, a[k])
    requires forall k :: 0 <= k < |b| ==> b[k].kind == AgentToolUse && CallInPlace(id, blocks, k, b[k])
    ensures AssistantInOrder(id, blocks, text, a + b + if text == "" then [] else [Event(id, AgentMessage, text)])
  {
  }

  /** How many events a line has and where they stand: at most one, but for an assistant's line. */
  lemma LineInOrder(line: PiLine)
    ensures if line.MessageLine? && line.message.Assistant?
            then AssistantInOrder(IdOf(line), line.message.blocks, line.message.text, MapLineToEvents(line))
            else |MapLineToEvents(line)| <= 1
  {
    if line.MessageLine? && line.message.Assistant? {
      var id, blocks := IdOf(line), line.message.blocks;
      assert blocks[0..] == blocks;
      ThinkingPlaces(id, blocks, 0);
      CallPlaces(id, blocks, 0);
      PartsInOrder(id, blocks, line.message.text, ThinkingEvents(id, blocks, 0), ToolEvents(id, blocks, 0));
    }
  }

  /** The line is not white and parses as one that says the event. */
  ghost predicate LineTells(parse: Parser, line: string, e: Event) {
    (exists i :: 0 <= i < |line| && !IsWhitespace(line[i] as int)) && parse(line).Some? && Says(parse(line).value, e)
  }

  ghost predicate SomeLineTells(parse: Parser, lines: seq<string>, e: Event) {
    exists k :: 0 <= k < |lines| && LineTells(parse, lines[k], e)
  }

  lemma OneLineTells(parse: Parser, line: string, e: Event)
    ensures e in LineEvents(parse, line) <==> LineTells(parse, line, e)
  {
    if parse(line).Some? {
      LineSays(parse(line).value, e);
    }
  }

  lemma SomeLineOrRest(parse: Parser, lines: seq<string>, e: Event)
    requires lines != []
    ensures SomeLineTells(parse, lines, e) <==> LineTells(parse, lines[0], e) || SomeLineTells(parse, lines[1..], e)
  {
    assert forall k :: 0 <= k < |lines[1..]| ==> lines[1..][k] == lines[k + 1];
    if k :| 0 <= k < |lines[1..]| && LineTells(parse, lines[1..][k], e) {
      assert LineTells(parse, lines[k + 1], e);
    }
    if k :| 0 < k < |lines| && LineTells(parse, lines[k], e) {
      assert LineTells(parse, lines[1..][k - 1], e);
    }
  }

  lemma {:induction false} LinesTell(parse: Parser, lines: seq<string>, e: Event)
    ensures e in EventsOfLines(parse, lines) <==> SomeLineTells(parse, lines, e)
  {
    if lines != [] {
      LinesTell(parse, lines[1..], e);
      OneLineTells(parse, lines[0], e);
      SomeLineOrRest(parse, lines, e);
    }
  }

  /** An event is listed exactly when some line of the file tells it. */
  lemma LogTells(parse: Parser, text: string, e: Event)
    ensures e in EventsIn(parse, text) <==> SomeLineTells(parse, SplitFrom("", text), e)
  {
    LinesTell(parse, SplitFrom("", text), e);
  }

  // ---- Torn reads ----

  /** A line cut short yields nothing until it parses, and from then on what the whole line yields. */
  ghost predicate TornSafe(parse: Parser, line: string) {
    forall i, j :: 0 <= i <= j <= |line| ==>
      LineEvents(parse, line[..i]) == [] || LineEvents(parse, line[..i]) == LineEvents(parse, line[..j])
  }

  lemma TornSafePrefix(parse: Parser, line: string, k: nat)
    requires TornSafe(parse, line) && k <= |line|
    ensures TornSafe(parse, line[..k])
    ensures LineEvents(parse, line[..k]) == [] || LineEvents(parse, line[..k]) == LineEvents(parse, line)
  {
    assert line[..|line|] == line;
    forall i, j | 0 <= i <= j <= k
      ensures LineEvents(parse, line[..k][..i]) == [] || LineEvents(parse, line[..k][..i]) == LineEvents(parse, line[..k][..j])
    {
      assert line[..k][..i] == line[..i] && line[..k][..j] == line[..j];
    }
  }

  ghost predicate AllTornSafe(parse: Parser, lines: seq<string>) {
    forall i :: 0 <= i < |lines| ==> TornSafe(parse, lines[i])
  }

  ghost predicate LogTornSafe(parse: Parser, log: string) {
    AllTornSafe(parse, SplitFrom("", log))
  }

  lemma {:induction false} FirstPiece(current: string, text: string)
    ensures current <= SplitFrom(current, text)[0]
    decreases |text|
  {
    if text != "" && text[0] != '\n' {
      FirstPiece(current + [text[0]], text[1..]);
    }
  }

  lemma AllTornSafeTail(parse: Parser, head: string, rest: seq<string>)
    ensures AllTornSafe(parse, [head] + rest) <==> TornSafe(parse, head) && AllTornSafe(parse, rest)
  {
    var all := [head] + rest;
    assert all[0] == head && forall i :: 0 <= i < |rest| ==> all[i+1] == rest[i];
  }

  /** A text cut inside its first line. */
  lemma FirstLinePrefix(parse: Parser, current: string, lines: seq<string>)
    requires lines != [] && current <= lines[0] && AllTornSafe(parse, lines)
    ensures AllTornSafe(parse, [current])
    ensures EventsOfLines(parse, [current]) <= EventsOfLines(parse, lines)
  {
    assert lines[0][..|current|] == current;
    TornSafePrefix(parse, lines[0], |current|);
    EventsOfHead(parse, current, []);
    assert [current] + [] == [current] && lines == [lines[0]] + lines[1..];
    EventsOfHead(parse, lines[0], lines[1..]);
  }

  lemma {:induction false} PrefixFrom(parse: Parser, current: string, text: string, k: nat)
    requires k <= |text| && AllTornSafe(parse, SplitFrom(current, text))
    ensures EventsOfLines(parse, SplitFrom(current, text[..k])) <= EventsOfLines(parse, SplitFrom(current, text))
    ensures AllTornSafe(parse, SplitFrom(current, text[..k]))
    decreases |text|
  {
    if k == 0 {
      FirstPiece(current, text);
      FirstLinePrefix(parse, current, SplitFrom(current, text));
    } else {
      assert text[..k][1..] == text[1..][..k-1];
      if text[0] == '\n' {
        var rest, cut := SplitFrom("", text[1..]), SplitFrom("", text[1..][..k-1]);
        AllTornSafeTail(parse, current, rest);
        AllTornSafeTail(parse, current, cut);
        PrefixFrom(parse, "", text[1..], k - 1);
        EventsOfHead(parse, current, rest);
        EventsOfHead(parse, current, cut);
      } else {
        PrefixFrom(parse, current + [text[0]], text[1..], k - 1);
      }
    }
  }

  /** A read of the file at any length shows a prefix of the events a later read shows. */
  lemma ReadsArePrefixes(parse: Parser, log: string, j: nat, k: nat)
    requires j <= k <= |log| && LogTornSafe(parse, log)
    ensures EventsIn(parse, log[..j]) <= EventsIn(parse, log[..k]) <= EventsIn(parse, log)
  {
    PrefixFrom(parse, "", log, k);
    assert log[..k][..j] == log[..j];
    PrefixFrom(parse, "", log[..k], j);
  }

  // ---- Distinct event ids ----

  predicate DistinctIds(events: seq<Event>) {
    forall i, j :: 0 <= i < j < |events| ==> events[i].id != events[j].id
  }

  lemma Tail(a: string, b: string, c: string)
    requires a + b == a + c
    ensures b == c
  {
    assert (a + b)[|a|..] == b && (a + c)[|a|..] == c;
  }

  lemma SameKindIds(lineId: string, m: nat, n: nat, k: string, l: string)
    ensures ThinkingId(lineId, m) == ThinkingId(lineId, n) ==> m == n
    ensures ToolId(lineId, k) == ToolId(lineId, l) ==> k == l
  {
    if ThinkingId(lineId, m) == ThinkingId(lineId, n) {
      Tail(lineId + ":thinking:", Decimal(m), Decimal(n));
      DecimalInjective(m, n);
    }
    if ToolId(lineId, k) == ToolId(lineId, l) {
      Tail(lineId + ":tool:", k, l);
    }
  }

  lemma OtherKindIds(lineId: string, n: nat, k: string)
    ensures ThinkingId(lineId, n) != ToolId(lineId, k)
    ensures ThinkingId(lineId, n) != lineId && ToolId(lineId, k) != lineId
  {
    assert ThinkingId(lineId, n)[|lineId| + 2] == 'h';
    assert ToolId(lineId, k)[|lineId| + 2] == 'o';
    assert |ThinkingId(lineId, n)| > |lineId| && |ToolId(lineId, k)| > |lineId|;
  }

  lemma {:induction false} ThinkingIds(lineId: string, blocks: seq<Block>, index: nat)
    ensures DistinctIds(ThinkingEvents(lineId, blocks, index))
    ensures forall e :: e in ThinkingEvents(lineId, blocks, index) ==> exists n: nat :: n >= index && e.id == ThinkingId(lineId, n)
  {
    var events := ThinkingEvents(lineId, blocks, index);
    if blocks == [] {
    } else if blocks[0].Thinking? && blocks[0].text != "" {
      ThinkingIds(lineId, blocks[1..], index + 1);
      var rest := ThinkingEvents(lineId, blocks[1..], index + 1);
      assert events == [events[0]] + rest && events[0].id == ThinkingId(lineId, index);
      forall i | 0 <= i < |rest| ensures rest[i].id != events[0].id {
        assert rest[i] in rest;
        var n: nat :| n >= index + 1 && rest[i].id == ThinkingId(lineId, n);
        SameKindIds(lineId, index, n, "", "");
      }
    } else {
      ThinkingIds(lineId, blocks[1..], index);
    }
  }

  function ToolKeys(blocks: seq<Block>, index: nat): seq<string> {
    if blocks == [] then []
    else if blocks[0].ToolCall? && blocks[0].name != "" then
      [ToolKey(blocks[0], index)] + ToolKeys(blocks[1..], index + 1)
    else ToolKeys(blocks[1..], index)
  }

  predicate DistinctKeys(keys: seq<string>) {
    forall i, j :: 0 <= i < j < |keys| ==> keys[i] != keys[j]
  }

  lemma {:induction false} ToolIds(lineId: string, blocks: seq<Block>, index: nat)
    ensures var events, keys := ToolEvents(lineId, blocks, index), ToolKeys(blocks, index);
            |events| == |keys| && forall i :: 0 <= i < |keys| ==> events[i].id == ToolId(lineId, keys[i])
  {
    if blocks != [] {
      if blocks[0].ToolCall? && blocks[0].name != "" {
        ToolIds(lineId, blocks[1..], index + 1);
      } else {
        ToolIds(lineId, blocks[1..], index);
      }
    }
  }

  /** A line the reader can tell apart: an id without ':', and tool calls with distinct keys. */
  predicate Identified(line: PiLine) {
    && !line.OtherLine? && line.id.Some? && ':' !in line.id.value
    && (line.MessageLine? && line.message.Assistant? ==> DistinctKeys(ToolKeys(line.message.blocks, 0)))
  }

  /** The part of an event id before its first ':'. */
  function LineIdOf(id: string): string {
    if id == "" || id[0] == ':' then "" else [id[0]] + LineIdOf(id[1..])
  }

  lemma {:induction false} LineIdOfPrefix(lineId: string, rest: string)
    requires ':' !in lineId && (rest == "" || rest[0] == ':')
    ensures LineIdOf(lineId + rest) == lineId
  {
    if lineId == "" {
      assert lineId + rest == rest;
    } else {
      LineIdOfPrefix(lineId[1..], rest);
      assert (lineId + rest)[1..] == lineId[1..] + rest;
    }
  }

  lemma IdsOfBlocks(id: string, blocks: seq<Block>, e: Event)
    requires ':' !in id
    requires e in ThinkingEvents(id, blocks, 0) || e in ToolEvents(id, blocks, 0)
    ensures LineIdOf(e.id) == id
  {
    if e in ThinkingEvents(id, blocks, 0) {
      ThinkingIds(id, blocks, 0);
      var n: nat :| n >= 0 && e.id == ThinkingId(id, n);
      LineIdOfPrefix(id, ":thinking:" + Decimal(n));
      assert id + (":thinking:" + Decimal(n)) == ThinkingId(id, n);
    } else {
      ToolIds(id, blocks, 0);
      var i :| 0 <= i < |ToolEvents(id, blocks, 0)| && ToolEvents(id, blocks, 0)[i] == e;
      var key := ToolKeys(blocks, 0)[i];
      LineIdOfPrefix(id, ":tool:" + key);
      assert id + (":tool:" + key) == ToolId(id, key);
    }
  }

  /** Every event of a line carries the line's id up to the first ':'. */
  lemma AllOfLine(line: PiLine, e: Event)
    requires Identified(line) && e in MapLineToEvents(line)
    ensures LineIdOf(e.id) == line.id.value
  {
    var id := line.id.value;
    LineIdOfPrefix(id, "");
    assert id + "" == id;
    if line.MessageLine? && line.message.Assistant? {
      var blocks := line.message.blocks;
      if e in ThinkingEvents(id, blocks, 0) || e in ToolEvents(id, blocks, 0) {
        IdsOfBlocks(id, blocks, e);
      } else {
        assert e.id == id;
      }
    } else {
      assert e.id == id;
    }
  }

  lemma ConcatDistinct(a: seq<Event>, b: seq<Event>)
    requires DistinctIds(a) && DistinctIds(b)
    requires forall x, y :: x in a && y in b ==> x.id != y.id
    ensures DistinctIds(a + b)
  {
  }

  lemma LineDistinct(line: PiLine)
    requires Identified(line)
    ensures DistinctIds(MapLineToEvents(line))
  {
    if line.MessageLine? && line.message.Assistant? {
      var id, blocks, text := line.id.value, line.message.blocks, line.message.text;
      var thinking, tools := ThinkingEvents(id, blocks, 0), ToolEvents(id, blocks, 0);
      var last := if text == "" then [] else [Event(id, AgentMessage, text)];
      ThinkingIds(id, blocks, 0);
      ToolIds(id, blocks, 0);
      forall i, j | 0 <= i < j < |tools| ensures tools[i].id != tools[j].id {
        SameKindIds(id, 0, 0, ToolKeys(blocks, 0)[i], ToolKeys(blocks, 0)[j]);
      }
      forall x, y | x in thinking && y in tools ensures x.id != y.id {
        var n: nat :| n >= 0 && x.id == ThinkingId(id, n);
        var j :| 0 <= j < |tools| && tools[j] == y;
        OtherKindIds(id, n, ToolKeys(blocks, 0)[j]);
      }
      ConcatDistinct(thinking, tools);
      forall x, y | x in thinking + tools && y in last ensures x.id != y.id {
        if x in thinking {
          var n: nat :| n >= 0 && x.id == ThinkingId(id, n);
          OtherKindIds(id, n, "");
        } else {
          var j :| 0 <= j < |tools| && tools[j] == x;
          OtherKindIds(id, 0, ToolKeys(blocks, 0)[j]);
        }
      }
      ConcatDistinct(thinking + tools, last);
    }
  }

  predicate Yields(parse: Parser, line: string) {
    LineEvents(parse, line) != []
  }

  /** Every line that yields events is identified, and no two of them have the same id. */
  ghost predicate LogIdentified(parse: Parser, lines: seq<string>) {
    && (forall i :: 0 <= i < |lines| && Yields(parse, lines[i]) ==> Identified(parse(lines[i]).value))
    && (forall i, j :: 0 <= i < j < |lines| && Yields(parse, lines[i]) && Yields(parse, lines[j]) ==>
          IdOf(parse(lines[i]).value) != IdOf(parse(lines[j]).value))
  }

  lemma {:induction false} EventComesFromLine(parse: Parser, lines: seq<string>, e: Event) returns (i: nat)
    requires e in EventsOfLines(parse, lines)
    ensures i < |lines| && e in LineEvents(parse, lines[i])
  {
    if e in LineEvents(parse, lines[0]) {
      i := 0;
    } else {
      i := EventComesFromLine(parse, lines[1..], e);
      i := i + 1;
    }
  }

  /** In an identified log no two events share an id. */
  lemma {:induction false} LogIdsDistinct(parse: Parser, lines: seq<string>)
    requires LogIdentified(parse, lines)
    ensures DistinctIds(EventsOfLines(parse, lines))
  {
    if lines != [] {
      var first, rest := LineEvents(parse, lines[0]), EventsOfLines(parse, lines[1..]);
      LogIdsDistinct(parse, lines[1..]);
      if first != [] {
        LineDistinct(parse(lines[0]).value);
        forall x, y | x in first && y in rest ensures x.id != y.id {
          AllOfLine(parse(lines[0]).value, x);
          var i := EventComesFromLine(parse, lines[1..], y);
          assert Yields(parse, lines[i+1]);
          AllOfLine(parse(lines[i+1]).value, y);
        }
        ConcatDistinct(first, rest);
      }
    }
  }

  // ---- Following ----

  function Ids(events: seq<Event>): set<string> {
    set i | 0 <= i < |events| :: events[i].id
  }

  /** How many events precede the first with this id; all of them when there is none. */
  function Position(events: seq<Event>, id: string): (n: nat)
    ensures n <= |events|
    ensures forall i :: 0 <= i < n ==> events[i].id != id
    ensures n < |events| ==> events[n].id == id
  {
    if events == [] || events[0].id == id then 0 else 1 + Position(events[1..], id)
  }

  /** The events after the cursor, or all of them when there is no such cursor. */
  function CatchUp(events: seq<Event>, after: Option<string>): seq<Event> {
    if after.None? || Position(events, after.value) == |events| then events
    else events[Position(events, after.value) + 1..]
  }

  function Unseen(events: seq<Event>, seen: set<string>): seq<Event> {
    if events == [] then []
    else if events[0].id in seen then Unseen(events[1..], seen)
    else [events[0]] + Unseen(events[1..], seen + {events[0].id})
  }

  function Polls(lists: seq<seq<Event>>, seen: set<string>): seq<Event> {
    if lists == [] then [] else Unseen(lists[0], seen) + Polls(lists[1..], seen + Ids(lists[0]))
  }

  /** All a connection yields when its reads of the file show these lists of events. */
  function Followed(lists: seq<seq<Event>>, after: Option<string>): seq<Event> {
    if lists == [] then [] else CatchUp(lists[0], after) + Polls(lists[1..], Ids(lists[0]))
  }

  function Lists(parse: Parser, texts: seq<string>): (lists: seq<seq<Event>>)
    ensures |lists| == |texts| && forall i :: 0 <= i < |texts| ==> lists[i] == EventsIn(parse, texts[i])
  {
    if texts == [] then [] else [EventsIn(parse, texts[0])] + Lists(parse, texts[1..])
  }

  lemma IdsStep(events: seq<Event>, i: nat)
    requires i < |events|
    ensures Ids(events[..i+1]) == Ids(events[..i]) + {events[i].id}
  {
  }

  /** The catch-up pass: skips what the client has, and notes every id as seen. */
  method Resume(catchUp: seq<Event>, after: Option<string>) returns (yielded: seq<Event>, seen: set<string>)
    ensures yielded == CatchUp(catchUp, after) && seen == Ids(catchUp)
  {
    yielded, seen := [], {};
    var cursorSeen := after.None? || Position(catchUp, after.value) == |catchUp|;
    var whole := cursorSeen;
    for i := 0 to |catchUp|
      invariant seen == Ids(catchUp[..i])
      invariant whole ==> cursorSeen && yielded == catchUp[..i]
      invariant !whole ==> cursorSeen == (Position(catchUp, after.value) < i)
      invariant !whole && !cursorSeen ==> yielded == []
      invariant !whole && cursorSeen ==> yielded == catchUp[Position(catchUp, after.value)+1..i]
    {
      IdsStep(catchUp, i);
      seen := seen + {catchUp[i].id};
      if !cursorSeen {
        cursorSeen := catchUp[i].id == after.value;
        continue;
      }
      yielded := yielded + [catchUp[i]];
    }
    assert catchUp[..|catchUp|] == catchUp;
  }

  lemma UnseenStep(events: seq<Event>, i: nat, seen: set<string>)
    requires i < |events|
    ensures Unseen(events[i..], seen)
         == if events[i].id in seen then Unseen(events[i+1..], seen)
            else [events[i]] + Unseen(events[i+1..], seen + {events[i].id})
  {
  }

  lemma NotedStep(known: set<string>, events: seq<Event>, i: nat)
    requires i < |events|
    ensures known + Ids(events[..i+1]) == known + Ids(events[..i]) + {events[i].id}
    ensures events[i].id in known + Ids(events[..i]) ==> known + Ids(events[..i+1]) == known + Ids(events[..i])
  {
  }

  /** One poll: yields what has not been seen, in file order. */
  method Poll(events: seq<Event>, known: set<string>) returns (unseen: seq<Event>, seen: set<string>)
    ensures unseen == Unseen(events, known) && seen == known + Ids(events)
  {
    unseen, seen := [], known;
    assert events[0..] == events && known + Ids(events[..0]) == known;
    for i := 0 to |events|
      invariant seen == known + Ids(events[..i])
      invariant unseen + Unseen(events[i..], seen) == Unseen(events, known)
    {
      NotedStep(known, events, i);
      UnseenStep(events, i, seen);
      if events[i].id in seen {
        continue;
      }
      Regroup(unseen, [events[i]], Unseen(events[i+1..], seen + {events[i].id}));
      seen := seen + {events[i].id};
      unseen := unseen + [events[i]];
    }
    assert events[..|events|] == events;
  }

  /** `texts[0]` is the catch-up read and the others are the polls of one connection. */
  method Follow(parse: Parser, texts: seq<string>, after: Option<string>) returns (yielded: seq<Event>)
    requires texts != []
    ensures yielded == Followed(Lists(parse, texts), after)
  {
    ghost var lists := Lists(parse, texts);
    var events := ListBySession(parse, texts[0]);
    var unseen, seen := Resume(events, after);
    yielded := unseen;
    for k := 1 to |texts|
      invariant yielded + Polls(lists[k..], seen) == Followed(lists, after)
    {
      assert lists[k..][1..] == lists[k+1..];
      events := ListBySession(parse, texts[k]);
      unseen, seen := Poll(events, seen);
      Regroup(yielded, unseen, Polls(lists[k+1..], seen));
      yielded := yielded + unseen;
    }
  }

  /** A cursor the catch-up read does not show replays everything from the start. */
  lemma UnknownCursorReplays(lists: seq<seq<Event>>, cursor: string)
    requires lists != [] && cursor !in Ids(lists[0])
    ensures Followed(lists, Some(cursor)) == Followed(lists, None)
    ensures lists[0] <= Followed(lists, Some(cursor))
  {
  }

  // ---- Exactly once ----

  function Longest(lists: seq<seq<Event>>, n: nat): (m: nat)
    ensures m >= n && forall i :: 0 <= i < |lists| ==> |lists[i]| <= m
  {
    if lists == [] then n else Longest(lists[1..], if |lists[0]| > n then |lists[0]| else n)
  }

  lemma InIds(all: seq<Event>, n: nat, i: nat)
    requires DistinctIds(all) && n <= |all| && i < |all|
    ensures all[i].id in Ids(all[..n]) <==> i < n
  {
  }

  /** A poll that shows the first `m` events when the first `n` were seen yields those between. */
  lemma {:induction false} UnseenOf(all: seq<Event>, i: nat, m: nat, n: nat)
    requires DistinctIds(all) && i <= m <= |all| && n <= |all| && (i <= n || m <= n)
    ensures Unseen(all[i..m], Ids(all[..n])) == if n <= m then all[n..m] else []
    decreases m - i, |all| - n
  {
    if i < m {
      InIds(all, n, i);
      assert all[i..m][1..] == all[i+1..m];
      if i < n {
        UnseenOf(all, i + 1, m, n);
      } else {
        IdsStep(all, n);
        UnseenOf(all, i + 1, m, n + 1);
      }
    }
  }

  lemma IdsOfPrefixes(all: seq<Event>, m: nat, n: nat)
    requires m <= n <= |all|
    ensures Ids(all[..m]) + Ids(all[..n]) == Ids(all[..n])
    ensures Ids(all[..n]) + Ids(all[..m]) == Ids(all[..n])
  {
  }

  lemma PollOf(all: seq<Event>, list: seq<Event>, n: nat)
    requires DistinctIds(all) && n <= |all| && list <= all
    ensures var next := if |list| > n then |list| else n;
            && Unseen(list, Ids(all[..n])) == all[n..next]
            && Ids(all[..n]) + Ids(list) == Ids(all[..next])
  {
    var m := |list|;
    assert list == all[0..m] == all[..m];
    UnseenOf(all, 0, m, n);
    if m > n {
      IdsOfPrefixes(all, n, m);
    } else {
      IdsOfPrefixes(all, m, n);
    }
  }

  lemma Slices(all: seq<Event>, n: nat, m: nat, l: nat)
    requires n <= m <= l <= |all|
    ensures all[n..m] + all[m..l] == all[n..l]
  {
  }

  lemma {:induction false} PollsOf(all: seq<Event>, lists: seq<seq<Event>>, n: nat)
    requires DistinctIds(all) && n <= |all| && Prefixes(lists, all)
    ensures n <= Longest(lists, n) <= |all|
    ensures Polls(lists, Ids(all[..n])) == all[n..Longest(lists, n)]
  {
    if lists != [] {
      PollOf(all, lists[0], n);
      var next := if |lists[0]| > n then |lists[0]| else n;
      PollsOf(all, lists[1..], next);
      Slices(all, n, next, Longest(lists[1..], next));
    }
  }

  function Cursor(received: seq<Event>): Option<string> {
    if received == [] then None else Some(received[|received|-1].id)
  }

  ghost predicate Prefixes(lists: seq<seq<Event>>, all: seq<Event>) {
    forall i :: 0 <= i < |lists| ==> lists[i] <= all
  }

  lemma PrefixDistinct(part: seq<Event>, all: seq<Event>)
    requires part <= all && DistinctIds(all)
    ensures DistinctIds(part)
  {
  }

  lemma CatchUpOf(list: seq<Event>, n: nat)
    requires DistinctIds(list) && n <= |list|
    ensures CatchUp(list, Cursor(list[..n])) == list[n..]
  {
  }

  lemma HeadOfPrefix(all: seq<Event>, list: seq<Event>, n: nat)
    requires list <= all && n <= |list|
    ensures list == all[..|list|] && list[..n] == all[..n] && list[n..] == all[n..|list|]
  {
  }

  /** A connection resumed after the first `n` events yields the next ones, each once. */
  lemma ConnectionContinues(all: seq<Event>, lists: seq<seq<Event>>, n: nat)
    requires DistinctIds(all) && lists != [] && n <= |lists[0]| && Prefixes(lists, all)
    ensures n <= Longest(lists, 0) <= |all|
    ensures Followed(lists, Cursor(all[..n])) == all[n..Longest(lists, 0)]
  {
    var m := |lists[0]|;
    assert lists[0] <= all;
    PrefixDistinct(lists[0], all);
    HeadOfPrefix(all, lists[0], n);
    CatchUpOf(lists[0], n);
    PollsOf(all, lists[1..], m);
    Slices(all, n, m, Longest(lists[1..], m));
  }

  lemma ContinuesFrom(all: seq<Event>, lists: seq<seq<Event>>, held: seq<Event>)
    requires DistinctIds(all) && lists != [] && Prefixes(lists, all) && held <= lists[0]
    ensures |held| <= Longest(lists, 0) <= |all|
    ensures held + Followed(lists, Cursor(held)) == all[..Longest(lists, 0)]
  {
    assert lists[0] <= all;
    assert held == all[..|held|];
    ConnectionContinues(all, lists, |held|);
  }

  lemma DistinctPlaces(all: seq<Event>, n: nat, m: nat)
    requires DistinctIds(all) && 0 < n <= |all| && m < n
    ensures all[n-1].id !in Ids(all[..m])
  {
  }

  lemma NothingFirst(events: seq<Event>)
    ensures [] + events == events
  {
  }

  lemma FromStart(all: seq<Event>, lists: seq<seq<Event>>)
    requires DistinctIds(all) && lists != [] && Prefixes(lists, all)
    ensures Longest(lists, 0) <= |all| && Followed(lists, None) == all[..Longest(lists, 0)]
  {
    ContinuesFrom(all, lists, []);
    assert Cursor([]) == None;
    NothingFirst(Followed(lists, None));
  }

  /** A connection resumed from an id its catch-up read does not show yields all its reads show, from the start. */
  lemma ReplayYieldsAll(all: seq<Event>, lists: seq<seq<Event>>, cursor: string)
    requires DistinctIds(all) && lists != [] && Prefixes(lists, all) && cursor !in Ids(lists[0])
    ensures Longest(lists, 0) <= |all| && Followed(lists, Some(cursor)) == all[..Longest(lists, 0)]
  {
    UnknownCursorReplays(lists, cursor);
    FromStart(all, lists);
  }

  /** Such a connection adds events the client has, unless its reads show none at all. */
  lemma ReplayRepeatsIff(all: seq<Event>, lists: seq<seq<Event>>, held: seq<Event>, cursor: string)
    requires DistinctIds(all) && lists != [] && Prefixes(lists, all) && held <= all && held != []
    requires cursor !in Ids(lists[0])
    ensures held + Followed(lists, Some(cursor)) <= all <==> Longest(lists, 0) == 0
  {
    ReplayYieldsAll(all, lists, cursor);
    var got := held + Followed(lists, Some(cursor));
    assert Longest(lists, 0) > 0 ==> got[|held|] == all[0];
  }

  /**
   A client that resumes from the last log event it holds stays on a prefix of the log exactly
   when the catch-up read shows at least what it holds, or no read of the connection shows anything.
   */
  lemma StaysPrefixIff(all: seq<Event>, lists: seq<seq<Event>>, held: seq<Event>)
    requires DistinctIds(all) && lists != [] && Prefixes(lists, all) && held <= all && held != []
    ensures held + Followed(lists, Cursor(held)) <= all <==> |held| <= |lists[0]| || Longest(lists, 0) == 0
  {
    assert lists[0] <= all;
    if |held| <= |lists[0]| {
      ContinuesFrom(all, lists, held);
    } else {
      HeadOfPrefix(all, lists[0], 0);
      DistinctPlaces(all, |held|, |lists[0]|);
      assert Cursor(held) == Some(all[|held|-1].id);
      ReplayRepeatsIff(all, lists, held, all[|held|-1].id);
    }
  }

  /** A catch-up read that fails shows nothing; the next poll then repeats what the client has. */
  lemma FailedReadRepeats(e: Event)
    ensures Followed([[], [e]], Cursor([e])) == [e]
  {
    var lists: seq<seq<Event>> := [[], [e]];
    ReplayYieldsAll([e], lists, e.id);
    assert lists[1..] == [[e]] && [[e]][1..] == [];
    assert Longest([[e]], 0) == Longest([], 1) == 1;
  }

  /** A connection read to its end leaves the client with everything any of its reads showed. */
  lemma ReadToEnd(all: seq<Event>, lists: seq<seq<Event>>, held: seq<Event>, i: nat)
    requires DistinctIds(all) && lists != [] && Prefixes(lists, all) && held <= lists[0] && i < |lists|
    ensures lists[i] <= held + Followed(lists, Cursor(held)) <= all
  {
    ContinuesFrom(all, lists, held);
    assert lists[i] <= all && |lists[i]| <= Longest(lists, 0);
  }

  /** One connection: what its reads showed, and how many of the events it yielded arrived. */
  datatype Connection = Connection(lists: seq<seq<Event>>, got: nat)

  function Arrived(c: Connection, after: Option<string>): seq<Event> {
    var yielded := Followed(c.lists, after);
    if c.got < |yielded| then yielded[..c.got] else yielded
  }

  /** What a client holds after these connections, each resumed from the last id it got. */
  function Received(connections: seq<Connection>, held: seq<Event>): seq<Event>
    decreases |connections|
  {
    if connections == [] then held
    else Received(connections[1..], held + Arrived(connections[0], Cursor(held)))
  }

  /** Reads show prefixes of `all`, and a catch-up read shows what earlier reads showed. */
  ghost predicate Resumes(all: seq<Event>, connections: seq<Connection>, low: nat)
    decreases |connections|
  {
    connections == []
    || (var lists := connections[0].lists;
        && lists != [] && Prefixes(lists, all) && low <= |lists[0]|
        && Resumes(all, connections[1..], Longest(lists, low)))
  }

  lemma {:induction false} LongestFrom(lists: seq<seq<Event>>, low: nat)
    requires lists != [] && low <= |lists[0]|
    ensures Longest(lists, low) == Longest(lists, 0)
  {
  }

  lemma {:induction false} ReceivedIsPrefix(all: seq<Event>, connections: seq<Connection>, low: nat, held: seq<Event>)
    requires DistinctIds(all) && Resumes(all, connections, low)
    requires low <= |all| && held <= all[..low]
    ensures held <= Received(connections, held) <= all
    decreases |connections|
  {
    if connections != [] {
      var c := connections[0];
      var lists := c.lists;
      assert lists[0] <= all && all[..low] <= lists[0];
      ContinuesFrom(all, lists, held);
      LongestFrom(lists, low);
      var more := Arrived(c, Cursor(held));
      assert held + more <= held + Followed(lists, Cursor(held));
      ReceivedIsPrefix(all, connections[1..], Longest(lists, low), held + more);
    }
  }

  // ---- Reads of one growing file ----

  /** How much of the log each read of a connection saw, and how many events arrived. */
  datatype Visit = Visit(cuts: seq<nat>, got: nat)

  function Shown(parse: Parser, log: string, cuts: seq<nat>): (lists: seq<seq<Event>>)
    ensures |lists| == |cuts|
  {
    if cuts == [] then []
    else [EventsIn(parse, if cuts[0] <= |log| then log[..cuts[0]] else log)] + Shown(parse, log, cuts[1..])
  }

  function Connections(parse: Parser, log: string, visits: seq<Visit>): seq<Connection> {
    if visits == [] then []
    else [Connection(Shown(parse, log, visits[0].cuts), visits[0].got)] + Connections(parse, log, visits[1..])
  }

  function Highest(cuts: seq<nat>, low: nat): (h: nat)
    ensures h >= low && forall i :: 0 <= i < |cuts| ==> cuts[i] <= h
  {
    if cuts == [] then low else Highest(cuts[1..], if cuts[0] > low then cuts[0] else low)
  }

  predicate WithinLog(log: string, cuts: seq<nat>) {
    forall i :: 0 <= i < |cuts| ==> cuts[i] <= |log|
  }

  /** The file only grows: a catch-up read sees at least what any earlier connection saw. */
  predicate InTime(log: string, visits: seq<Visit>, low: nat) {
    visits == []
    || (var cuts := visits[0].cuts;
        && cuts != [] && WithinLog(log, cuts) && low <= cuts[0]
        && InTime(log, visits[1..], Highest(cuts, low)))
  }

  lemma {:induction false} ShownArePrefixes(parse: Parser, log: string, cuts: seq<nat>)
    requires LogTornSafe(parse, log) && WithinLog(log, cuts)
    ensures Prefixes(Shown(parse, log, cuts), EventsIn(parse, log))
  {
    if cuts != [] {
      ReadsArePrefixes(parse, log, cuts[0], |log|);
      ShownArePrefixes(parse, log, cuts[1..]);
    }
  }

  lemma {:induction false} LongestShown(parse: Parser, log: string, cuts: seq<nat>, low: nat)
    requires LogTornSafe(parse, log) && WithinLog(log, cuts) && low <= |log|
    ensures Highest(cuts, low) <= |log|
    ensures Longest(Shown(parse, log, cuts), |EventsIn(parse, log[..low])|) == |EventsIn(parse, log[..Highest(cuts, low)])|
  {
    if cuts != [] {
      if cuts[0] > low {
        ReadsArePrefixes(parse, log, low, cuts[0]);
        LongestShown(parse, log, cuts[1..], cuts[0]);
      } else {
        ReadsArePrefixes(parse, log, cuts[0], low);
        LongestShown(parse, log, cuts[1..], low);
      }
    }
  }

  lemma {:induction false} VisitsResume(parse: Parser, log: string, visits: seq<Visit>, low: nat)
    requires LogTornSafe(parse, log) && low <= |log| && InTime(log, visits, low)
    ensures Resumes(EventsIn(parse, log), Connections(parse, log, visits), |EventsIn(parse, log[..low])|)
    decreases |visits|
  {
    if visits != [] {
      var cuts := visits[0].cuts;
      ShownArePrefixes(parse, log, cuts);
      ReadsArePrefixes(parse, log, low, cuts[0]);
      LongestShown(parse, log, cuts, low);
      VisitsResume(parse, log, visits[1..], Highest(cuts, low));
      assert Connections(parse, log, visits)[1..] == Connections(parse, log, visits[1..]);
    }
  }

  /** Exactly once: whatever the reads tore and wherever connections broke off, no gap, no repeat. */
  lemma ExactlyOnce(parse: Parser, log: string, visits: seq<Visit>)
    requires LogTornSafe(parse, log) && LogIdentified(parse, SplitFrom("", log))
    requires InTime(log, visits, 0)
    ensures Received(Connections(parse, log, visits), []) <= EventsIn(parse, log)
    ensures DistinctIds(EventsIn(parse, log))
  {
    var all := EventsIn(parse, log);
    LogIdsDistinct(parse, SplitFrom("", log));
    ReadsArePrefixes(parse, log, 0, |log|);
    VisitsResume(parse, log, visits, 0);
    ReceivedIsPrefix(all, Connections(parse, log, visits), |EventsIn(parse, log[..0])|, []);
  }
}
