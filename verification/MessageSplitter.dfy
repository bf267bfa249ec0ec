/** Splitting a long reply into messages Telegram accepts. Text is UTF-16 code units, as in JavaScript. */
module MessageSplitter {
  import opened Prelude

  newtype CodeUnit = c: int | 0 <= c < 0x10000

  type Text = seq<CodeUnit>

  const MAX_LENGTH: nat := 4000
  const HALF: nat := 2000

  const LINE_FEED: CodeUnit := 10
  const SPACE: CodeUnit := 32

  predicate White(c: CodeUnit) {
    IsWhitespace(c as int)
  }

  predicate AllWhite(s: Text) {
    forall i :: 0 <= i < |s| ==> White(s[i])
  }

  function TrimStart(s: Text): (t: Text)
    ensures |t| <= |s|
  {
    if s != [] && White(s[0]) then TrimStart(s[1..]) else s
  }

  function TrimEnd(s: Text): (t: Text)
    ensures |t| <= |s|
  {
    if s != [] && White(s[|s| - 1]) then TrimEnd(s[..|s| - 1]) else s
  }

  lemma WhiteAppend(a: Text, b: Text)
    requires AllWhite(a) && AllWhite(b)
    ensures AllWhite(a + b)
  {
  }

  /** Trimming takes off white space and leaves a visible character at that end, if anything. */
  lemma {:induction false} TrimsStart(s: Text) returns (gap: Text)
    ensures AllWhite(gap) && s == gap + TrimStart(s)
    ensures TrimStart(s) != [] ==> !White(TrimStart(s)[0])
  {
    if s != [] && White(s[0]) {
      var more := TrimsStart(s[1..]);
      gap := [s[0]] + more;
      WhiteAppend([s[0]], more);
      assert s == [s[0]] + s[1..];
    } else {
      gap := [];
    }
  }

  lemma {:induction false} TrimsEnd(s: Text) returns (gap: Text)
    ensures AllWhite(gap) && s == TrimEnd(s) + gap
    ensures TrimEnd(s) != [] ==> !White(TrimEnd(s)[|TrimEnd(s)| - 1])
  {
    if s != [] && White(s[|s| - 1]) {
      var more := TrimsEnd(s[..|s| - 1]);
      gap := more + [s[|s| - 1]];
      WhiteAppend(more, [s[|s| - 1]]);
      assert s == s[..|s| - 1] + [s[|s| - 1]];
    } else {
      gap := [];
    }
  }

  lemma {:induction false} TrimmedToNothing(s: Text)
    ensures TrimEnd(s) == [] <==> AllWhite(s)
  {
    if s != [] && White(s[|s| - 1]) {
      TrimmedToNothing(s[..|s| - 1]);
      assert s == s[..|s| - 1] + [s[|s| - 1]];
      if AllWhite(s[..|s| - 1]) {
        WhiteAppend(s[..|s| - 1], [s[|s| - 1]]);
      }
    }
  }

  function LastIndexOf(s: Text, c: CodeUnit): (i: int)
    ensures -1 <= i < |s|
    ensures i >= 0 ==> s[i] == c
    ensures forall k :: i < k < |s| ==> s[k] != c
  {
    if s == [] then -1
    else if s[|s| - 1] == c then |s| - 1
    else LastIndexOf(s[..|s| - 1], c)
  }

  function Cut(remaining: Text): (cut: nat)
    requires |remaining| > MAX_LENGTH
    ensures HALF <= cut <= MAX_LENGTH
  {
    var slice := remaining[..MAX_LENGTH];
    var line := LastIndexOf(slice, LINE_FEED);
    if line >= HALF then line
    else
      var word := LastIndexOf(slice, SPACE);
      if word >= HALF then word else MAX_LENGTH
  }

  function Rest(remaining: Text): (rest: Text)
    requires |remaining| > MAX_LENGTH
    ensures |rest| <= |remaining| - HALF
  {
    TrimStart(remaining[Cut(remaining)..])
  }

  function Chunks(remaining: Text): seq<Text>
    decreases |remaining|
  {
    if |remaining| > MAX_LENGTH then [TrimEnd(remaining[..Cut(remaining)])] + Chunks(Rest(remaining))
    else if |remaining| > 0 then [remaining]
    else []
  }

  function Split(text: Text): seq<Text> {
    if |text| <= MAX_LENGTH then [text] else Chunks(text)
  }

  method FindCut(remaining: Text) returns (cut: nat)
    requires |remaining| > MAX_LENGTH
    ensures cut == Cut(remaining)
  {
    var slice := remaining[..MAX_LENGTH];
    var at := LastIndexOf(slice, LINE_FEED);
    if at < HALF {
      at := LastIndexOf(slice, SPACE);
    }
    if at < HALF {
      at := MAX_LENGTH;
    }
    cut := at;
  }

  method SplitMessage(text: Text) returns (chunks: seq<Text>)
    ensures chunks == Split(text)
  {
    if |text| <= MAX_LENGTH {
      return [text];
    }
    chunks := [];
    var remaining := text;
    ghost var target := Chunks(text);
    while |remaining| > MAX_LENGTH
      invariant chunks + Chunks(remaining) == target
      decreases |remaining|
    {
      var cut := FindCut(remaining);
      var chunk, rest := TrimEnd(remaining[..cut]), TrimStart(remaining[cut..]);
      Regroup(chunks, [chunk], Chunks(rest));
      chunks := chunks + [chunk];
      remaining := rest;
    }
    if |remaining| > 0 {
      chunks := chunks + [remaining];
    }
  }

  // ---- Where it cuts ----

  predicate IsLast(s: Text, c: CodeUnit, i: nat) {
    HALF <= i < MAX_LENGTH <= |s| && s[i] == c && forall k :: i < k < MAX_LENGTH ==> s[k] != c
  }

  predicate NoneInHalf(s: Text, c: CodeUnit) {
    forall k :: HALF <= k < MAX_LENGTH <= |s| ==> s[k] != c
  }

  /** The last line feed in the second half of the budget, or else the last space there, or else the budget. */
  predicate BreakAt(s: Text, at: nat) {
    || IsLast(s, LINE_FEED, at)
    || (NoneInHalf(s, LINE_FEED) && IsLast(s, SPACE, at))
    || (NoneInHalf(s, LINE_FEED) && NoneInHalf(s, SPACE) && at == MAX_LENGTH)
  }

  /** A long text has one break, and the cut is there. */
  lemma CutIsLastBreak(remaining: Text, at: nat)
    requires |remaining| > MAX_LENGTH
    ensures Cut(remaining) == at <==> BreakAt(remaining, at)
  {
  }

  /** A long text goes out as what is before its break, and then as what is after it, without the space between. */
  lemma SplitsAtBreak(text: Text, at: nat)
    requires |text| > MAX_LENGTH && BreakAt(text, at)
    ensures at <= |text| && TrimEnd(text[..at]) <= text
    ensures var rest := TrimStart(text[at..]);
            Split(text) == [TrimEnd(text[..at])] + if rest == [] then [] else Split(rest)
  {
    CutIsLastBreak(text, at);
    var gap := TrimsEnd(text[..at]);
    var rest := TrimStart(text[at..]);
    assert Cut(text) == at && Rest(text) == rest;
    assert Chunks(rest) == if rest == [] then [] else Split(rest);
  }

  // ---- Sizes ----

  lemma {:induction false} ChunksFit(remaining: Text)
    ensures forall i :: 0 <= i < |Chunks(remaining)| ==> |Chunks(remaining)[i]| <= MAX_LENGTH
    ensures HALF * |Chunks(remaining)| < |remaining| + HALF
    decreases |remaining|
  {
    if |remaining| > MAX_LENGTH {
      ChunksFit(Rest(remaining));
    }
  }

  /** Every message fits, and there are no more of them than half-budgets in the text, plus one. */
  lemma MessagesFit(text: Text)
    ensures forall i :: 0 <= i < |Split(text)| ==> |Split(text)[i]| <= 4000
    ensures 1 <= |Split(text)| <= |text| / 2000 + 1
  {
    ChunksFit(text);
  }

  // ---- Nothing lost ----

  function Weave(chunks: seq<Text>, gaps: seq<Text>): Text
    requires |chunks| == |gaps|
  {
    if chunks == [] then [] else chunks[0] + (gaps[0] + Weave(chunks[1..], gaps[1..]))
  }

  /** One pass: a message, then white space, then what the next pass starts from. */
  lemma OnePass(remaining: Text) returns (gap: Text)
    requires |remaining| > MAX_LENGTH
    ensures AllWhite(gap)
    ensures remaining == TrimEnd(remaining[..Cut(remaining)]) + (gap + Rest(remaining))
  {
    var cut := Cut(remaining);
    var before := TrimsEnd(remaining[..cut]);
    var after := TrimsStart(remaining[cut..]);
    gap := before + after;
    WhiteAppend(before, after);
    Regroup(TrimEnd(remaining[..cut]), before, after + Rest(remaining));
    Regroup(before, after, Rest(remaining));
    assert remaining == remaining[..cut] + remaining[cut..];
  }

  lemma WeaveFirst(chunk: Text, gap: Text, chunks: seq<Text>, gaps: seq<Text>)
    requires |chunks| == |gaps|
    ensures Weave([chunk] + chunks, [gap] + gaps) == chunk + (gap + Weave(chunks, gaps))
  {
  }

  lemma {:induction false} ChunksRebuild(remaining: Text) returns (gaps: seq<Text>)
    ensures |gaps| == |Chunks(remaining)| && forall i :: 0 <= i < |gaps| ==> AllWhite(gaps[i])
    ensures Weave(Chunks(remaining), gaps) == remaining
    decreases |remaining|
  {
    if |remaining| > MAX_LENGTH {
      var gap := OnePass(remaining);
      var more := ChunksRebuild(Rest(remaining));
      gaps := [gap] + more;
      WeaveFirst(TrimEnd(remaining[..Cut(remaining)]), gap, Chunks(Rest(remaining)), more);
    } else if |remaining| > 0 {
      gaps := [[]];
      WeaveFirst(remaining, [], [], []);
      assert [remaining] + [] == [remaining] && [[]] + [] == gaps;
    } else {
      gaps := [];
    }
  }

  /** The messages with white space put back between and after them are the text. */
  lemma MessagesRebuild(text: Text) returns (gaps: seq<Text>)
    ensures |gaps| == |Split(text)| && forall i :: 0 <= i < |gaps| ==> AllWhite(gaps[i])
    ensures Weave(Split(text), gaps) == text
  {
    if |text| <= MAX_LENGTH {
      gaps := [[]];
      WeaveFirst(text, [], [], []);
      assert [text] + [] == [text] && [[]] + [] == gaps;
    } else {
      gaps := ChunksRebuild(text);
    }
  }

  function Visible(s: Text): Text {
    if s == [] then [] else (if White(s[0]) then [] else [s[0]]) + Visible(s[1..])
  }

  lemma {:induction false} VisibleAppend(a: Text, b: Text)
    ensures Visible(a + b) == Visible(a) + Visible(b)
  {
    if a == [] {
      assert a + b == b;
    } else {
      assert (a + b)[1..] == a[1..] + b;
      VisibleAppend(a[1..], b);
      Regroup(if White(a[0]) then [] else [a[0]], Visible(a[1..]), Visible(b));
    }
  }

  lemma {:induction false} WhiteIsInvisible(s: Text)
    requires AllWhite(s)
    ensures Visible(s) == []
  {
    if s != [] {
      WhiteIsInvisible(s[1..]);
    }
  }

  function Flatten(chunks: seq<Text>): Text {
    if chunks == [] then [] else chunks[0] + Flatten(chunks[1..])
  }

  lemma {:induction false} WeaveIsVisible(chunks: seq<Text>, gaps: seq<Text>)
    requires |chunks| == |gaps| && forall i :: 0 <= i < |gaps| ==> AllWhite(gaps[i])
    ensures Visible(Weave(chunks, gaps)) == Visible(Flatten(chunks))
  {
    if chunks != [] {
      WeaveIsVisible(chunks[1..], gaps[1..]);
      var woven := Weave(chunks[1..], gaps[1..]);
      VisibleAppend(chunks[0], gaps[0] + woven);
      VisibleAppend(gaps[0], woven);
      WhiteIsInvisible(gaps[0]);
      VisibleAppend(chunks[0], Flatten(chunks[1..]));
    }
  }

  /** No visible character is lost, added or moved. */
  lemma NothingVisibleLost(text: Text)
    ensures Visible(Flatten(Split(text))) == Visible(text)
  {
    var gaps := MessagesRebuild(text);
    WeaveIsVisible(Split(text), gaps);
  }

  // ---- Empty messages ----

  ghost predicate NoneEmpty(chunks: seq<Text>) {
    forall i :: 0 <= i < |chunks| ==> chunks[i] != []
  }

  /** What a pass leaves starts with a visible character, so no later message is empty. */
  lemma {:induction false} LaterChunks(remaining: Text)
    requires remaining != [] ==> !White(remaining[0])
    ensures NoneEmpty(Chunks(remaining))
    decreases |remaining|
  {
    if |remaining| > MAX_LENGTH {
      var first := remaining[..Cut(remaining)];
      assert first[0] == remaining[0];
      TrimmedToNothing(first);
      var gap := TrimsStart(remaining[Cut(remaining)..]);
      LaterChunks(Rest(remaining));
    }
  }

  /**
   Only the first message can be empty: for no text, or when a text over the budget has nothing
   but white space before its first break.
   */
  lemma EmptyMessages(text: Text)
    ensures |Split(text)| > 0 && NoneEmpty(Split(text)[1..])
    ensures Split(text)[0] == [] <==>
      text == [] || (|text| > MAX_LENGTH && exists at: nat :: BreakAt(text, at) && at <= |text| && AllWhite(text[..at]))
  {
    if |text| > MAX_LENGTH {
      CutIsLastBreak(text, Cut(text));
      TrimmedToNothing(text[..Cut(text)]);
      forall at: nat | BreakAt(text, at) ensures at == Cut(text) {
        CutIsLastBreak(text, at);
      }
      var gap := TrimsStart(text[Cut(text)..]);
      LaterChunks(Rest(text));
      assert Split(text)[1..] == Chunks(Rest(text));
    }
  }

  /** One space more than the budget goes out as an empty message. */
  lemma SpacesGoOutEmpty(text: Text)
    requires |text| == 4001 && forall i :: 0 <= i < |text| ==> text[i] == SPACE
    ensures Split(text)[0] == []
  {
    assert IsLast(text, SPACE, MAX_LENGTH - 1) && NoneInHalf(text, LINE_FEED);
    assert BreakAt(text, MAX_LENGTH - 1) && AllWhite(text[..MAX_LENGTH - 1]);
    EmptyMessages(text);
  }
}
