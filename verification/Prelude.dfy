/** Datatypes, text functions and one loop shared by the models. */
module Prelude {
  datatype Option<+T> = None | Some(value: T)

  /** The code units JavaScript's trim removes: white space and line terminators. */
  predicate IsWhitespace(code: int) {
    || 9 <= code <= 13 || code == 32 || code == 0xA0 || code == 0x1680 || 0x2000 <= code <= 0x200A
    || code == 0x2028 || code == 0x2029 || code == 0x202F || code == 0x205F || code == 0x3000 || code == 0xFEFF
  }

  /** `k` is not skipped and no other key that is not skipped has a smaller stamp. */
  ghost predicate IsOldest(stamps: map<string, int>, skip: set<string>, k: string) {
    k in stamps && k !in skip && forall w :: w in stamps && w !in skip ==> stamps[k] <= stamps[w]
  }

  /** The loop by which the pool looks for its oldest entry. */
  method FindOldest(stamps: map<string, int>, skip: set<string>) returns (oldest: Option<string>)
    ensures oldest.None? ==> forall w :: w in stamps ==> w in skip
    ensures oldest.Some? ==> IsOldest(stamps, skip, oldest.value)
  {
    oldest := None;
    var rest := stamps.Keys;
    while rest != {}
      invariant rest <= stamps.Keys
      invariant oldest.None? ==> forall w :: w in stamps && w !in rest ==> w in skip
      invariant oldest.Some? ==> oldest.value in stamps && oldest.value !in skip
      invariant oldest.Some? ==>
        forall w :: w in stamps && w !in rest && w !in skip ==> stamps[oldest.value] <= stamps[w]
    {
      var k :| k in rest;
      rest := rest - {k};
      if k !in skip {
        if oldest.None? || stamps[k] < stamps[oldest.value] {
          oldest := Some(k);
        }
      }
    }
  }

  /** JavaScript's split on line feeds, with `current` already read of the first piece. */
  function SplitFrom(current: string, text: string): (lines: seq<string>)
    ensures |lines| > 0
    decreases |text|
  {
    if text == "" then [current]
    else if text[0] == '\n' then [current] + SplitFrom("", text[1..])
    else SplitFrom(current + [text[0]], text[1..])
  }

  function Join(lines: seq<string>): string
    requires |lines| > 0
  {
    if |lines| == 1 then lines[0] else lines[0] + "\n" + Join(lines[1..])
  }

  /** The pieces have no line feed. */
  lemma {:induction false} PiecesHaveNoFeed(current: string, text: string)
    requires '\n' !in current
    ensures forall line :: line in SplitFrom(current, text) ==> '\n' !in line
    decreases |text|
  {
    if text == "" {
    } else if text[0] == '\n' {
      PiecesHaveNoFeed("", text[1..]);
    } else {
      PiecesHaveNoFeed(current + [text[0]], text[1..]);
    }
  }

  lemma JoinHead(head: string, rest: seq<string>)
    requires rest != []
    ensures Join([head] + rest) == head + ("\n" + Join(rest))
  {
  }

  /** Joined by line feeds the pieces are the text. */
  lemma {:induction false} SplitThenJoin(current: string, text: string)
    ensures Join(SplitFrom(current, text)) == current + text
    decreases |text|
  {
    if text == "" {
    } else if text[0] == '\n' {
      SplitThenJoin("", text[1..]);
      JoinHead(current, SplitFrom("", text[1..]));
      assert "" + text[1..] == text[1..] && text == "\n" + text[1..];
    } else {
      SplitThenJoin(current + [text[0]], text[1..]);
      MoveHead(current, text);
    }
  }

  function Concat(chunks: seq<string>): string {
    if chunks == [] then "" else chunks[0] + Concat(chunks[1..])
  }

  /** JavaScript's indexOf of one code unit. */
  function IndexOf(s: string, c: char): (i: int)
    ensures -1 <= i < |s|
    ensures i == -1 <==> c !in s
    ensures i >= 0 ==> s[i] == c && c !in s[..i]
  {
    if s == "" then -1
    else if s[0] == c then 0
    else
      var rest := IndexOf(s[1..], c);
      if rest == -1 then -1 else rest + 1
  }

  lemma {:induction false} FirstAt(s: string, c: char, i: nat)
    requires i < |s| && s[i] == c && c !in s[..i]
    ensures IndexOf(s, c) == i
  {
  }

  lemma Regroup<T>(a: seq<T>, b: seq<T>, c: seq<T>)
    ensures a + (b + c) == a + b + c
  {
  }

  lemma MoveHead<T>(a: seq<T>, b: seq<T>)
    requires b != []
    ensures a + b == a + [b[0]] + b[1..]
  {
  }

  function Digit(d: nat): char
    requires d < 10
  {
    ('0' as int + d) as char
  }

  function Decimal(n: nat): string {
    if n < 10 then [Digit(n)] else Decimal(n / 10) + [Digit(n % 10)]
  }

  lemma {:induction false} DecimalInjective(a: nat, b: nat)
    requires Decimal(a) == Decimal(b)
    ensures a == b
  {
    DecimalNonEmpty(a / 10);
    DecimalNonEmpty(b / 10);
    var x, y := Decimal(a), Decimal(b);
    assert x[|x|-1] == Digit(a % 10) && y[|y|-1] == Digit(b % 10);
    if a >= 10 && b >= 10 {
      assert x[..|x|-1] == Decimal(a / 10) && y[..|y|-1] == Decimal(b / 10);
      DecimalInjective(a / 10, b / 10);
    }
  }

  lemma DecimalNonEmpty(n: nat)
    ensures |Decimal(n)| > 0
  {
  }

  lemma SubsetSize<T>(a: set<T>, b: set<T>)
    requires a <= b
    ensures |a| <= |b|
  {
    assert b == a + (b - a);
  }

  lemma LongerThanAll(ids: set<string>) returns (n: nat)
    ensures forall id :: id in ids ==> |id| < n
  {
    if ids == {} {
      n := 0;
    } else {
      var some :| some in ids;
      n := LongerThanAll(ids - {some});
      n := if n > |some| then n else |some| + 1;
    }
  }

  /** There is always another id. */
  lemma FreshId(ids: set<string>) returns (id: string)
    ensures id !in ids
  {
    var n := LongerThanAll(ids);
    id := seq(n, _ => 'x');
  }
}
