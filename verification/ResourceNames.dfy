/**
 Names of the Docker resources of a `networking: limited` session. The session id is
 sanitised to Docker's alphabet, so different ids can share their names.
 */
module ResourceNames {
  import opened Prelude

  datatype Names = Names(confined: string, egress: string, sidecar: string)

  const PREFIX := "openclaw-sess-"

  /** Ids are ASCII, minted or matching the pattern of session keys, so only 'A' to 'Z' change. */
  function Lower(c: char): char {
    if 'A' <= c <= 'Z' then (c as int + 32) as char else c
  }

  /** One character lower-cased, then replaced by '-' outside [a-z0-9-]. */
  function SafeChar(c: char): char {
    var l := Lower(c);
    if 'a' <= l <= 'z' || '0' <= l <= '9' || l == '-' then l else '-'
  }

  function SafeText(s: string): (r: string)
    ensures |r| == |s| && forall i :: 0 <= i < |s| ==> r[i] == SafeChar(s[i])
  {
    seq(|s|, i requires 0 <= i < |s| => SafeChar(s[i]))
  }

  /** The id without its "ses_" prefix, if it has one. */
  function Unprefixed(sid: string): string {
    if "ses_" <= sid then sid[4..] else sid
  }

  function SafeId(sid: string): string {
    SafeText(Unprefixed(sid))
  }

  function NamesFor(sid: string): Names {
    var id := SafeId(sid);
    Names(PREFIX + id + "-confined", PREFIX + id + "-egress", PREFIX + id + "-proxy")
  }

  function NetworksOf(n: Names): set<string> {
    {n.confined, n.egress}
  }

  lemma WrapInjective(pre: string, a: string, b: string, post: string)
    ensures pre + a + post == pre + b + post <==> a == b
  {
    if pre + a + post == pre + b + post {
      var x, y := pre + a + post, pre + b + post;
      assert x[|pre|..|pre|+|a|] == a;
      assert y[|pre|..|pre|+|b|] == b;
      assert |a| == |b|;
    }
  }

  lemma EndsDiffer(a: string, b: string, x: string, y: string)
    requires |x| > 0 && |y| > 0 && x[|x|-1] != y[|y|-1]
    ensures a + x != b + y
  {
    assert (a + x)[|a + x|-1] == x[|x|-1];
    assert (b + y)[|b + y|-1] == y[|y|-1];
  }

  /** Two sessions share all their resource names, or share none: exactly when their sanitised ids agree. */
  lemma NamesMeetIff(s: string, t: string)
    ensures NamesFor(s) == NamesFor(t) <==> SafeId(s) == SafeId(t)
    ensures NamesFor(s).sidecar == NamesFor(t).sidecar <==> SafeId(s) == SafeId(t)
    ensures NetworksOf(NamesFor(s)) !! NetworksOf(NamesFor(t)) <==> SafeId(s) != SafeId(t)
    ensures NamesFor(s).confined != NamesFor(t).egress
  {
    var a, b := SafeId(s), SafeId(t);
    WrapInjective(PREFIX, a, b, "-confined");
    WrapInjective(PREFIX, a, b, "-egress");
    WrapInjective(PREFIX, a, b, "-proxy");
    EndsDiffer(PREFIX + a, PREFIX + b, "-confined", "-egress");
    EndsDiffer(PREFIX + b, PREFIX + a, "-confined", "-egress");
    if a == b {
      assert NamesFor(s).confined in NetworksOf(NamesFor(s)) && NamesFor(s).confined in NetworksOf(NamesFor(t));
    }
  }

  /** Ids the store mints: "ses_" and lower-case letters or digits. */
  predicate Minted(sid: string) {
    "ses_" <= sid && forall i :: 4 <= i < |sid| ==> 'a' <= sid[i] <= 'z' || '0' <= sid[i] <= '9'
  }

  lemma MintedIdsNeverMeet(s: string, t: string)
    requires Minted(s) && Minted(t) && s != t
    ensures NetworksOf(NamesFor(s)) !! NetworksOf(NamesFor(t)) && NamesFor(s).sidecar != NamesFor(t).sidecar
  {
    assert s == "ses_" + s[4..] && t == "ses_" + t[4..];
    assert SafeId(s) == s[4..];
    assert SafeId(t) == t[4..];
    NamesMeetIff(s, t);
  }

  /** What a client may choose as a session key. */
  predicate IsSessionKey(key: string) {
    && 1 <= |key| <= 128
    && forall i :: 0 <= i < |key| ==>
      'a' <= key[i] <= 'z' || 'A' <= key[i] <= 'Z' || '0' <= key[i] <= '9' || key[i] == '_' || key[i] == '-'
  }

  /** Keys clients choose can meet. */
  lemma ChosenIdsCanMeet() returns (s: string, t: string)
    ensures s != t && IsSessionKey(s) && IsSessionKey(t) && NamesFor(s) == NamesFor(t)
  {
    s, t := "Team_1", "team-1";
    assert "ses_"[0] != s[0] && "ses_"[0] != t[0];
    assert Unprefixed(s) == s && Unprefixed(t) == t;
    assert SafeText(s) == "team-1";
    assert SafeText(t) == "team-1";
  }

  // ---- Which sessions need these names ----

  // What makes and removes session rows; `minted` is the id the store would generate.
  datatype Request =
    | CreateSession(environment: Option<string>, minted: string)
    | ChatCompletion(key: string, minted: string)   // "" for no key
    | DeleteSession(id: string)

  /** The session rows with the environment each is bound to, if any. */
  type Rows = map<string, Option<string>>

  /** A chosen key never comes with an environment. */
  function Served(rows: Rows, r: Request): Rows {
    match r
    case CreateSession(environment, minted) => rows[minted := environment]
    case ChatCompletion(key, minted) =>
      if key == "" then rows[minted := None]
      else if !IsSessionKey(key) || key in rows then rows
      else rows[key := None]
    case DeleteSession(id) => rows - {id}
  }

  function RowsAfter(requests: seq<Request>): Rows {
    if requests == [] then map[] else Served(RowsAfter(requests[..|requests|-1]), requests[|requests|-1])
  }

  /** The networking of a session comes from its environment; without one it is not limited. */
  predicate IsLimited(rows: Rows, limited: set<string>, id: string) {
    id in rows && rows[id].Some? && rows[id].value in limited
  }

  /** A session created for an environment with limited networking. */
  predicate CreatesLimited(r: Request, limited: set<string>, id: string) {
    r.CreateSession? && r.minted == id && r.environment.Some? && r.environment.value in limited
  }

  /** The row of the session goes, or is made anew under the same id. */
  predicate Replaces(r: Request, id: string) {
    match r
    case CreateSession(_, minted) => minted == id
    case ChatCompletion(key, minted) => key == "" && minted == id
    case DeleteSession(gone) => gone == id
  }

  predicate LimitedSince(requests: seq<Request>, limited: set<string>, id: string, i: nat) {
    && i < |requests| && CreatesLimited(requests[i], limited, id)
    && forall j: nat :: i < j < |requests| ==> !Replaces(requests[j], id)
  }

  /** The limited sessions are those created for a limited environment and still there: a chosen key makes none. */
  lemma {:induction false} LimitedIff(requests: seq<Request>, limited: set<string>, id: string)
    ensures IsLimited(RowsAfter(requests), limited, id) <==> exists i: nat :: LimitedSince(requests, limited, id, i)
  {
    if requests != [] {
      var n := |requests| - 1;
      var before := requests[..n];
      LimitedIff(before, limited, id);
      assert CreatesLimited(requests[n], limited, id) ==> LimitedSince(requests, limited, id, n);
      forall i: nat | i < n
        ensures LimitedSince(requests, limited, id, i)
           <==> LimitedSince(before, limited, id, i) && !Replaces(requests[n], id)
      {
        assert forall j: nat :: i < j < n ==> requests[j] == before[j];
      }
    }
  }

  predicate MintsFor(r: Request) {
    r.DeleteSession? || Minted(r.minted)
  }

  /** Whatever sessions were created and deleted, those with limited networking have minted ids. */
  lemma {:induction false} LimitedIsMinted(requests: seq<Request>, limited: set<string>, id: string)
    requires forall r :: r in requests ==> MintsFor(r)
    requires IsLimited(RowsAfter(requests), limited, id)
    ensures Minted(id)
  {
    var before, last := requests[..|requests|-1], requests[|requests|-1];
    assert MintsFor(last);
    if IsLimited(RowsAfter(before), limited, id) {
      LimitedIsMinted(before, limited, id);
    }
  }

  /** So the limited sessions of one store never share a name. */
  lemma LimitedNeverMeet(requests: seq<Request>, limited: set<string>, s: string, t: string)
    requires forall r :: r in requests ==> MintsFor(r)
    requires IsLimited(RowsAfter(requests), limited, s) && IsLimited(RowsAfter(requests), limited, t) && s != t
    ensures NetworksOf(NamesFor(s)) !! NetworksOf(NamesFor(t)) && NamesFor(s).sidecar != NamesFor(t).sidecar
  {
    LimitedIsMinted(requests, limited, s);
    LimitedIsMinted(requests, limited, t);
    MintedIdsNeverMeet(s, t);
  }
}
