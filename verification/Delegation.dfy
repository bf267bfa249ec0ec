/**
 Sessions spawning sessions. A container holds a token minted from its session's row; a request
 that presents one creates a child with one level less. Agent templates change at any time.
 */
module Delegation {
  import opened Prelude
  import opened ParentToken

  type SessionId = string
  type AgentId = string

  datatype Agent = Agent(callableAgents: seq<AgentId>, maxSubagentDepth: nat, archived: bool)

  /** A session as created; `born` counts creations. */
  datatype Session = Session(agentId: AgentId, parent: Option<SessionId>, remaining: int, born: nat)

  /** A token minted, and the template its allowlist was read from. */
  datatype Minted = Minted(payload: Payload, template: Agent)

  /** The template a run was posted with; its whole chain keeps it. */
  datatype Posting = Posting(id: SessionId, template: Agent)

  /** `sessions` has every session ever created; `live` those not deleted. */
  datatype State = State(
    agents: map<AgentId, Agent>, sessions: map<SessionId, Session>, live: set<SessionId>,
    postings: set<Posting>, minted: set<Minted>)

  datatype Reply =
    | Created(id: SessionId)
    | InvalidParentToken
    | AgentNotInAllowlist
    | MaxSubagentDepthReached
    | AgentNotFound
    | AgentArchived

  datatype Action =
    | Post(header: Option<string>, agentId: AgentId, newId: SessionId, now: int)
    | PostRun(id: SessionId)
    | MintForSession(id: SessionId, template: Agent, now: int)
    | MintForWarm(agentId: AgentId, warmKey: string, now: int)
    | PutAgent(agentId: AgentId, agent: Agent)
    | DropAgent(agentId: AgentId)
    | DeleteSession(id: SessionId)

  // ---- Requests ----

  function Create(s: State, agentId: AgentId, id: SessionId, parent: Option<SessionId>, depth: Option<int>): (State, Reply) {
    if agentId !in s.agents then (s, AgentNotFound)
    else if s.agents[agentId].archived then (s, AgentArchived)
    else
      var remaining := if depth.Some? then depth.value else s.agents[agentId].maxSubagentDepth;
      (s.(sessions := s.sessions[id := Session(agentId, parent, remaining, |s.sessions|)], live := s.live + {id}), Created(id))
  }

  /** POST /v1/sessions, `verified` being what the parent token verifies as when there is one. */
  function Answered(s: State, hasToken: bool, verified: Option<Payload>, agentId: AgentId, id: SessionId): (State, Reply) {
    if !hasToken then Create(s, agentId, id, None, None)
    else if verified.None? then (s, InvalidParentToken)
    else
      var payload := verified.value;
      if agentId !in payload.allowlist then (s, AgentNotInAllowlist)
      else if payload.remainingDepth <= 0 then (s, MaxSubagentDepthReached)
      else Create(s, agentId, id, Some(payload.parentSessionId), Some(payload.remainingDepth - 1))
  }

  /** An empty header counts as none. */
  predicate Presents(header: Option<string>) {
    header.Some? && header.value != ""
  }

  function Posted(k: Signer, s: State, header: Option<string>, agentId: AgentId, id: SessionId, now: int): (State, Reply) {
    Answered(s, Presents(header), if Presents(header) then Verify(k, header.value, now) else None, agentId, id)
  }

  /**
   The token put in a container's environment, with the template its run was posted with;
   a session deleted meanwhile counts as depth 0.
   */
  function MintedFor(s: State, id: SessionId, template: Agent, now: int): Minted
    requires id in s.sessions
  {
    var depth := if id in s.live then s.sessions[id].remaining else 0;
    Minted(PayloadFor(id, s.sessions[id].agentId, template.callableAgents, depth, None, now), template)
  }

  /** What a request gets that presents a token built at `t` for session `id`, a day being 86400000 milliseconds. */
  ghost predicate Redeems(s: State, id: SessionId, allowlist: seq<AgentId>, depth: int, t: int,
                          agentId: AgentId, child: SessionId, now: int, after: State, reply: Reply) {
    if now >= t + 86400000 then after == s && reply == InvalidParentToken
    else if agentId !in allowlist then after == s && reply == AgentNotInAllowlist
    else if depth <= 0 then after == s && reply == MaxSubagentDepthReached
    else if agentId !in s.agents then after == s && reply == AgentNotFound
    else if s.agents[agentId].archived then after == s && reply == AgentArchived
    else
      && reply == Created(child) && child in after.sessions && child in after.live
      && after.sessions[child].agentId == agentId && after.sessions[child].parent == Some(id)
      && after.sessions[child].remaining == depth - 1
      && after == s.(sessions := s.sessions[child := after.sessions[child]], live := s.live + {child})
  }

  /** The token spawns, in whatever state and at whatever moment it is presented. */
  ghost predicate Spawns(k: Signer, token: string, id: SessionId, allowlist: seq<AgentId>, depth: int, t: int) {
    forall s: State, agentId, child, now ::
      Redeems(s, id, allowlist, depth, t, agentId, child, now,
              Posted(k, s, Some(token), agentId, child, now).0, Posted(k, s, Some(token), agentId, child, now).1)
  }

  /**
   A token built for a session is good for a day: until then it creates a child of any agent on the
   captured allowlist that is there and not archived, one level below the session, and says why
   otherwise; from then on it is invalid.
   */
  lemma TokenSpawns(k: Signer, s: State, id: SessionId, template: Agent, t: int)
    requires Sane(k) && id in s.sessions
    ensures Spawns(k, Sign(k, MintedFor(s, id, template, t).payload), id, template.callableAgents,
                   if id in s.live then s.sessions[id].remaining else 0, t)
  {
    var payload := MintedFor(s, id, template, t).payload;
    var token := Sign(k, payload);
    assert '.' in token;
    forall u: State, agentId, child, now
      ensures Redeems(u, id, template.callableAgents, if id in s.live then s.sessions[id].remaining else 0, t, agentId, child, now,
                      Posted(k, u, Some(token), agentId, child, now).0, Posted(k, u, Some(token), agentId, child, now).1)
    {
      MintThenVerify(k, payload, now);
    }
  }

  /** A request without a token creates a top-level session with its template's depth. */
  lemma PlainRequestCreates(k: Signer, s: State, agentId: AgentId, id: SessionId, now: int)
    ensures var (after, reply) := Posted(k, s, None, agentId, id, now);
            if agentId !in s.agents then after == s && reply == AgentNotFound
            else if s.agents[agentId].archived then after == s && reply == AgentArchived
            else
              && reply == Created(id) && id in after.sessions && id in after.live
              && after.sessions[id].agentId == agentId && after.sessions[id].parent == None
              && after.sessions[id].remaining == s.agents[agentId].maxSubagentDepth
    ensures Posted(k, s, Some(""), agentId, id, now) == Posted(k, s, None, agentId, id, now)
  {
  }

  class SessionsApi {
    const signer: Signer
    var state: State

    constructor (signer: Signer)
      ensures this.signer == signer && state == State(map[], map[], {}, {}, {})
    {
      this.signer := signer;
      state := State(map[], map[], {}, {}, {});
    }

    method PostSession(header: Option<string>, agentId: AgentId, newId: SessionId, now: int) returns (reply: Reply)
      modifies this
      ensures (state, reply) == Posted(signer, old(state), header, agentId, newId, now)
      ensures newId !in old(state).sessions ==> state == Apply(signer, old(state), Post(header, agentId, newId, now))
    {
      var depthOverride: Option<int>, parentSessionId: Option<SessionId> := None, None;
      if Presents(header) {
        var payload := Verify(signer, header.value, now);
        if payload.None? {
          return InvalidParentToken;
        }
        if agentId !in payload.value.allowlist {
          return AgentNotInAllowlist;
        }
        if payload.value.remainingDepth <= 0 {
          return MaxSubagentDepthReached;
        }
        depthOverride := Some(payload.value.remainingDepth - 1);
        parentSessionId := Some(payload.value.parentSessionId);
      }
      if agentId !in state.agents {
        return AgentNotFound;
      }
      if state.agents[agentId].archived {
        return AgentArchived;
      }
      var remaining := if depthOverride.Some? then depthOverride.value else state.agents[agentId].maxSubagentDepth;
      var session := Session(agentId, parentSessionId, remaining, |state.sessions|);
      state := state.(sessions := state.sessions[newId := session], live := state.live + {newId});
      return Created(newId);
    }

    /** A run is posted for the session: it keeps the template it found. */
    method CaptureTemplate(id: SessionId) returns (agent: Option<Agent>)
      requires id in state.sessions
      modifies this
      ensures agent == if old(state).sessions[id].agentId in old(state).agents
                       then Some(old(state).agents[old(state).sessions[id].agentId]) else None
      ensures state == if agent.Some? then old(state).(postings := old(state).postings + {Posting(id, agent.value)}) else old(state)
      ensures agent.Some? <==> Enabled(old(state), PostRun(id))
      ensures agent.Some? ==> state == Apply(signer, old(state), PostRun(id))
    {
      var agentId := state.sessions[id].agentId;
      if agentId !in state.agents {
        return None;
      }
      agent := Some(state.agents[agentId]);
      state := state.(postings := state.postings + {Posting(id, agent.value)});
    }

    method BuildToken(id: SessionId, agent: Agent, now: int) returns (token: string)
      requires id in state.sessions && Posting(id, agent) in state.postings
      modifies this
      ensures token == Sign(signer, MintedFor(old(state), id, agent, now).payload)
      ensures Sane(signer) ==> Spawns(signer, token, id, agent.callableAgents,
                                      if id in old(state).live then old(state).sessions[id].remaining else 0, now)
      ensures state == old(state).(minted := old(state).minted + {MintedFor(old(state), id, agent, now)})
      ensures state == Apply(signer, old(state), MintForSession(id, agent, now))
    {
      var session := state.sessions[id];
      var depth := if id in state.live then session.remaining else 0;
      var payload := PayloadFor(id, session.agentId, agent.callableAgents, depth, None, now);
      state := state.(minted := state.minted + {Minted(payload, agent)});
      token := Sign(signer, payload);
      if Sane(signer) {
        TokenSpawns(signer, old(state), id, agent, now);
      }
    }
  }

  // ---- Runs ----

  predicate NonDelegating(agent: Agent) {
    agent.callableAgents == [] && agent.maxSubagentDepth == 0
  }

  predicate Enabled(s: State, a: Action) {
    match a
    case Post(_, _, newId, _) => newId !in s.sessions
    case PostRun(id) => id in s.sessions && s.sessions[id].agentId in s.agents
    case MintForSession(id, template, _) => id in s.sessions && Posting(id, template) in s.postings
    case MintForWarm(agentId, _, _) => agentId in s.agents && NonDelegating(s.agents[agentId])
    case PutAgent(_, _) => true
    case DropAgent(_) => true
    case DeleteSession(id) => id in s.live
  }

  function Apply(k: Signer, s: State, a: Action): State
    requires Enabled(s, a)
  {
    match a
    case Post(header, agentId, newId, now) => Posted(k, s, header, agentId, newId, now).0
    case PostRun(id) => s.(postings := s.postings + {Posting(id, s.agents[s.sessions[id].agentId])})
    case MintForSession(id, template, now) => s.(minted := s.minted + {MintedFor(s, id, template, now)})
    case MintForWarm(agentId, warmKey, now) =>
      s.(minted := s.minted + {Minted(PayloadFor(warmKey, agentId, s.agents[agentId].callableAgents, 0, None, now), s.agents[agentId])})
    case PutAgent(agentId, agent) => s.(agents := s.agents[agentId := agent])
    case DropAgent(agentId) => s.(agents := s.agents - {agentId})
    case DeleteSession(id) => s.(live := s.live - {id})
  }

  /** The signed part of whatever is presented was signed by the minter. */
  ghost predicate Unforged(k: Signer, s: State, a: Action) {
    a.Post? && Presents(a.header) && Verify(k, a.header.value, a.now).Some? ==>
      exists m :: m in s.minted && SignedPart(a.header.value) == SignedPart(Sign(k, m.payload))
  }

  /** Each action is enabled in turn, and no request presents a forged token. */
  ghost predicate IsRun(k: Signer, actions: seq<Action>)
    decreases |actions|, 0
  {
    actions == []
    || (&& IsRun(k, actions[..|actions|-1])
        && Enabled(Exec(k, actions[..|actions|-1]), actions[|actions|-1])
        && Unforged(k, Exec(k, actions[..|actions|-1]), actions[|actions|-1]))
  }

  ghost function Exec(k: Signer, actions: seq<Action>): State
    requires IsRun(k, actions)
    decreases |actions|, 1
  {
    if actions == [] then START else Apply(k, Exec(k, actions[..|actions|-1]), actions[|actions|-1])
  }

  const START := State(map[], map[], {}, {}, {})

  // ---- Depth ----

  ghost predicate ParentsFirst(sessions: map<SessionId, Session>) {
    forall id :: id in sessions && sessions[id].parent.Some? ==>
      sessions[id].parent.value in sessions && sessions[sessions[id].parent.value].born < sessions[id].born
  }

  /** How many spawns separate a session from the top-level one it descends from. */
  function Distance(sessions: map<SessionId, Session>, id: SessionId): nat
    requires ParentsFirst(sessions) && id in sessions
    decreases sessions[id].born
  {
    if sessions[id].parent.None? then 0 else 1 + Distance(sessions, sessions[id].parent.value)
  }

  function Root(sessions: map<SessionId, Session>, id: SessionId): SessionId
    requires ParentsFirst(sessions) && id in sessions
    decreases sessions[id].born
  {
    if sessions[id].parent.None? then id else Root(sessions, sessions[id].parent.value)
  }

  /** A child has one level less than its parent, and a template posted for the parent allowed its agent. */
  ghost predicate SpawnedBy(sessions: map<SessionId, Session>, minted: set<Minted>, postings: set<Posting>, id: SessionId)
    requires id in sessions && sessions[id].parent.Some? && sessions[id].parent.value in sessions
  {
    var parent := sessions[id].parent.value;
    && sessions[id].remaining == sessions[parent].remaining - 1
    && exists m :: m in minted && Posting(parent, m.template) in postings
         && MintAllows(m, parent, sessions[parent].agentId, sessions[id].agentId)
  }

  predicate MintAllows(m: Minted, parent: SessionId, parentAgent: AgentId, child: AgentId) {
    && m.payload.parentSessionId == parent && m.payload.parentAgentId == parentAgent
    && child in m.template.callableAgents
  }

  ghost predicate ChildrenSpawned(sessions: map<SessionId, Session>, minted: set<Minted>, postings: set<Posting>)
    requires ParentsFirst(sessions)
  {
    forall id :: id in sessions && sessions[id].parent.Some? ==> SpawnedBy(sessions, minted, postings, id)
  }

  /** A token that still allows a spawn was minted for a session, with its depth and a template posted for it. */
  ghost predicate MintsFit(sessions: map<SessionId, Session>, minted: set<Minted>, postings: set<Posting>) {
    forall m :: m in minted ==> MintFits(sessions, postings, m)
  }

  ghost predicate MintFits(sessions: map<SessionId, Session>, postings: set<Posting>, m: Minted) {
    && m.payload.allowlist == m.template.callableAgents
    && (m.payload.remainingDepth > 0 ==>
          && Posting(m.payload.parentSessionId, m.template) in postings
          && m.payload.parentSessionId in sessions
          && sessions[m.payload.parentSessionId].agentId == m.payload.parentAgentId
          && sessions[m.payload.parentSessionId].remaining == m.payload.remainingDepth)
  }

  ghost predicate Counted(sessions: map<SessionId, Session>) {
    forall id :: id in sessions ==> sessions[id].born < |sessions| && sessions[id].remaining >= 0
  }

  ghost predicate Consistent(s: State) {
    && ParentsFirst(s.sessions) && ChildrenSpawned(s.sessions, s.minted, s.postings)
    && MintsFit(s.sessions, s.minted, s.postings) && Counted(s.sessions)
  }

  lemma CreateKeepsConsistent(s: State, id: SessionId, session: Session)
    requires Consistent(s) && id !in s.sessions
    requires session.born == |s.sessions| && session.remaining >= 0
    requires session.parent.Some? ==>
      && session.parent.value in s.sessions
      && session.remaining == s.sessions[session.parent.value].remaining - 1
      && exists m :: m in s.minted && Posting(session.parent.value, m.template) in s.postings
           && MintAllows(m, session.parent.value, s.sessions[session.parent.value].agentId, session.agentId)
    ensures var sessions := s.sessions[id := session];
            && ParentsFirst(sessions) && ChildrenSpawned(sessions, s.minted, s.postings)
            && MintsFit(sessions, s.minted, s.postings) && Counted(sessions)
  {
  }

  lemma MintKeepsConsistent(s: State, m: Minted)
    requires Consistent(s) && MintFits(s.sessions, s.postings, m)
    ensures Consistent(s.(minted := s.minted + {m}))
  {
  }

  lemma ChildKeepsConsistent(s: State, m: Minted, agentId: AgentId, id: SessionId)
    requires Consistent(s) && m in s.minted && agentId in m.payload.allowlist && m.payload.remainingDepth > 0
    requires id !in s.sessions
    ensures Consistent(Create(s, agentId, id, Some(m.payload.parentSessionId), Some(m.payload.remainingDepth - 1)).0)
  {
    assert MintFits(s.sessions, s.postings, m);
    var parent := m.payload.parentSessionId;
    if agentId in s.agents && !s.agents[agentId].archived {
      assert MintAllows(m, parent, s.sessions[parent].agentId, agentId);
      CreateKeepsConsistent(s, id, Session(agentId, Some(parent), m.payload.remainingDepth - 1, |s.sessions|));
    }
  }

  lemma TopLevelKeepsConsistent(s: State, agentId: AgentId, id: SessionId)
    requires Consistent(s) && id !in s.sessions
    ensures Consistent(Create(s, agentId, id, None, None).0)
  {
    if agentId in s.agents && !s.agents[agentId].archived {
      CreateKeepsConsistent(s, id, Session(agentId, None, s.agents[agentId].maxSubagentDepth, |s.sessions|));
    }
  }

  lemma AnswerKeepsConsistent(s: State, hasToken: bool, verified: Option<Payload>, agentId: AgentId, id: SessionId)
    requires Consistent(s) && id !in s.sessions
    requires hasToken && verified.Some? ==> exists m :: m in s.minted && m.payload == verified.value
    ensures Consistent(Answered(s, hasToken, verified, agentId, id).0)
  {
    if !hasToken {
      TopLevelKeepsConsistent(s, agentId, id);
    } else if verified.Some? {
      var m :| m in s.minted && m.payload == verified.value;
      if agentId in m.payload.allowlist && m.payload.remainingDepth > 0 {
        ChildKeepsConsistent(s, m, agentId, id);
      }
    }
  }

  lemma TokenWasMinted(k: Signer, s: State, token: string, now: int, signed: Minted)
    requires Sane(k) && Verify(k, token, now).Some?
    requires signed in s.minted && SignedPart(token) == SignedPart(Sign(k, signed.payload))
    ensures signed.payload == Verify(k, token, now).value
  {
    VerifiedWasMinted(k, token, now, Verify(k, token, now).value, signed.payload);
  }

  lemma PostKeepsConsistent(k: Signer, s: State, a: Action)
    requires Sane(k) && Consistent(s) && a.Post? && Enabled(s, a) && Unforged(k, s, a)
    ensures Consistent(Apply(k, s, a))
  {
    var verified := if Presents(a.header) then Verify(k, a.header.value, a.now) else None;
    if verified.Some? {
      var m :| m in s.minted && SignedPart(a.header.value) == SignedPart(Sign(k, m.payload));
      TokenWasMinted(k, s, a.header.value, a.now, m);
    }
    AnswerKeepsConsistent(s, Presents(a.header), verified, a.agentId, a.newId);
  }

  lemma StepKeepsConsistent(k: Signer, s: State, a: Action)
    requires Sane(k) && Consistent(s) && Enabled(s, a) && Unforged(k, s, a)
    ensures Consistent(Apply(k, s, a))
  {
    match a
    case Post(_, _, _, _) => PostKeepsConsistent(k, s, a);
    case PostRun(_) =>
    case MintForSession(id, template, now) => MintKeepsConsistent(s, MintedFor(s, id, template, now));
    case MintForWarm(agentId, warmKey, now) =>
      MintKeepsConsistent(s, Minted(PayloadFor(warmKey, agentId, s.agents[agentId].callableAgents, 0, None, now), s.agents[agentId]));
    case PutAgent(_, _) =>
    case DropAgent(_) =>
    case DeleteSession(_) =>
  }

  lemma {:induction false} RunKeepsConsistent(k: Signer, actions: seq<Action>)
    requires Sane(k) && IsRun(k, actions)
    ensures Consistent(Exec(k, actions))
  {
    if actions != [] {
      RunKeepsConsistent(k, actions[..|actions|-1]);
      StepKeepsConsistent(k, Exec(k, actions[..|actions|-1]), actions[|actions|-1]);
    }
  }

  lemma {:induction false} DepthFromRoot(s: State, id: SessionId)
    requires Consistent(s) && id in s.sessions
    ensures var root := Root(s.sessions, id);
            && root in s.sessions && s.sessions[root].parent.None?
            && s.sessions[id].remaining + Distance(s.sessions, id) == s.sessions[root].remaining
    decreases s.sessions[id].born
  {
    if s.sessions[id].parent.Some? {
      assert SpawnedBy(s.sessions, s.minted, s.postings, id);
      DepthFromRoot(s, s.sessions[id].parent.value);
    }
  }

  /**
   In every run a session's distance from its root plus its remaining depth is the depth its root
   was created with, so no chain is longer than that; each child has one level less than its parent.
   */
  lemma DelegationIsBounded(k: Signer, actions: seq<Action>, id: SessionId)
    requires Sane(k) && IsRun(k, actions) && id in Exec(k, actions).sessions
    ensures var end := Exec(k, actions);
            && Consistent(end)
            && var root := Root(end.sessions, id);
               && root in end.sessions && end.sessions[root].parent.None?
               && end.sessions[id].remaining + Distance(end.sessions, id) == end.sessions[root].remaining
               && Distance(end.sessions, id) <= end.sessions[root].remaining
               && (end.sessions[id].parent.Some? ==> SpawnedBy(end.sessions, end.minted, end.postings, id))
  {
    RunKeepsConsistent(k, actions);
    DepthFromRoot(Exec(k, actions), id);
  }

  // ---- Allowlists ----

  /** The `i`-th action posts a run for the session, and the template was its agent's at that moment. */
  ghost predicate PostedAt(k: Signer, actions: seq<Action>, i: nat, id: SessionId, template: Agent) {
    && i < |actions| && actions[i] == PostRun(id) && IsRun(k, actions[..i])
    && var s := Exec(k, actions[..i]);
       id in s.sessions && s.sessions[id].agentId in s.agents && s.agents[s.sessions[id].agentId] == template
  }

  /** Among the first `n` actions a run was posted for the session with a template that allows the child. */
  ghost predicate AllowedBefore(k: Signer, actions: seq<Action>, n: nat, parent: SessionId, child: AgentId) {
    exists i: nat, template :: i < n && PostedAt(k, actions, i, parent, template) && child in template.callableAgents
  }

  lemma PostedAtLonger(k: Signer, actions: seq<Action>, i: nat, id: SessionId, template: Agent)
    requires actions != [] && PostedAt(k, actions[..|actions|-1], i, id, template)
    ensures PostedAt(k, actions, i, id, template)
  {
    assert actions[..|actions|-1][..i] == actions[..i];
  }

  lemma NewPosting(k: Signer, s: State, a: Action, posting: Posting)
    requires Enabled(s, a) && posting in Apply(k, s, a).postings && posting !in s.postings
    ensures a == PostRun(posting.id) && s.agents[s.sessions[posting.id].agentId] == posting.template
  {
  }

  /** What is posted was at some moment the template of the session's agent. */
  lemma {:induction false} PostingWasPosted(k: Signer, actions: seq<Action>, posting: Posting) returns (i: nat)
    requires IsRun(k, actions) && posting in Exec(k, actions).postings
    ensures PostedAt(k, actions, i, posting.id, posting.template)
  {
    var before := actions[..|actions|-1];
    if posting in Exec(k, before).postings {
      i := PostingWasPosted(k, before, posting);
      PostedAtLonger(k, actions, i, posting.id, posting.template);
    } else {
      i := |actions| - 1;
      NewPosting(k, Exec(k, before), actions[i], posting);
    }
  }

  lemma PostCreates(k: Signer, s: State, a: Action, id: SessionId)
    requires Enabled(s, a) && id !in s.sessions && id in Apply(k, s, a).sessions
    ensures a.Post? && a.newId == id
    ensures Apply(k, s, a).minted == s.minted && Apply(k, s, a).postings == s.postings
  {
  }

  lemma AllowedLonger(k: Signer, actions: seq<Action>, n: nat, parent: SessionId, child: AgentId)
    requires actions != [] && AllowedBefore(k, actions[..|actions|-1], n, parent, child)
    ensures AllowedBefore(k, actions, n, parent, child)
  {
    var before := actions[..|actions|-1];
    var i: nat, template :| i < n && PostedAt(k, before, i, parent, template) && child in template.callableAgents;
    PostedAtLonger(k, actions, i, parent, template);
  }

  lemma ChildWasAllowed(k: Signer, actions: seq<Action>, id: SessionId)
    requires Sane(k) && IsRun(k, actions) && actions != []
    requires id !in Exec(k, actions[..|actions|-1]).sessions && id in Exec(k, actions).sessions
    requires Exec(k, actions).sessions[id].parent.Some?
    ensures var session := Exec(k, actions).sessions[id];
            AllowedBefore(k, actions, |actions|-1, session.parent.value, session.agentId)
  {
    var before, end := actions[..|actions|-1], Exec(k, actions);
    var parent, child := end.sessions[id].parent.value, end.sessions[id].agentId;
    RunKeepsConsistent(k, actions);
    PostCreates(k, Exec(k, before), actions[|actions|-1], id);
    assert SpawnedBy(end.sessions, end.minted, end.postings, id);
    var m :| m in end.minted && Posting(parent, m.template) in end.postings
      && MintAllows(m, parent, end.sessions[parent].agentId, child);
    var i := PostingWasPosted(k, before, Posting(parent, m.template));
    PostedAtLonger(k, actions, i, parent, m.template);
  }

  /**
   Every child's agent was callable: before the request that created the child, a run was posted for
   its parent, and the template the parent's agent had at that moment lists the child's agent.
   */
  lemma {:induction false} SpawnsWereAllowed(k: Signer, actions: seq<Action>, id: SessionId) returns (n: nat)
    requires Sane(k) && IsRun(k, actions) && id in Exec(k, actions).sessions
    requires Exec(k, actions).sessions[id].parent.Some?
    ensures n < |actions| && actions[n].Post? && actions[n].newId == id
    ensures var session := Exec(k, actions).sessions[id];
            AllowedBefore(k, actions, n, session.parent.value, session.agentId)
  {
    var before := actions[..|actions|-1];
    var s, last := Exec(k, before), actions[|actions|-1];
    DepthIsFixed(k, s, last, id);
    if id in s.sessions {
      n := SpawnsWereAllowed(k, before, id);
      AllowedLonger(k, actions, n, s.sessions[id].parent.value, s.sessions[id].agentId);
    } else {
      n := |actions| - 1;
      ChildWasAllowed(k, actions, id);
    }
  }

  /** A top-level session starts with its template's depth, and no step changes a session's depth. */
  lemma DepthIsFixed(k: Signer, s: State, a: Action, id: SessionId)
    requires Enabled(s, a)
    ensures var after := Apply(k, s, a);
            && (id in s.sessions ==> id in after.sessions && after.sessions[id] == s.sessions[id])
            && (id !in s.sessions && id in after.sessions ==>
                  && a.Post? && a.newId == id && a.agentId in s.agents && !s.agents[a.agentId].archived
                  && (after.sessions[id].parent.None? ==> after.sessions[id].remaining == s.agents[a.agentId].maxSubagentDepth))
  {
  }
}
