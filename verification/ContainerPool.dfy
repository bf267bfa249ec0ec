/**
 What the session container pool owns. Pool methods run one at a time here and every
 stop succeeds; spawns, readiness probes, handshakes and network creation may each fail.

 Docker is part of the object. As in Docker, a container name is taken while its container
 exists, and a network with a container attached cannot be removed; the pool swallows
 that refusal, so only the right teardown order really removes a network.
 */
module ContainerPool {
  import opened Prelude
  import opened ResourceNames

  type SessionId = string
  type AgentId = string
  type ContainerId = nat

  /** A hash of the spawn options and the networking policy, taken to tell them apart. */
  datatype Signature = Signature(options: string, limited: bool)

  datatype Owned = Owned(sidecar: ContainerId, networks: seq<string>)
  datatype Entry = Entry(container: ContainerId, sig: Signature, lastUsedAt: int, owned: Option<Owned>)
  datatype WarmEntry = WarmEntry(container: ContainerId, sig: Signature, spawnedAt: int)

  // The places a container can belong to; a loose one is being booted or torn down.
  datatype Slot = Agent(sid: SessionId) | Sidecar(sid: SessionId) | Spare(agent: AgentId) | Loose

  // A started container: its slot (history), the per-session networks it is on, its fixed name.
  datatype Process = Process(slot: Slot, attached: set<string>, name: Option<string>)

  datatype View = View(
    active: map<SessionId, Entry>,
    warm: map<AgentId, WarmEntry>,
    running: map<ContainerId, Process>,
    networks: map<string, SessionId>,   // each per-session network and whose it is (history)
    next: ContainerId,                  // every id below was started
    stopped: set<ContainerId>
  )

  type Active = map<SessionId, Entry>
  type Spares = map<AgentId, WarmEntry>
  type Processes = map<ContainerId, Process>

  predicate Limited(active: Active, sid: SessionId) {
    sid in active && active[sid].owned.Some?
  }

  /** `c` is what occupies the slot. */
  predicate Occupies(active: Active, warm: Spares, c: ContainerId, slot: Slot) {
    match slot
    case Agent(sid) => sid in active && active[sid].container == c
    case Sidecar(sid) => Limited(active, sid) && active[sid].owned.value.sidecar == c
    case Spare(a) => a in warm && warm[a].container == c
    case Loose => false
  }

  /** The name and the per-session networks a container in this slot has. */
  predicate Equipped(active: Active, p: Process) {
    match p.slot
    case Agent(sid) => p.name == None && p.attached == if Limited(active, sid) then {NamesFor(sid).confined} else {}
    case Sidecar(sid) =>
      p.name == Some(NamesFor(sid).sidecar) && p.attached == {NamesFor(sid).confined, NamesFor(sid).egress}
    case _ => p.name == None && p.attached == {}
  }

  predicate RunsAs(running: Processes, c: ContainerId, slot: Slot) {
    c in running && running[c].slot == slot
  }

  /** What runs occupies its slot, and what a slot names runs in it. */
  ghost predicate SlotsFilled(active: Active, warm: Spares, running: Processes) {
    && (forall c :: c in running ==> Occupies(active, warm, c, running[c].slot))
    && (forall c, slot :: Occupies(active, warm, c, slot) ==> RunsAs(running, c, slot))
  }

  ghost predicate AllEquipped(active: Active, running: Processes) {
    forall c :: c in running ==> Equipped(active, running[c])
  }

  ghost predicate Counted(running: Processes, next: ContainerId, stopped: set<ContainerId>) {
    && (forall c: ContainerId :: c in running <==> c < next && c !in stopped)
    && (forall c :: c in stopped ==> c < next)
  }

  predicate OwnsNetwork(networks: map<string, SessionId>, sid: SessionId, n: string) {
    n in networks && networks[n] == sid
  }

  ghost predicate NetworksOwned(active: Active, networks: map<string, SessionId>) {
    && (forall n :: n in networks ==> Limited(active, networks[n]) && n in NetworksOf(NamesFor(networks[n])))
    && (forall sid :: Limited(active, sid) ==>
          && active[sid].owned.value.networks == [NamesFor(sid).confined, NamesFor(sid).egress]
          && OwnsNetwork(networks, sid, NamesFor(sid).confined) && OwnsNetwork(networks, sid, NamesFor(sid).egress))
  }

  ghost predicate Conserved(v: View) {
    && SlotsFilled(v.active, v.warm, v.running)
    && AllEquipped(v.active, v.running)
    && Counted(v.running, v.next, v.stopped)
    && NetworksOwned(v.active, v.networks)
  }

  /** Every container ever started has been stopped or occupies exactly one slot. */
  lemma StartedIsOwnedOnceOrStopped(v: View, c: ContainerId)
    requires Conserved(v) && c < v.next
    ensures c in v.stopped <==> forall slot :: !Occupies(v.active, v.warm, c, slot)
    ensures forall s1, s2 :: Occupies(v.active, v.warm, c, s1) && Occupies(v.active, v.warm, c, s2) ==> s1 == s2
  {
  }

  /** Live limited sessions never share a sanitised id. */
  lemma LiveNamesNeverMeet(v: View, s: SessionId, t: SessionId)
    requires Conserved(v) && Limited(v.active, s) && Limited(v.active, t) && s != t
    ensures SafeId(s) != SafeId(t)
  {
  }

  // ---- What each operation does to the pool ----

  function Containers(e: Entry): set<ContainerId> {
    {e.container} + if e.owned.Some? then {e.owned.value.sidecar} else {}
  }

  function Networks(e: Entry): set<string> {
    if e.owned.Some? then Elems(e.owned.value.networks) else {}
  }

  function Elems(s: seq<string>): set<string> {
    set n | n in s
  }

  /** The session's containers are stopped and its networks are gone. */
  function WithoutSession(v: View, sid: SessionId): View {
    if sid !in v.active then v
    else
      var e := v.active[sid];
      v.(active := v.active - {sid},
         running := v.running - Containers(e),
         networks := v.networks - Networks(e),
         stopped := v.stopped + Containers(e))
  }

  function WithoutWarm(v: View, a: AgentId): View {
    if a !in v.warm then v
    else
      var c := v.warm[a].container;
      v.(warm := v.warm - {a}, running := v.running - {c}, stopped := v.stopped + {c})
  }

  function WithSession(v: View, sid: SessionId, sig: Signature, now: int): View {
    v.(active := v.active[sid := Entry(v.next, sig, now, None)],
       running := v.running[v.next := Process(Agent(sid), {}, None)],
       next := v.next + 1)
  }

  function WithClaim(v: View, sid: SessionId, a: AgentId, sig: Signature, now: int): View
    requires a in v.warm
  {
    var c := v.warm[a].container;
    v.(warm := v.warm - {a},
       active := v.active[sid := Entry(c, sig, now, None)],
       running := v.running[c := Process(Agent(sid), {}, None)])
  }

  function WithWarm(v: View, a: AgentId, sig: Signature, now: int): View {
    v.(warm := v.warm[a := WarmEntry(v.next, sig, now)],
       running := v.running[v.next := Process(Spare(a), {}, None)],
       next := v.next + 1)
  }

  /** A sidecar on both networks and an agent on the confined one. */
  function WithLimited(v: View, sid: SessionId, sig: Signature, now: int): View {
    var names := NamesFor(sid);
    var sidecar, agent := v.next, v.next + 1;
    v.(active := v.active[sid := Entry(agent, sig, now, Some(Owned(sidecar, [names.confined, names.egress])))],
       running := v.running[sidecar := Process(Sidecar(sid), {names.confined, names.egress}, Some(names.sidecar))]
                           [agent := Process(Agent(sid), {names.confined}, None)],
       networks := v.networks[names.confined := sid][names.egress := sid],
       next := v.next + 2)
  }

  function Touched(v: View, sid: SessionId, now: int): View
    requires sid in v.active
  {
    v.(active := v.active[sid := v.active[sid].(lastUsedAt := now)])
  }

  lemma SlotsWithoutSession(active: Active, warm: Spares, running: Processes, sid: SessionId)
    requires SlotsFilled(active, warm, running) && sid in active
    ensures SlotsFilled(active - {sid}, warm, running - Containers(active[sid]))
    ensures Containers(active[sid]) <= running.Keys
  {
    var e := active[sid];
    assert Occupies(active, warm, e.container, Agent(sid));
    assert e.owned.Some? ==> Occupies(active, warm, e.owned.value.sidecar, Sidecar(sid));
    assert forall c, slot :: Occupies(active - {sid}, warm, c, slot) <==>
      Occupies(active, warm, c, slot) && slot != Agent(sid) && slot != Sidecar(sid);
  }

  lemma EquippedWithoutSession(active: Active, warm: Spares, running: Processes, sid: SessionId)
    requires SlotsFilled(active, warm, running) && AllEquipped(active, running) && sid in active
    ensures AllEquipped(active - {sid}, running - Containers(active[sid]))
  {
  }

  lemma NetworksWithoutSession(active: Active, networks: map<string, SessionId>, sid: SessionId)
    requires NetworksOwned(active, networks) && sid in active
    ensures NetworksOwned(active - {sid}, networks - Networks(active[sid]))
  {
    var e := active[sid];
    var left := networks - Networks(e);
    assert Limited(active, sid) ==> Networks(e) == NetworksOf(NamesFor(sid));
    forall t | Limited(active - {sid}, t)
      ensures OwnsNetwork(left, t, NamesFor(t).confined) && OwnsNetwork(left, t, NamesFor(t).egress)
    {
      assert Limited(active, t);
      if Limited(active, sid) {
        assert OwnsNetwork(networks, sid, NamesFor(sid).confined) && OwnsNetwork(networks, sid, NamesFor(sid).egress);
      }
    }
  }

  lemma WithoutSessionConserves(v: View, sid: SessionId)
    requires Conserved(v)
    ensures Conserved(WithoutSession(v, sid))
  {
    if sid in v.active {
      SlotsWithoutSession(v.active, v.warm, v.running, sid);
      EquippedWithoutSession(v.active, v.warm, v.running, sid);
      NetworksWithoutSession(v.active, v.networks, sid);
    }
  }

  lemma WithoutWarmConserves(v: View, a: AgentId)
    requires Conserved(v)
    ensures Conserved(WithoutWarm(v, a))
  {
    if a in v.warm {
      assert Occupies(v.active, v.warm, v.warm[a].container, Spare(a));
      assert forall c, slot :: Occupies(v.active, v.warm - {a}, c, slot) <==>
        Occupies(v.active, v.warm, c, slot) && slot != Spare(a);
    }
  }

  /** A container enters a slot that was free. */
  lemma FillSlot(active: Active, warm: Spares, running: Processes, active': Active, warm': Spares, c: ContainerId, p: Process)
    requires SlotsFilled(active, warm, running) && c !in running
    requires forall x, slot :: Occupies(active', warm', x, slot) <==>
      Occupies(active, warm, x, slot) || (x == c && slot == p.slot)
    ensures SlotsFilled(active', warm', running[c := p])
  {
  }

  /** A session that was not there changes nothing for the containers already running. */
  lemma EquipOther(active: Active, warm: Spares, active': Active, running: Processes, sid: SessionId)
    requires SlotsFilled(active, warm, running) && AllEquipped(active, running) && sid !in active
    requires forall t :: t != sid ==> Limited(active', t) == Limited(active, t)
    ensures AllEquipped(active', running)
  {
  }

  lemma EquipOne(active: Active, running: Processes, c: ContainerId, p: Process)
    requires AllEquipped(active, running) && Equipped(active, p)
    ensures AllEquipped(active, running[c := p])
  {
  }

  lemma CountOne(running: Processes, next: ContainerId, stopped: set<ContainerId>, p: Process)
    requires Counted(running, next, stopped)
    ensures Counted(running[next := p], next + 1, stopped)
  {
  }

  /** A plain entry owns no networks. */
  lemma NetworksWithPlain(active: Active, networks: map<string, SessionId>, sid: SessionId, e: Entry)
    requires NetworksOwned(active, networks) && sid !in active && e.owned.None?
    ensures NetworksOwned(active[sid := e], networks)
  {
  }

  lemma WithSessionConserves(v: View, sid: SessionId, sig: Signature, now: int)
    requires Conserved(v) && sid !in v.active
    ensures Conserved(WithSession(v, sid, sig, now))
  {
    var w := WithSession(v, sid, sig, now);
    var p := Process(Agent(sid), {}, None);
    FillSlot(v.active, v.warm, v.running, w.active, w.warm, v.next, p);
    EquipOther(v.active, v.warm, w.active, v.running, sid);
    EquipOne(w.active, v.running, v.next, p);
    CountOne(v.running, v.next, v.stopped, p);
    NetworksWithPlain(v.active, v.networks, sid, Entry(v.next, sig, now, None));
  }

  lemma WithWarmConserves(v: View, a: AgentId, sig: Signature, now: int)
    requires Conserved(v) && a !in v.warm
    ensures Conserved(WithWarm(v, a, sig, now))
  {
    var w := WithWarm(v, a, sig, now);
    FillSlot(v.active, v.warm, v.running, w.active, w.warm, v.next, Process(Spare(a), {}, None));
  }

  lemma WithClaimConserves(v: View, sid: SessionId, a: AgentId, sig: Signature, now: int)
    requires Conserved(v) && sid !in v.active && a in v.warm
    ensures Conserved(WithClaim(v, sid, a, sig, now))
  {
    var w := WithClaim(v, sid, a, sig, now);
    var c := v.warm[a].container;
    var p := Process(Agent(sid), {}, None);
    var gone := WithoutWarm(v, a);
    WithoutWarmConserves(v, a);
    assert Occupies(v.active, v.warm, c, Spare(a));
    ClaimFills(gone, sid, c, Entry(c, sig, now, None), p);
    assert w.running == gone.running[c := p];
    NetworksWithPlain(v.active, v.networks, sid, Entry(c, sig, now, None));
  }

  lemma ClaimFills(gone: View, sid: SessionId, c: ContainerId, e: Entry, p: Process)
    requires Conserved(gone) && sid !in gone.active && c !in gone.running
    requires e.container == c && e.owned.None? && p == Process(Agent(sid), {}, None)
    ensures SlotsFilled(gone.active[sid := e], gone.warm, gone.running[c := p])
    ensures AllEquipped(gone.active[sid := e], gone.running[c := p])
  {
    FillSlot(gone.active, gone.warm, gone.running, gone.active[sid := e], gone.warm, c, p);
    EquipOther(gone.active, gone.warm, gone.active[sid := e], gone.running, sid);
    EquipOne(gone.active[sid := e], gone.running, c, p);
  }

  lemma WithLimitedConserves(v: View, sid: SessionId, sig: Signature, now: int)
    requires Conserved(v) && sid !in v.active
    requires NamesFor(sid).confined !in v.networks && NamesFor(sid).egress !in v.networks
    ensures Conserved(WithLimited(v, sid, sig, now))
  {
    var n := NamesFor(sid);
    var sidecar := Process(Sidecar(sid), {n.confined, n.egress}, Some(n.sidecar));
    var agent := Process(Agent(sid), {n.confined}, None);
    var active' := WithLimited(v, sid, sig, now).active;
    FillTwo(v.active, v.warm, v.running, active', v.next, v.next + 1, sidecar, agent, sid);
    EquipTwo(v, active', sid, sidecar, agent);
    CountOne(v.running, v.next, v.stopped, sidecar);
    CountOne(v.running[v.next := sidecar], v.next + 1, v.stopped, agent);
    NetworksWithLimited(v.active, v.networks, active', sid);
  }

  lemma EquipTwo(v: View, active': Active, sid: SessionId, sidecar: Process, agent: Process)
    requires Conserved(v) && sid !in v.active && Equipped(active', sidecar) && Equipped(active', agent)
    requires forall t :: t != sid ==> Limited(active', t) == Limited(v.active, t)
    ensures AllEquipped(active', v.running[v.next := sidecar][v.next + 1 := agent])
  {
  }

  lemma FillTwo(active: Active, warm: Spares, running: Processes, active': Active,
                c: ContainerId, d: ContainerId, p: Process, q: Process, sid: SessionId)
    requires SlotsFilled(active, warm, running) && c !in running && d !in running && c != d
    requires p.slot == Sidecar(sid) && q.slot == Agent(sid) && sid !in active
    requires forall t :: t != sid ==> (t in active' <==> t in active) && (t in active ==> active'[t] == active[t])
    requires Limited(active', sid) && active'[sid].container == d && active'[sid].owned.value.sidecar == c
    ensures SlotsFilled(active', warm, running[c := p][d := q])
  {
    assert forall x, slot :: Occupies(active', warm, x, slot) <==>
      Occupies(active, warm, x, slot) || (x == c && slot == Sidecar(sid)) || (x == d && slot == Agent(sid));
  }

  lemma NetworksWithLimited(active: Active, networks: map<string, SessionId>, active': Active, sid: SessionId)
    requires NetworksOwned(active, networks) && sid !in active
    requires NamesFor(sid).confined !in networks && NamesFor(sid).egress !in networks
    requires Limited(active', sid) && active'[sid].owned.value.networks == [NamesFor(sid).confined, NamesFor(sid).egress]
    requires forall t :: t != sid ==> (t in active' <==> t in active) && (t in active ==> active'[t] == active[t])
    ensures NetworksOwned(active', networks[NamesFor(sid).confined := sid][NamesFor(sid).egress := sid])
  {
    NamesMeetIff(sid, sid);
    forall t | Limited(active', t) && t != sid
      ensures var all := networks[NamesFor(sid).confined := sid][NamesFor(sid).egress := sid];
              OwnsNetwork(all, t, NamesFor(t).confined) && OwnsNetwork(all, t, NamesFor(t).egress)
    {
      assert Limited(active, t);
      assert OwnsNetwork(networks, t, NamesFor(t).confined) && OwnsNetwork(networks, t, NamesFor(t).egress);
    }
  }

  lemma TouchedConserves(v: View, sid: SessionId, now: int)
    requires Conserved(v) && sid in v.active
    ensures Conserved(Touched(v, sid, now))
  {
    var w := Touched(v, sid, now);
    assert forall t :: Limited(w.active, t) == Limited(v.active, t);
    assert forall c, slot :: Occupies(w.active, w.warm, c, slot) == Occupies(v.active, v.warm, c, slot);
    forall c | c in w.running ensures Equipped(w.active, w.running[c]) {
      assert Equipped(v.active, v.running[c]);
    }
  }

  /** Same sessions, warm entries, containers and networks; containers may have come and gone. */
  ghost predicate Undisturbed(v: View, w: View) {
    w.active == v.active && w.warm == v.warm && w.running == v.running && w.networks == v.networks
  }

  /** A live limited session keeps its networks busy and its sidecar name taken. */
  lemma LiveNamesAreTaken(v: View, t: SessionId)
    requires Conserved(v) && Limited(v.active, t)
    ensures NameTaken(v.running, NamesFor(t).sidecar)
    ensures InUse(v.running, NamesFor(t).confined) && InUse(v.running, NamesFor(t).egress)
  {
    var c := v.active[t].owned.value.sidecar;
    assert Occupies(v.active, v.warm, c, Sidecar(t));
    assert Equipped(v.active, v.running[c]);
  }

  predicate NameTaken(running: Processes, name: string) {
    exists c :: c in running && running[c].name == Some(name)
  }

  predicate InUse(running: Processes, network: string) {
    exists c :: c in running && network in running[c].attached
  }

  /** The containers that have the name, if there is one to have. */
  function Named(running: Processes, name: Option<string>): set<ContainerId> {
    set c | c in running && name.Some? && running[c].name == name
  }

  lemma TakenIsNamed(running: Processes, name: Option<string>)
    requires name.Some? && NameTaken(running, name.value)
    ensures Named(running, name) != {}
  {
    var c :| c in running && running[c].name == Some(name.value);
    assert c in Named(running, name);
  }

  /** A live limited session has the same resource names. */
  ghost predicate Meets(active: Active, sid: SessionId) {
    exists t :: Limited(active, t) && SafeId(t) == SafeId(sid)
  }

  ghost predicate LimitedMinted(active: Active) {
    forall t :: Limited(active, t) ==> Minted(t)
  }

  /** An entry's signature says whether it is confined, as its hash covers the networking policy. */
  ghost predicate Signed(active: Active) {
    forall t :: t in active ==> (active[t].sig.limited <==> active[t].owned.Some?)
  }

  ghost predicate Sound(active: Active) {
    LimitedMinted(active) && Signed(active)
  }

  lemma OneMoreSound(active: Active, sid: SessionId, e: Entry)
    requires Sound(active) && (e.owned.Some? ==> Minted(sid)) && (e.sig.limited <==> e.owned.Some?)
    ensures Sound(active[sid := e])
  {
    assert forall t :: Limited(active[sid := e], t) && t != sid ==> Limited(active, t);
  }

  lemma StaySound(before: Active, after: Active)
    requires Sound(before)
    requires forall t :: t in after ==> t in before && after[t].owned == before[t].owned && after[t].sig == before[t].sig
    ensures Sound(after)
  {
    assert forall t :: Limited(after, t) ==> Limited(before, t);
  }

  /** The container is the session's, confined with its sidecar if it has to be and on no network of its own if not. */
  ghost predicate Serves(v: View, sid: SessionId, c: ContainerId, sig: Signature, limited: bool) {
    && sid in v.active && v.active[sid].container == c && v.active[sid].sig == sig && c in v.running
    && (v.active[sid].owned.Some? <==> limited)
    && if limited then
         var n, sidecar := NamesFor(sid), v.active[sid].owned.value.sidecar;
         && v.running[c].attached == {n.confined} && n.confined in v.networks && n.egress in v.networks
         && sidecar in v.running && v.running[sidecar].attached == {n.confined, n.egress}
       else v.running[c].attached == {}
  }

  lemma ServedAsOwned(v: View, sid: SessionId)
    requires Conserved(v) && Sound(v.active) && sid in v.active
    ensures Serves(v, sid, v.active[sid].container, v.active[sid].sig, v.active[sid].sig.limited)
  {
    var e := v.active[sid];
    assert Occupies(v.active, v.warm, e.container, Agent(sid)) && Equipped(v.active, v.running[e.container]);
    if e.owned.Some? {
      assert Limited(v.active, sid) && Occupies(v.active, v.warm, e.owned.value.sidecar, Sidecar(sid));
      assert OwnsNetwork(v.networks, sid, NamesFor(sid).confined) && OwnsNetwork(v.networks, sid, NamesFor(sid).egress);
    }
  }

  /** Among minted ids nobody meets. */
  lemma MintedMeetsNobody(active: Active, sid: SessionId)
    requires LimitedMinted(active) && Minted(sid) && sid !in active
    ensures !Meets(active, sid)
  {
    if t :| Limited(active, t) && SafeId(t) == SafeId(sid) {
      MintedIdsNeverMeet(t, sid);
      NamesMeetIff(t, sid);
    }
  }

  function WithoutNamed(v: View, name: Option<string>): View {
    v.(running := v.running - Named(v.running, name), stopped := v.stopped + Named(v.running, name))
  }

  // How Docker, the readiness probe and the gateway handshake treat a container being booted.
  datatype Trial = Trial(starts: bool, ready: bool, connects: bool) {
    predicate Succeeds() { starts && ready && connects }
  }

  datatype LimitedTrial = LimitedTrial(confined: bool, egress: bool, sidecar: bool, healthy: bool, agent: Trial) {
    predicate Succeeds() { confined && egress && sidecar && healthy && agent.Succeeds() }
  }

  // The same for all an acquire may try: the live entry answers, a warm one answers and gets its workspace.
  datatype Trials = Trials(answers: bool, claims: bool, plain: Trial, limited: LimitedTrial)

  /** The live entry has the session's signature and answers. */
  predicate Reuses(active: Active, sid: SessionId, sig: Signature, trials: Trials) {
    sid in active && active[sid].sig == sig && trials.answers
  }

  predicate LooksAt(warm: Spares, agent: Option<AgentId>, bypassWarm: bool) {
    agent.Some? && !bypassWarm && agent.value in warm
  }

  /** The agent's warm container has the session's signature and can be claimed. */
  predicate Claims(warm: Spares, agent: Option<AgentId>, bypassWarm: bool, sig: Signature, trials: Trials) {
    LooksAt(warm, agent, bypassWarm) && warm[agent.value].sig == sig && trials.claims
  }

  predicate Boots(warm: Spares, agent: Option<AgentId>, limited: bool, bypassWarm: bool, sig: Signature, trials: Trials) {
    if limited then trials.limited.Succeeds()
    else Claims(warm, agent, bypassWarm, sig, trials) || trials.plain.Succeeds()
  }

  function BusyOnes(active: Active, busy: set<SessionId>): set<SessionId> {
    set t | t in active && t in busy
  }

  datatype Acquired = Got(container: ContainerId) | CapacityError | BootFailed

  class SessionContainerPool {
    const maxActive: nat
    const maxWarm: nat
    var active: Active
    var warm: Spares
    var running: Processes
    var networks: map<string, SessionId>
    var next: ContainerId
    ghost var stopped: set<ContainerId>

    ghost function V(): View reads this { View(active, warm, running, networks, next, stopped) }

    constructor (maxActive: nat, maxWarm: nat)
      ensures this.maxActive == maxActive && this.maxWarm == maxWarm
      ensures Conserved(V()) && active == map[] && warm == map[] && running == map[]
    {
      this.maxActive, this.maxWarm := maxActive, maxWarm;
      active, warm, running, networks, next := map[], map[], map[], map[], 0;
      stopped := {};
    }

    // ---- Docker ----

    /**
     A spawn starts a container or fails, and a taken name makes it fail. A failure is answered
     by stopping whatever has the name, be it another session's.
     */
    method Spawn(slot: Slot, attached: set<string>, name: Option<string>, starts: bool) returns (c: Option<ContainerId>)
      modifies this
      ensures c.Some? <==> starts && !(name.Some? && NameTaken(old(running), name.value))
      ensures c.None? ==> V() == WithoutNamed(old(V()), name)
      ensures c.None? && name.None? ==> V() == old(V())
      ensures c.Some? ==> c.value == old(next) && V() == old(V()).(
        running := old(running)[old(next) := Process(slot, attached, name)], next := old(next) + 1)
    {
      var holders := Named(running, name);
      if name.Some? && NameTaken(running, name.value) {
        TakenIsNamed(running, name);
      }
      if !starts || holders != {} {
        assert name.None? ==> running - holders == running;
        running := running - holders;
        stopped := stopped + holders;
        return None;
      }
      c := Some(next);
      running := running[next := Process(slot, attached, name)];
      next := next + 1;
    }

    method Stop(c: ContainerId)
      requires c in running
      modifies this
      ensures V() == old(V()).(running := old(running) - {c}, stopped := old(stopped) + {c})
    {
      running := running - {c};
      stopped := stopped + {c};
    }

    /** Creating a network that exists succeeds and changes nothing. */
    method EnsureNetwork(n: string, sid: SessionId, ok: bool)
      modifies this
      ensures V() == if ok && n !in old(networks) then old(V()).(networks := old(networks)[n := sid]) else old(V())
    {
      if ok && n !in networks {
        networks := networks[n := sid];
      }
    }

    /** Docker refuses to remove a network in use, and the pool swallows the refusal. */
    method RemoveNetwork(n: string)
      modifies this
      ensures V() == old(V()).(networks := Removed(old(networks), old(running), n))
    {
      if !exists c :: c in running && n in running[c].attached {
        networks := networks - {n};
      }
    }

    // ---- Boots ----

    /** A container that starts, is ready and connects becomes the session's; anything less leaves nothing. */
    method DoSpawn(sid: SessionId, sig: Signature, trial: Trial, now: int) returns (r: Acquired)
      requires Conserved(V()) && sid !in active
      modifies this
      ensures Conserved(V()) && !r.CapacityError? && (r.Got? <==> trial.Succeeds())
      ensures r.Got? ==> r.container == old(next) && V() == WithSession(old(V()), sid, sig, now)
      ensures r.BootFailed? ==> Undisturbed(old(V()), V())
    {
      var c := Spawn(Agent(sid), {}, None, trial.starts);
      if c.None? {
        return BootFailed;
      }
      if !trial.ready {
        Stop(c.value);
        return BootFailed;
      }
      if !trial.connects {
        Stop(c.value);
        return BootFailed;
      }
      active := active[sid := Entry(c.value, sig, now, None)];
      WithSessionConserves(old(V()), sid, sig, now);
      r := Got(c.value);
    }

    method StopCreated(ghost v: View, sid: SessionId, created: Created)
      requires Counted(v.running, v.next, v.stopped) && V() == Built(v, sid, created) && Reached(v, sid, created)
      modifies this
      ensures V() == RolledBack(v, sid, created).(networks := old(networks))
    {
      if created.agent.Some? {
        Stop(created.agent.value);
      }
      if created.sidecar.Some? {
        Stop(created.sidecar.value);
      }
      assert running == RolledBack(v, sid, created).running;
    }

    /** Undoes what a limited spawn created, from whatever stage: agent, sidecar, then both networks. */
    method Rollback(ghost v: View, sid: SessionId, created: Created)
      requires Counted(v.running, v.next, v.stopped) && V() == Built(v, sid, created) && Reached(v, sid, created)
      modifies this
      ensures V() == RolledBack(v, sid, created)
    {
      var names := NamesFor(sid);
      StopCreated(v, sid, created);
      if created.confined {
        RemoveNetwork(names.confined);
      }
      if created.egress {
        RemoveNetwork(names.egress);
      }
    }

    /**
     When every stage succeeds and nobody has its names, the session owns two new networks, a
     sidecar and an agent. Otherwise what was created is rolled back, and if no live session has
     the same names all is as before.
     */
    method DoLimitedSpawn(sid: SessionId, sig: Signature, trial: LimitedTrial, now: int)
      returns (r: Acquired, ghost created: Created)
      requires Conserved(V()) && sid !in active
      modifies this
      ensures !r.CapacityError? && (r.Got? <==> trial.Succeeds() && !Meets(old(active), sid))
      ensures r.Got? ==> r.container == old(next) + 1 && V() == WithLimited(old(V()), sid, sig, now) && Conserved(V())
      ensures r.BootFailed? ==>
        created == Stages(old(V()), sid, trial) && Reached(old(V()), sid, created) && V() == RolledBack(old(V()), sid, created)
      ensures r.BootFailed? && !Meets(old(active), sid) ==> Conserved(V()) && Undisturbed(old(V()), V())
    {
      ghost var v := V();
      var made := BootLimited(sid, trial);
      created := made;
      LimitedNamesFree(v, sid);
      if made.agent.None? || !trial.agent.ready || !trial.agent.connects {
        Rollback(v, sid, made);
        if !Meets(v.active, sid) {
          FailureRestores(v, sid, made);
        }
        return BootFailed, created;
      }
      var names := NamesFor(sid);
      active := active[sid := Entry(made.agent.value, sig, now,
        Some(Owned(made.sidecar.value, [names.confined, names.egress])))];
      BuiltIsLimited(v, sid, made, sig, now);
      r := Got(made.agent.value);
    }

    /** The stages up to the agent's start; any of them may be the last. */
    method BootLimited(sid: SessionId, trial: LimitedTrial) returns (created: Created)
      modifies this
      ensures created == Stages(old(V()), sid, trial)
      ensures V() == Built(old(V()), sid, created) && Reached(old(V()), sid, created)
    {
      ghost var v := V();
      var names := NamesFor(sid);
      created := Created(false, false, false, None, None);
      EnsureNetwork(names.confined, sid, trial.confined);
      if !trial.confined {
        return;
      }
      created := created.(confined := true);
      EnsureNetwork(names.egress, sid, trial.egress);
      if !trial.egress {
        return;
      }
      created := created.(egress := true);
      assert V() == Built(v, sid, created);
      created := BootPair(v, sid, trial);
    }

    /** The sidecar, its readiness, and the agent, on networks already there. */
    method BootPair(ghost v: View, sid: SessionId, trial: LimitedTrial) returns (created: Created)
      requires V() == Built(v, sid, Created(true, true, false, None, None)) && trial.confined && trial.egress
      modifies this
      ensures created == Stages(v, sid, trial)
      ensures V() == Built(v, sid, created) && Reached(v, sid, created)
    {
      var names := NamesFor(sid);
      created := Created(true, true, false, None, None);
      var sidecar := Spawn(Sidecar(sid), {names.confined, names.egress}, Some(names.sidecar), trial.sidecar);
      if sidecar.None? {
        return created.(refused := true);
      }
      created := created.(sidecar := sidecar);
      if !trial.healthy {
        return;
      }
      var agent := Spawn(Agent(sid), {names.confined}, None, trial.agent.starts);
      created := created.(agent := agent);
    }

    // ---- Teardown ----

    method RemoveNetworks(nets: seq<string>)
      modifies this
      requires forall n :: n in nets ==> !InUse(running, n)
      ensures V() == old(V()).(networks := old(networks) - Elems(nets))
    {
      for i := 0 to |nets|
        invariant V() == old(V()).(networks := old(networks) - Elems(nets[..i]))
      {
        RemoveNetwork(nets[i]);
        assert Elems(nets[..i+1]) == Elems(nets[..i]) + {nets[i]};
      }
      assert nets[..|nets|] == nets;
    }

    method StopEntry(e: Entry)
      requires Containers(e) <= running.Keys && (e.owned.Some? ==> e.owned.value.sidecar != e.container)
      modifies this
      ensures V() == old(V()).(running := old(running) - Containers(e), stopped := old(stopped) + Containers(e))
    {
      Stop(e.container);
      if e.owned.Some? {
        Stop(e.owned.value.sidecar);
      }
      assert running == old(running) - Containers(e);
    }

    /** The agent stops first, then the sidecar, then each network is removed. */
    method EvictSession(sid: SessionId)
      requires Conserved(V())
      modifies this
      ensures Conserved(V()) && V() == WithoutSession(old(V()), sid)
    {
      if sid !in active {
        return;
      }
      var e := active[sid];
      WithoutSessionConserves(V(), sid);
      TeardownIsClear(V(), sid);
      active := active - {sid};
      StopEntry(e);
      if e.owned.Some? {
        RemoveNetworks(e.owned.value.networks);
      }
    }

    method ReapWarmEntry(a: AgentId)
      requires Conserved(V()) && a in warm
      modifies this
      ensures Conserved(V()) && V() == WithoutWarm(old(V()), a)
    {
      ghost var v := V();
      WithoutWarmConserves(v, a);
      assert Occupies(v.active, v.warm, warm[a].container, Spare(a));
      var c := warm[a].container;
      warm := warm - {a};
      Stop(c);
    }

    // ---- Acquire ----

    /** Evicts idle sessions, oldest first, until there is room for one more. */
    method ReserveActiveSlot(sid: SessionId, busy: set<SessionId>) returns (ok: bool)
      requires Conserved(V()) && sid !in active
      modifies this
      ensures Conserved(V()) && warm == old(warm) && OnlyIdleLost(old(active), active, busy)
      ensures ok ==> maxActive == 0 || |active| < maxActive
      ensures ok && maxActive > 0 && |old(active)| >= maxActive ==> |active| == maxActive - 1
      ensures maxActive == 0 || |old(active)| < maxActive ==> ok && V() == old(V())
      ensures !ok ==> maxActive > 0 && |active| >= maxActive && forall t :: t in active ==> t in busy
      ensures ok <==> maxActive == 0 || |BusyOnes(old(active), busy)| < maxActive
      ensures |active| <= |old(active)|
    {
      if maxActive == 0 {
        return true;
      }
      while |active| >= maxActive
        invariant Conserved(V()) && warm == old(warm) && OnlyIdleLost(old(active), active, busy)
        invariant |active| <= |old(active)| && (|active| == |old(active)| ==> V() == old(V()))
        invariant |active| < |old(active)| ==> |active| >= maxActive - 1
        decreases |active|
      {
        var stamps := map t | t in active :: active[t].lastUsedAt;
        var victim := FindOldest(stamps, busy + {sid});
        if victim.None? {
          assert forall t :: t in active ==> t in stamps;
          BusyStay(old(active), active, busy);
          return false;
        }
        FewerKeys(active, victim.value);
        assert forall w :: w in active && w !in busy ==> w in stamps && w !in busy + {sid};
        LoseOldest(old(active), active, victim.value, busy);
        EvictSession(victim.value);
      }
      BusyStay(old(active), active, busy);
      ok := true;
    }

    /** The agent's warm container if it fits and can be claimed, or else a plain boot; a warm one looked at is gone. */
    method BootPlain(sid: SessionId, sig: Signature, agent: Option<AgentId>, bypassWarm: bool, trials: Trials, now: int)
      returns (r: Acquired)
      requires Conserved(V()) && sid !in active && Sound(active) && !sig.limited
      modifies this
      ensures Conserved(V()) && Sound(active) && !r.CapacityError?
      ensures r.Got? <==> Claims(old(warm), agent, bypassWarm, sig, trials) || trials.plain.Succeeds()
      ensures r.Got? && Claims(old(warm), agent, bypassWarm, sig, trials) ==> r.container == old(warm)[agent.value].container
      ensures r.Got? && !Claims(old(warm), agent, bypassWarm, sig, trials) ==> r.container == old(next)
      ensures r.Got? ==> Serves(V(), sid, r.container, sig, false) && Adds(old(active), active, sid, now)
      ensures !r.Got? ==> active == old(active)
      ensures warm == if LooksAt(old(warm), agent, bypassWarm) then old(warm) - {agent.value} else old(warm)
    {
      if agent.Some? && !bypassWarm && agent.value in warm {
        var claimed := ClaimWarm(sid, agent.value, sig, trials.claims, now);
        if claimed {
          Booted(V(), old(active), sid);
          return Got(active[sid].container);
        }
      }
      r := DoSpawn(sid, sig, trials.plain, now);
      if r.Got? {
        Booted(V(), old(active), sid);
      }
    }

    /** A limited boot among minted ids: it meets nobody, so a failure leaves nothing behind. */
    method BootConfined(sid: SessionId, sig: Signature, trial: LimitedTrial, now: int) returns (r: Acquired)
      requires Conserved(V()) && sid !in active && Sound(active) && sig.limited && Minted(sid)
      modifies this
      ensures Conserved(V()) && Sound(active) && !r.CapacityError? && warm == old(warm)
      ensures r.Got? <==> trial.Succeeds()
      ensures r.Got? ==> Serves(V(), sid, r.container, sig, true) && Adds(old(active), active, sid, now)
      ensures !r.Got? ==> Undisturbed(old(V()), V())
    {
      MintedMeetsNobody(active, sid);
      ghost var created;
      r, created := DoLimitedSpawn(sid, sig, trial, now);
      if r.Got? {
        Booted(V(), old(active), sid);
      }
    }

    /** A limited session is booted confined, with its sidecar; any other one plain. */
    method BootFresh(sid: SessionId, sig: Signature, agent: Option<AgentId>, limited: bool, bypassWarm: bool,
                     trials: Trials, now: int) returns (r: Acquired)
      requires Conserved(V()) && sid !in active && Sound(active)
      requires sig.limited == limited && (limited ==> Minted(sid))
      modifies this
      ensures Conserved(V()) && Sound(active) && !r.CapacityError?
      ensures r.Got? <==> Boots(old(warm), agent, limited, bypassWarm, sig, trials)
      ensures r.Got? ==> Serves(V(), sid, r.container, sig, limited) && Adds(old(active), active, sid, now)
      ensures r.Got? && !limited && Claims(old(warm), agent, bypassWarm, sig, trials) ==>
        r.container == old(warm)[agent.value].container
      ensures !r.Got? ==> active == old(active)
      ensures warm == if !limited && LooksAt(old(warm), agent, bypassWarm) then old(warm) - {agent.value} else old(warm)
    {
      if limited {
        r := BootConfined(sid, sig, trials.limited, now);
      } else {
        r := BootPlain(sid, sig, agent, bypassWarm, trials, now);
      }
    }

    /** A slot, and then a container in it. Whatever fails, nothing is left behind. */
    method AcquireFresh(sid: SessionId, sig: Signature, agent: Option<AgentId>, limited: bool, bypassWarm: bool,
                        busy: set<SessionId>, trials: Trials, now: int) returns (r: Acquired)
      requires Conserved(V()) && sid !in active && Sound(active)
      requires sig.limited == limited && (limited ==> Minted(sid))
      modifies this
      ensures Conserved(V()) && Sound(active)
      ensures r.CapacityError? <==> maxActive > 0 && |BusyOnes(old(active), busy)| >= maxActive
      ensures !r.CapacityError? ==> (r.Got? <==> Boots(old(warm), agent, limited, bypassWarm, sig, trials))
      ensures r.Got? ==> Serves(V(), sid, r.container, sig, limited) && active[sid].lastUsedAt == now
      ensures r.Got? && !limited && Claims(old(warm), agent, bypassWarm, sig, trials) ==>
        r.container == old(warm)[agent.value].container
      ensures !r.Got? ==> sid !in active
      ensures r.CapacityError? ==> |active| >= maxActive > 0 && forall t :: t in active ==> t in busy
      ensures OnlyIdleLost(old(active), active - {sid}, busy)
      ensures maxActive == 0 || |old(active)| < maxActive ==> active - {sid} == old(active)
      ensures maxActive > 0 && |old(active)| <= maxActive ==> |active| <= maxActive
      ensures warm == if !r.CapacityError? && !limited && LooksAt(old(warm), agent, bypassWarm)
                      then old(warm) - {agent.value} else old(warm)
    {
      var room := ReserveActiveSlot(sid, busy);
      StaySound(old(active), active);
      if !room {
        assert active - {sid} == active;
        return CapacityError;
      }
      r := BootFresh(sid, sig, agent, limited, bypassWarm, trials, now);
      assert !r.Got? ==> active - {sid} == active;
    }

    /** The live entry if there is one, it fits and answers; otherwise it is evicted. */
    method Reuse(sid: SessionId, sig: Signature, answers: bool, now: int) returns (reused: bool)
      requires Conserved(V()) && Sound(active)
      modifies this
      ensures Conserved(V()) && Sound(active) && warm == old(warm)
      ensures reused <==> sid in old(active) && old(active)[sid].sig == sig && answers
      ensures V() == if reused then Touched(old(V()), sid, now) else WithoutSession(old(V()), sid)
      ensures reused ==> |active| == |old(active)| && active - {sid} == old(active) - {sid}
      ensures !reused ==> active == old(active) - {sid} && |active| <= |old(active)|
    {
      if sid !in active {
        assert active == old(active) - {sid};
        return false;
      }
      FewerKeys(active, sid);
      if active[sid].sig == sig && answers {
        TouchedConserves(V(), sid, now);
        Restamped(active, sid, now);
        active := active[sid := active[sid].(lastUsedAt := now)];
        StaySound(old(active), active);
        return true;
      }
      EvictSession(sid);
      StaySound(old(active), active);
      reused := false;
    }

    /**
     A container for the session: its live one if it still fits and answers, else a fresh one,
     confined exactly when its networking is limited. Only idle sessions are lost to it, those
     used longest ago, and the cap is kept; it fails only for want of a slot or of a boot.
     */
    method AcquireForSession(sid: SessionId, options: string, agent: Option<AgentId>, limited: bool, bypassWarm: bool,
                             busy: set<SessionId>, trials: Trials, now: int) returns (r: Acquired)
      requires Conserved(V()) && Sound(active) && (limited ==> Minted(sid))
      modifies this
      ensures Conserved(V()) && Sound(active)
      ensures Reuses(old(active), sid, Signature(options, limited), trials) ==>
        r == Got(old(active)[sid].container) && V() == Touched(old(V()), sid, now)
      ensures !Reuses(old(active), sid, Signature(options, limited), trials) ==>
        && (r.CapacityError? <==> maxActive > 0 && |BusyOnes(old(active) - {sid}, busy)| >= maxActive)
        && (r.Got? ==> Boots(old(warm), agent, limited, bypassWarm, Signature(options, limited), trials))
        && (r.BootFailed? ==> !Boots(old(warm), agent, limited, bypassWarm, Signature(options, limited), trials))
        && (r.Got? && !limited && Claims(old(warm), agent, bypassWarm, Signature(options, limited), trials) ==>
              r.container == old(warm)[agent.value].container)
      ensures r.Got? ==> Serves(V(), sid, r.container, Signature(options, limited), limited) && active[sid].lastUsedAt == now
      ensures !r.Got? ==> sid !in active
      ensures r.CapacityError? ==> |active| >= maxActive > 0 && forall t :: t in active ==> t in busy
      ensures OnlyIdleLost(old(active) - {sid}, active - {sid}, busy)
      ensures maxActive > 0 && |old(active)| <= maxActive ==> |active| <= maxActive
      ensures OnlyTaken(old(warm), warm, agent)
    {
      var sig := Signature(options, limited);
      var reused := Reuse(sid, sig, trials.answers, now);
      if reused {
        ServedAsOwned(V(), sid);
        return Got(active[sid].container);
      }
      r := AcquireFresh(sid, sig, agent, limited, bypassWarm, busy, trials, now);
    }

    /** Takes the agent's warm entry; it is stopped when it does not fit, does not answer or cannot be renamed. */
    method ClaimWarm(sid: SessionId, a: AgentId, sig: Signature, claims: bool, now: int) returns (claimed: bool)
      requires Conserved(V()) && sid !in active && a in warm
      modifies this
      ensures Conserved(V())
      ensures claimed <==> old(warm)[a].sig == sig && claims
      ensures V() == if claimed then WithClaim(old(V()), sid, a, sig, now) else WithoutWarm(old(V()), a)
    {
      if warm[a].sig != sig || !claims {
        ReapWarmEntry(a);
        return false;
      }
      WithClaimConserves(V(), sid, a, sig, now);
      var c := warm[a].container;
      warm := warm - {a};
      active := active[sid := Entry(c, sig, now, None)];
      running := running[c := Process(Agent(sid), {}, None)];
      claimed := true;
    }

    // ---- Warm ----

    /** Drops the agent's stale entry, then the oldest one if no slot is free. */
    method ReserveWarmSlot(a: AgentId) returns (ok: bool)
      requires Conserved(V()) && maxWarm > 0
      modifies this
      ensures Conserved(V()) && active == old(active) && networks == old(networks)
      ensures a !in warm && OnlyOldestLost(old(warm), warm, a, maxWarm)
      ensures ok && (|old(warm)| <= maxWarm ==> |warm| < maxWarm)
      ensures |warm| <= |old(warm)|
    {
      if a in warm {
        FewerKeys(warm, a);
        ReapWarmEntry(a);
      }
      assert warm == old(warm) - {a};
      LoseNoOther(old(warm), a, maxWarm);
      if |warm| < maxWarm {
        return true;
      }
      var oldest := OldestEntry();
      if oldest.None? {
        return false;
      }
      FewerKeys(warm, oldest.value);
      LoseOldestOther(old(warm), a, oldest.value, maxWarm);
      ReapWarmEntry(oldest.value);
      ok := true;
    }

    method OldestEntry() returns (oldest: Option<AgentId>)
      ensures oldest.None? ==> warm == map[]
      ensures oldest.Some? ==> oldest.value in warm && forall c :: c in warm ==> warm[oldest.value].spawnedAt <= warm[c].spawnedAt
    {
      var stamps := map b | b in warm :: warm[b].spawnedAt;
      oldest := FindOldest(stamps, {});
      assert forall b :: b in warm ==> b in stamps && b !in {};
    }

    method BootWarm(a: AgentId, sig: Signature, trial: Trial, now: int)
      requires Conserved(V()) && a !in warm
      modifies this
      ensures Conserved(V())
      ensures trial.Succeeds() ==> V() == WithWarm(old(V()), a, sig, now)
      ensures !trial.Succeeds() ==> Undisturbed(old(V()), V())
    {
      var c := Spawn(Spare(a), {}, None, trial.starts);
      if c.None? {
        return;
      }
      if !trial.ready || !trial.connects {
        Stop(c.value);
        return;
      }
      WithWarmConserves(old(V()), a, sig, now);
      warm := warm[a := WarmEntry(c.value, sig, now)];
    }

    /**
     The agent has a warm entry of its template when a slot or a victim is there and the boot
     succeeds; at most one entry per agent and `maxWarm` in all, and sessions are not touched.
     */
    method WarmForAgent(a: AgentId, options: string, trial: Trial, now: int)
      requires Conserved(V())
      modifies this
      ensures Conserved(V()) && active == old(active) && networks == old(networks)
      ensures |old(warm)| <= maxWarm ==> |warm| <= maxWarm
      ensures maxWarm == 0 || (a in old(warm) && old(warm)[a].sig == Signature(options, false)) ==> V() == old(V())
      ensures OnlyOldestLost(old(warm), warm, a, maxWarm)
      ensures maxWarm > 0 && trial.Succeeds() ==> a in warm && warm[a].sig == Signature(options, false)
      ensures a in warm && maxWarm > 0 ==> warm[a].sig == Signature(options, false)
      ensures a in warm && warm != old(warm) ==> warm[a].spawnedAt == now
    {
      var sig := Signature(options, false);
      if maxWarm == 0 || (a in warm && warm[a].sig == sig) {
        return;
      }
      var ok := ReserveWarmSlot(a);
      if ok {
        ghost var reserved := warm;
        BootWarm(a, sig, trial, now);
        if a in warm {
          GainOne(old(warm), reserved, a, maxWarm, warm[a]);
        }
      }
    }

    method DropWarmForAgent(a: AgentId)
      requires Conserved(V())
      modifies this
      ensures Conserved(V()) && V() == WithoutWarm(old(V()), a)
    {
      if a in warm {
        ReapWarmEntry(a);
      }
    }

    // ---- Sweeps ----

    /** The sweeper takes exactly the expired, idle, reapable sessions and the expired warm entries. */
    method ReapIdle(now: int, idleTimeoutMs: int, warmIdleTimeoutMs: int, busy: set<SessionId>, reapable: set<SessionId>)
      requires Conserved(V())
      modifies this
      ensures Conserved(V())
      ensures active == map s | s in old(active) &&
        (old(active)[s].lastUsedAt >= now - idleTimeoutMs || s in busy || s !in reapable) :: old(active)[s]
      ensures warm == map a | a in old(warm) && old(warm)[a].spawnedAt >= now - warmIdleTimeoutMs :: old(warm)[a]
    {
      var sessions := active.Keys;
      while sessions != {}
        invariant Conserved(V()) && sessions <= active.Keys && warm == old(warm)
        invariant forall s :: s in active ==> s in old(active) && active[s] == old(active)[s]
        invariant forall s :: s in old(active) ==>
          (s in active <==> s in sessions || old(active)[s].lastUsedAt >= now - idleTimeoutMs || s in busy || s !in reapable)
      {
        var s :| s in sessions;
        sessions := sessions - {s};
        if active[s].lastUsedAt < now - idleTimeoutMs && s !in busy && s in reapable {
          EvictSession(s);
        }
      }
      var agents := warm.Keys;
      while agents != {}
        invariant Conserved(V()) && agents <= warm.Keys
        invariant active == map s | s in old(active) &&
          (old(active)[s].lastUsedAt >= now - idleTimeoutMs || s in busy || s !in reapable) :: old(active)[s]
        invariant forall a :: a in warm ==> a in old(warm) && warm[a] == old(warm)[a]
        invariant forall a :: a in old(warm) ==>
          (a in warm <==> a in agents || old(warm)[a].spawnedAt >= now - warmIdleTimeoutMs)
      {
        var a :| a in agents;
        agents := agents - {a};
        if warm[a].spawnedAt < now - warmIdleTimeoutMs {
          ReapWarmEntry(a);
        }
      }
    }

    method StopAll(ids: set<ContainerId>)
      requires ids == running.Keys
      modifies this
      ensures running == map[] && V() == old(V()).(running := map[], stopped := old(stopped) + ids)
    {
      var rest := ids;
      while rest != {}
        invariant rest == running.Keys && rest <= ids
        invariant V() == old(V()).(running := running, stopped := old(stopped) + (ids - rest))
      {
        var c :| c in rest;
        rest := rest - {c};
        Stop(c);
      }
    }

    method RemoveAll(names: set<string>)
      requires running == map[]
      modifies this
      ensures V() == old(V()).(networks := old(networks) - names)
    {
      var rest := names;
      while rest != {}
        invariant rest <= names
        invariant V() == old(V()).(networks := old(networks) - (names - rest))
      {
        var n :| n in rest;
        rest := rest - {n};
        assert names - rest == (names - (rest + {n})) + {n};
        RemoveNetwork(n);
      }
    }

    /** Every container stops, then every network goes: nothing the pool started is left. */
    method Shutdown()
      requires Conserved(V())
      modifies this
      ensures Conserved(V()) && active == map[] && warm == map[] && running == map[] && networks == map[]
      ensures next == old(next) && forall c: ContainerId :: c in stopped <==> c < next
    {
      OwnedCoverRunning(V());
      OwnedCoverNetworks(V());
      var ids := PoolContainers(active, warm);
      var names := PoolNetworks(active);
      active, warm := map[], map[];
      StopAll(ids);
      RemoveAll(names);
    }
  }

  /** One entry more, the session's, stamped now. */
  predicate Adds(before: Active, after: Active, sid: SessionId, now: int) {
    sid in after && after - {sid} == before && |after| == |before| + 1 && after[sid].lastUsedAt == now
  }

  lemma Booted(v: View, was: Active, sid: SessionId)
    requires Conserved(v) && Sound(was) && sid !in was && sid in v.active && v.active == was[sid := v.active[sid]]
    requires v.active[sid].owned.Some? ==> Minted(sid)
    requires v.active[sid].sig.limited <==> v.active[sid].owned.Some?
    ensures Sound(v.active) && Adds(was, v.active, sid, v.active[sid].lastUsedAt)
    ensures Serves(v, sid, v.active[sid].container, v.active[sid].sig, v.active[sid].sig.limited)
  {
    AddEntry(was, sid, v.active[sid]);
    OneMoreSound(was, sid, v.active[sid]);
    ServedAsOwned(v, sid);
  }

  lemma AddEntry(active: Active, sid: SessionId, e: Entry)
    requires sid !in active
    ensures active[sid := e] - {sid} == active && |active[sid := e]| == |active| + 1
  {
  }

  function PoolContainers(active: Active, warm: Spares): set<ContainerId> {
    (set s | s in active :: active[s].container)
    + (set s | s in active && active[s].owned.Some? :: active[s].owned.value.sidecar)
    + (set a | a in warm :: warm[a].container)
  }

  function PoolNetworks(active: Active): set<string> {
    set s, n | s in active && active[s].owned.Some? && n in active[s].owned.value.networks :: n
  }

  /** What the pool's entries name is exactly what runs. */
  lemma OwnedCoverRunning(v: View)
    requires Conserved(v)
    ensures PoolContainers(v.active, v.warm) == v.running.Keys
  {
    var all := PoolContainers(v.active, v.warm);
    forall s | s in v.active
      ensures v.active[s].container in v.running
      ensures v.active[s].owned.Some? ==> v.active[s].owned.value.sidecar in v.running
    {
      assert Occupies(v.active, v.warm, v.active[s].container, Agent(s));
      if v.active[s].owned.Some? {
        assert Occupies(v.active, v.warm, v.active[s].owned.value.sidecar, Sidecar(s));
      }
    }
    forall a | a in v.warm ensures v.warm[a].container in v.running {
      assert Occupies(v.active, v.warm, v.warm[a].container, Spare(a));
    }
    forall c | c in v.running ensures c in all {
      assert Occupies(v.active, v.warm, c, v.running[c].slot);
    }
  }

  /** What the live limited sessions own is exactly the networks there are. */
  lemma OwnedCoverNetworks(v: View)
    requires Conserved(v)
    ensures PoolNetworks(v.active) == v.networks.Keys
  {
    forall n | n in v.networks ensures n in PoolNetworks(v.active) {
      var sid := v.networks[n];
      assert Limited(v.active, sid) && n in NetworksOf(NamesFor(sid));
      var nets := v.active[sid].owned.value.networks;
      assert nets == [NamesFor(sid).confined, NamesFor(sid).egress];
      assert nets[0] in nets && nets[1] in nets;
      assert n in nets;
    }
    forall s, n | s in v.active && v.active[s].owned.Some? && n in v.active[s].owned.value.networks
      ensures n in v.networks
    {
      assert Limited(v.active, s) && OwnsNetwork(v.networks, s, NamesFor(s).confined) && OwnsNetwork(v.networks, s, NamesFor(s).egress);
    }
  }

  lemma FewerKeys<T>(m: map<string, T>, k: string)
    requires k in m
    ensures |m - {k}| == |m| - 1
  {
  }

  /**
   Sessions only leave and keep their entries if they stay; those that left were idle, and
   no idle one that stayed was used longer ago.
   */
  ghost predicate OnlyIdleLost(before: Active, after: Active, busy: set<SessionId>) {
    && (forall t :: t in after ==> t in before && after[t] == before[t])
    && (forall t :: t in before && t !in after ==> t !in busy)
    && (forall t, w :: t in before && t !in after && w in after && w !in busy ==> before[t].lastUsedAt <= after[w].lastUsedAt)
  }

  lemma Restamped(active: Active, sid: SessionId, now: int)
    requires sid in active
    ensures var after := active[sid := active[sid].(lastUsedAt := now)];
            |after| == |active| && after - {sid} == active - {sid}
  {
    FewerKeys(active, sid);
    FewerKeys(active[sid := active[sid].(lastUsedAt := now)], sid);
  }

  lemma LoseOldest(before: Active, now: Active, v: SessionId, busy: set<SessionId>)
    requires OnlyIdleLost(before, now, busy) && v in now && v !in busy
    requires forall w :: w in now && w !in busy ==> now[v].lastUsedAt <= now[w].lastUsedAt
    ensures OnlyIdleLost(before, now - {v}, busy)
  {
  }

  /** No busy session is lost, so they tell whether there is room. */
  lemma BusyStay(before: Active, now: Active, busy: set<SessionId>)
    requires OnlyIdleLost(before, now, busy)
    ensures BusyOnes(now, busy) == BusyOnes(before, busy) && |BusyOnes(before, busy)| <= |now|
    ensures (forall t :: t in now ==> t in busy) ==> |BusyOnes(before, busy)| == |now|
  {
    assert |now| == |now.Keys|;
    SubsetSize(BusyOnes(now, busy), now.Keys);
    if forall t :: t in now ==> t in busy {
      assert BusyOnes(now, busy) == now.Keys;
    }
  }

  /** Warm entries only leave, and only this agent's. */
  ghost predicate OnlyTaken(before: Spares, after: Spares, agent: Option<AgentId>) {
    && (forall a :: a in after ==> a in before && after[a] == before[a])
    && (forall a :: a in before && a !in after ==> agent == Some(a))
  }

  /** Entries of other agents only leave, at most one does, none unless the pool is full, and the oldest. */
  ghost predicate OnlyOldestLost(before: Spares, after: Spares, a: AgentId, maxWarm: nat) {
    && (forall b :: b in after && b != a ==> b in before && after[b] == before[b])
    && (forall b :: b in before && b != a && b !in after ==>
          |before - {a}| >= maxWarm && forall c :: c in before && c != a ==> before[b].spawnedAt <= before[c].spawnedAt)
    && (forall b, c :: b in before && c in before && b !in after && c !in after && b != a && c != a ==> b == c)
  }

  lemma LoseNoOther(before: Spares, a: AgentId, maxWarm: nat)
    ensures OnlyOldestLost(before, before - {a}, a, maxWarm)
  {
  }

  lemma LoseOldestOther(before: Spares, a: AgentId, v: AgentId, maxWarm: nat)
    requires v in before && v != a && |before - {a}| >= maxWarm
    requires forall c :: c in before && c != a ==> before[v].spawnedAt <= before[c].spawnedAt
    ensures OnlyOldestLost(before, before - {a} - {v}, a, maxWarm)
  {
  }

  lemma GainOne(before: Spares, after: Spares, a: AgentId, maxWarm: nat, e: WarmEntry)
    requires OnlyOldestLost(before, after, a, maxWarm)
    ensures OnlyOldestLost(before, after[a := e], a, maxWarm)
  {
  }

  /** A session's containers run, and once they have stopped nothing is attached to its networks. */
  lemma TeardownIsClear(v: View, sid: SessionId)
    requires Conserved(v) && sid in v.active
    ensures var e := v.active[sid];
            && Containers(e) <= v.running.Keys && (e.owned.Some? ==> e.owned.value.sidecar != e.container)
            && forall n :: n in Networks(e) ==> !InUse(v.running - Containers(e), n)
  {
    var e := v.active[sid];
    SlotsWithoutSession(v.active, v.warm, v.running, sid);
    assert Occupies(v.active, v.warm, e.container, Agent(sid));
    if e.owned.Some? {
      assert Occupies(v.active, v.warm, e.owned.value.sidecar, Sidecar(sid));
    }
    forall n, c | n in Networks(e) && c in v.running - Containers(e)
      ensures n !in v.running[c].attached
    {
      assert Occupies(v.active, v.warm, c, v.running[c].slot) && Equipped(v.active, v.running[c]);
      match v.running[c].slot {
        case Agent(t) =>
          if Limited(v.active, t) { LiveNamesNeverMeet(v, sid, t); NamesMeetIff(sid, t); }
        case Sidecar(t) => LiveNamesNeverMeet(v, sid, t); NamesMeetIff(sid, t);
        case Spare(_) =>
      }
    }
  }

  /** Docker's answer to a removal. */
  function Removed(networks: map<string, SessionId>, running: Processes, n: string): map<string, SessionId> {
    if InUse(running, n) then networks else networks - {n}
  }

  // What a limited spawn has created so far; `refused` when its sidecar could not be started.
  datatype Created =
    Created(confined: bool, egress: bool, refused: bool, sidecar: Option<ContainerId>, agent: Option<ContainerId>)

  function WithNetwork(networks: map<string, SessionId>, n: string, sid: SessionId): map<string, SessionId> {
    if n in networks then networks else networks[n := sid]
  }

  /** The networks once the stages that succeeded have ensured theirs. */
  function Ensured(networks: map<string, SessionId>, sid: SessionId, c: Created): map<string, SessionId> {
    var n := NamesFor(sid);
    var first := if c.confined then WithNetwork(networks, n.confined, sid) else networks;
    if c.egress then WithNetwork(first, n.egress, sid) else first
  }

  /** The networks the rollback leaves. */
  function Unensured(networks: map<string, SessionId>, running: Processes, sid: SessionId, c: Created): map<string, SessionId> {
    var n := NamesFor(sid);
    var first := if c.confined then Removed(networks, running, n.confined) else networks;
    if c.egress then Removed(first, running, n.egress) else first
  }

  /** What ran before and still does: a refused sidecar has cost whoever has its name. */
  function Spared(v: View, sid: SessionId, c: Created): View {
    if c.refused then WithoutNamed(v, Some(NamesFor(sid).sidecar)) else v
  }

  function Built(v: View, sid: SessionId, c: Created): View {
    var n, base := NamesFor(sid), Spared(v, sid, c);
    var run1 := if c.sidecar.Some?
                then base.running[c.sidecar.value := Process(Sidecar(sid), {n.confined, n.egress}, Some(n.sidecar))]
                else base.running;
    var run2 := if c.agent.Some? then run1[c.agent.value := Process(Agent(sid), {n.confined}, None)] else run1;
    base.(networks := Ensured(v.networks, sid, c), running := run2,
          next := v.next + (if c.sidecar.Some? then 1 else 0) + (if c.agent.Some? then 1 else 0))
  }

  /** After the rollback: what the spawn started has stopped, and the networks not in use are removed. */
  function RolledBack(v: View, sid: SessionId, c: Created): View {
    var base := Spared(v, sid, c);
    base.(networks := Unensured(Ensured(v.networks, sid, c), base.running, sid, c), next := Built(v, sid, c).next,
          stopped := base.stopped + (if c.agent.Some? then {c.agent.value} else {})
                     + (if c.sidecar.Some? then {c.sidecar.value} else {}))
  }

  /** The stages come in order, and the sidecar starts only when nothing has its name. */
  ghost predicate Reached(v: View, sid: SessionId, c: Created) {
    && (c.egress ==> c.confined) && (c.egress <==> c.refused || c.sidecar.Some?) && !(c.refused && c.sidecar.Some?)
    && (c.sidecar.Some? ==> c.sidecar.value == v.next && !NameTaken(v.running, NamesFor(sid).sidecar))
    && (c.agent.Some? ==> c.sidecar.Some? && c.agent.value == v.next + 1)
  }

  /** How far a limited spawn gets: each stage needs the one before, and a taken name refuses the sidecar. */
  function Stages(v: View, sid: SessionId, trial: LimitedTrial): Created {
    var egress := trial.confined && trial.egress;
    var sidecar := egress && trial.sidecar && !NameTaken(v.running, NamesFor(sid).sidecar);
    Created(trial.confined, egress, egress && !sidecar, if sidecar then Some(v.next) else None,
            if sidecar && trial.healthy && trial.agent.starts then Some(v.next + 1) else None)
  }

  /** Networks made for this spawn go; networks that were there and are in use stay. */
  lemma RemovalRestores(networks: map<string, SessionId>, running: Processes, sid: SessionId, c: Created)
    requires c.egress ==> c.confined
    requires forall n :: n in NetworksOf(NamesFor(sid)) ==> (InUse(running, n) <==> n in networks)
    ensures Unensured(Ensured(networks, sid, c), running, sid, c) == networks
  {
    NamesMeetIff(sid, sid);
    var n := NamesFor(sid);
    assert n.confined in NetworksOf(n) && n.egress in NetworksOf(n);
  }

  lemma NobodyNamed(v: View, sid: SessionId)
    requires !NameTaken(v.running, NamesFor(sid).sidecar)
    ensures WithoutNamed(v, Some(NamesFor(sid).sidecar)) == v
  {
    assert Named(v.running, Some(NamesFor(sid).sidecar)) == {};
    assert v.running - {} == v.running;
  }

  /** A failure leaves all as before, unless the sidecar was refused because a live session has its name. */
  lemma FailureRestores(v: View, sid: SessionId, c: Created)
    requires Conserved(v) && sid !in v.active && Reached(v, sid, c) && (c.refused ==> !Meets(v.active, sid))
    ensures Undisturbed(v, RolledBack(v, sid, c)) && Conserved(RolledBack(v, sid, c))
  {
    LimitedNamesFree(v, sid);
    if c.refused {
      NobodyNamed(v, sid);
    }
    assert Spared(v, sid, c) == v;
    NamesUsedIffThere(v, sid);
    RemovalRestores(v.networks, v.running, sid, c);
  }

  /** The networks of a session that is not there are in use exactly when they exist. */
  lemma NamesUsedIffThere(v: View, sid: SessionId)
    requires Conserved(v) && sid !in v.active
    ensures forall n :: n in NetworksOf(NamesFor(sid)) ==> (InUse(v.running, n) <==> n in v.networks)
  {
    LimitedNamesFree(v, sid);
  }

  /** What has the sidecar's name, and what is on the egress network, is the live session's sidecar alone. */
  lemma OnlyItsSidecar(v: View, t: SessionId, c: ContainerId)
    requires Conserved(v) && Limited(v.active, t) && c in v.running
    ensures v.running[c].name == Some(NamesFor(t).sidecar) <==> c == v.active[t].owned.value.sidecar
    ensures NamesFor(t).egress in v.running[c].attached <==> c == v.active[t].owned.value.sidecar
  {
    assert Occupies(v.active, v.warm, c, v.running[c].slot) && Equipped(v.active, v.running[c]);
    assert Occupies(v.active, v.warm, v.active[t].owned.value.sidecar, Sidecar(t));
    match v.running[c].slot {
      case Agent(u) => NamesMeetIff(u, t);
      case Sidecar(u) =>
        NamesMeetIff(u, t);
        if u != t {
          LiveNamesNeverMeet(v, u, t);
          assert NamesFor(u).egress in NetworksOf(NamesFor(u)) && NamesFor(t).egress in NetworksOf(NamesFor(t));
          NamesMeetIff(t, u);
        }
      case Spare(_) =>
    }
  }

  /**
   A spawn refused for the name of a live session costs that session its sidecar and its egress
   network, and leaves its entry and its agent.
   */
  lemma CollisionStopsLive(v: View, sid: SessionId, t: SessionId, c: Created)
    requires Conserved(v) && sid !in v.active && Limited(v.active, t) && SafeId(t) == SafeId(sid)
    requires Reached(v, sid, c) && c.refused
    ensures var w, sidecar := RolledBack(v, sid, c), v.active[t].owned.value.sidecar;
            && w.active == v.active && w.warm == v.warm && sidecar in v.running
            && w.running == v.running - {sidecar} && w.stopped == v.stopped + {sidecar}
            && NamesFor(t).egress in v.networks && w.networks == v.networks - {NamesFor(t).egress}
            && !Undisturbed(v, w) && !Conserved(w)
  {
    var n, sidecar, agent := NamesFor(sid), v.active[t].owned.value.sidecar, v.active[t].container;
    NamesMeetIff(t, sid);
    assert Occupies(v.active, v.warm, sidecar, Sidecar(t)) && Occupies(v.active, v.warm, agent, Agent(t));
    assert OwnsNetwork(v.networks, t, n.confined) && OwnsNetwork(v.networks, t, n.egress);
    forall x | x in v.running
      ensures v.running[x].name == Some(n.sidecar) <==> x == sidecar
      ensures n.egress in v.running[x].attached <==> x == sidecar
    {
      OnlyItsSidecar(v, t, x);
    }
    assert Named(v.running, Some(n.sidecar)) == {sidecar};
    var left := v.running - {sidecar};
    assert agent in left && Equipped(v.active, v.running[agent]) && n.confined in left[agent].attached;
    assert InUse(left, n.confined) && !InUse(left, n.egress);
    var w := RolledBack(v, sid, c);
    assert w.active == v.active && sidecar !in w.running && Occupies(w.active, w.warm, sidecar, Sidecar(t));
  }

  /**
   An eviction forgets the entry first and then stops the containers. A limited session acquired
   again meanwhile cannot start its sidecar, exactly as long as its old sidecar has not stopped.
   */
  lemma EvictionBlocksItsSession(v: View, t: SessionId, gone: set<ContainerId>)
    requires Conserved(v) && Limited(v.active, t) && gone <= Containers(v.active[t])
    ensures var mid := v.(active := v.active - {t}, running := v.running - gone, stopped := v.stopped + gone);
            (forall c :: Reached(mid, t, c) ==> c.sidecar.None?) <==> v.active[t].owned.value.sidecar !in gone
  {
    var mid := v.(active := v.active - {t}, running := v.running - gone, stopped := v.stopped + gone);
    var sidecar := v.active[t].owned.value.sidecar;
    LiveNamesAreTaken(v, t);
    forall x | x in v.running ensures v.running[x].name == Some(NamesFor(t).sidecar) <==> x == sidecar {
      OnlyItsSidecar(v, t, x);
    }
    if sidecar in gone {
      assert !NameTaken(mid.running, NamesFor(t).sidecar);
      assert Reached(mid, t, Created(true, true, false, Some(mid.next), None));
    } else {
      assert Occupies(v.active, v.warm, sidecar, Sidecar(t));
      assert sidecar in mid.running && NameTaken(mid.running, NamesFor(t).sidecar);
    }
  }

  /**
   Exactly when a limited spawn is all or nothing: wherever it fails containers and networks are
   as before, if and only if no live limited session has the same sanitised id.
   */
  lemma AllOrNothingIff(v: View, sid: SessionId)
    requires Conserved(v) && sid !in v.active
    ensures (forall c :: Reached(v, sid, c) ==> Undisturbed(v, RolledBack(v, sid, c))) <==> !Meets(v.active, sid)
  {
    if t :| Limited(v.active, t) && SafeId(t) == SafeId(sid) {
      var c := Created(true, true, true, None, None);
      assert Reached(v, sid, c);
      CollisionStopsLive(v, sid, t, c);
    } else {
      forall c | Reached(v, sid, c) ensures Undisturbed(v, RolledBack(v, sid, c)) {
        FailureRestores(v, sid, c);
      }
    }
  }

  /** A spawn that got to its agent had names nobody else uses, and inserting its entry conserves the pool. */
  lemma BuiltIsLimited(v: View, sid: SessionId, c: Created, sig: Signature, now: int)
    requires Conserved(v) && sid !in v.active && Reached(v, sid, c) && c.agent.Some?
    ensures var n := NamesFor(sid);
            var e := Entry(c.agent.value, sig, now, Some(Owned(c.sidecar.value, [n.confined, n.egress])));
            Built(v, sid, c).(active := v.active[sid := e]) == WithLimited(v, sid, sig, now)
    ensures Conserved(WithLimited(v, sid, sig, now))
    ensures forall t :: Limited(v.active, t) ==> SafeId(t) != SafeId(sid)
  {
    LimitedNamesFree(v, sid);
    NamesMeetIff(sid, sid);
    WithLimitedConserves(v, sid, sig, now);
  }

  /**
   What a limited spawn can rely on before it starts: either a live session has the same
   sanitised id, and then both networks are in use and the sidecar name is taken, or the
   networks do not exist and no container is attached to them.
   */
  lemma LimitedNamesFree(v: View, sid: SessionId)
    requires Conserved(v) && sid !in v.active
    ensures var n := NamesFor(sid);
            if Meets(v.active, sid)
            then NameTaken(v.running, n.sidecar) && InUse(v.running, n.confined) && InUse(v.running, n.egress)
                 && n.confined in v.networks && n.egress in v.networks
            else !InUse(v.running, n.confined) && !InUse(v.running, n.egress)
                 && n.confined !in v.networks && n.egress !in v.networks && !NameTaken(v.running, n.sidecar)
  {
    var n := NamesFor(sid);
    if t :| Limited(v.active, t) && SafeId(t) == SafeId(sid) {
      NamesMeetIff(t, sid);
      LiveNamesAreTaken(v, t);
      assert OwnsNetwork(v.networks, t, n.confined) && OwnsNetwork(v.networks, t, n.egress);
    } else {
      forall m | m in NetworksOf(n) ensures m !in v.networks && !InUse(v.running, m) {
        if m in v.networks {
          NamesMeetIff(v.networks[m], sid);
        }
        forall c | c in v.running ensures m !in v.running[c].attached {
          assert Equipped(v.active, v.running[c]) && Occupies(v.active, v.warm, c, v.running[c].slot);
          match v.running[c].slot {
            case Agent(t) => NamesMeetIff(t, sid);
            case Sidecar(t) => NamesMeetIff(t, sid);
            case Spare(_) =>
          }
        }
      }
      forall c | c in v.running ensures v.running[c].name != Some(n.sidecar) {
        assert Equipped(v.active, v.running[c]) && Occupies(v.active, v.warm, c, v.running[c].slot);
        if v.running[c].slot.Sidecar? {
          NamesMeetIff(v.running[c].slot.sid, sid);
        }
      }
    }
  }
}
