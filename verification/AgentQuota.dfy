// Organisation-wide agent quota: the arithmetic of usage, and agent creation as
// a protocol under the organisation lock with compensated failures.
module AgentQuota {
  import opened Common

  // Quantities in the smallest unit; Kubernetes rejects negative ones.
  datatype Resource = Cpu | Memory
  datatype Requirements = Requirements(requests: map<Resource, nat>, limits: map<Resource, nat>)
  datatype Agent = Agent(name: string, resources: Requirements)
  datatype Compute = Compute(cpu: nat, memory: nat)
  datatype Usage = Usage(count: int, resources: Compute)
  datatype Quota = Quota(count: int, resources: Compute)
  datatype Excess = Excess(count: bool, cpu: bool, memory: bool)
  datatype Status = Status(limit: Quota, taken: Usage, availableCount: int, available: Compute)

  const MaxInt32 := 0x7fff_ffff

  // Conversion and arithmetic on int32 wrap around.
  function Int32(x: int): int { (x + 0x8000_0000) % 0x1_0000_0000 - 0x8000_0000 }

  function RequestOf(r: Requirements, kind: Resource): nat {
    if kind in r.requests then r.requests[kind] else if kind in r.limits then r.limits[kind] else 0
  }

  function EffectiveRequests(r: Requirements): Compute { Compute(RequestOf(r, Cpu), RequestOf(r, Memory)) }

  // Kubernetes reserves what is requested, and the limit where no request is given.
  lemma RequestWins(r: Requirements)
    ensures Cpu in r.requests ==> EffectiveRequests(r).cpu == r.requests[Cpu]
    ensures Cpu !in r.requests && Cpu in r.limits ==> EffectiveRequests(r).cpu == r.limits[Cpu]
    ensures Memory in r.requests ==> EffectiveRequests(r).memory == r.requests[Memory]
    ensures Memory !in r.requests && Memory in r.limits ==> EffectiveRequests(r).memory == r.limits[Memory]
    ensures r.requests == map[] && r.limits == map[] ==> EffectiveRequests(r) == Compute(0, 0)
  {
  }

  function Sum(agents: seq<Agent>, kind: Resource): nat {
    if agents == [] then 0 else Sum(agents[..|agents| - 1], kind) + RequestOf(agents[|agents| - 1].resources, kind)
  }

  function Measured(agents: seq<Agent>): Usage {
    Usage(Int32(|agents|), Compute(Sum(agents, Cpu), Sum(agents, Memory)))
  }

  method Measure(agents: seq<Agent>) returns (usage: Usage)
    ensures usage == Measured(agents)
  {
    var cpu, memory := 0, 0;
    for i := 0 to |agents|
      invariant cpu == Sum(agents[..i], Cpu) && memory == Sum(agents[..i], Memory)
    {
      var requests := EffectiveRequests(agents[i].resources);
      cpu := cpu + requests.cpu;
      memory := memory + requests.memory;
      assert agents[..i + 1][..i] == agents[..i];
    }
    assert agents[..|agents|] == agents;
    return Usage(Int32(|agents|), Compute(cpu, memory));
  }

  function Add(u: Usage, r: Requirements): Usage {
    var requests := EffectiveRequests(r);
    Usage(Int32(u.count + 1), Compute(u.resources.cpu + requests.cpu, u.resources.memory + requests.memory))
  }

  function Exceeded(u: Usage, q: Quota): Excess {
    Excess(u.count > q.count, u.resources.cpu > q.resources.cpu, u.resources.memory > q.resources.memory)
  }

  predicate Refused(e: Excess) { e.count || e.cpu || e.memory }

  // Adding a prospective agent is measuring the extended list, wrap-around included.
  lemma AddMeasures(agents: seq<Agent>, r: Agent)
    ensures Add(Measured(agents), r.resources) == Measured(agents + [r])
  {
    assert (agents + [r])[..|agents|] == agents;
    WrapStep(|agents|);
  }

  lemma WrapStep(n: int)
    ensures Int32(Int32(n) + 1) == Int32(n + 1)
  {
  }

  lemma WrapIdentity(n: int)
    requires -0x8000_0000 <= n <= MaxInt32
    ensures Int32(n) == n
  {
  }

  lemma {:induction false} SumConcat(a: seq<Agent>, b: seq<Agent>, kind: Resource)
    ensures Sum(a + b, kind) == Sum(a, kind) + Sum(b, kind)
  {
    if b == [] {
      assert a + b == a;
    } else {
      var n := |b| - 1;
      assert (a + b)[..|a| + n] == a + b[..n];
      SumConcat(a, b[..n], kind);
    }
  }

  lemma SumWithout(a: seq<Agent>, k: nat, kind: Resource)
    requires k < |a|
    ensures Sum(a, kind) == Sum(Without(a, k), kind) + RequestOf(a[k].resources, kind)
  {
    MultisetWithout(a, k);
    SumConcat(a[..k], [a[k]] + a[k + 1..], kind);
    SumConcat([a[k]], a[k + 1..], kind);
    SumConcat(a[..k], a[k + 1..], kind);
    assert [a[k]][..0] == [];
  }

  // The sum does not depend on the order in which the agents are listed.
  lemma {:induction false} SumPermutes(a: seq<Agent>, b: seq<Agent>, kind: Resource)
    requires multiset(a) == multiset(b)
    ensures Sum(a, kind) == Sum(b, kind) && |a| == |b|
    decreases |a|
  {
    assert |multiset(a)| == |multiset(b)|;
    if a != [] {
      assert a[0] in multiset(b);
      var k :| 0 <= k < |b| && b[k] == a[0];
      MultisetWithout(a, 0);
      MultisetWithout(b, k);
      SumPermutes(Without(a, 0), Without(b, k), kind);
      SumWithout(a, 0, kind);
      SumWithout(b, k, kind);
    }
  }

  // Within quota, in the unbounded sense that the quota is meant to have.
  predicate Fits(agents: seq<Agent>, q: Quota) {
    |agents| <= q.count && Sum(agents, Cpu) <= q.resources.cpu && Sum(agents, Memory) <= q.resources.memory
  }

  lemma FitsPermutes(a: seq<Agent>, b: seq<Agent>, q: Quota)
    requires multiset(a) == multiset(b)
    ensures Fits(a, q) <==> Fits(b, q)
  {
    SumPermutes(a, b, Cpu);
    SumPermutes(a, b, Memory);
  }

  // Removing an agent never breaks the quota.
  lemma FitsWithout(a: seq<Agent>, k: nat, q: Quota)
    requires k < |a| && Fits(a, q)
    ensures Fits(Without(a, k), q)
  {
    SumWithout(a, k, Cpu);
    SumWithout(a, k, Memory);
  }

  // The check the code makes is exact for every quota but the largest int32.
  lemma CheckExact(agents: seq<Agent>, r: Agent, q: Quota)
    requires Fits(agents, q) && q.count < MaxInt32
    ensures Refused(Exceeded(Add(Measured(agents), r.resources), q)) <==> !Fits(agents + [r], q)
  {
    AddMeasures(agents, r);
    WrapIdentity(|agents + [r]|);
  }

  // With the largest int32 as count quota the counter wraps to a negative
  // number and one agent too many passes; no smaller quota has this.
  lemma CountCheckExactIff(limit: int)
    requires 0 <= limit <= MaxInt32
    ensures (forall n: nat :: n <= limit ==> (Int32(Int32(n) + 1) > limit <==> n + 1 > limit)) <==> limit < MaxInt32
  {
    if limit < MaxInt32 {
      forall n: nat | n <= limit ensures Int32(Int32(n) + 1) > limit <==> n + 1 > limit {
        WrapStep(n);
        WrapIdentity(n + 1);
      }
    } else {
      WrapStep(limit);
      assert Int32(limit + 1) == -0x8000_0000;
      assert !(Int32(Int32(limit) + 1) > limit) && limit + 1 > limit;
    }
  }

  function StatusOf(u: Usage, q: Quota): Status {
    var left := Int32(q.count - u.count);
    Status(q, u, if left < 0 then 0 else left,
      Compute(if q.resources.cpu < u.resources.cpu then 0 else q.resources.cpu - u.resources.cpu,
              if q.resources.memory < u.resources.memory then 0 else q.resources.memory - u.resources.memory))
  }

  // The status adds up to the limit in a dimension exactly when it is not exceeded.
  lemma StatusAddsUp(u: Usage, q: Quota)
    requires 0 <= u.count <= MaxInt32 && 0 <= q.count <= MaxInt32
    ensures var s, e := StatusOf(u, q), Exceeded(u, q);
      && (u.count + s.availableCount == q.count <==> !e.count)
      && (u.resources.cpu + s.available.cpu == q.resources.cpu <==> !e.cpu)
      && (u.resources.memory + s.available.memory == q.resources.memory <==> !e.memory)
  {
    WrapIdentity(q.count - u.count);
  }

  // ---- Creation under the organisation lock ----

  type Worker = nat

  datatype Pc =
    | Waiting(agent: Agent)
    | Holding(agent: Agent)
    | Admitted(agent: Agent)     // measured and found within quota
    | Created(agent: Agent)      // the Kubernetes object exists, not committed

  datatype State = State(live: multiset<Agent>, lock: Option<Worker>, pcs: map<Worker, Pc>)

  datatype Step =
    | Arrive(w: Worker, agent: Agent)
    | TakeLock(w: Worker)
    | Admit(w: Worker, listed: seq<Agent>)
    | Create(w: Worker)
    | Commit(w: Worker)
    | Compensate(w: Worker)             // event or commit failed, the object is deleted
    | Delete(agent: Agent)       // an agent disappears at any time
    | Fail(w: Worker)                   // any error return; a created object may stay

  function Release(s: State, w: Worker): State {
    s.(pcs := s.pcs - {w}, lock := if s.lock == Some(w) then None else s.lock)
  }

  ghost predicate NextStep(q: Quota, s: State, t: State, step: Step) {
    match step
    case Arrive(w, agent) => w !in s.pcs && t == s.(pcs := s.pcs[w := Waiting(agent)])
    case TakeLock(w) =>
      && w in s.pcs && s.pcs[w].Waiting? && s.lock.None?
      && t == s.(lock := Some(w), pcs := s.pcs[w := Holding(s.pcs[w].agent)])
    case Admit(w, listed) =>
      // the API server lists the live agents in an order of its own
      && w in s.pcs && s.pcs[w].Holding? && multiset(listed) == s.live
      && !Refused(Exceeded(Add(Measured(listed), s.pcs[w].agent.resources), q))
      && t == s.(pcs := s.pcs[w := Admitted(s.pcs[w].agent)])
    case Create(w) =>
      // the API server refuses a name that is taken
      && w in s.pcs && s.pcs[w].Admitted? && (forall a :: a in s.live ==> a.name != s.pcs[w].agent.name)
      && t == s.(live := s.live + multiset{s.pcs[w].agent}, pcs := s.pcs[w := Created(s.pcs[w].agent)])
    case Commit(w) => w in s.pcs && s.pcs[w].Created? && t == Release(s, w)
    case Compensate(w) =>
      w in s.pcs && s.pcs[w].Created? && t == Release(s, w).(live := s.live - multiset{s.pcs[w].agent})
    case Delete(agent) => agent in s.live && t == s.(live := s.live - multiset{agent})
    case Fail(w) => w in s.pcs && t == Release(s, w)
  }

  ghost predicate Next(q: Quota, s: State, t: State) { exists step :: NextStep(q, s, t, step) }

  ghost predicate WithinQuota(live: multiset<Agent>, q: Quota) {
    forall agents :: multiset(agents) == live ==> Fits(agents, q)
  }

  ghost predicate WorkerOk(s: State, q: Quota, w: Worker) {
    && (s.lock == Some(w) <==> w in s.pcs && !s.pcs[w].Waiting?)
    && (w in s.pcs && s.pcs[w].Admitted? ==> WithinQuota(s.live + multiset{s.pcs[w].agent}, q))
  }

  ghost predicate Inv(s: State, q: Quota) {
    WithinQuota(s.live, q) && forall w :: WorkerOk(s, q, w)
  }

  lemma ShrinkStaysWithin(live: multiset<Agent>, agent: Agent, q: Quota)
    requires WithinQuota(live, q)
    ensures WithinQuota(live - multiset{agent}, q)
  {
    if agent in live {
      forall agents | multiset(agents) == live - multiset{agent} ensures Fits(agents, q) {
        var more := agents + [agent];
        assert multiset(more) == live;
        FitsWithout(more, |agents|, q);
        assert Without(more, |agents|) == agents;
      }
    } else {
      assert live - multiset{agent} == live;
    }
  }

  lemma AdmitIsWithin(s: State, q: Quota, listed: seq<Agent>, agent: Agent)
    requires WithinQuota(s.live, q) && multiset(listed) == s.live && q.count < MaxInt32
    requires !Refused(Exceeded(Add(Measured(listed), agent.resources), q))
    ensures WithinQuota(s.live + multiset{agent}, q)
  {
    CheckExact(listed, agent, q);
    assert multiset(listed + [agent]) == s.live + multiset{agent};
    forall agents | multiset(agents) == s.live + multiset{agent} ensures Fits(agents, q) {
      FitsPermutes(listed + [agent], agents, q);
    }
  }

  lemma StepKeepsWorker(s: State, t: State, q: Quota, step: Step, v: Worker)
    requires Inv(s, q) && q.count < MaxInt32 && NextStep(q, s, t, step)
    ensures WorkerOk(t, q, v)
  {
    assert WorkerOk(s, q, v);
    match step
    case Admit(w, listed) => AdmitIsWithin(s, q, listed, s.pcs[w].agent);
    case Delete(agent) => DeleteKeepsWorker(s, t, q, agent, v);
    case Create(w) =>
      assert WorkerOk(s, q, w);
      HolderKeepsWorker(s, t, q, step, v);
    case Compensate(w) =>
      assert WorkerOk(s, q, w);
      HolderKeepsWorker(s, t, q, step, v);
    case _ => LockKeepsWorker(s, t, q, step, v);
  }

  lemma DeleteKeepsWorker(s: State, t: State, q: Quota, agent: Agent, v: Worker)
    requires WorkerOk(s, q, v) && NextStep(q, s, t, Delete(agent))
    ensures WorkerOk(t, q, v)
  {
    if v in s.pcs && s.pcs[v].Admitted? {
      ShrinkStaysWithin(s.live + multiset{s.pcs[v].agent}, agent, q);
      assert s.live + multiset{s.pcs[v].agent} - multiset{agent} == t.live + multiset{s.pcs[v].agent};
    }
  }

  // The lock's holder changes what is live; nobody else is admitted meanwhile.
  lemma HolderKeepsWorker(s: State, t: State, q: Quota, step: Step, v: Worker)
    requires (step.Create? || step.Compensate?) && NextStep(q, s, t, step)
    requires WorkerOk(s, q, v) && WorkerOk(s, q, step.w)
    ensures WorkerOk(t, q, v)
  {
  }

  lemma LockKeepsWorker(s: State, t: State, q: Quota, step: Step, v: Worker)
    requires WorkerOk(s, q, v) && NextStep(q, s, t, step)
    requires step.Arrive? || step.TakeLock? || step.Commit? || step.Fail?
    ensures WorkerOk(t, q, v)
  {
    assert t.live == s.live;
  }

  lemma StepKeeps(s: State, t: State, q: Quota, step: Step)
    requires Inv(s, q) && q.count < MaxInt32 && NextStep(q, s, t, step)
    ensures Inv(t, q)
  {
    forall v ensures WorkerOk(t, q, v) { StepKeepsWorker(s, t, q, step, v); }
    match step
    case Create(w) => assert WorkerOk(s, q, w);
    case Compensate(w) => ShrinkStaysWithin(s.live, s.pcs[w].agent, q);
    case Delete(agent) => ShrinkStaysWithin(s.live, agent, q);
    case _ =>
  }

  ghost predicate Joined(q: Quota, run: seq<State>, k: int) { 0 < k < |run| ==> Next(q, run[k - 1], run[k]) }

  // A run starts with no creation in progress and the quota respected.
  ghost predicate Run(q: Quota, run: seq<State>) {
    && run != [] && run[0].lock.None? && run[0].pcs == map[] && WithinQuota(run[0].live, q)
    && forall k :: Joined(q, run, k)
  }

  lemma {:induction false} RunKeeps(q: Quota, run: seq<State>, k: nat)
    requires Run(q, run) && k < |run| && q.count < MaxInt32
    ensures Inv(run[k], q)
    decreases k
  {
    if k > 0 {
      RunKeeps(q, run, k - 1);
      assert Joined(q, run, k);
      NextKeeps(run[k - 1], run[k], q);
    } else {
      QuietInv(run[0], q);
    }
  }

  lemma NextKeeps(s: State, t: State, q: Quota)
    requires Inv(s, q) && q.count < MaxInt32 && Next(q, s, t)
    ensures Inv(t, q)
  {
    var step :| NextStep(q, s, t, step);
    StepKeeps(s, t, q, step);
  }

  lemma QuietInv(s: State, q: Quota)
    requires s.lock.None? && s.pcs == map[] && WithinQuota(s.live, q)
    ensures Inv(s, q)
  {
  }

  // Live agents never exceed the count, CPU or memory quota, whatever creations,
  // deletions and compensated or abandoned failures interleave.
  lemma QuotaNeverExceeded(q: Quota, run: seq<State>, k: nat, agents: seq<Agent>)
    requires Run(q, run) && k < |run| && q.count < MaxInt32 && multiset(agents) == run[k].live
    ensures Fits(agents, q)
  {
    RunKeeps(q, run, k);
  }
}
