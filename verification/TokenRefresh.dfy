// Refreshing a subscription token from two processes that share no mutex: the
// credential proxy (double-checked under its own mutex) and the gateway's model
// refresh. Both write by check-and-set on the version they read.
module TokenRefresh {
  import opened Common

  type Worker = nat

  // A token without expiry does not expire; a blank one is never usable.
  datatype Token = Token(blank: bool, expiry: Option<int>)

  // A record carries its own lineage: a refreshed token comes from the refresh
  // token of the record it was made from.
  datatype Record =
    | Original(kind: string, token: Token)
    | Refreshed(from: Record, token: Token)
  {
    function Kind(): string {
      match this
      case Original(kind, _) => kind
      case Refreshed(from, _) => from.Kind()
    }
  }

  const Grace := 60
  const Codex := "OpenAICodex"

  predicate Usable(r: Record, now: int) {
    !r.token.blank && (r.token.expiry.Some? ==> r.token.expiry.value > now + Grace)
  }

  datatype Pc =
    // the credential proxy
    | ProxyStarted
    | ProxyWaiting
    | ProxyHolding
    | ProxyReread(record: Record, version: nat)
    | ProxyRefreshed(record: Record, version: nat, at: int)
    | ProxyFallback(version: nat)
    // the gateway
    | GatewayStarted
    | GatewayRead(record: Record, version: nat)
    | GatewayRefreshed(record: Record, version: nat, at: int)
    | GatewayFallback
  {
    predicate HoldsMutex() { ProxyHolding? || ProxyReread? || ProxyRefreshed? || ProxyFallback? }
  }

  // A record handed to a caller, with the moment it was found usable.
  datatype Answer = Answer(worker: Worker, record: Record, at: int)

  datatype State = State(
    kind: string,              // the provider's kind
    versions: seq<Record>,     // version i + 1 of the path holds versions[i]
    live: bool,                // the path's metadata still exists
    clock: int,
    mutex: Option<Worker>,
    pcs: map<Worker, Pc>,
    answers: seq<Answer>)

  datatype Step =
    | Tick(to: int)
    | Arrive(w: Worker, pc: Pc)
    | FirstRead(w: Worker)                   // usable: answered without the mutex
    | MissFirst(w: Worker)
    | TakeMutex(w: Worker)
    | Reread(w: Worker)
    | KeepToken(w: Worker)                   // RefreshSubscription found it usable
    | RefreshToken(w: Worker, token: Token)  // it produced a new record
    | PutOk(w: Worker)
    | PutFailed(w: Worker, applied: bool)
    | FallbackRead(w: Worker)
    | DeleteMetadata
    | Fail(w: Worker)

  function Latest(s: State): Record
    requires s.versions != []
  {
    s.versions[|s.versions| - 1]
  }

  function Answered(s: State, w: Worker, r: Record, at: int): State {
    s.(answers := s.answers + [Answer(w, r, at)],
       pcs := s.pcs - {w}, mutex := if s.mutex == Some(w) then None else s.mutex)
  }

  function At(s: State, w: Worker, pc: Pc): State { s.(pcs := s.pcs[w := pc]) }

  // Check-and-set against the current version; a deleted path has version 0.
  predicate Matches(s: State, version: nat) { s.live && version == |s.versions| && version > 0 }

  ghost predicate NextStep(s: State, t: State, step: Step) {
    match step
    case Tick(to) => to >= s.clock && t == s.(clock := to)
    case Arrive(w, pc) => w !in s.pcs && (pc.ProxyStarted? || pc.GatewayStarted?) && t == At(s, w, pc)
    case FirstRead(w) =>
      && w in s.pcs && s.pcs[w].ProxyStarted? && s.live && s.versions != []
      && Latest(s).Kind() == s.kind && Usable(Latest(s), s.clock)
      && t == Answered(s, w, Latest(s), s.clock)
    case MissFirst(w) => w in s.pcs && s.pcs[w].ProxyStarted? && t == At(s, w, ProxyWaiting)
    case TakeMutex(w) =>
      w in s.pcs && s.pcs[w].ProxyWaiting? && s.mutex.None? && t == At(s, w, ProxyHolding).(mutex := Some(w))
    case Reread(w) =>
      && w in s.pcs && (s.pcs[w].ProxyHolding? || s.pcs[w].GatewayStarted?) && s.live && s.versions != []
      && Latest(s).Kind() == s.kind
      && t == At(s, w, if s.pcs[w].ProxyHolding? then ProxyReread(Latest(s), |s.versions|)
                       else GatewayRead(Latest(s), |s.versions|))
    case KeepToken(w) =>
      && w in s.pcs && (s.pcs[w].ProxyReread? || s.pcs[w].GatewayRead?) && Usable(s.pcs[w].record, s.clock)
      && t == Answered(s, w, s.pcs[w].record, s.clock)
    case RefreshToken(w, token) =>
      && w in s.pcs && (s.pcs[w].ProxyReread? || s.pcs[w].GatewayRead?) && !Usable(s.pcs[w].record, s.clock)
      && s.pcs[w].record.Kind() == Codex
      && var made := Refreshed(s.pcs[w].record, token);
         Usable(made, s.clock)
         && t == At(s, w, if s.pcs[w].ProxyReread? then ProxyRefreshed(made, s.pcs[w].version, s.clock)
                          else GatewayRefreshed(made, s.pcs[w].version, s.clock))
    case PutOk(w) =>
      && w in s.pcs && (s.pcs[w].ProxyRefreshed? || s.pcs[w].GatewayRefreshed?) && Matches(s, s.pcs[w].version)
      && t == Answered(s.(versions := s.versions + [s.pcs[w].record]), w, s.pcs[w].record, s.pcs[w].at)
    case PutFailed(w, applied) =>
      // a mismatch, or an error reply to a write that may have been applied
      && w in s.pcs && (s.pcs[w].ProxyRefreshed? || s.pcs[w].GatewayRefreshed?)
      && (applied ==> Matches(s, s.pcs[w].version))
      && t == At(s, w, if s.pcs[w].ProxyRefreshed? then ProxyFallback(s.pcs[w].version) else GatewayFallback)
               .(versions := if applied then s.versions + [s.pcs[w].record] else s.versions)
    case FallbackRead(w) =>
      && w in s.pcs && (s.pcs[w].ProxyFallback? || s.pcs[w].GatewayFallback?) && s.live && s.versions != []
      && (s.pcs[w].ProxyFallback? ==> |s.versions| > s.pcs[w].version)
      && Latest(s).Kind() == s.kind && Usable(Latest(s), s.clock)
      && t == Answered(s, w, Latest(s), s.clock)
    case DeleteMetadata => t == s.(live := false)
    case Fail(w) =>
      w in s.pcs && t == s.(pcs := s.pcs - {w}, mutex := if s.mutex == Some(w) then None else s.mutex)
  }

  ghost predicate Next(s: State, t: State) { exists step :: NextStep(s, t, step) }

  ghost predicate Init(s: State) {
    |s.versions| == 1 && s.live && s.mutex.None? && s.pcs == map[] && s.answers == []
  }

  // ---- What every step keeps ----

  // Version i + 2 was refreshed from exactly the content of version i + 1.
  ghost predicate Derived(versions: seq<Record>, i: int) {
    0 <= i < |versions| - 1 ==> versions[i + 1].Refreshed? && versions[i + 1].from == versions[i]
  }

  ghost predicate ReadOk(s: State, record: Record, version: nat) {
    0 < version <= |s.versions| && s.versions[version - 1] == record && record.Kind() == s.kind
  }

  ghost predicate MadeOk(s: State, record: Record, version: nat, at: int) {
    record.Refreshed? && ReadOk(s, record.from, version) && Usable(record, at) && at <= s.clock
  }

  ghost predicate WorkerOk(s: State, w: Worker) {
    && (s.mutex == Some(w) <==> w in s.pcs && s.pcs[w].HoldsMutex())
    && (w in s.pcs ==>
          match s.pcs[w]
          case ProxyReread(r, v) => ReadOk(s, r, v)
          case GatewayRead(r, v) => ReadOk(s, r, v)
          case ProxyRefreshed(r, v, at) => MadeOk(s, r, v, at)
          case GatewayRefreshed(r, v, at) => MadeOk(s, r, v, at)
          case _ => true)
  }

  ghost predicate AnswerOk(s: State, a: Answer) {
    a.record in s.versions && a.record.Kind() == s.kind && Usable(a.record, a.at) && a.at <= s.clock
  }

  ghost predicate Inv(s: State) {
    && (forall i :: Derived(s.versions, i))
    && (forall w :: WorkerOk(s, w))
    && (forall i :: 0 <= i < |s.answers| ==> AnswerOk(s, s.answers[i]))
  }

  lemma StepGrows(s: State, t: State, step: Step)
    requires Inv(s) && NextStep(s, t, step)
    ensures t.kind == s.kind && t.clock >= s.clock && |t.versions| >= |s.versions|
    ensures t.versions[..|s.versions|] == s.versions
    ensures forall i :: Derived(t.versions, i)
  {
    if step.PutOk? || step.PutFailed? {
      assert WorkerOk(s, step.w);
      forall i ensures Derived(t.versions, i) { assert Derived(s.versions, i); }
    }
  }

  lemma ReadStays(s: State, t: State, record: Record, version: nat)
    requires ReadOk(s, record, version) && t.kind == s.kind
    requires |t.versions| >= |s.versions| && t.versions[..|s.versions|] == s.versions
    ensures ReadOk(t, record, version)
  {
    assert t.versions[..|s.versions|][version - 1] == t.versions[version - 1];
  }

  lemma StepKeepsWorker(s: State, t: State, step: Step, v: Worker)
    requires Inv(s) && NextStep(s, t, step)
    ensures WorkerOk(t, v)
  {
    StepGrows(s, t, step);
    assert WorkerOk(s, v);
    if v in t.pcs && v in s.pcs && t.pcs[v] == s.pcs[v] {
      WorkerStays(s, t, v);
    } else {
      MovedWorkerOk(s, t, step, v);
    }
  }

  lemma WorkerStays(s: State, t: State, v: Worker)
    requires WorkerOk(s, v) && v in s.pcs && v in t.pcs && t.pcs[v] == s.pcs[v]
    requires (t.mutex == Some(v)) == (s.mutex == Some(v)) && t.kind == s.kind && t.clock >= s.clock
    requires |t.versions| >= |s.versions| && t.versions[..|s.versions|] == s.versions
    ensures WorkerOk(t, v)
  {
    forall record, version: nat | ReadOk(s, record, version) ensures ReadOk(t, record, version) {
      ReadStays(s, t, record, version);
    }
  }

  lemma MovedWorkerOk(s: State, t: State, step: Step, v: Worker)
    requires WorkerOk(s, v) && NextStep(s, t, step)
    requires !(v in t.pcs && v in s.pcs && t.pcs[v] == s.pcs[v])
    ensures WorkerOk(t, v)
  {
  }

  lemma AnswerStays(s: State, t: State, a: Answer)
    requires AnswerOk(s, a) && t.kind == s.kind && t.clock >= s.clock
    requires |t.versions| >= |s.versions| && t.versions[..|s.versions|] == s.versions
    ensures AnswerOk(t, a)
  {
    var i :| 0 <= i < |s.versions| && s.versions[i] == a.record;
    assert t.versions[..|s.versions|][i] == t.versions[i];
  }

  lemma StepKeepsAnswers(s: State, t: State, step: Step)
    requires Inv(s) && NextStep(s, t, step)
    ensures forall i :: 0 <= i < |t.answers| ==> AnswerOk(t, t.answers[i])
  {
    StepGrows(s, t, step);
    forall i | 0 <= i < |t.answers| ensures AnswerOk(t, t.answers[i]) {
      if i < |s.answers| {
        assert t.answers[i] == s.answers[i];
        AnswerStays(s, t, s.answers[i]);
      } else {
        assert WorkerOk(s, step.w);
      }
    }
  }

  lemma StepKeeps(s: State, t: State, step: Step)
    requires Inv(s) && NextStep(s, t, step)
    ensures Inv(t)
  {
    StepGrows(s, t, step);
    forall v ensures WorkerOk(t, v) { StepKeepsWorker(s, t, step, v); }
    StepKeepsAnswers(s, t, step);
  }

  // ---- Whole runs ----

  ghost predicate Joined(run: seq<State>, k: int) { 0 < k < |run| ==> Next(run[k - 1], run[k]) }

  ghost predicate Run(run: seq<State>) { run != [] && Init(run[0]) && forall k :: Joined(run, k) }

  lemma {:induction false} RunKeeps(run: seq<State>, k: nat)
    requires Run(run) && k < |run|
    ensures Inv(run[k])
    decreases k
  {
    if k > 0 {
      RunKeeps(run, k - 1);
      assert Joined(run, k);
      var step :| NextStep(run[k - 1], run[k], step);
      StepKeeps(run[k - 1], run[k], step);
    }
  }

  // How many refreshes lead from one record to another.
  predicate Descends(r: Record, ancestor: Record, generations: nat) {
    if generations == 0 then r == ancestor else r.Refreshed? && Descends(r.from, ancestor, generations - 1)
  }

  // Whoever refreshed, every stored version descends from every earlier one by
  // exactly the versions in between, so no rotated refresh token was overwritten.
  lemma {:induction false} NoRotationLost(run: seq<State>, k: nat, i: nat, j: nat)
    requires Run(run) && k < |run| && i <= j < |run[k].versions|
    ensures Descends(run[k].versions[j], run[k].versions[i], j - i)
    decreases j
  {
    RunKeeps(run, k);
    if i < j {
      assert Derived(run[k].versions, j - 1);
      NoRotationLost(run, k, i, j - 1);
    }
  }

  // Every record handed out is the content of a stored version, of the
  // provider's kind, and was usable at some moment no later than now.
  lemma AnswersAreStored(run: seq<State>, k: nat, i: nat)
    requires Run(run) && k < |run| && i < |run[k].answers|
    ensures var a := run[k].answers[i];
      && a.record in run[k].versions && a.record.Kind() == run[k].kind && Usable(a.record, a.at) && a.at <= run[k].clock
      // not blank, and without expiry or good for another minute
      && !a.record.token.blank && (a.record.token.expiry.None? || a.record.token.expiry.value > a.at + 60)
  {
    RunKeeps(run, k);
    assert AnswerOk(run[k], run[k].answers[i]);
  }

  // At most one proxy request refreshes at a time.
  lemma MutexExcludes(run: seq<State>, k: nat, w: Worker, v: Worker)
    requires Run(run) && k < |run| && w in run[k].pcs && v in run[k].pcs
    requires run[k].pcs[w].HoldsMutex() && run[k].pcs[v].HoldsMutex()
    ensures w == v
  {
    RunKeeps(run, k);
    assert WorkerOk(run[k], w) && WorkerOk(run[k], v);
  }
}
