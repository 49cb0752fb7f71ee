// One-time OAuth tickets in a versioned key-value store: a request reads a
// ticket, checks it, and claims it by a check-and-set write on the version it
// read. Requests, lost replies and metadata deletions interleave freely.
module OAuthTicket {
  import opened Common

  type Id = string
  type Worker = nat

  datatype Digest = Sha256(secret: seq<int>)
  datatype Model = Model(name: string, attributes: seq<string>)

  datatype Ticket = Ticket(
    secretHash: Digest, expiresAt: int, tenant: string, user: string, kind: string,
    providerName: string, resourceVersion: string, models: seq<Model>, subscription: string)

  // What a version of the path holds: the ticket, or the mark of its claim.
  datatype Data = Issued(ticket: Ticket) | Claimed(at: int)
  datatype Slot = Absent | Present(version: nat, data: Data)

  datatype Request = Request(
    id: Id, secret: seq<int>, tenant: string, user: string, kind: string,
    providerName: string, resourceVersion: string, models: seq<Model>)

  // Every check made before the claim; the target is checked only if the ticket names one.
  predicate Valid(r: Request, t: Ticket, now: int) {
    && t.secretHash == Sha256(r.secret) && now <= t.expiresAt
    && t.tenant == r.tenant && t.user == r.user && t.kind == r.kind
    && (t.providerName != "" ==> t.providerName == r.providerName && t.resourceVersion == r.resourceVersion)
    && (forall i :: 0 <= i < |r.models| ==> r.models[i] in t.models)
  }

  datatype Pc =
    | Started(request: Request)
    | HasRead(request: Request, version: nat, ticket: Ticket)
    | Checked(request: Request, version: nat, ticket: Ticket, checkedAt: int)
    | Succeeded(request: Request)

  datatype Success = Success(worker: Worker, request: Request, version: nat, ticket: Ticket, checkedAt: int)

  datatype State = State(
    slots: map<Id, Slot>,
    tickets: map<Id, Ticket>,        // every ticket ever issued, by its random identifier
    clock: int,
    pcs: map<Worker, Pc>,
    log: seq<Success>)               // successful consumptions, in order

  function SlotAt(s: State, id: Id): Slot { if id in s.slots then s.slots[id] else Absent }

  function Version(slot: Slot): nat { if slot.Absent? then 0 else slot.version }

  datatype Step =
    | Issue(id: Id, ticket: Ticket)
    | Tick
    | Start(w: Worker, request: Request)
    | Get(w: Worker)
    | Check(w: Worker)
    | Claim(w: Worker)
    | ClaimLost(w: Worker)
    | DeleteMetadata(w: Worker)
    | Fail(w: Worker)

  function Claiming(s: State, id: Id, version: nat): State {
    s.(slots := s.slots[id := Present(version + 1, Claimed(s.clock))])
  }

  ghost predicate NextStep(s: State, t: State, step: Step) {
    match step
    case Issue(id, ticket) =>
      && id !in s.tickets
      && t == s.(tickets := s.tickets[id := ticket], slots := s.slots[id := Present(1, Issued(ticket))])
    case Tick => t == s.(clock := t.clock) && t.clock >= s.clock
    case Start(w, request) => w !in s.pcs && t == s.(pcs := s.pcs[w := Started(request)])
    case Get(w) =>
      // a missing path or a claimed version fails to decode
      && w in s.pcs && s.pcs[w].Started?
      && var slot := SlotAt(s, s.pcs[w].request.id);
         slot.Present? && slot.data.Issued?
         && t == s.(pcs := s.pcs[w := HasRead(s.pcs[w].request, slot.version, slot.data.ticket)])
    case Check(w) =>
      && w in s.pcs && s.pcs[w].HasRead? && Valid(s.pcs[w].request, s.pcs[w].ticket, s.clock)
      && t == s.(pcs := s.pcs[w := Checked(s.pcs[w].request, s.pcs[w].version, s.pcs[w].ticket, s.clock)])
    case Claim(w) =>
      && w in s.pcs && s.pcs[w].Checked?
      && Version(SlotAt(s, s.pcs[w].request.id)) == s.pcs[w].version
      && t == Claiming(s, s.pcs[w].request.id, s.pcs[w].version).(
                pcs := s.pcs[w := Succeeded(s.pcs[w].request)],
                log := s.log + [Success(w, s.pcs[w].request, s.pcs[w].version, s.pcs[w].ticket, s.pcs[w].checkedAt)])
    case ClaimLost(w) =>
      // applied, but the reply was an error: the request fails
      && w in s.pcs && s.pcs[w].Checked?
      && Version(SlotAt(s, s.pcs[w].request.id)) == s.pcs[w].version
      && t == Claiming(s, s.pcs[w].request.id, s.pcs[w].version).(pcs := s.pcs - {w})
    case DeleteMetadata(w) =>
      && w in s.pcs && s.pcs[w].Succeeded?
      && t == s.(slots := s.slots[s.pcs[w].request.id := Absent], pcs := s.pcs - {w})
    case Fail(w) => w in s.pcs && t == s.(pcs := s.pcs - {w})
  }

  ghost predicate Next(s: State, t: State) { exists step :: NextStep(s, t, step) }

  ghost predicate Init(s: State) { s.slots == map[] && s.tickets == map[] && s.pcs == map[] && s.log == [] }

  // ---- What every step keeps ----

  // A path goes from its ticket in version 1 to its claim in version 2 to nothing.
  ghost predicate SlotOk(s: State, id: Id) {
    match SlotAt(s, id)
    case Absent => true
    case Present(version, Issued(ticket)) => version == 1 && id in s.tickets && s.tickets[id] == ticket
    case Present(version, Claimed(_)) => version == 2 && id in s.tickets
  }

  ghost predicate HeldOk(s: State, id: Id, version: nat, ticket: Ticket) {
    version == 1 && id in s.tickets && s.tickets[id] == ticket
  }

  ghost predicate WorkerOk(s: State, w: Worker) {
    w in s.pcs ==>
      match s.pcs[w]
      case HasRead(r, version, ticket) => HeldOk(s, r.id, version, ticket)
      case Checked(r, version, ticket, at) => HeldOk(s, r.id, version, ticket) && Valid(r, ticket, at) && at <= s.clock
      case Succeeded(r) => r.id in s.tickets
      case _ => true
  }

  // A consumed ticket is never readable again, and was checked as claimed.
  ghost predicate SuccessOk(s: State, x: Success) {
    && x.request.id in s.tickets && s.tickets[x.request.id] == x.ticket && x.version == 1
    && Valid(x.request, x.ticket, x.checkedAt)
    && Version(SlotAt(s, x.request.id)) != 1
  }

  ghost predicate Inv(s: State) {
    && (forall id :: SlotOk(s, id))
    && (forall w :: WorkerOk(s, w))
    && (forall i :: 0 <= i < |s.log| ==> SuccessOk(s, s.log[i]))
    && (forall i, j :: 0 <= i < j < |s.log| ==> s.log[i].request.id != s.log[j].request.id)
  }

  lemma StepKeepsSlots(s: State, t: State, step: Step, id: Id)
    requires Inv(s) && NextStep(s, t, step)
    ensures SlotOk(t, id)
  {
    assert SlotOk(s, id);
    if step.Claim? || step.ClaimLost? { assert WorkerOk(s, step.w); }
  }

  lemma StepKeepsWorkers(s: State, t: State, step: Step, w: Worker)
    requires Inv(s) && NextStep(s, t, step)
    ensures WorkerOk(t, w)
  {
    assert WorkerOk(s, w);
    if step.Get? { assert SlotOk(s, s.pcs[step.w].request.id); }
  }

  lemma StepKeepsLog(s: State, t: State, step: Step)
    requires Inv(s) && NextStep(s, t, step)
    ensures forall i :: 0 <= i < |t.log| ==> SuccessOk(t, t.log[i])
    ensures forall i, j :: 0 <= i < j < |t.log| ==> t.log[i].request.id != t.log[j].request.id
  {
    if step.Claim? || step.ClaimLost? { assert WorkerOk(s, step.w); }
    forall i | 0 <= i < |s.log| ensures SuccessOk(t, s.log[i]) { assert SuccessOk(s, s.log[i]); }
    if step.Claim? {
      forall i | 0 <= i < |s.log| ensures s.log[i].request.id != s.pcs[step.w].request.id {
        assert SuccessOk(s, s.log[i]);
      }
    }
  }

  lemma StepKeeps(s: State, t: State, step: Step)
    requires Inv(s) && NextStep(s, t, step)
    ensures Inv(t)
  {
    forall id ensures SlotOk(t, id) { StepKeepsSlots(s, t, step, id); }
    forall w ensures WorkerOk(t, w) { StepKeepsWorkers(s, t, step, w); }
    StepKeepsLog(s, t, step);
  }

  // ---- Whole runs ----

  ghost predicate Joined(run: seq<State>, k: int) { 0 < k < |run| ==> Next(run[k - 1], run[k]) }

  ghost predicate Run(run: seq<State>) { run != [] && Init(run[0]) && forall k :: Joined(run, k) }

  lemma {:induction false} RunKeeps(run: seq<State>, k: nat)
    requires Run(run) && k < |run|
    ensures Inv(run[k])
    decreases k
  {
    if k > 0 {
      RunKeeps(run, k - 1);
      assert Joined(run, k);
      var step :| NextStep(run[k - 1], run[k], step);
      StepKeeps(run[k - 1], run[k], step);
    }
  }

  // Each ticket is consumed at most once, in every interleaving.
  lemma ConsumedAtMostOnce(run: seq<State>, k: nat, i: nat, j: nat)
    requires Run(run) && k < |run| && i < |run[k].log| && j < |run[k].log|
    requires run[k].log[i].request.id == run[k].log[j].request.id
    ensures i == j
  {
    RunKeeps(run, k);
  }

  // A successful claim: every check held, at a time not after the claim, for the
  // very ticket stored in the version that the claim replaced.
  lemma SuccessWasChecked(run: seq<State>, k: nat, w: Worker)
    requires Run(run) && k + 1 < |run| && NextStep(run[k], run[k + 1], Claim(w))
    ensures var pc := run[k].pcs[w];
      && SlotAt(run[k], pc.request.id) == Present(pc.version, Issued(pc.ticket))
      && Valid(pc.request, pc.ticket, pc.checkedAt) && pc.checkedAt <= run[k].clock
    // the caller knew the secret, in time, as the user and tenant it was issued to
    ensures var r, t, at := run[k].pcs[w].request, run[k].pcs[w].ticket, run[k].pcs[w].checkedAt;
      t.secretHash.secret == r.secret && at <= t.expiresAt && t.tenant == r.tenant && t.user == r.user
    // for a provider of that kind, unchanged since if the ticket names one, with
    // no model the subscription does not have
    ensures var r, t := run[k].pcs[w].request, run[k].pcs[w].ticket;
      && t.kind == r.kind && (t.providerName == "" || (t.providerName == r.providerName && t.resourceVersion == r.resourceVersion))
      && (forall m :: m in r.models ==> m in t.models)
  {
    RunKeeps(run, k);
    var s := run[k];
    assert WorkerOk(s, w) && SlotOk(s, s.pcs[w].request.id);
  }

  // The ticket's version has moved on, or its metadata is gone.
  ghost predicate Spent(s: State, id: Id) { id in s.tickets && Version(SlotAt(s, id)) != 1 }

  lemma SpentStays(s: State, t: State, step: Step, id: Id)
    requires Inv(s) && Spent(s, id) && NextStep(s, t, step)
    ensures Spent(t, id)
  {
    if step.Claim? || step.ClaimLost? { assert WorkerOk(s, step.w); }
  }

  lemma {:induction false} SpentFrom(run: seq<State>, j: nat, k: nat, id: Id)
    requires Run(run) && j <= k < |run| && Spent(run[j], id)
    ensures Spent(run[k], id)
    decreases k - j
  {
    if j < k {
      SpentFrom(run, j, k - 1, id);
      RunKeeps(run, k - 1);
      assert Joined(run, k);
      var step :| NextStep(run[k - 1], run[k], step);
      SpentStays(run[k - 1], run[k], step, id);
    }
  }

  // A step of some request that uses a ticket up: a claim, answered or not, or
  // the deletion that follows one.
  ghost predicate Uses(s: State, t: State, step: Step, id: Id) {
    && (step.Claim? || step.ClaimLost? || step.DeleteMetadata?) && NextStep(s, t, step)
    && s.pcs[step.w].request.id == id
  }

  // A request that read the ticket before a competing claim, even one whose
  // reply was lost, or before the metadata was deleted, can no longer claim it.
  lemma LateWriterFails(run: seq<State>, j: nat, step: Step, k: nat, w: Worker)
    requires Run(run) && j < k < |run| && w in run[k].pcs && run[k].pcs[w].Checked?
    requires Uses(run[j], run[j + 1], step, run[k].pcs[w].request.id)
    ensures forall t :: !NextStep(run[k], t, Claim(w)) && !NextStep(run[k], t, ClaimLost(w))
  {
    var id := run[k].pcs[w].request.id;
    RunKeeps(run, j);
    assert WorkerOk(run[j], step.w);
    SpentFrom(run, j + 1, k, id);
    RunKeeps(run, k);
    assert WorkerOk(run[k], w);
  }

  lemma Extend(run: seq<State>, t: State, step: Step)
    requires Run(run) && NextStep(run[|run| - 1], t, step)
    ensures Run(run + [t])
  {
    var longer := run + [t];
    forall k ensures Joined(longer, k) {
      assert Joined(run, k);
      if k == |run| { assert Next(longer[k - 1], longer[k]); }
    }
  }

  // The checks shut out no rightful request: from every reachable state in which
  // its ticket is unclaimed, a request that meets them can succeed.
  lemma RightfulCanClaim(run: seq<State>, r: Request) returns (longer: seq<State>)
    requires Run(run)
    requires var slot := SlotAt(run[|run| - 1], r.id);
      slot.Present? && slot.data.Issued? && Valid(r, slot.data.ticket, run[|run| - 1].clock)
    ensures Run(longer) && run <= longer
    ensures var log := longer[|longer| - 1].log; log != [] && log[|log| - 1].request == r
  {
    var s := run[|run| - 1];
    var slot := SlotAt(s, r.id);
    var w := FreshNat(s.pcs.Keys);
    var s1 := s.(pcs := s.pcs[w := Started(r)]);
    var s2 := s1.(pcs := s1.pcs[w := HasRead(r, slot.version, slot.data.ticket)]);
    var s3 := s2.(pcs := s2.pcs[w := Checked(r, slot.version, slot.data.ticket, s.clock)]);
    var s4 := Claiming(s3, r.id, slot.version).(pcs := s3.pcs[w := Succeeded(r)],
      log := s3.log + [Success(w, r, slot.version, slot.data.ticket, s.clock)]);
    Extend(run, s1, Start(w, r));
    Extend(run + [s1], s2, Get(w));
    Extend(run + [s1] + [s2], s3, Check(w));
    Extend(run + [s1] + [s2] + [s3], s4, Claim(w));
    longer := run + [s1] + [s2] + [s3] + [s4];
  }
}
