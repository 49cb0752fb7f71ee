// Rotating an inference provider's credentials across two stores: the secret is
// written under a fresh path first, the Kubernetes object is switched by compare
// and set, and a cleaner working from possibly stale reads deletes superseded
// paths. Updates, cleaners, lost replies and rejected writes interleave freely.
module CredentialRotation {
  import opened Common

  type Worker = nat
  type Path = nat            // one path per credential revision

  datatype Provider = Provider(version: nat, path: Path, authenticates: bool, superseded: set<Path>)

  datatype Pc =
    // an update that passed validation against the provider it read
    | Loaded(base: Provider, rotate: bool, authenticates: bool)
    // its object is ready to be written; `issued` is the path it put, if rotating
    | Writing(base: Provider, desired: Provider, issued: Option<Path>)
    // the write was authoritatively rejected; the new secret is to be removed
    | Rejected(path: Path)
    // a reconcile pass that read the provider
    | Cleaning(seen: Provider)

  datatype State = State(
    provider: Provider,
    secrets: set<Path>,          // paths present in the secret store
    used: set<Path>,             // revisions ever generated
    published: set<Path>,        // paths a committed object ever referred to
    retired: set<Path>,          // paths ever listed as superseded by a committed object
    pcs: map<Worker, Pc>)

  datatype Step =
    | Load(w: Worker, rotate: bool, authenticates: bool)
    | PutSecret(w: Worker, path: Path)
    | PutSecretLost(w: Worker, path: Path)
    | KeepSecret(w: Worker)
    | Update(w: Worker)
    | UpdateUnknown(w: Worker)
    | UpdateRejected(w: Worker)
    | RemoveRejected(w: Worker)
    | StartCleaning(w: Worker)
    | CleanPath(w: Worker, path: Path)
    | ClearList(w: Worker)
    | Quit(w: Worker)

  function Desired(base: Provider, path: Path, authenticates: bool, changed: bool): Provider {
    Provider(base.version, path, authenticates, if changed then base.superseded + {base.path} else base.superseded)
  }

  function Committed(s: State, p: Provider): State {
    s.(provider := p.(version := s.provider.version + 1),
       published := s.published + {p.path}, retired := s.retired + p.superseded)
  }

  ghost predicate NextStep(s: State, t: State, step: Step) {
    match step
    case Load(w, rotate, authenticates) =>
      // enabling authentication without new credentials is refused
      && w !in s.pcs && (!s.provider.authenticates && authenticates ==> rotate)
      && t == s.(pcs := s.pcs[w := Loaded(s.provider, rotate, authenticates)])
    case PutSecret(w, path) =>
      && w in s.pcs && s.pcs[w].Loaded? && s.pcs[w].rotate && path !in s.used
      && t == s.(secrets := s.secrets + {path}, used := s.used + {path},
                 pcs := s.pcs[w := Writing(s.pcs[w].base,
                   Desired(s.pcs[w].base, path, s.pcs[w].authenticates, true), Some(path))])
    case PutSecretLost(w, path) =>
      // the secret was written but the reply was an error
      && w in s.pcs && s.pcs[w].Loaded? && s.pcs[w].rotate && path !in s.used
      && t == s.(secrets := s.secrets + {path}, used := s.used + {path}, pcs := s.pcs - {w})
    case KeepSecret(w) =>
      && w in s.pcs && s.pcs[w].Loaded? && !s.pcs[w].rotate
      && t == s.(pcs := s.pcs[w := Writing(s.pcs[w].base,
           Desired(s.pcs[w].base, s.pcs[w].base.path, s.pcs[w].authenticates,
                   s.pcs[w].base.authenticates && !s.pcs[w].authenticates), None)])
    case Update(w) =>
      // compare and set succeeded; the reply may still be lost
      && w in s.pcs && s.pcs[w].Writing? && s.pcs[w].base.version == s.provider.version
      && t == Committed(s, s.pcs[w].desired).(pcs := s.pcs - {w})
    case UpdateUnknown(w) =>
      // not applied, and the error does not say so
      w in s.pcs && s.pcs[w].Writing? && t == s.(pcs := s.pcs - {w})
    case UpdateRejected(w) =>
      // conflict, invalid or forbidden
      && w in s.pcs && s.pcs[w].Writing?
      && t == s.(pcs := if s.pcs[w].issued.Some? then s.pcs[w := Rejected(s.pcs[w].issued.value)] else s.pcs - {w})
    case RemoveRejected(w) =>
      && w in s.pcs && s.pcs[w].Rejected?
      && t == s.(secrets := s.secrets - {s.pcs[w].path}, pcs := s.pcs - {w})
    case StartCleaning(w) =>
      w !in s.pcs && t == s.(pcs := s.pcs[w := Cleaning(s.provider)])
    case CleanPath(w, path) =>
      && w in s.pcs && s.pcs[w].Cleaning? && path in s.pcs[w].seen.superseded
      && t == s.(secrets := s.secrets - {path})
    case ClearList(w) =>
      && w in s.pcs && s.pcs[w].Cleaning? && s.pcs[w].seen.version == s.provider.version
      && t == Committed(s, s.pcs[w].seen.(superseded := {})).(pcs := s.pcs - {w})
    case Quit(w) => w in s.pcs && t == s.(pcs := s.pcs - {w})
  }

  ghost predicate Next(s: State, t: State) { exists step :: NextStep(s, t, step) }

  ghost predicate Init(s: State) {
    && s.provider.superseded == {} && s.retired == {} && s.pcs == map[]
    && s.published == {s.provider.path} && s.provider.path in s.used && s.secrets <= s.used
    && (s.provider.authenticates ==> s.provider.path in s.secrets)
  }

  // ---- What every step keeps ----

  ghost predicate ProviderOk(s: State) {
    && s.provider.superseded <= s.retired <= s.published <= s.used && s.secrets <= s.used
    && s.provider.path in s.published
    && (s.provider.authenticates ==> s.provider.path in s.secrets && s.provider.path !in s.retired)
  }

  // A read copy is the current object unless the version has moved on.
  ghost predicate CopyOk(s: State, p: Provider) {
    p.version <= s.provider.version && p.path in s.published && p.superseded <= s.retired && (p.version == s.provider.version ==> p == s.provider)
  }

  // A path put by an update that has not written its object yet.
  ghost predicate Unpublished(s: State, path: Path) {
    path in s.used && path !in s.published
  }

  ghost predicate RotationOk(s: State, base: Provider, desired: Provider, path: Path) {
    && Unpublished(s, path) && path in s.secrets && path != base.path
    && desired == Desired(base, path, desired.authenticates, true)
  }

  ghost predicate RetentionOk(base: Provider, desired: Provider) {
    && (!base.authenticates ==> !desired.authenticates)
    && desired == Desired(base, base.path, desired.authenticates, base.authenticates && !desired.authenticates)
  }

  ghost predicate WorkerOk(s: State, w: Worker) {
    w in s.pcs ==>
      match s.pcs[w]
      case Loaded(base, rotate, authenticates) =>
        CopyOk(s, base) && (!base.authenticates && authenticates ==> rotate)
      case Writing(base, desired, issued) =>
        && CopyOk(s, base)
        && (match issued
            case Some(path) => RotationOk(s, base, desired, path)
            case None => RetentionOk(base, desired))
      case Rejected(path) => Unpublished(s, path)
      case Cleaning(seen) => CopyOk(s, seen)
  }

  function Owned(pc: Pc): Option<Path> {
    match pc
    case Writing(_, _, issued) => issued
    case Rejected(path) => Some(path)
    case _ => None
  }

  // Two workers never own the same new path.
  ghost predicate OwnersDiffer(s: State, w: Worker, v: Worker) {
    w in s.pcs && v in s.pcs && w != v && Owned(s.pcs[w]).Some? ==> Owned(s.pcs[w]) != Owned(s.pcs[v])
  }

  ghost predicate Inv(s: State) {
    && ProviderOk(s)
    && (forall w :: WorkerOk(s, w))
    && (forall w, v :: OwnersDiffer(s, w, v))
  }

  lemma StepKeepsProvider(s: State, t: State, step: Step)
    requires Inv(s) && NextStep(s, t, step)
    ensures ProviderOk(t)
  {
    assert WorkerOk(s, step.w);
  }

  lemma StepKeepsWorker(s: State, t: State, step: Step, v: Worker)
    requires Inv(s) && NextStep(s, t, step)
    ensures WorkerOk(t, v)
  {
    assert WorkerOk(s, v) && WorkerOk(s, step.w) && OwnersDiffer(s, step.w, v) && OwnersDiffer(s, v, step.w);
  }

  lemma StepKeepsOwners(s: State, t: State, step: Step, w: Worker, v: Worker)
    requires Inv(s) && NextStep(s, t, step)
    ensures OwnersDiffer(t, w, v)
  {
    assert OwnersDiffer(s, w, v) && WorkerOk(s, w) && WorkerOk(s, v);
  }

  lemma StepKeeps(s: State, t: State, step: Step)
    requires Inv(s) && NextStep(s, t, step)
    ensures Inv(t)
  {
    StepKeepsProvider(s, t, step);
    forall v ensures WorkerOk(t, v) { StepKeepsWorker(s, t, step, v); }
    forall w, v ensures OwnersDiffer(t, w, v) { StepKeepsOwners(s, t, step, w, v); }
  }

  // ---- Whole runs ----

  ghost predicate Joined(run: seq<State>, k: int) { 0 < k < |run| ==> Next(run[k - 1], run[k]) }

  ghost predicate Run(run: seq<State>) {
    run != [] && Init(run[0]) && forall k :: Joined(run, k)
  }

  lemma {:induction false} RunKeeps(run: seq<State>, k: nat)
    requires Run(run) && k < |run|
    ensures Inv(run[k])
    decreases k
  {
    if k > 0 {
      RunKeeps(run, k - 1);
      assert Joined(run, k);
      var step :| NextStep(run[k - 1], run[k], step);
      StepKeeps(run[k - 1], run[k], step);
    }
  }

  // A committed provider that authenticates always finds its secret, and that
  // secret is on no superseded list, not even on one read long ago.
  lemma CommittedCredentialExists(run: seq<State>, k: nat)
    requires Run(run) && k < |run| && run[k].provider.authenticates
    ensures run[k].provider.path in run[k].secrets
    ensures run[k].provider.path !in run[k].provider.superseded
    ensures forall w :: w in run[k].pcs && run[k].pcs[w].Cleaning? ==> run[k].provider.path !in run[k].pcs[w].seen.superseded
  {
    RunKeeps(run, k);
    forall w | w in run[k].pcs && run[k].pcs[w].Cleaning?
      ensures run[k].provider.path !in run[k].pcs[w].seen.superseded
    {
      assert WorkerOk(run[k], w);
    }
  }

  // No secret is forgotten: when a committed object moves to another path, or
  // stops authenticating, the path it leaves is on its superseded list, with all
  // that was listed before; only a cleaner that read that very object empties it.
  lemma ReplacedPathListed(run: seq<State>, k: nat, step: Step)
    requires Run(run) && k + 1 < |run| && NextStep(run[k], run[k + 1], step) && !step.ClearList?
    ensures var p, p' := run[k].provider, run[k + 1].provider;
      && p.superseded <= p'.superseded
      && (p'.path != p.path || (p.authenticates && !p'.authenticates) ==> p.path in p'.superseded)
      && (p'.superseded <= p.superseded + {p.path})
  {
    RunKeeps(run, k);
    if step.Update? { assert WorkerOk(run[k], step.w); }
  }

  lemma ClearedListWasRead(run: seq<State>, k: nat, w: Worker)
    requires Run(run) && k + 1 < |run| && NextStep(run[k], run[k + 1], ClearList(w))
    ensures run[k].pcs[w].seen == run[k].provider
    ensures run[k + 1].provider.path == run[k].provider.path && run[k + 1].provider.superseded == {}
  {
    RunKeeps(run, k);
    assert WorkerOk(run[k], w);
  }

  // Never referred to by a committed object, and nobody can publish it any more.
  ghost predicate Dead(s: State, path: Path) {
    && path in s.used && path !in s.published
    && forall w :: w in s.pcs && s.pcs[w].Writing? ==> s.pcs[w].issued != Some(path)
  }

  lemma DeadStays(s: State, t: State, step: Step, path: Path)
    requires Inv(s) && Dead(s, path) && NextStep(s, t, step)
    ensures Dead(t, path)
  {
    assert WorkerOk(s, step.w);
  }

  lemma {:induction false} DeadFrom(run: seq<State>, k: nat, m: nat, path: Path)
    requires Run(run) && k <= m < |run| && Dead(run[k], path)
    ensures path !in run[m].published
    decreases m - k
  {
    if k < m {
      assert Joined(run, k + 1);
      var step :| NextStep(run[k], run[k + 1], step);
      RunKeeps(run, k);
      DeadStays(run[k], run[k + 1], step, path);
      DeadFrom(run, k + 1, m, path);
    }
  }

  lemma RejectedIsDead(s: State, w: Worker)
    requires Inv(s) && w in s.pcs && s.pcs[w].Rejected?
    ensures Dead(s, s.pcs[w].path)
  {
    assert WorkerOk(s, w);
    forall v | v in s.pcs && s.pcs[v].Writing? ensures s.pcs[v].issued != Some(s.pcs[w].path) {
      assert OwnersDiffer(s, w, v);
    }
  }

  // After a rejected rotation the secret it had put can be, and then is, gone.
  lemma RejectionCleansUp(s: State, t: State, w: Worker) returns (u: State)
    requires NextStep(s, t, UpdateRejected(w)) && s.pcs[w].issued.Some?
    ensures NextStep(t, u, RemoveRejected(w)) && u.secrets == s.secrets - {s.pcs[w].issued.value}
  {
    u := t.(secrets := t.secrets - {t.pcs[w].path}, pcs := t.pcs - {w});
  }

  // An update removes a new secret only after an authoritative rejection, and
  // that path is referred to by no committed object, before or after.
  lemma RemovedPathNeverPublished(run: seq<State>, k: nat, m: nat, w: Worker)
    requires Run(run) && k + 1 < |run| && m < |run| && NextStep(run[k], run[k + 1], RemoveRejected(w))
    ensures run[k].pcs[w].path !in run[m].published
  {
    RunKeeps(run, k);
    RejectedIsDead(run[k], w);
    if k <= m {
      DeadFrom(run, k, m, run[k].pcs[w].path);
    } else {
      PublishedGrows(run, m, k);
    }
  }

  lemma {:induction false} PublishedGrows(run: seq<State>, m: nat, k: nat)
    requires Run(run) && m <= k < |run|
    ensures run[m].published <= run[k].published
    decreases k - m
  {
    if m < k {
      assert Joined(run, m + 1);
      var step :| NextStep(run[m], run[m + 1], step);
      PublishedGrows(run, m + 1, k);
    }
  }
}
