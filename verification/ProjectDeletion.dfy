// Deleting a coding project while checkouts are prepared, Git runs and prompts
// are answered: advisory locks, two deletion marks and the checks made under the
// project lock, interleaved one database or engine action at a time.
module ProjectDeletion {
  import opened Common

  type Worker = nat
  type TreeId = nat

  // `main` is the agent's one main checkout.
  datatype Tree = Tree(agent: string, main: bool, deleting: bool, ready: bool)

  datatype GitOperation = Remove | OtherMutation

  // What a prepare asks for: a recorded checkout, or one to be created under
  // the given identifier if it is not, possibly as the agent's main checkout.
  datatype Request = Request(id: TreeId, mustExist: bool, agent: string, main: bool)

  // Where each worker stands. A request is any engine call that changes a
  // checkout; prompts take the project lock shared, the rest exclusively.
  datatype Pc =
    | DeleteWaiting | DeleteLocked | DeleteDraining | DeleteHolding
    | DeleteListed(listed: set<TreeId>)
    | DeleteMarked(listed: set<TreeId>)
    | DeleteRemoved(listed: set<TreeId>, agent: string)
    | PrepareWaiting(request: Request) | PrepareLocked(request: Request) | PrepareAdmitted(request: Request)
    | PrepareWorking(tree: TreeId, agent: string) | PrepareRecorded(tree: TreeId)
    | GitWaiting(tree: TreeId, op: GitOperation) | GitLocked(tree: TreeId, op: GitOperation)
    | GitAdmitted(tree: TreeId, op: GitOperation) | GitRemoving(tree: TreeId)
    | RequestWaiting(tree: TreeId, prompt: bool) | RequestLocked(tree: TreeId, prompt: bool)
    | RequestRunning(tree: TreeId, prompt: bool)
  {
    predicate HoldsDelete() {
      DeleteLocked? || DeleteDraining? || DeleteHolding? || DeleteListed? || DeleteMarked? || DeleteRemoved?
    }
    predicate HoldsExclusive() {
      || DeleteHolding? || DeleteListed? || DeleteMarked? || DeleteRemoved?
      || PrepareLocked? || PrepareAdmitted? || PrepareWorking? || PrepareRecorded?
      || GitLocked? || GitAdmitted? || GitRemoving?
      || (RequestLocked? && !prompt) || (RequestRunning? && !prompt)
    }
    predicate HoldsShared() {
      (RequestLocked? && prompt) || (RequestRunning? && prompt)
    }
    predicate HasList() { DeleteListed? || DeleteMarked? || DeleteRemoved? }
    // Past its check: allowed to touch the project's files.
    predicate Admitted() {
      || PrepareAdmitted? || PrepareWorking? || PrepareRecorded?
      || GitAdmitted? || GitRemoving? || RequestRunning?
    }
    // Past a check that lets it add a checkout or clear a checkout's mark.
    predicate MayUnmark() {
      PrepareAdmitted? || PrepareWorking? || (GitAdmitted? && op.Remove?) || GitRemoving?
    }
  }

  datatype State = State(
    present: bool, deleting: bool, trees: map<TreeId, Tree>,
    exclusive: Option<Worker>, shared: set<Worker>, deleteLock: Option<Worker>,
    pcs: map<Worker, Pc>,
    secondMark: bool)             // some deletion wrote its mark under the lock

  datatype Step =
    | Arrive(w: Worker, pc: Pc)
    | TakeDeleteLock(w: Worker) | FirstMark(w: Worker) | TryProjectLock(w: Worker)
    | Relist(w: Worker) | SecondMark(w: Worker)
    | RemoveFiles(w: Worker, agent: string) | DeleteRows(w: Worker) | DeleteProject(w: Worker)
    | Lock(w: Worker)
    | PrepareCheck(w: Worker) | PrepareSelect(w: Worker, id: TreeId)
    | PrepareRecord(w: Worker, id: TreeId) | PrepareReady(w: Worker)
    | GitCheck(w: Worker) | GitMark(w: Worker) | GitRemoved(w: Worker) | GitReset(w: Worker)
    | RequestCheck(w: Worker)
    | Abandon(w: Worker)

  function At(s: State, w: Worker, pc: Pc): State { s.(pcs := s.pcs[w := pc]) }

  // The worker returns, and its connection releases every lock it holds.
  function Release(s: State, w: Worker): State {
    s.(pcs := s.pcs - {w},
       shared := s.shared - {w},
       exclusive := if s.exclusive == Some(w) then None else s.exclusive,
       deleteLock := if s.deleteLock == Some(w) then None else s.deleteLock)
  }

  function Marked(trees: map<TreeId, Tree>): map<TreeId, Tree> {
    map id | id in trees :: trees[id].(deleting := true)
  }

  // GatewayBeginCodingProjectDeletion: the project and all its recorded checkouts.
  function BeginDeletion(s: State): State { s.(deleting := true, trees := Marked(s.trees)) }

  function Locked(pc: Pc): Pc
    requires pc.PrepareWaiting? || pc.GitWaiting? || pc.RequestWaiting?
  {
    match pc
    case PrepareWaiting(request) => PrepareLocked(request)
    case GitWaiting(tree, op) => GitLocked(tree, op)
    case RequestWaiting(tree, prompt) => RequestLocked(tree, prompt)
  }

  ghost predicate NextStep(s: State, t: State, step: Step) {
    match step
    case Arrive(w, pc) =>
      && w !in s.pcs && (pc.DeleteWaiting? || pc.PrepareWaiting? || pc.GitWaiting? || pc.RequestWaiting?)
      && t == At(s, w, pc)
    case TakeDeleteLock(w) =>
      && w in s.pcs && s.pcs[w].DeleteWaiting? && s.deleteLock.None?
      && t == At(s, w, DeleteLocked).(deleteLock := Some(w))
    case FirstMark(w) =>
      w in s.pcs && s.pcs[w].DeleteLocked? && t == At(BeginDeletion(s), w, DeleteDraining)
    case TryProjectLock(w) =>
      && w in s.pcs && s.pcs[w].DeleteDraining? && s.exclusive.None? && s.shared == {}
      && t == At(s, w, DeleteHolding).(exclusive := Some(w))
    case Relist(w) =>
      w in s.pcs && s.pcs[w].DeleteHolding? && t == At(s, w, DeleteListed(s.trees.Keys))
    case SecondMark(w) =>
      && w in s.pcs && s.pcs[w].DeleteListed?
      && t == At(BeginDeletion(s), w, DeleteMarked(s.pcs[w].listed)).(secondMark := true)
    case RemoveFiles(w, agent) =>
      w in s.pcs && s.pcs[w].DeleteMarked? && t == At(s, w, DeleteRemoved(s.pcs[w].listed, agent))
    case DeleteRows(w) =>
      && w in s.pcs && s.pcs[w].DeleteRemoved?
      && t == At(s, w, DeleteMarked(s.pcs[w].listed))
             .(trees := map id | id in s.trees && s.trees[id].agent != s.pcs[w].agent :: s.trees[id])
    case DeleteProject(w) =>
      && w in s.pcs && s.pcs[w].DeleteMarked? && s.trees == map[]
      && t == Release(s, w).(present := false)
    case Lock(w) =>
      && w in s.pcs && (s.pcs[w].PrepareWaiting? || s.pcs[w].GitWaiting? || s.pcs[w].RequestWaiting?)
      && s.exclusive.None?
      && (if s.pcs[w].RequestWaiting? && s.pcs[w].prompt
          then t == At(s, w, Locked(s.pcs[w])).(shared := s.shared + {w})
          else s.shared == {} && t == At(s, w, Locked(s.pcs[w])).(exclusive := Some(w)))
    case PrepareCheck(w) =>
      && w in s.pcs && s.pcs[w].PrepareLocked? && s.present && !s.deleting
      && t == At(s, w, PrepareAdmitted(s.pcs[w].request))
    case PrepareSelect(w, id) =>
      && w in s.pcs && s.pcs[w].PrepareAdmitted?
      && var r := s.pcs[w].request;
      if Creates(s.trees, r) then
        id == r.id && t == At(s, w, PrepareWorking(id, r.agent)).(trees := s.trees[id := Tree(r.agent, r.main, false, false)])
      else
        // recorded under its identifier, or the main checkout already there
        && id in s.trees && s.trees[id].agent == r.agent && !s.trees[id].deleting
        && (id == r.id || (r.id !in s.trees && !r.mustExist && s.trees[id].main))
        && t == At(s, w, PrepareWorking(id, r.agent))
    case PrepareRecord(w, id) =>
      // the agent's main checkout is recorded ready, unless it was there already
      && w in s.pcs && s.pcs[w].PrepareWorking? && id !in s.trees
      && t == At(s, w, PrepareRecorded(s.pcs[w].tree)).(trees :=
           if HasMain(s.trees, s.pcs[w].agent) then s.trees
           else s.trees[id := Tree(s.pcs[w].agent, true, false, true)])
    case PrepareReady(w) =>
      && w in s.pcs && s.pcs[w].PrepareRecorded?
      && t == Release(s, w).(trees := SetReady(s.trees, s.pcs[w].tree))
    case GitCheck(w) =>
      && w in s.pcs && s.pcs[w].GitLocked? && s.pcs[w].tree in s.trees
      && s.present && !s.deleting && (s.trees[s.pcs[w].tree].deleting ==> s.pcs[w].op.Remove?)
      && t == At(s, w, GitAdmitted(s.pcs[w].tree, s.pcs[w].op))
    case GitMark(w) =>
      && w in s.pcs && s.pcs[w].GitAdmitted? && s.pcs[w].op.Remove?
      && t == At(s, w, GitRemoving(s.pcs[w].tree)).(trees := SetDeleting(s.trees, s.pcs[w].tree, true))
    case GitRemoved(w) =>
      && w in s.pcs && s.pcs[w].GitRemoving?
      && t == Release(s, w).(trees := s.trees - {s.pcs[w].tree})
    case GitReset(w) =>
      && w in s.pcs && s.pcs[w].GitRemoving?
      && t == Release(s, w).(trees := SetDeleting(s.trees, s.pcs[w].tree, false))
    case RequestCheck(w) =>
      && w in s.pcs && s.pcs[w].RequestLocked? && s.pcs[w].tree in s.trees
      && !s.trees[s.pcs[w].tree].deleting && s.trees[s.pcs[w].tree].ready
      && t == At(s, w, RequestRunning(s.pcs[w].tree, s.pcs[w].prompt))
    case Abandon(w) =>
      // a refused check, an error, or the end of a finished request
      w in s.pcs && t == Release(s, w)
  }

  predicate HasMain(trees: map<TreeId, Tree>, agent: string) {
    exists id | id in trees :: trees[id].main && trees[id].agent == agent
  }

  predicate Creates(trees: map<TreeId, Tree>, r: Request) {
    r.id !in trees && !r.mustExist && !(r.main && HasMain(trees, r.agent))
  }

  function SetDeleting(trees: map<TreeId, Tree>, id: TreeId, deleting: bool): map<TreeId, Tree> {
    if id in trees then trees[id := trees[id].(deleting := deleting)] else trees
  }

  function SetReady(trees: map<TreeId, Tree>, id: TreeId): map<TreeId, Tree> {
    if id in trees then trees[id := trees[id].(ready := true)] else trees
  }

  ghost predicate Init(s: State) {
    s.present && !s.deleting && s.exclusive.None? && s.shared == {} && s.deleteLock.None? && s.pcs == map[] && !s.secondMark
  }

  ghost predicate Next(s: State, t: State) { exists step :: NextStep(s, t, step) }

  // A step by which a worker passes its check and may touch the files.
  predicate Admits(step: Step) {
    step.PrepareCheck? || step.GitCheck? || step.RequestCheck?
  }

  // ---- What every step keeps ----

  // The lock table says exactly what the workers believe they hold.
  ghost predicate LockOk(s: State, w: Worker) {
    && (s.exclusive == Some(w) <==> w in s.pcs && s.pcs[w].HoldsExclusive())
    && (w in s.shared <==> w in s.pcs && s.pcs[w].HoldsShared())
    && (s.deleteLock == Some(w) <==> w in s.pcs && s.pcs[w].HoldsDelete())
  }

  ghost predicate LocksOk(s: State) {
    (s.exclusive.Some? ==> s.shared == {}) && forall w :: LockOk(s, w)
  }

  // What a deleter listed under the lock covers what is recorded.
  ghost predicate ListOk(s: State, w: Worker) {
    w in s.pcs ==>
      && (s.pcs[w].DeleteListed? ==> s.pcs[w].listed == s.trees.Keys)
      && (s.pcs[w].DeleteMarked? || s.pcs[w].DeleteRemoved? ==> s.trees.Keys <= s.pcs[w].listed && s.secondMark)
  }

  ghost predicate ListsOk(s: State) { forall w :: ListOk(s, w) }

  // Closed for good: everything is marked and nobody past a check can unmark.
  ghost predicate Sealed(s: State) {
    && s.deleting
    && (forall id :: id in s.trees ==> s.trees[id].deleting)
    && (forall w :: w in s.pcs ==> !s.pcs[w].MayUnmark())
  }

  ghost predicate Inv(s: State) {
    LocksOk(s) && ListsOk(s) && (s.secondMark ==> Sealed(s))
  }

  predicate SameLocks(a: Pc, b: Pc) {
    a.HoldsExclusive() == b.HoldsExclusive() && a.HoldsShared() == b.HoldsShared() && a.HoldsDelete() == b.HoldsDelete()
  }

  // A worker that moves between positions holding the same locks.
  lemma MoveKeepsLocks(s: State, t: State, w: Worker, pc: Pc)
    requires LocksOk(s)
    requires w in s.pcs || !(pc.HoldsExclusive() || pc.HoldsShared() || pc.HoldsDelete())
    requires w in s.pcs ==> SameLocks(s.pcs[w], pc)
    requires t.pcs == s.pcs[w := pc] && t.exclusive == s.exclusive && t.shared == s.shared && t.deleteLock == s.deleteLock
    ensures LocksOk(t)
  {
    forall v ensures LockOk(t, v) { assert LockOk(s, v); }
  }

  lemma ReleaseKeepsLocks(s: State, t: State, w: Worker)
    requires LocksOk(s) && w in s.pcs
    requires var r := Release(s, w);
      t.pcs == r.pcs && t.exclusive == r.exclusive && t.shared == r.shared && t.deleteLock == r.deleteLock
    ensures LocksOk(t)
  {
    forall v ensures LockOk(t, v) { assert LockOk(s, v); assert LockOk(s, w); }
  }

  lemma DeleteLockKeepsLocks(s: State, t: State, w: Worker)
    requires LocksOk(s) && NextStep(s, t, TakeDeleteLock(w))
    ensures LocksOk(t)
  {
    forall v ensures LockOk(t, v) { assert LockOk(s, v); }
  }

  lemma TryLockKeepsLocks(s: State, t: State, w: Worker)
    requires LocksOk(s) && NextStep(s, t, TryProjectLock(w))
    ensures LocksOk(t)
  {
    forall v ensures LockOk(t, v) { assert LockOk(s, v); }
  }

  lemma LockKeepsLocks(s: State, t: State, w: Worker)
    requires LocksOk(s) && NextStep(s, t, Lock(w))
    ensures LocksOk(t)
  {
    forall v ensures LockOk(t, v) { assert LockOk(s, v); }
  }

  lemma StepKeepsLocks(s: State, t: State, step: Step)
    requires LocksOk(s) && NextStep(s, t, step)
    ensures LocksOk(t)
  {
    match step
    case TakeDeleteLock(w) => DeleteLockKeepsLocks(s, t, w);
    case TryProjectLock(w) => TryLockKeepsLocks(s, t, w);
    case Lock(w) => LockKeepsLocks(s, t, w);
    case DeleteProject(w) => ReleaseKeepsLocks(s, t, w);
    case PrepareReady(w) => ReleaseKeepsLocks(s, t, w);
    case GitRemoved(w) => ReleaseKeepsLocks(s, t, w);
    case GitReset(w) => ReleaseKeepsLocks(s, t, w);
    case Abandon(w) => ReleaseKeepsLocks(s, t, w);
    case Arrive(w, pc) => MoveKeepsLocks(s, t, w, pc);
    case _ => MovesKeepLocks(s, t, step);
  }

  predicate Moves(step: Step) {
    || step.FirstMark? || step.Relist? || step.SecondMark? || step.RemoveFiles? || step.DeleteRows?
    || step.PrepareCheck? || step.PrepareSelect? || step.PrepareRecord? || step.GitCheck? || step.GitMark?
    || step.RequestCheck?
  }

  lemma MovesKeepLocks(s: State, t: State, step: Step)
    requires LocksOk(s) && NextStep(s, t, step) && Moves(step)
    ensures LocksOk(t)
  {
    var pc := MoveTarget(s, t, step);
    MoveKeepsLocks(s, t, step.w, pc);
  }

  lemma MoveTarget(s: State, t: State, step: Step) returns (pc: Pc)
    requires NextStep(s, t, step) && Moves(step)
    ensures step.w in s.pcs && SameLocks(s.pcs[step.w], pc)
    ensures t.pcs == s.pcs[step.w := pc]
    ensures t.exclusive == s.exclusive && t.shared == s.shared && t.deleteLock == s.deleteLock
  {
    pc := t.pcs[step.w];
  }

  // Only a worker holding the project lock exclusively changes which checkouts
  // are recorded.
  predicate Rewrites(step: Step) {
    step.DeleteRows? || step.PrepareSelect? || step.PrepareRecord? || step.GitRemoved?
  }

  lemma RecordedStable(s: State, t: State, step: Step)
    requires NextStep(s, t, step) && !Rewrites(step)
    ensures t.trees.Keys == s.trees.Keys && (s.secondMark ==> t.secondMark)
  {
  }

  lemma RewriterHolds(s: State, t: State, step: Step)
    requires LocksOk(s) && NextStep(s, t, step) && Rewrites(step)
    ensures s.exclusive == Some(step.w)
    ensures step.DeleteRows? ==> t.trees.Keys <= s.trees.Keys
    ensures t.secondMark == s.secondMark
  {
    assert LockOk(s, step.w);
  }

  lemma StepKeepsLists(s: State, t: State, step: Step)
    requires LocksOk(s) && ListsOk(s) && NextStep(s, t, step)
    ensures ListsOk(t)
  {
    forall v ensures ListOk(t, v) {
      assert ListOk(s, v) && LockOk(s, v);
      if Rewrites(step) {
        RewriterHolds(s, t, step);
        RewriteKeepsList(s, t, step, v);
      } else {
        RecordedStable(s, t, step);
        StableKeepsList(s, t, step, v);
      }
    }
  }

  lemma RewriteKeepsList(s: State, t: State, step: Step, v: Worker)
    requires ListOk(s, v) && LockOk(s, v) && NextStep(s, t, step) && Rewrites(step)
    requires s.exclusive == Some(step.w) && t.secondMark == s.secondMark && (step.DeleteRows? ==> t.trees.Keys <= s.trees.Keys)
    ensures ListOk(t, v)
  {
  }

  lemma StableKeepsList(s: State, t: State, step: Step, v: Worker)
    requires ListOk(s, v) && NextStep(s, t, step) && !Rewrites(step)
    requires t.trees.Keys == s.trees.Keys && (s.secondMark ==> t.secondMark)
    ensures ListOk(t, v)
  {
    if v in t.pcs && !(v in s.pcs && t.pcs[v] == s.pcs[v]) {
      MovedKeepsList(s, t, step, v);
    }
  }

  lemma MovedKeepsList(s: State, t: State, step: Step, v: Worker)
    requires ListOk(s, v) && NextStep(s, t, step) && !Rewrites(step)
    requires !(v in s.pcs && v in t.pcs && t.pcs[v] == s.pcs[v]) && v in t.pcs
    ensures ListOk(t, v)
  {
    match step
    case Relist(_) =>
    case SecondMark(_) =>
    case RemoveFiles(_, _) =>
    case _ => OthersHoldNoList(s, t, step, v);
  }

  lemma OthersHoldNoList(s: State, t: State, step: Step, v: Worker)
    requires NextStep(s, t, step) && !Rewrites(step) && !step.Relist? && !step.SecondMark? && !step.RemoveFiles?
    requires !(v in s.pcs && v in t.pcs && t.pcs[v] == s.pcs[v]) && v in t.pcs
    ensures !t.pcs[v].HasList()
  {
  }

  // A sealed project stays sealed, whatever is tried, and admits nobody.
  lemma SealedStable(s: State, t: State, step: Step)
    requires Sealed(s) && NextStep(s, t, step)
    ensures Sealed(t) && !Admits(step)
  {
    SealedTrees(s, t, step);
    forall v | v in t.pcs ensures !t.pcs[v].MayUnmark() { SealedWorker(s, t, step, v); }
  }

  lemma SealedTrees(s: State, t: State, step: Step)
    requires Sealed(s) && NextStep(s, t, step)
    ensures !Admits(step) && t.deleting && forall id :: id in t.trees ==> t.trees[id].deleting
  {
  }

  lemma SealedWorker(s: State, t: State, step: Step, v: Worker)
    requires Sealed(s) && NextStep(s, t, step) && v in t.pcs
    ensures !t.pcs[v].MayUnmark()
  {
    if v in s.pcs { assert !s.pcs[v].MayUnmark(); }
  }

  // Under the exclusive lock nobody else is past a check.
  lemma HolderIsAlone(s: State, w: Worker, v: Worker)
    requires LocksOk(s) && s.exclusive == Some(w) && v in s.pcs && v != w
    ensures !s.pcs[v].Admitted()
  {
    assert LockOk(s, v) && LockOk(s, w);
  }

  lemma SecondMarkSeals(s: State, t: State, w: Worker)
    requires LocksOk(s) && NextStep(s, t, SecondMark(w))
    ensures Sealed(t)
  {
    assert LockOk(s, w);
    forall v | v in t.pcs ensures !t.pcs[v].MayUnmark() {
      if v != w { HolderIsAlone(s, w, v); }
    }
  }

  lemma StepKeeps(s: State, t: State, step: Step)
    requires Inv(s) && NextStep(s, t, step)
    ensures Inv(t)
  {
    StepKeepsLocks(s, t, step);
    StepKeepsLists(s, t, step);
    if s.secondMark {
      SealedStable(s, t, step);
    } else if step.SecondMark? {
      SecondMarkSeals(s, t, step.w);
    }
  }

  // ---- Whole runs ----

  ghost predicate Joined(run: seq<State>, k: int) {
    0 < k < |run| ==> Next(run[k - 1], run[k])
  }

  ghost predicate Run(run: seq<State>) {
    run != [] && Init(run[0]) && forall k :: Joined(run, k)
  }

  lemma {:induction false} RunKeeps(run: seq<State>, k: nat)
    requires Run(run) && k < |run|
    ensures Inv(run[k])
    decreases k
  {
    if k > 0 {
      RunKeeps(run, k - 1);
      assert Joined(run, k);
      var step :| NextStep(run[k - 1], run[k], step);
      StepKeeps(run[k - 1], run[k], step);
    }
  }

  // Files go only while the deleter holds the project lock exclusively, with
  // every recorded checkout marked and in the list it re-read under that lock,
  // and with no other worker past its check.
  lemma RemovalGuarded(run: seq<State>, k: nat, w: Worker, agent: string)
    requires Run(run) && k + 1 < |run| && NextStep(run[k], run[k + 1], RemoveFiles(w, agent))
    ensures var s := run[k];
      && s.exclusive == Some(w) && s.shared == {} && s.deleteLock == Some(w) && s.deleting
      && (forall id :: id in s.trees ==> s.trees[id].deleting && id in s.pcs[w].listed)
      && (forall v :: v in s.pcs && v != w ==> !s.pcs[v].Admitted())
  {
    RunKeeps(run, k);
    var s := run[k];
    assert LockOk(s, w) && ListOk(s, w);
    forall v | v in s.pcs && v != w ensures !s.pcs[v].Admitted() { HolderIsAlone(s, w, v); }
  }

  lemma {:induction false} SealedFrom(run: seq<State>, k: nat, m: nat)
    requires Run(run) && k <= m < |run| && Sealed(run[k])
    ensures Sealed(run[m])
    decreases m - k
  {
    if k < m {
      assert Joined(run, k + 1);
      var step :| NextStep(run[k], run[k + 1], step);
      SealedStable(run[k], run[k + 1], step);
      SealedFrom(run, k + 1, m);
    }
  }

  // After the second mark, for the rest of the run, no prompt, no prepare and no
  // mutating Git operation passes its check any more.
  lemma NothingAdmittedAfterSecondMark(run: seq<State>, k: nat, m: nat, step: Step)
    requires Run(run) && k <= m && m + 1 < |run| && run[k].secondMark
    requires NextStep(run[m], run[m + 1], step)
    ensures !Admits(step)
    ensures run[m].deleting && forall id :: id in run[m].trees ==> run[m].trees[id].deleting
  {
    RunKeeps(run, k);
    SealedFrom(run, k, m);
    SealedStable(run[m], run[m + 1], step);
  }

  // ---- Marked checkouts ----

  // A checkout marked as being removed is passed by a Git remove alone: no other
  // Git operation and no prompt passes its check on it, no prepare selects it.
  lemma MarksRespected(s: State, t: State, step: Step, id: TreeId)
    requires NextStep(s, t, step) && id in s.trees && s.trees[id].deleting
    ensures step.GitCheck? && s.pcs[step.w].tree == id ==> s.pcs[step.w].op.Remove?
    ensures step.RequestCheck? ==> s.pcs[step.w].tree != id
    ensures step.PrepareSelect? ==> step.id != id
  {
  }

  // How a Git remove ends: its checkout's row goes, or its mark is cleared; no
  // other checkout is touched, and its worker lets go of the lock.
  lemma GitRemoveEnds(s: State, t: State, step: Step, id: TreeId)
    requires NextStep(s, t, step) && (step.GitRemoved? || step.GitReset?)
    ensures var own := s.pcs[step.w].tree;
      && step.w !in t.pcs
      && (id != own ==> (id in t.trees <==> id in s.trees) && (id in s.trees ==> t.trees[id] == s.trees[id]))
      && (step.GitRemoved? ==> own !in t.trees)
      && (step.GitReset? && own in s.trees ==> own in t.trees && t.trees[own] == s.trees[own].(deleting := false))
  {
  }

  // ---- Rows and files ----

  // The deleter's row deletion takes exactly the checkouts of the agent whose
  // files it removed.
  lemma RowsOfOneAgent(s: State, t: State, w: Worker)
    requires NextStep(s, t, DeleteRows(w))
    ensures forall id :: id in t.trees <==> id in s.trees && s.trees[id].agent != s.pcs[w].agent
    ensures forall id :: id in t.trees ==> t.trees[id] == s.trees[id]
    ensures forall id :: id in t.trees ==> t.trees[id].agent != s.pcs[w].agent
  {
  }

  // The worker removed the agent's files in a step between j and m.
  ghost predicate FilesRemoved(run: seq<State>, j: int, m: int, w: Worker, agent: string) {
    exists k :: j <= k < m && RemovesAt(run, k, w, agent)
  }

  ghost predicate RemovesAt(run: seq<State>, k: int, w: Worker, agent: string) {
    0 <= k && k + 1 < |run| && NextStep(run[k], run[k + 1], RemoveFiles(w, agent))
  }

  lemma FilesRemovedLater(run: seq<State>, j: int, m: int, n: int, w: Worker, agent: string)
    requires FilesRemoved(run, j, m, w, agent) && m <= n
    ensures FilesRemoved(run, j, n, w, agent)
  {
    var k :| j <= k < m && RemovesAt(run, k, w, agent);
    assert j <= k < n;
  }

  ghost predicate SameOwners(a: map<TreeId, Tree>, b: map<TreeId, Tree>) {
    a.Keys == b.Keys && forall id :: id in a ==> a[id].agent == b[id].agent
  }

  // While a deleter works from its list, only its own row deletion changes what
  // is recorded.
  lemma OnlyRowsGo(s: State, t: State, step: Step, w: Worker)
    requires LocksOk(s) && w in s.pcs && s.pcs[w].HasList() && NextStep(s, t, step) && step != DeleteRows(w)
    ensures SameOwners(s.trees, t.trees)
  {
    assert LockOk(s, w);
    if Rewrites(step) {
      RewriterHolds(s, t, step);
    } else {
      RecordedStable(s, t, step);
      OwnersStay(s, t, step);
    }
  }

  lemma OwnersStay(s: State, t: State, step: Step)
    requires NextStep(s, t, step) && !Rewrites(step)
    ensures forall id :: id in s.trees && id in t.trees ==> t.trees[id].agent == s.trees[id].agent
  {
  }

  // A deleter's list at m was read at j, and every checkout on it is still
  // recorded or its own agent's files were removed since.
  ghost predicate Accounted(run: seq<State>, j: int, m: int, w: Worker) {
    && 0 <= j < m < |run| && NextStep(run[j], run[j + 1], Relist(w))
    && w in run[m].pcs && run[m].pcs[w].HasList() && run[m].pcs[w].listed == run[j].trees.Keys
    && (forall id :: id in run[j].trees ==> Fate(run, j, m, w, id))
    && (run[m].pcs[w].DeleteRemoved? ==> FilesRemoved(run, j, m, w, run[m].pcs[w].agent))
  }

  ghost predicate Fate(run: seq<State>, j: int, m: int, w: Worker, id: TreeId)
    requires 0 <= j < |run| && 0 <= m < |run|
  {
    id in run[j].trees ==>
      || (id in run[m].trees && run[m].trees[id].agent == run[j].trees[id].agent)
      || FilesRemoved(run, j, m, w, run[j].trees[id].agent)
  }

  // How a list comes about and is carried on.
  lemma ListComesFrom(s: State, t: State, step: Step, w: Worker)
    requires NextStep(s, t, step) && w in t.pcs && t.pcs[w].HasList()
    ensures step == Relist(w) || (w in s.pcs && s.pcs[w].HasList() && t.pcs[w].listed == s.pcs[w].listed)
    ensures step == Relist(w) ==> t.trees == s.trees && t.pcs[w] == DeleteListed(s.trees.Keys)
  {
  }

  lemma RemovedComesFrom(s: State, t: State, step: Step, w: Worker)
    requires NextStep(s, t, step) && w in t.pcs && t.pcs[w].HasList()
    ensures t.pcs[w].DeleteRemoved? ==> step == RemoveFiles(w, t.pcs[w].agent) || (w in s.pcs && t.pcs[w] == s.pcs[w])
    ensures step == DeleteRows(w) ==> s.pcs[w].DeleteRemoved? && !t.pcs[w].DeleteRemoved?
  {
  }

  lemma FateStep(run: seq<State>, j: int, m: int, w: Worker, step: Step, id: TreeId)
    requires Accounted(run, j, m, w) && m + 1 < |run| && LocksOk(run[m]) && NextStep(run[m], run[m + 1], step)
    requires id in run[j].trees
    ensures Fate(run, j, m + 1, w, id)
  {
    var agent := run[j].trees[id].agent;
    assert Fate(run, j, m, w, id);
    if FilesRemoved(run, j, m, w, agent) {
      FilesRemovedLater(run, j, m, m + 1, w, agent);
    } else if step == DeleteRows(w) {
      RowsOfOneAgent(run[m], run[m + 1], w);
      if id !in run[m + 1].trees { FilesRemovedLater(run, j, m, m + 1, w, agent); }
    } else {
      OnlyRowsGo(run[m], run[m + 1], step, w);
    }
  }

  lemma {:induction false} ListAccounted(run: seq<State>, m: nat, w: Worker) returns (j: nat)
    requires Run(run) && m < |run| && w in run[m].pcs && run[m].pcs[w].HasList()
    ensures Accounted(run, j, m, w)
    decreases m
  {
    assert Joined(run, m);
    var step :| NextStep(run[m - 1], run[m], step);
    ListComesFrom(run[m - 1], run[m], step, w);
    RemovedComesFrom(run[m - 1], run[m], step, w);
    if step == Relist(w) {
      j := m - 1;
    } else {
      j := ListAccounted(run, m - 1, w);
      RunKeeps(run, m - 1);
      forall id | id in run[j].trees ensures Fate(run, j, m, w, id) { FateStep(run, j, m - 1, w, step, id); }
      if run[m].pcs[w].DeleteRemoved? {
        if step == RemoveFiles(w, run[m].pcs[w].agent) {
          assert RemovesAt(run, m - 1, w, run[m].pcs[w].agent);
        } else {
          FilesRemovedLater(run, j, m - 1, m, w, run[m].pcs[w].agent);
        }
      }
    }
  }

  // After the second mark a checkout's row goes only by the row deletion of a
  // deleter that removed the files of that checkout's own agent before.
  lemma RowsGoAfterFiles(run: seq<State>, k: nat, m: nat, id: TreeId) returns (w: Worker)
    requires Run(run) && k <= m && m + 1 < |run| && run[k].secondMark
    requires id in run[m].trees && id !in run[m + 1].trees
    ensures NextStep(run[m], run[m + 1], DeleteRows(w)) && FilesRemoved(run, 0, m, w, run[m].trees[id].agent)
  {
    RunKeeps(run, k);
    SealedFrom(run, k, m);
    assert Joined(run, m + 1);
    var step :| NextStep(run[m], run[m + 1], step);
    OnlyDeletersDrop(run[m], run[m + 1], step, id);
    w := step.w;
    RowsOfOneAgent(run[m], run[m + 1], w);
    var j := ListAccounted(run, m, w);
    var at :| j <= at < m && RemovesAt(run, at, w, run[m].pcs[w].agent);
    assert 0 <= at < m;
  }

  lemma OnlyDeletersDrop(s: State, t: State, step: Step, id: TreeId)
    requires Sealed(s) && NextStep(s, t, step) && id in s.trees && id !in t.trees
    ensures step.DeleteRows?
  {
    assert step.GitRemoved? ==> s.pcs[step.w].MayUnmark();
    if !Rewrites(step) { RecordedStable(s, t, step); }
  }

  // A project goes only when the files of every checkout on the deleter's list
  // were removed, each on its own agent.
  lemma ProjectGoesAfterFiles(run: seq<State>, m: nat, w: Worker) returns (j: nat)
    requires Run(run) && m + 1 < |run| && NextStep(run[m], run[m + 1], DeleteProject(w))
    ensures j < m && NextStep(run[j], run[j + 1], Relist(w)) && run[m].pcs[w].listed == run[j].trees.Keys
    ensures forall id :: id in run[j].trees ==> FilesRemoved(run, j, m, w, run[j].trees[id].agent)
  {
    j := ListAccounted(run, m, w);
    forall id | id in run[j].trees ensures FilesRemoved(run, j, m, w, run[j].trees[id].agent) {
      assert Fate(run, j, m, w, id);
    }
  }

  // ---- The first mark ----

  // What a prompt's check lets through.
  predicate Open(tree: Tree) { !tree.deleting && tree.ready }

  // A worker that can still bring an open checkout about, though everything is
  // marked: a prepare that will create its checkout, one that will record its
  // agent's missing main checkout, or a Git remove of a ready checkout.
  predicate MayReopen(trees: map<TreeId, Tree>, pc: Pc) {
    match pc
    case PrepareAdmitted(request) => Creates(trees, request)
    case PrepareWorking(_, agent) => !HasMain(trees, agent)
    case GitAdmitted(tree, op) => op.Remove? && tree in trees && trees[tree].ready
    case GitRemoving(tree) => tree in trees && trees[tree].ready
    case _ => false
  }

  ghost predicate Quiet(s: State) { forall v :: v in s.pcs ==> !MayReopen(s.trees, s.pcs[v]) }

  // While a prepare is under way nothing is unmarked, so it can select nothing
  // and makes ready only what stays marked.
  predicate Harmless(trees: map<TreeId, Tree>, pc: Pc) {
    && !MayReopen(trees, pc)
    && (pc.PrepareAdmitted? || pc.PrepareWorking? || pc.PrepareRecorded? ==> forall id | id in trees :: trees[id].deleting)
  }

  // Nobody can be admitted any more.
  ghost predicate Barred(s: State) {
    && s.deleting
    && (forall id :: id in s.trees ==> !Open(s.trees[id]))
    && (forall v :: v in s.pcs ==> Harmless(s.trees, s.pcs[v]))
  }

  lemma MarkedMains(trees: map<TreeId, Tree>, agent: string)
    ensures HasMain(Marked(trees), agent) <==> HasMain(trees, agent)
  {
    if HasMain(trees, agent) {
      var id :| id in trees && trees[id].main && trees[id].agent == agent;
      assert id in Marked(trees) && Marked(trees)[id].main;
    }
  }

  lemma MarkedReopen(trees: map<TreeId, Tree>, pc: Pc)
    ensures MayReopen(Marked(trees), pc) <==> MayReopen(trees, pc)
  {
    if pc.PrepareWorking? { MarkedMains(trees, pc.agent); }
    if pc.PrepareAdmitted? { MarkedMains(trees, pc.request.agent); }
  }

  lemma FirstMarkBars(s: State, t: State, w: Worker)
    requires NextStep(s, t, FirstMark(w)) && Quiet(s)
    ensures Barred(t)
  {
    forall v | v in t.pcs ensures Harmless(t.trees, t.pcs[v]) {
      MarkedReopen(s.trees, t.pcs[v]);
    }
  }

  // Workers that are not past a check are harmless whatever is recorded.
  lemma OthersHarmless(s: State, t: State, w: Worker, v: Worker)
    requires LocksOk(s) && s.exclusive == Some(w) && v in s.pcs && v != w && v in t.pcs && t.pcs[v] == s.pcs[v]
    ensures Harmless(t.trees, t.pcs[v])
  {
    HolderIsAlone(s, w, v);
  }

  // Steps of the lock's holder that change what is recorded.
  predicate Owns(step: Step) {
    || step.DeleteRows? || step.PrepareSelect? || step.PrepareRecord? || step.PrepareReady?
    || step.GitMark? || step.GitRemoved? || step.GitReset?
  }

  lemma OwnedBarred(s: State, t: State, step: Step)
    requires LocksOk(s) && Barred(s) && NextStep(s, t, step) && Owns(step)
    ensures Barred(t)
  {
    var w := step.w;
    assert LockOk(s, w) && Harmless(s.trees, s.pcs[w]);
    forall v | v in t.pcs ensures Harmless(t.trees, t.pcs[v]) {
      if v != w { OthersHarmless(s, t, w, v); }
    }
  }

  lemma MarkBarred(s: State, t: State, step: Step)
    requires Barred(s) && NextStep(s, t, step) && (step.FirstMark? || step.SecondMark?)
    ensures Barred(t)
  {
    forall v | v in t.pcs ensures Harmless(t.trees, t.pcs[v]) {
      MarkedReopen(s.trees, t.pcs[v]);
      assert Harmless(s.trees, s.pcs[v]);
    }
  }

  lemma OtherBarred(s: State, t: State, step: Step)
    requires Barred(s) && NextStep(s, t, step) && !Owns(step) && !step.FirstMark? && !step.SecondMark?
    ensures Barred(t) && !Admits(step)
  {
    assert t.trees == s.trees && t.deleting;
    forall v | v in t.pcs ensures Harmless(t.trees, t.pcs[v]) {
      assert v in s.pcs ==> Harmless(s.trees, s.pcs[v]);
    }
  }

  lemma BarredStable(s: State, t: State, step: Step)
    requires LocksOk(s) && Barred(s) && NextStep(s, t, step)
    ensures Barred(t) && !Admits(step)
  {
    if Owns(step) {
      OwnedBarred(s, t, step);
    } else if step.FirstMark? || step.SecondMark? {
      MarkBarred(s, t, step);
    } else {
      OtherBarred(s, t, step);
    }
  }

  lemma {:induction false} BarredFrom(run: seq<State>, k: nat, m: nat)
    requires Run(run) && k <= m < |run| && Barred(run[k])
    ensures Barred(run[m])
    decreases m - k
  {
    if k < m {
      BarredFrom(run, k, m - 1);
      RunKeeps(run, m - 1);
      assert Joined(run, m);
      var step :| NextStep(run[m - 1], run[m], step);
      BarredStable(run[m - 1], run[m], step);
    }
  }

  lemma Extend(run: seq<State>, t: State, step: Step)
    requires Run(run) && NextStep(run[|run| - 1], t, step)
    ensures Run(run + [t])
  {
    var longer := run + [t];
    forall k ensures Joined(longer, k) {
      assert Joined(run, k);
      if k == |run| { assert Next(longer[k - 1], longer[k]); }
    }
  }

  // A Git remove past its check, one deletion holding its lock.
  ghost function RemoveInProgress(): State {
    State(true, false, map[7 := Tree("agent", false, true, true)], Some(1), {}, Some(2),
          map[1 := GitRemoving(7), 2 := DeleteLocked], false)
  }

  ghost function RemoveAdmitted(): State {
    State(true, false, map[7 := Tree("agent", false, false, true)], Some(1), {}, None, map[1 := GitAdmitted(7, Remove)], false)
  }

  lemma RemoveAdmittedReachable() returns (run: seq<State>)
    ensures Run(run) && run[|run| - 1] == RemoveAdmitted()
  {
    var s0 := State(true, false, map[7 := Tree("agent", false, false, true)], None, {}, None, map[], false);
    var s1 := At(s0, 1, GitWaiting(7, Remove));
    var s2 := At(s1, 1, GitLocked(7, Remove)).(exclusive := Some(1));
    var s3 := At(s2, 1, GitAdmitted(7, Remove));
    run := [s0];
    Extend(run, s1, Arrive(1, GitWaiting(7, Remove))); run := run + [s1];
    Extend(run, s2, Lock(1)); run := run + [s2];
    Extend(run, s3, GitCheck(1)); run := run + [s3];
    assert s3.pcs == RemoveAdmitted().pcs;
  }

  lemma RemoveInProgressReachable() returns (run: seq<State>)
    ensures Run(run) && run[|run| - 1] == RemoveInProgress()
  {
    run := RemoveAdmittedReachable();
    var s3 := RemoveAdmitted();
    var s4 := At(s3, 2, DeleteWaiting);
    var s5 := At(s4, 2, DeleteLocked).(deleteLock := Some(2));
    var s6 := At(s5, 1, GitRemoving(7)).(trees := SetDeleting(s5.trees, 7, true));
    Extend(run, s4, Arrive(2, DeleteWaiting)); run := run + [s4];
    Extend(run, s5, TakeDeleteLock(2)); run := run + [s5];
    Extend(run, s6, GitMark(1)); run := run + [s6];
    assert s6.pcs == RemoveInProgress().pcs;
    assert s6 == RemoveInProgress();
  }

  // The first mark alone is not enough: a Git remove admitted before it fails
  // after it, clears its checkout's mark, and a prompt gets in.
  lemma FirstMarkInsufficient() returns (run: seq<State>)
    ensures Run(run) && |run| > 2
    ensures run[|run| - 2].deleting && NextStep(run[|run| - 2], run[|run| - 1], RequestCheck(3))
  {
    run := RemoveInProgressReachable();
    var s6 := RemoveInProgress();
    var s7 := At(BeginDeletion(s6), 2, DeleteDraining);
    var s8 := Release(s7, 1).(trees := SetDeleting(s7.trees, 7, false));
    var s9 := At(s8, 3, RequestWaiting(7, true));
    var s10 := At(s9, 3, RequestLocked(7, true)).(shared := s9.shared + {3});
    var s11 := At(s10, 3, RequestRunning(7, true));
    Extend(run, s7, FirstMark(2)); run := run + [s7];
    Extend(run, s8, GitReset(1)); run := run + [s8];
    Extend(run, s9, Arrive(3, RequestWaiting(7, true))); run := run + [s9];
    Extend(run, s10, Lock(3)); run := run + [s10];
    Extend(run, s11, RequestCheck(3)); run := run + [s11];
  }

  // Some continuation of the run lets a worker pass its check.
  ghost predicate AdmitsLater(run: seq<State>) { exists longer, step :: AdmitsBy(run, longer, step) }

  ghost predicate AdmitsBy(run: seq<State>, longer: seq<State>, step: Step) {
    && run <= longer && |longer| >= |run| + 1 && |longer| >= 2 && Run(longer)
    && NextStep(longer[|longer| - 2], longer[|longer| - 1], step) && Admits(step)
  }

  // With an open checkout and the lock free, a prompt gets in.
  lemma PromptGetsIn(start: seq<State>, run: seq<State>, id: TreeId)
    requires Run(run) && start <= run
    requires var s := run[|run| - 1]; s.exclusive.None? && id in s.trees && Open(s.trees[id])
    ensures AdmitsLater(start)
  {
    var s := run[|run| - 1];
    var u := FreshNat(s.pcs.Keys);
    var s1 := At(s, u, RequestWaiting(id, true));
    var s2 := At(s1, u, RequestLocked(id, true)).(shared := s1.shared + {u});
    var s3 := At(s2, u, RequestRunning(id, true));
    Extend(run, s1, Arrive(u, RequestWaiting(id, true)));
    Extend(run + [s1], s2, Lock(u));
    Extend(run + [s1] + [s2], s3, RequestCheck(u));
    var longer := run + [s1] + [s2] + [s3];
    assert AdmitsBy(start, longer, RequestCheck(u));
  }

  // The reset of a failed Git remove.
  lemma ResetReopens(start: seq<State>, run: seq<State>, v: Worker, id: TreeId)
    requires Run(run) && start <= run
    requires var s := run[|run| - 1];
      v in s.pcs && s.pcs[v] == GitRemoving(id) && s.exclusive == Some(v) && id in s.trees && s.trees[id].ready
    ensures AdmitsLater(start)
  {
    var s := run[|run| - 1];
    var s1 := Release(s, v).(trees := SetDeleting(s.trees, id, false));
    Extend(run, s1, GitReset(v));
    PromptGetsIn(start, run + [s1], id);
  }

  // A prepare that records its agent's missing main checkout.
  lemma RecordReopens(start: seq<State>, run: seq<State>, v: Worker)
    requires Run(run) && start <= run
    requires var s := run[|run| - 1];
      v in s.pcs && s.pcs[v].PrepareWorking? && s.exclusive == Some(v) && !HasMain(s.trees, s.pcs[v].agent)
    ensures AdmitsLater(start)
  {
    var s := run[|run| - 1];
    var id := FreshNat(s.trees.Keys);
    var tree := s.pcs[v].tree;
    var s1 := At(s, v, PrepareRecorded(tree)).(trees := s.trees[id := Tree(s.pcs[v].agent, true, false, true)]);
    var s2 := Release(s1, v).(trees := SetReady(s1.trees, tree));
    Extend(run, s1, PrepareRecord(v, id));
    Extend(run + [s1], s2, PrepareReady(v));
    PromptGetsIn(start, run + [s1] + [s2], id);
  }

  // A prepare that creates its checkout and makes it ready.
  lemma SelectReopens(start: seq<State>, run: seq<State>, v: Worker)
    requires Run(run) && start <= run
    requires var s := run[|run| - 1];
      v in s.pcs && s.pcs[v].PrepareAdmitted? && s.exclusive == Some(v) && Creates(s.trees, s.pcs[v].request)
    ensures AdmitsLater(start)
  {
    var s := run[|run| - 1];
    var r := s.pcs[v].request;
    var s1 := At(s, v, PrepareWorking(r.id, r.agent)).(trees := s.trees[r.id := Tree(r.agent, r.main, false, false)]);
    Extend(run, s1, PrepareSelect(v, r.id));
    if !HasMain(s1.trees, r.agent) {
      RecordReopens(start, run + [s1], v);
    } else {
      ReadyReopens(start, run + [s1], v, r.id);
    }
  }

  // A prepare whose own checkout is unmarked, with the main checkout recorded.
  lemma ReadyReopens(start: seq<State>, run: seq<State>, v: Worker, id: TreeId)
    requires Run(run) && start <= run
    requires var s := run[|run| - 1];
      && v in s.pcs && s.pcs[v].PrepareWorking? && s.pcs[v].tree == id && s.exclusive == Some(v)
      && HasMain(s.trees, s.pcs[v].agent) && id in s.trees && !s.trees[id].deleting
    ensures AdmitsLater(start)
  {
    var s := run[|run| - 1];
    var other := FreshNat(s.trees.Keys);
    var s1 := At(s, v, PrepareRecorded(id));
    var s2 := Release(s1, v).(trees := SetReady(s1.trees, id));
    Extend(run, s1, PrepareRecord(v, other));
    Extend(run + [s1], s2, PrepareReady(v));
    PromptGetsIn(start, run + [s1] + [s2], id);
  }

  lemma RemoveReopens(start: seq<State>, run: seq<State>, v: Worker, id: TreeId)
    requires Run(run) && start <= run
    requires var s := run[|run| - 1];
      v in s.pcs && s.pcs[v] == GitAdmitted(id, Remove) && s.exclusive == Some(v) && id in s.trees && s.trees[id].ready
    ensures AdmitsLater(start)
  {
    var s := run[|run| - 1];
    var s1 := At(s, v, GitRemoving(id)).(trees := SetDeleting(s.trees, id, true));
    Extend(run, s1, GitMark(v));
    ResetReopens(start, run + [s1], v, id);
  }

  lemma ReopensLater(run: seq<State>, v: Worker)
    requires Run(run) && v in run[|run| - 1].pcs && MayReopen(run[|run| - 1].trees, run[|run| - 1].pcs[v])
    ensures AdmitsLater(run)
  {
    var s := run[|run| - 1];
    RunKeeps(run, |run| - 1);
    assert LockOk(s, v);
    match s.pcs[v]
    case PrepareAdmitted(_) => SelectReopens(run, run, v);
    case PrepareWorking(_, _) => RecordReopens(run, run, v);
    case GitAdmitted(id, _) => RemoveReopens(run, run, v, id);
    case GitRemoving(id) => ResetReopens(run, run, v, id);
  }

  lemma BarredAdmitsNobody(run: seq<State>, longer: seq<State>, step: Step)
    requires run != [] && Barred(run[|run| - 1])
    ensures !AdmitsBy(run, longer, step)
  {
    var n := |longer|;
    if run <= longer && n > |run| && Run(longer) && NextStep(longer[n - 2], longer[n - 1], step) {
      BarredFrom(longer, |run| - 1, n - 2);
      RunKeeps(longer, n - 2);
      BarredStable(longer[n - 2], longer[n - 1], step);
    }
  }

  // The first mark keeps everybody out for good if and only if, when it is
  // written, no worker past its check can reopen a checkout.
  lemma FirstMarkExact(run: seq<State>, w: Worker)
    requires Run(run) && |run| >= 2 && NextStep(run[|run| - 2], run[|run| - 1], FirstMark(w))
    ensures !AdmitsLater(run) <==> Quiet(run[|run| - 2])
  {
    var n := |run|;
    var s, t := run[n - 2], run[n - 1];
    if Quiet(s) {
      FirstMarkBars(s, t, w);
      forall longer, step ensures !AdmitsBy(run, longer, step) { BarredAdmitsNobody(run, longer, step); }
    } else {
      var v :| v in s.pcs && MayReopen(s.trees, s.pcs[v]);
      MarkedReopen(s.trees, s.pcs[v]);
      ReopensLater(run, v);
    }
  }

  // Even then, from the first mark on no prepare and no Git operation passes its
  // check, and a prompt only on a checkout that is not marked.
  lemma {:induction false} FirstMarkStopsMutations(run: seq<State>, k: nat, m: nat, step: Step)
    requires Run(run) && k <= m && m + 1 < |run| && run[k].deleting && NextStep(run[m], run[m + 1], step)
    ensures run[m + 1].deleting && !step.PrepareCheck? && !step.GitCheck?
    ensures step.RequestCheck? ==> exists id :: id in run[m].trees && Open(run[m].trees[id])
    decreases m - k
  {
    if k < m {
      assert Joined(run, m);
      var before :| NextStep(run[m - 1], run[m], before);
      FirstMarkStopsMutations(run, k, m - 1, before);
    }
  }
}
