// The coordinator in time: leases run out, judges time out, and a holder
// launches judges some time after the checkpoint that renewed its lease. How
// long that may take before two holders can judge the same execution.
module CoordinatorTime {
  import opened Common
  import opened Evaluation
  import opened Scoring
  import opened EvaluationEngine
  import opened Coordinator

  // In seconds: what a claim or a checkpoint adds, what a releasing save adds,
  // and how long a judge lives, its timeout and its clean-up together.
  const Lease := 180.0
  const Grace := 1.0
  const JudgeLife := 130.0

  datatype Timed = Timed(
    system: System,
    clock: real,
    leaseUntil: real,
    savedAt: map<Token, real>,              // a holder's claim or last checkpoint
    started: map<(Token, nat), real>)       // a holder's latest judge of an index

  datatype Event = Do(step: Step) | Pass(to: real)

  ghost predicate Judges(s: System, w: Token, i: nat) { w in s.holders && i in s.holders[w].live }

  ghost predicate InTime(t: Timed, w: Token, i: nat, clock: real) {
    Judges(t.system, w, i) ==> (w, i) in t.started && clock <= t.started[(w, i)] + JudgeLife
  }

  // A claim needs a lapsed lease; a launch comes within the delay.
  ghost predicate Allowed(delay: real, s: Timed, step: Step) {
    match step
    case Claim(_) => s.leaseUntil < s.clock
    case Work(w, Launch(_)) => w in s.savedAt && s.clock <= s.savedAt[w] + delay
    case _ => true
  }

  function LeaseAfter(s: Timed, step: Step): real {
    match step
    case Claim(_) => s.clock + Lease
    case Checkpoint(_, _) => s.clock + Lease
    case Leave(_, true) => s.clock + Grace
    case Retry => s.clock
    case _ => s.leaseUntil
  }

  function SavedAfter(s: Timed, step: Step): map<Token, real> {
    if step.Claim? || step.Checkpoint? then s.savedAt[step.w := s.clock] else s.savedAt
  }

  function StartedAfter(s: Timed, step: Step): map<(Token, nat), real> {
    match step
    case Work(w, Launch(i)) => s.started[(w, i) := s.clock]
    case _ => s.started
  }

  ghost predicate NextEvent(cap: nat, delay: real, s: Timed, t: Timed, e: Event) {
    match e
    case Do(step) =>
      && NextStep(cap, s.system, t.system, step) && Allowed(delay, s, step)
      && t == Timed(t.system, s.clock, LeaseAfter(s, step), SavedAfter(s, step), StartedAfter(s, step))
    case Pass(to) =>
      // no judge outlives its time
      s.clock <= to && (forall w, i :: InTime(s, w, i, to)) && t == s.(clock := to)
  }

  ghost predicate NextTimed(cap: nat, delay: real, s: Timed, t: Timed) { exists e :: NextEvent(cap, delay, s, t, e) }

  ghost predicate Linked(cap: nat, delay: real, run: seq<Timed>, k: int) {
    0 < k < |run| ==> NextTimed(cap, delay, run[k - 1], run[k])
  }

  ghost predicate TimedRun(cap: nat, models: nat, delay: real, run: seq<Timed>) {
    && run != [] && Init(run[0].system, models) && run[0].leaseUntil == run[0].clock
    && forall k :: Linked(cap, delay, run, k)
  }

  // ---- Timed runs are runs ----

  // Every state of a timed run is reached by a run of the coordinator, so all
  // that holds of those holds here.
  lemma {:induction false} Untimed(cap: nat, models: nat, delay: real, run: seq<Timed>, k: nat) returns (plain: seq<System>)
    requires TimedRun(cap, models, delay, run) && k < |run|
    ensures Run(cap, models, plain) && plain[|plain| - 1] == run[k].system
    decreases k
  {
    if k == 0 {
      plain := [run[0].system];
    } else {
      plain := Untimed(cap, models, delay, run, k - 1);
      assert Linked(cap, delay, run, k);
      var e :| NextEvent(cap, delay, run[k - 1], run[k], e);
      if e.Do? {
        Extend(cap, models, plain, run[k].system, e.step);
        plain := plain + [run[k].system];
      }
    }
  }

  lemma TimedLeaseOk(cap: nat, models: nat, delay: real, run: seq<Timed>, k: nat)
    requires TimedRun(cap, models, delay, run) && k < |run|
    ensures LeaseOk(run[k].system)
  {
    var plain := Untimed(cap, models, delay, run, k);
    RunKeeps(cap, models, plain, |plain| - 1);
  }

  // ---- Within fifty seconds ----

  // A holder has the lease it renewed last, or its lease has run out.
  ghost predicate LeaseTimely(s: Timed, w: Token) {
    w in s.system.holders ==>
      && w in s.savedAt && s.savedAt[w] <= s.clock
      && ((s.system.lease == Some(w) && s.leaseUntil == s.savedAt[w] + Lease) || s.savedAt[w] + Lease < s.clock)
  }

  // A judge ends before its holder's lease does.
  ghost predicate JudgeTimely(s: Timed, w: Token, i: nat) {
    Judges(s.system, w, i) ==>
      && (w, i) in s.started && s.started[(w, i)] <= s.clock <= s.started[(w, i)] + JudgeLife
      && s.system.lease == Some(w) && s.started[(w, i)] + JudgeLife <= s.leaseUntil
  }

  ghost predicate Timely(s: Timed) {
    (forall w :: LeaseTimely(s, w)) && (forall w, i :: JudgeTimely(s, w, i))
  }

  // No claim is possible while a judge lives.
  lemma NoClaimWhileJudging(s: Timed, w: Token, i: nat)
    requires Timely(s) && s.leaseUntil < s.clock
    ensures !Judges(s.system, w, i)
  {
    assert JudgeTimely(s, w, i);
  }

  lemma PassTimely(cap: nat, delay: real, s: Timed, t: Timed, to: real)
    requires Timely(s) && NextEvent(cap, delay, s, t, Pass(to))
    ensures Timely(t)
  {
    forall w ensures LeaseTimely(t, w) { assert LeaseTimely(s, w); }
    forall w, i ensures JudgeTimely(t, w, i) { assert JudgeTimely(s, w, i) && InTime(s, w, i, to); }
  }

  lemma ClaimTimely(cap: nat, delay: real, s: Timed, t: Timed, v: Token)
    requires Timely(s) && NextEvent(cap, delay, s, t, Do(Claim(v)))
    ensures Timely(t)
  {
    forall w ensures LeaseTimely(t, w) { assert LeaseTimely(s, w); }
    forall w, i ensures JudgeTimely(t, w, i) { NoClaimWhileJudging(s, w, i); }
  }

  lemma CheckpointTimely(cap: nat, delay: real, s: Timed, t: Timed, v: Token, acknowledged: bool)
    requires Timely(s) && NextEvent(cap, delay, s, t, Do(Checkpoint(v, acknowledged)))
    ensures Timely(t)
  {
    forall w ensures LeaseTimely(t, w) { assert LeaseTimely(s, w); }
    forall w, i ensures JudgeTimely(t, w, i) { assert JudgeTimely(s, w, i); }
  }

  lemma LaunchTimely(cap: nat, delay: real, s: Timed, t: Timed, v: Token, j: nat)
    requires delay <= Lease - JudgeLife
    requires Timely(s) && NextEvent(cap, delay, s, t, Do(Work(v, Launch(j))))
    ensures Timely(t)
  {
    assert LeaseTimely(s, v);
    forall w ensures LeaseTimely(t, w) { assert LeaseTimely(s, w); }
    forall w, i ensures JudgeTimely(t, w, i) { assert JudgeTimely(s, w, i); }
  }

  predicate StartsNothing(step: Step) { !step.Claim? && !step.Checkpoint? && !(step.Work? && step.action.Launch?) }

  lemma ActsStartNothing(cap: nat, h: Holder, g: Holder, action: Action)
    requires Acts(cap, h, g, action) && !action.Launch?
    ensures g.live.Keys <= h.live.Keys
  {
  }

  // Every other step starts no judge and leaves the lease to its holder.
  lemma StepStartsNothing(cap: nat, s: System, t: System, step: Step)
    requires NextStep(cap, s, t, step) && StartsNothing(step)
    ensures t.holders.Keys <= s.holders.Keys
    ensures forall w, i :: Judges(t, w, i) ==> Judges(s, w, i)
    ensures t.lease == s.lease || (step.Leave? && step.stored && s.lease == Some(step.w) && step.w !in t.holders)
  {
    if step.Work? {
      ActsStartNothing(cap, s.holders[step.w], t.holders[step.w], step.action);
    }
  }

  lemma OtherTimely(cap: nat, delay: real, s: Timed, t: Timed, step: Step)
    requires LeaseOk(s.system) && Timely(s) && NextEvent(cap, delay, s, t, Do(step)) && StartsNothing(step)
    ensures Timely(t)
  {
    StepStartsNothing(cap, s.system, t.system, step);
    OtherTimelyFrom(s, t, step);
  }

  lemma OtherTimelyFrom(s: Timed, t: Timed, step: Step)
    requires Timely(s)
    requires t.system.holders.Keys <= s.system.holders.Keys
    requires forall w, i :: Judges(t.system, w, i) ==> Judges(s.system, w, i)
    requires t.clock == s.clock && t.savedAt == s.savedAt && t.started == s.started
    requires
      || (t.system.lease == s.system.lease && (t.leaseUntil == s.leaseUntil || s.system.lease.None?))
      || (s.system.lease.Some? && s.system.lease.value !in t.system.holders)
    ensures Timely(t)
  {
    forall w ensures LeaseTimely(t, w) { assert LeaseTimely(s, w); }
    forall w, i ensures JudgeTimely(t, w, i) { assert JudgeTimely(s, w, i); }
  }

  lemma EventTimely(cap: nat, delay: real, s: Timed, t: Timed, e: Event)
    requires delay <= Lease - JudgeLife
    requires LeaseOk(s.system) && Timely(s) && NextEvent(cap, delay, s, t, e)
    ensures Timely(t)
  {
    match e
    case Pass(to) => PassTimely(cap, delay, s, t, to);
    case Do(Claim(v)) => ClaimTimely(cap, delay, s, t, v);
    case Do(Checkpoint(v, acknowledged)) => CheckpointTimely(cap, delay, s, t, v, acknowledged);
    case Do(Work(v, Launch(j))) => LaunchTimely(cap, delay, s, t, v, j);
    case Do(step) => OtherTimely(cap, delay, s, t, step);
  }

  lemma {:induction false} RunTimely(cap: nat, models: nat, delay: real, run: seq<Timed>, k: nat)
    requires delay <= Lease - JudgeLife
    requires TimedRun(cap, models, delay, run) && k < |run|
    ensures Timely(run[k])
    decreases k
  {
    if k > 0 {
      RunTimely(cap, models, delay, run, k - 1);
      TimedLeaseOk(cap, models, delay, run, k - 1);
      assert Linked(cap, delay, run, k);
      var e :| NextEvent(cap, delay, run[k - 1], run[k], e);
      EventTimely(cap, delay, run[k - 1], run[k], e);
    }
  }

  ghost predicate Exclusive(s: System) {
    forall w, v, i :: Judges(s, w, i) && Judges(s, v, i) ==> w == v
  }

  ghost predicate AlwaysExclusive(delay: real) {
    forall cap: nat, models: nat, run: seq<Timed>, k: nat {:trigger ExclusiveAt(cap, models, delay, run, k)} ::
      ExclusiveAt(cap, models, delay, run, k)
  }

  ghost predicate ExclusiveAt(cap: nat, models: nat, delay: real, run: seq<Timed>, k: nat) {
    TimedRun(cap, models, delay, run) && k < |run| ==> Exclusive(run[k].system)
  }

  // At most one holder has live judges, if judges start within fifty seconds of
  // the checkpoint before them.
  lemma OneHolderJudges(cap: nat, models: nat, delay: real, run: seq<Timed>, k: nat, w: Token, i: nat, v: Token, j: nat)
    requires delay <= Lease - JudgeLife
    requires TimedRun(cap, models, delay, run) && k < |run|
    requires Judges(run[k].system, w, i) && Judges(run[k].system, v, j)
    ensures w == v
  {
    RunTimely(cap, models, delay, run, k);
    assert JudgeTimely(run[k], w, i) && JudgeTimely(run[k], v, j);
  }

  // ---- Beyond ----

  lemma ExtendTimed(cap: nat, models: nat, delay: real, run: seq<Timed>, t: Timed, e: Event) returns (longer: seq<Timed>)
    requires TimedRun(cap, models, delay, run) && NextEvent(cap, delay, run[|run| - 1], t, e)
    ensures TimedRun(cap, models, delay, longer) && longer[|longer| - 1] == t
  {
    longer := run + [t];
    forall k ensures Linked(cap, delay, longer, k) {
      assert Linked(cap, delay, run, k);
      if k == |run| { assert NextTimed(cap, delay, longer[k - 1], longer[k]); }
    }
  }

  lemma ExtendWork(cap: nat, models: nat, delay: real, run: seq<Timed>, w: Token, g: Holder, action: Action) returns (longer: seq<Timed>)
    requires TimedRun(cap, models, delay, run) && w in run[|run| - 1].system.holders
    requires Acts(cap, run[|run| - 1].system.holders[w], g, action) && Allowed(delay, run[|run| - 1], Work(w, action))
    ensures TimedRun(cap, models, delay, longer)
    ensures var s, t := run[|run| - 1], longer[|longer| - 1];
      t == s.(system := s.system.(holders := s.system.holders[w := g]), started := StartedAfter(s, Work(w, action)))
  {
    var s := run[|run| - 1];
    var t := s.(system := s.system.(holders := s.system.holders[w := g]), started := StartedAfter(s, Work(w, action)));
    longer := ExtendTimed(cap, models, delay, run, t, Do(Work(w, action)));
  }

  // One judging execution without token usage: a pass and scoring leave it as it is.
  function Answered(): Execution {
    Fresh.(state := Judging, runStatus := Some(Succeeded), sessionId := Some("s"), transcript := Some([]), toolCalls := Some(0))
  }

  ghost function Held(): Record { Record([Answered()], None, EvalRunning) }

  lemma ScoredAlone()
    ensures Scored(Held()) == Held()
  {
    var x := Answered();
    assert [x][..0] == [];
    assert Tokens([x]) == [];
    assert RateAll([x], None) == [x];
  }

  lemma PassAlone(h: Holder)
    requires h.phase == Advancing && h.memory == Held()
    ensures Advanced(h, 1, [Unreachable]) == h.(phase := Saving)
  {
    var x := Answered();
    assert AdvanceFrom([x], 1, 1, [Unreachable]) == ([x], false);
    assert Advance([x], 1, [Unreachable]) == ([x], false);
    ScoredAlone();
    assert h.memory.executions[0] == x;
  }

  const Reply := Found(true, true, Succeeded, "s", Collected([], 0, None))

  lemma AdvanceAlone()
    ensures Advance([Fresh], 1, [Reply]) == ([Answered()], false)
  {
    assert [Fresh][..0] == [];
    assert Occupied([Fresh]) == 0;
    assert Observe(Fresh, Reply) == (Answered(), false);
    assert [Fresh][0 := Answered()] == [Answered()];
    assert AdvanceFrom([Answered()], 1, 1, [Reply]) == ([Answered()], false);
    assert Admissible([Fresh], 0, 1);
  }

  // A holder whose memory is the one judging execution, about to save.
  ghost predicate ReadyToSave(s: Timed, w: Token) {
    && s.system.lease == Some(w) && !s.system.cancelRequested && w in s.system.holders
    && var h := s.system.holders[w];
       h.phase == Saving && h.memory == Held() && h.active == {} && h.live == map[] && h.channel == []
  }

  ghost predicate ReadyToLaunch(s: Timed, w: Token) {
    && s.system.saved == Held() && w in s.system.holders && w in s.savedAt
    && var h := s.system.holders[w];
       h.phase == Launching && h.memory == Held() && h.active == {} && h.live == map[] && h.channel == []
  }

  lemma ExtendSave(delay: real, run: seq<Timed>, w: Token) returns (longer: seq<Timed>)
    requires TimedRun(1, 1, delay, run) && ReadyToSave(run[|run| - 1], w)
    ensures TimedRun(1, 1, delay, longer)
    ensures var s, t := run[|run| - 1], longer[|longer| - 1];
      && ReadyToLaunch(t, w) && t.clock == s.clock && t.savedAt[w] == s.clock && t.leaseUntil == s.clock + Lease
      && t.started == s.started && t.system.used == s.system.used && !t.system.cancelRequested
      && t.system.holders.Keys == s.system.holders.Keys
      && forall v :: v in s.system.holders && v != w ==> t.system.holders[v] == s.system.holders[v]
  {
    var s := run[|run| - 1];
    var h := s.system.holders[w];
    var system := s.system.(saved := Held(), holders := s.system.holders[w := h.(base := h.memory, phase := Launching)]);
    var t := s.(system := system, leaseUntil := s.clock + Lease, savedAt := s.savedAt[w := s.clock]);
    longer := ExtendTimed(1, 1, delay, run, t, Do(Checkpoint(w, true)));
  }

  lemma ExtendLaunch(delay: real, run: seq<Timed>, w: Token) returns (longer: seq<Timed>)
    requires TimedRun(1, 1, delay, run) && ReadyToLaunch(run[|run| - 1], w)
    requires run[|run| - 1].clock <= run[|run| - 1].savedAt[w] + delay
    ensures TimedRun(1, 1, delay, longer)
    ensures var s, t := run[|run| - 1], longer[|longer| - 1];
      && Judges(t.system, w, 0) && t.system.holders[w].live.Keys == {0} && t.started == s.started[(w, 0) := s.clock]
      && t.clock == s.clock && t.leaseUntil == s.leaseUntil && t.savedAt == s.savedAt
      && t.system.saved == s.system.saved && t.system.used == s.system.used && t.system.cancelRequested == s.system.cancelRequested
      && t.system.holders.Keys == s.system.holders.Keys
      && forall v :: v in s.system.holders && v != w ==> t.system.holders[v] == s.system.holders[v]
  {
    var h := run[|run| - 1].system.holders[w];
    longer := ExtendWork(1, 1, delay, run, w, h.(active := {0}, live := map[0 := Answered()]), Launch(0));
  }

  // The first holder has its answer and saves, at time 1.
  lemma FirstSaves(delay: real) returns (run: seq<Timed>)
    ensures TimedRun(1, 1, delay, run)
    ensures var s := run[|run| - 1];
      && ReadyToLaunch(s, 0) && s.clock == 1.0 == s.savedAt[0] && s.leaseUntil == 1.0 + Lease
      && s.system.used == {0} && s.system.holders.Keys == {0} && !s.system.cancelRequested
  {
    var s := Timed(System(New(1), None, false, false, {}, map[]), 0.0, 0.0, map[], map[]);
    run := [s];
    assert New(1).executions == [Fresh];
    var s1 := s.(clock := 1.0);
    run := ExtendTimed(1, 1, delay, run, s1, Pass(1.0));
    var h := Claimed(s.system);
    var system := s.system.(lease := Some(0), used := {0}, holders := map[0 := h]);
    assert s.system.used + {0} == {0} && s.system.holders[0 := h] == map[0 := h];
    var s2 := Timed(system, 1.0, 1.0 + Lease, map[0 := 1.0], map[]);
    assert s1.savedAt[0 := 1.0] == map[0 := 1.0];
    run := ExtendTimed(1, 1, delay, run, s2, Do(Claim(0)));
    run := ExtendWork(1, 1, delay, run, 0, h.(phase := Advancing), StartAdvancing);
    AdvanceAlone();
    ScoredAlone();
    assert Held().executions[0] == Answered();
    run := ExtendWork(1, 1, delay, run, 0, h.(phase := Saving, memory := Held()), AdvancePass([Reply]));
    run := ExtendSave(delay, run, 0);
  }

  // The second holder claims, finds the execution in judging and saves.
  lemma SecondSaves(delay: real, before: seq<Timed>) returns (run: seq<Timed>)
    requires TimedRun(1, 1, delay, before)
    requires var s := before[|before| - 1];
      s.system.saved == Held() && s.leaseUntil < s.clock && s.system.used == {0} && s.system.holders.Keys == {0} && !s.system.cancelRequested
    ensures TimedRun(1, 1, delay, run)
    ensures var s, t := before[|before| - 1], run[|run| - 1];
      && ReadyToLaunch(t, 1) && t.clock == s.clock == t.savedAt[1]
      && t.system.holders.Keys == {0, 1} && t.system.holders[0] == s.system.holders[0]
  {
    var s := before[|before| - 1];
    var h := Claimed(s.system);
    var system := s.system.(lease := Some(1), used := s.system.used + {1}, holders := s.system.holders[1 := h]);
    var s1 := s.(system := system, leaseUntil := s.clock + Lease, savedAt := s.savedAt[1 := s.clock]);
    run := ExtendTimed(1, 1, delay, before, s1, Do(Claim(1)));
    run := ExtendWork(1, 1, delay, run, 1, h.(phase := Advancing), StartAdvancing);
    PassAlone(h.(phase := Advancing));
    run := ExtendWork(1, 1, delay, run, 1, h.(phase := Saving), AdvancePass([Unreachable]));
    run := ExtendSave(delay, run, 1);
  }

  // For every longer delay: the first holder launches its judge late, the lease
  // lapses while the judge still lives, and a second holder judges the same
  // execution.
  lemma LapseDoublesJudges(delay: real) returns (run: seq<Timed>)
    requires delay > Lease - JudgeLife
    ensures TimedRun(1, 1, delay, run)
    ensures Judges(run[|run| - 1].system, 0, 0) && Judges(run[|run| - 1].system, 1, 0)
  {
    run := FirstSaves(delay);
    var s := run[|run| - 1];
    run := ExtendTimed(1, 1, delay, run, s.(clock := 1.0 + delay), Pass(1.0 + delay));
    run := ExtendLaunch(delay, run, 0);
    s := run[|run| - 1];
    run := ExtendTimed(1, 1, delay, run, s.(clock := 1.0 + delay + JudgeLife), Pass(1.0 + delay + JudgeLife));
    run := SecondSaves(delay, run);
    run := ExtendLaunch(delay, run, 1);
  }

  // No execution ever has judges of two holders, in any timed run, if and only
  // if a judge starts at most fifty seconds after the checkpoint before it.
  lemma ExclusiveIff(delay: real)
    ensures AlwaysExclusive(delay) <==> delay <= 50.0
  {
    if delay <= 50.0 {
      forall cap: nat, models: nat, run: seq<Timed>, k: nat ensures ExclusiveAt(cap, models, delay, run, k) {
        if TimedRun(cap, models, delay, run) && k < |run| {
          forall w, v, i | Judges(run[k].system, w, i) && Judges(run[k].system, v, i) ensures w == v {
            OneHolderJudges(cap, models, delay, run, k, w, i, v, i);
          }
        }
      }
    } else {
      var run := LapseDoublesJudges(delay);
      assert !ExclusiveAt(1, 1, delay, run, |run| - 1);
    }
  }
}
