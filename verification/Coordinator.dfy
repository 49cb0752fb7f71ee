// The evaluation coordinator as a state machine: lease holders that admit runs,
// checkpoint, launch judges over a buffered channel and write their results
// back. A lease can lapse while its holder still works, so several holders
// interleave, with crashes, lost replies, cancellation and re-judging.
module Coordinator {
  import opened Common
  import opened Evaluation
  import opened Scoring
  import opened EvaluationEngine

  type Token = nat           // one per claim

  datatype Record = Record(executions: seq<Execution>, references: Option<References>, state: EvaluationState)

  // What a judge sends back: the copy it was given, with its own fields filled in.
  datatype Verdict = Verdict(index: nat, execution: Execution, failed: bool)

  datatype Phase = Deciding | Advancing | Saving | Launching | Waiting | Recording | Leaving

  datatype Holder = Holder(
    cancelling: bool,            // the flag as it was claimed
    phase: Phase,
    base: Record,                // what this holder last read or stored
    memory: Record,              // its own copy
    active: set<nat>,            // its own map of judged indices
    live: map<nat, Execution>,   // running judges and the copies they own
    channel: seq<Verdict>)       // finished results, capacity = the concurrency

  datatype System = System(
    saved: Record,               // the stored row
    lease: Option<Token>,        // its lease token
    cancelRequested: bool,
    rejudged: bool,              // some re-judge was accepted in the past
    used: set<Token>,            // tokens ever generated
    holders: map<Token, Holder>)

  // What a holder does on its own.
  datatype Action =
    | CancelPass(removals: seq<Removal>, memory: Record)
    | StartAdvancing
    | AdvancePass(lookups: seq<Lookup>)
    | SaveRefused
    | Launch(index: nat)
    | EndLaunch
    | JudgeFinish(index: nat, judgment: Option<Judgment>, compacted: Option<bool>, failed: bool)
    | Tick
    | Receive
    | Stop

  datatype Step =
    | Claim(w: Token)
    | Work(w: Token, action: Action)
    | Checkpoint(w: Token, acknowledged: bool)
    | Leave(w: Token, stored: bool)
    | Crash(w: Token)
    | RequestCancel
    | Retry

  function Stored(r: Record, cancelRequested: bool): Record {
    if cancelRequested && r.state != EvalCancelled then r.(state := EvalRunning) else r
  }

  ghost function Scored(r: Record): Record {
    var (xs, refs) := Score(r.executions, r.references);
    r.(executions := xs, references := refs)
  }

  // A judge changes only its judgment and the compaction flag of its copy.
  function Judged(copy: Execution, judgment: Option<Judgment>, compacted: Option<bool>): Execution {
    copy.(judgment := judgment, compacted := compacted)
  }

  // The received copy with its final state, as it replaces the execution.
  function Settle(v: Verdict): Execution {
    if v.failed then v.execution.(state := Errored, message := Some(JudgingFailed))
    else v.execution.(state := Completed)
  }

  // What a cancelling pass may leave behind, failed or not.
  ghost predicate Cancels(a: Record, b: Record, removals: seq<Removal>) {
    && |removals| == |a.executions| == |b.executions|
    && b.references == a.references
    && (forall i :: 0 <= i < |b.executions| ==>
          b.executions[i] == a.executions[i] || b.executions[i] == CancelOne(a.executions[i], removals[i]).0)
    && (b.state == a.state || (b.state == EvalCancelled && AllTerminal(b.executions)))
  }

  ghost predicate HasJudging(xs: seq<Execution>) {
    exists i :: 0 <= i < |xs| && xs[i].state.Judging?
  }

  ghost function New(models: nat): Record { Record(seq(models, i => Fresh), None, EvalQueued) }

  ghost predicate Init(s: System, models: nat) {
    s == System(New(models), None, false, false, {}, map[])
  }

  // After a pass: finished, nothing to judge yet, or on to the checkpoint.
  ghost function AfterPass(h: Holder, scored: Record): Holder {
    if AllTerminal(scored.executions) then h.(memory := scored.(state := EvalCompleted), phase := Leaving)
    else if !HasJudging(scored.executions) then h.(memory := scored, phase := Leaving)
    else h.(memory := scored, phase := Saving)
  }

  ghost function Advanced(h: Holder, cap: nat, lookups: seq<Lookup>): Holder
    requires |lookups| == |h.memory.executions|
  {
    var (xs, failed) := Advance(h.memory.executions, cap, lookups);
    var memory := h.memory.(executions := xs);
    if failed then h.(memory := memory, phase := Leaving) else AfterPass(h, Scored(memory))
  }

  ghost function Received(h: Holder): Holder
    requires h.channel != [] && h.channel[0].index < |h.memory.executions|
  {
    var v := h.channel[0];
    h.(active := h.active - {v.index}, channel := h.channel[1..], phase := Recording,
       memory := Scored(h.memory.(executions := h.memory.executions[v.index := Settle(v)])))
  }

  // Every slot for judges is taken, or every judged execution has its judge.
  ghost predicate JudgesFilled(h: Holder, cap: nat) {
    |h.active| >= cap || forall i :: 0 <= i < |h.memory.executions| && h.memory.executions[i].state.Judging? ==> i in h.active
  }

  ghost predicate Acts(cap: nat, h: Holder, g: Holder, action: Action) {
    match action
    case CancelPass(removals, memory) =>
      // requested, or access to the agent was revoked
      && h.phase == Deciding && Cancels(h.memory, memory, removals)
      && g == h.(memory := memory, phase := Leaving)
    case StartAdvancing =>
      h.phase == Deciding && !h.cancelling && g == h.(phase := Advancing)
    case AdvancePass(lookups) =>
      h.phase == Advancing && |lookups| == |h.memory.executions| && g == Advanced(h, cap, lookups)
    case SaveRefused =>
      // not applied: the lease was lost, or the database failed
      (h.phase == Saving || h.phase == Recording) && g == h.(phase := Leaving)
    case Launch(i) =>
      && h.phase == Launching && i < |h.memory.executions| && h.memory.executions[i].state.Judging?
      && i !in h.active && |h.active| < cap
      && g == h.(active := h.active + {i}, live := h.live[i := h.memory.executions[i]])
    case EndLaunch => h.phase == Launching && JudgesFilled(h, cap) && g == h.(phase := Waiting)
    case JudgeFinish(i, judgment, compacted, failed) =>
      // the send needs room in the buffer; grades are validated before
      && i in h.live && |h.channel| < cap && GradeInRange(Judged(h.live[i], judgment, compacted))
      && g == h.(live := h.live - {i},
                 channel := h.channel + [Verdict(i, Judged(h.live[i], judgment, compacted), failed)])
    case Tick => h.phase == Waiting && g == h.(phase := Advancing)
    case Receive =>
      && h.phase == Waiting && h.channel != [] && h.channel[0].index < |h.memory.executions|
      && g == Received(h)
    case Stop => g == h.(phase := Leaving)
  }

  ghost function Claimed(s: System): Holder {
    Holder(s.cancelRequested, Deciding, s.saved, s.saved.(state := EvalRunning), {}, map[], [])
  }

  ghost predicate NextStep(cap: nat, s: System, t: System, step: Step) {
    match step
    case Claim(w) =>
      // any time the previous lease may have lapsed
      && (s.saved.state == EvalQueued || s.saved.state == EvalRunning) && w !in s.used
      && t == s.(lease := Some(w), used := s.used + {w}, holders := s.holders[w := Claimed(s)])
    case Work(w, action) =>
      && w in s.holders && w in t.holders && Acts(cap, s.holders[w], t.holders[w], action)
      && t == s.(holders := s.holders[w := t.holders[w]])
    case Checkpoint(w, acknowledged) =>
      // the save matches on the token; its reply may be lost
      && w in s.holders && s.lease == Some(w)
      && var h := s.holders[w];
      && (h.phase == Saving || h.phase == Recording)
      && t == s.(saved := Stored(h.memory, s.cancelRequested),
                 holders := s.holders[w := h.(base := h.memory, phase :=
                   if !acknowledged then Leaving else if h.phase == Saving then Launching else Advancing)])
    case Leave(w, stored) =>
      // judges.Wait() has returned; the last save gives the lease back
      && w in s.holders && s.holders[w].phase == Leaving && s.holders[w].live == map[]
      && (stored ==> s.lease == Some(w))
      && t == s.(holders := s.holders - {w},
                 lease := if stored then None else s.lease,
                 saved := if stored then Stored(s.holders[w].memory, s.cancelRequested) else s.saved)
    case Crash(w) => w in s.holders && t == s.(holders := s.holders - {w})
    case RequestCancel => t == s.(cancelRequested := true)
    case Retry =>
      && s.saved.state == EvalCompleted
      && t == s.(saved := s.saved.(executions := Rejudge(s.saved.executions), state := EvalQueued), rejudged := true)
  }

  ghost predicate Next(cap: nat, s: System, t: System) {
    exists step :: NextStep(cap, s, t, step)
  }

  // ---- What every step keeps ----

  ghost predicate RecordOk(r: Record, cap: nat, rejudged: bool) {
    && (Occupied(r.executions) <= cap || (rejudged && Settled(r.executions)))
    && (r.state == EvalCompleted || r.state == EvalCancelled ==> AllTerminal(r.executions))
    && (r.references.None? && Unsettled(r.executions) ==> Unscored(r.executions))
  }

  ghost predicate Unscored(xs: seq<Execution>) {
    forall i :: 0 <= i < |xs| ==> xs[i].score.None? && xs[i].measured.None?
  }

  // A judge's copy differs from the execution it stands for only in what the
  // judge wrote and in the score fields.
  ghost predicate StandsFor(copy: Execution, xs: seq<Execution>, refs: Option<References>, i: nat) {
    && i < |xs| && xs[i].state.Judging?
    && SameEvidence(Judged(copy, None, None), Judged(xs[i], None, None))
    && (refs.None? && Unsettled(xs) ==> copy.score.None? && copy.measured.None?)
  }

  ghost function Indices(channel: seq<Verdict>): seq<nat> {
    seq(|channel|, k requires 0 <= k < |channel| => channel[k].index)
  }

  ghost predicate CopiesOk(live: map<nat, Execution>, channel: seq<Verdict>, xs: seq<Execution>, refs: Option<References>) {
    && (forall i :: i in live ==> StandsFor(live[i], xs, refs, i))
    && (forall k :: 0 <= k < |channel| ==> StandsFor(channel[k].execution, xs, refs, channel[k].index))
  }

  // One judge per active index: running, or finished and waiting in the channel.
  ghost predicate SlotsOk(active: set<nat>, live: set<nat>, waiting: seq<nat>, cap: nat) {
    |active| <= cap && Distinct(waiting) && live !! Elements(waiting) && active == live + Elements(waiting)
  }

  ghost predicate SameContents(a: Record, b: Record) { a.executions == b.executions && a.references == b.references }

  ghost predicate PhaseOk(h: Holder) {
    && (h.phase == Deciding ==> h.active == {} && h.live == map[] && h.channel == [])
    && (h.phase in {Deciding, Advancing, Launching, Waiting} ==> SameContents(h.memory, h.base))
    && (h.phase != Leaving ==> h.memory.state == EvalRunning)
  }

  ghost predicate HolderOk(h: Holder, cap: nat, rejudged: bool) {
    && RecordOk(h.memory, cap, rejudged)
    && SlotsOk(h.active, h.live.Keys, Indices(h.channel), cap)
    && CopiesOk(h.live, h.channel, h.memory.executions, h.memory.references)
    && PhaseOk(h)
  }

  // The lease token's own holder works from what is stored.
  ghost predicate LeaseOk(s: System) {
    s.lease.Some? ==>
      && s.lease.value in s.used
      && (s.saved.state == EvalQueued || s.saved.state == EvalRunning)
      && (s.lease.value in s.holders ==> SameContents(s.holders[s.lease.value].base, s.saved))
  }

  ghost predicate HoldersOk(holders: map<Token, Holder>, cap: nat, rejudged: bool) {
    forall w :: w in holders ==> HolderOk(holders[w], cap, rejudged)
  }

  ghost predicate Inv(s: System, cap: nat) {
    && RecordOk(s.saved, cap, s.rejudged)
    && s.holders.Keys <= s.used
    && HoldersOk(s.holders, cap, s.rejudged)
    && LeaseOk(s)
  }

  // Scoring changes no state, so it keeps everything counted by state.
  lemma ScoredKeeps(r: Record)
    ensures |Scored(r).executions| == |r.executions|
    ensures forall i :: 0 <= i < |r.executions| ==> SameEvidence(Scored(r).executions[i], r.executions[i])
    ensures forall i :: 0 <= i < |r.executions| ==> Scored(r).executions[i].state == r.executions[i].state
    ensures Occupied(Scored(r).executions) == Occupied(r.executions)
    ensures Unsettled(Scored(r).executions) <==> Unsettled(r.executions)
    ensures r.references.None? && Unsettled(r.executions) ==> Scored(r) == r
    ensures r.references.Some? ==> Scored(r).references == r.references
  {
    ScoreTouchesOnlyScores(r.executions, r.references);
    var ys := Scored(r).executions;
    forall i | 0 <= i < |ys| ensures ys[i].state == r.executions[i].state {
      assert SameEvidence(ys[i], r.executions[i]);
    }
    OccupiedByState(r.executions, ys);
  }

  lemma ScoredRecordOk(r: Record, cap: nat, rejudged: bool)
    requires RecordOk(r, cap, rejudged)
    ensures RecordOk(Scored(r), cap, rejudged)
  {
    ScoredKeeps(r);
  }

  lemma AdvanceRecordOk(r: Record, cap: nat, rejudged: bool, lookups: seq<Lookup>)
    requires RecordOk(r, cap, rejudged) && r.state == EvalRunning && |lookups| == |r.executions|
    ensures RecordOk(r.(executions := Advance(r.executions, cap, lookups).0), cap, rejudged)
  {
    AdvanceKeeps(r.executions, cap, lookups);
    var xs := Advance(r.executions, cap, lookups).0;
    if !Unsettled(r.executions) { assert Settled(r.executions); }
    if r.references.None? && Unsettled(xs) {
      forall i | 0 <= i < |xs| ensures xs[i].score.None? && xs[i].measured.None? {
        assert SameScores(xs[i], r.executions[i]);
      }
    }
  }

  // The memory moved on, but judged executions kept their evidence.
  ghost predicate Follows(xs: seq<Execution>, refs: Option<References>, ys: seq<Execution>, refs': Option<References>) {
    && |xs| == |ys|
    && (forall i :: 0 <= i < |xs| && xs[i].state.Judging? ==> SameEvidence(xs[i], ys[i]))
    && (refs'.None? && Unsettled(ys) ==> refs.None? && Unsettled(xs))
  }

  lemma CopiesFollow(live: map<nat, Execution>, channel: seq<Verdict>,
                     xs: seq<Execution>, refs: Option<References>, ys: seq<Execution>, refs': Option<References>)
    requires CopiesOk(live, channel, xs, refs) && Follows(xs, refs, ys, refs')
    ensures CopiesOk(live, channel, ys, refs')
  {
    forall copy, i: nat | StandsFor(copy, xs, refs, i) ensures StandsFor(copy, ys, refs', i) {
      assert SameEvidence(xs[i], ys[i]);
    }
  }

  lemma AdvanceFollows(r: Record, cap: nat, lookups: seq<Lookup>)
    requires |lookups| == |r.executions|
    ensures Follows(r.executions, r.references, Advance(r.executions, cap, lookups).0, r.references)
  {
    AdvanceKeeps(r.executions, cap, lookups);
    if !Unsettled(r.executions) { assert Settled(r.executions); }
  }

  lemma ScoredFollows(r: Record)
    ensures Follows(r.executions, r.references, Scored(r).executions, Scored(r).references)
  {
    ScoredKeeps(r);
  }

  lemma FollowsTransitive(xs: seq<Execution>, r: Option<References>, ys: seq<Execution>, r': Option<References>,
                          zs: seq<Execution>, r'': Option<References>)
    requires Follows(xs, r, ys, r') && Follows(ys, r', zs, r'')
    ensures Follows(xs, r, zs, r'')
  {
    forall i | 0 <= i < |xs| && xs[i].state.Judging? ensures SameEvidence(xs[i], zs[i]) {
      assert SameEvidence(xs[i], ys[i]);
      assert xs[i].state == ys[i].state;
    }
  }

  // An action that only moved the memory on, and did not go back to waiting.
  lemma MemoryMoved(h: Holder, g: Holder, cap: nat, rejudged: bool)
    requires HolderOk(h, cap, rejudged)
    requires g == h.(memory := g.memory, phase := g.phase)
    requires g.phase == Leaving || (g.phase == Saving && g.memory.state == EvalRunning)
    requires RecordOk(g.memory, cap, rejudged)
    requires Follows(h.memory.executions, h.memory.references, g.memory.executions, g.memory.references)
    ensures HolderOk(g, cap, rejudged)
  {
    CopiesFollow(h.live, h.channel, h.memory.executions, h.memory.references, g.memory.executions, g.memory.references);
  }

  lemma AdvanceMemory(m: Record, cap: nat, rejudged: bool, lookups: seq<Lookup>)
    requires RecordOk(m, cap, rejudged) && m.state == EvalRunning && |lookups| == |m.executions|
    ensures var m' := m.(executions := Advance(m.executions, cap, lookups).0);
      && RecordOk(m', cap, rejudged) && RecordOk(Scored(m'), cap, rejudged)
      && Follows(m.executions, m.references, m'.executions, m'.references)
      && Follows(m.executions, m.references, Scored(m').executions, Scored(m').references)
  {
    var m' := m.(executions := Advance(m.executions, cap, lookups).0);
    AdvanceRecordOk(m, cap, rejudged, lookups);
    AdvanceFollows(m, cap, lookups);
    ScoredRecordOk(m', cap, rejudged);
    ScoredFollows(m');
    FollowsTransitive(m.executions, m.references, m'.executions, m'.references,
                      Scored(m').executions, Scored(m').references);
  }

  lemma AfterPassKeeps(h: Holder, scored: Record, cap: nat, rejudged: bool)
    requires HolderOk(h, cap, rejudged) && RecordOk(scored, cap, rejudged) && scored.state == EvalRunning
    requires Follows(h.memory.executions, h.memory.references, scored.executions, scored.references)
    ensures HolderOk(AfterPass(h, scored), cap, rejudged)
  {
    if AllTerminal(scored.executions) {
      MemoryMoved(h, h.(memory := scored.(state := EvalCompleted), phase := Leaving), cap, rejudged);
    } else {
      MemoryMoved(h, h.(memory := scored, phase := Leaving), cap, rejudged);
      MemoryMoved(h, h.(memory := scored, phase := Saving), cap, rejudged);
    }
  }

  // A pass ends with the advanced list, scored or, when it failed, not.
  lemma AdvancedMemory(h: Holder, cap: nat, lookups: seq<Lookup>)
    requires |lookups| == |h.memory.executions|
    ensures var g, m := Advanced(h, cap, lookups), h.memory.(executions := Advance(h.memory.executions, cap, lookups).0);
      && g.base == h.base && g.live == h.live && g.channel == h.channel
      && (SameContents(g.memory, m) || SameContents(g.memory, Scored(m)))
  {
  }

  lemma AdvancePassKeeps(h: Holder, g: Holder, cap: nat, rejudged: bool, lookups: seq<Lookup>)
    requires HolderOk(h, cap, rejudged) && Acts(cap, h, g, AdvancePass(lookups))
    ensures HolderOk(g, cap, rejudged)
  {
    AdvanceMemory(h.memory, cap, rejudged, lookups);
    var (xs, failed) := Advance(h.memory.executions, cap, lookups);
    var m' := h.memory.(executions := xs);
    if failed {
      MemoryMoved(h, g, cap, rejudged);
    } else {
      AfterPassKeeps(h, Scored(m'), cap, rejudged);
    }
  }

  lemma CancelPassKeeps(h: Holder, g: Holder, cap: nat, rejudged: bool, removals: seq<Removal>, memory: Record)
    requires HolderOk(h, cap, rejudged) && Acts(cap, h, g, CancelPass(removals, memory))
    ensures HolderOk(g, cap, rejudged)
  {
    var a, b := h.memory.executions, memory.executions;
    forall i | 0 <= i < |a| ensures b[i].state == a[i].state || b[i].state.Terminal() {
    }
    forall i | 0 <= i < |a| ensures SameScores(a[i], b[i]) {
    }
    OccupiedShrinks(a, b);
    CancelRecordOk(h.memory, memory, cap, rejudged);
  }

  lemma CancelRecordOk(r: Record, r': Record, cap: nat, rejudged: bool)
    requires RecordOk(r, cap, rejudged) && r.state == EvalRunning && r'.references == r.references
    requires |r.executions| == |r'.executions| && Occupied(r'.executions) <= Occupied(r.executions)
    requires forall i :: 0 <= i < |r.executions| ==>
      r'.executions[i].state == r.executions[i].state || r'.executions[i].state.Terminal()
    requires forall i :: 0 <= i < |r.executions| ==> SameScores(r.executions[i], r'.executions[i])
    requires r'.state == r.state || (r'.state == EvalCancelled && AllTerminal(r'.executions))
    ensures RecordOk(r', cap, rejudged)
  {
    if Unsettled(r'.executions) {
      var i :| 0 <= i < |r'.executions| && (r'.executions[i].state.Queued? || r'.executions[i].state.Running?);
      assert r.executions[i].state == r'.executions[i].state;
    }
    if r'.references.None? && Unsettled(r'.executions) {
      forall i | 0 <= i < |r'.executions| ensures r'.executions[i].score.None? && r'.executions[i].measured.None? {
        assert SameScores(r.executions[i], r'.executions[i]);
      }
    }
  }

  lemma SlotTaken(active: set<nat>, live: set<nat>, waiting: seq<nat>, cap: nat, i: nat)
    requires SlotsOk(active, live, waiting, cap) && i !in active && |active| < cap
    ensures SlotsOk(active + {i}, live + {i}, waiting, cap)
  {
  }

  // A finishing judge moves from running to waiting and keeps its slot.
  lemma SlotPassedOn(active: set<nat>, live: set<nat>, waiting: seq<nat>, cap: nat, i: nat)
    requires SlotsOk(active, live, waiting, cap) && i in live
    ensures SlotsOk(active, live - {i}, waiting + [i], cap)
  {
    ElementsGrow(waiting, i);
    assert i !in Elements(waiting);
  }

  lemma LaunchKeeps(h: Holder, g: Holder, cap: nat, rejudged: bool, i: nat)
    requires HolderOk(h, cap, rejudged) && Acts(cap, h, g, Launch(i))
    ensures HolderOk(g, cap, rejudged)
  {
    LaunchedParts(h.memory, h.active, h.live, h.channel, cap, rejudged, i);
  }

  lemma LaunchedParts(r: Record, active: set<nat>, live: map<nat, Execution>, channel: seq<Verdict>, cap: nat, rejudged: bool, i: nat)
    requires RecordOk(r, cap, rejudged) && CopiesOk(live, channel, r.executions, r.references)
    requires SlotsOk(active, live.Keys, Indices(channel), cap) && i !in active && |active| < cap
    requires i < |r.executions| && r.executions[i].state.Judging?
    ensures SlotsOk(active + {i}, live[i := r.executions[i]].Keys, Indices(channel), cap)
    ensures CopiesOk(live[i := r.executions[i]], channel, r.executions, r.references)
  {
    SlotTaken(active, live.Keys, Indices(channel), cap, i);
    assert live[i := r.executions[i]].Keys == live.Keys + {i};
    CopyLaunched(live, channel, r, cap, rejudged, i);
  }

  lemma CopyLaunched(live: map<nat, Execution>, channel: seq<Verdict>, r: Record, cap: nat, rejudged: bool, i: nat)
    requires CopiesOk(live, channel, r.executions, r.references) && RecordOk(r, cap, rejudged)
    requires i < |r.executions| && r.executions[i].state.Judging?
    ensures CopiesOk(live[i := r.executions[i]], channel, r.executions, r.references)
  {
    assert StandsFor(r.executions[i], r.executions, r.references, i);
  }

  lemma CopyFinished(live: map<nat, Execution>, channel: seq<Verdict>, xs: seq<Execution>, refs: Option<References>, v: Verdict)
    requires CopiesOk(live, channel, xs, refs) && v.index in live
    requires exists j, c :: v.execution == Judged(live[v.index], j, c)
    ensures CopiesOk(live - {v.index}, channel + [v], xs, refs)
  {
    assert StandsFor(live[v.index], xs, refs, v.index);
    assert StandsFor(v.execution, xs, refs, v.index);
  }

  lemma JudgeFinishKeeps(h: Holder, g: Holder, cap: nat, rejudged: bool, v: Verdict)
    requires HolderOk(h, cap, rejudged) && v.index in h.live
    requires exists j, c :: v.execution == Judged(h.live[v.index], j, c)
    requires g == h.(live := h.live - {v.index}, channel := h.channel + [v])
    ensures HolderOk(g, cap, rejudged)
  {
    var i := v.index;
    SlotPassedOn(h.active, h.live.Keys, Indices(h.channel), cap, i);
    assert Indices(g.channel) == Indices(h.channel) + [i];
    assert g.live.Keys == h.live.Keys - {i};
    CopyFinished(h.live, h.channel, h.memory.executions, h.memory.references, v);
  }

  // Taking the first result out frees exactly its slot.
  lemma SlotFreed(active: set<nat>, live: set<nat>, waiting: seq<nat>, cap: nat)
    requires SlotsOk(active, live, waiting, cap) && waiting != []
    ensures SlotsOk(active - {waiting[0]}, live, waiting[1..], cap)
    ensures waiting[0] !in live && waiting[0] !in waiting[1..]
  {
    assert waiting == [waiting[0]] + waiting[1..];
    ElementsGrow(waiting[1..], waiting[0]);
    assert waiting[0] in Elements(waiting);
    SubsetCardinality(active - {waiting[0]}, active);
  }

  lemma WriteBackRecordOk(r: Record, v: Verdict, cap: nat, rejudged: bool)
    requires RecordOk(r, cap, rejudged) && r.state == EvalRunning
    requires StandsFor(v.execution, r.executions, r.references, v.index)
    ensures RecordOk(r.(executions := r.executions[v.index := Settle(v)]), cap, rejudged)
    ensures Unsettled(r.executions[v.index := Settle(v)]) <==> Unsettled(r.executions)
  {
    OccupiedUpdate(r.executions, v.index, Settle(v));
    var xs, ys := r.executions, r.executions[v.index := Settle(v)];
    if Unsettled(ys) {
      var i :| 0 <= i < |ys| && (ys[i].state.Queued? || ys[i].state.Running?);
      assert xs[i] == ys[i];
    }
    if Unsettled(xs) {
      var i :| 0 <= i < |xs| && (xs[i].state.Queued? || xs[i].state.Running?);
      assert xs[i] == ys[i];
    }
  }

  lemma OthersUnaffected(live: map<nat, Execution>, channel: seq<Verdict>, r: Record, v: Verdict)
    requires CopiesOk(live, [v] + channel, r.executions, r.references)
    requires v.index !in live && v.index !in Indices(channel)
    requires v.index < |r.executions|
    requires Unsettled(r.executions[v.index := Settle(v)]) ==> Unsettled(r.executions)
    ensures CopiesOk(live, channel, r.executions[v.index := Settle(v)], r.references)
  {
    forall k | 0 <= k < |channel|
      ensures StandsFor(channel[k].execution, r.executions[v.index := Settle(v)], r.references, channel[k].index)
    {
      assert ([v] + channel)[k + 1] == channel[k];
      assert Indices(channel)[k] == channel[k].index;
    }
  }

  lemma FirstStands(h: Holder, cap: nat, rejudged: bool)
    requires HolderOk(h, cap, rejudged) && h.channel != []
    ensures StandsFor(h.channel[0].execution, h.memory.executions, h.memory.references, h.channel[0].index)
  {
  }

  lemma IndicesTail(channel: seq<Verdict>)
    requires channel != []
    ensures channel == [channel[0]] + channel[1..] && Indices(channel[1..]) == Indices(channel)[1..]
  {
  }

  lemma ReceiveKeeps(h: Holder, g: Holder, cap: nat, rejudged: bool)
    requires HolderOk(h, cap, rejudged) && Acts(cap, h, g, Receive)
    ensures HolderOk(g, cap, rejudged)
  {
    var v, rest := h.channel[0], h.channel[1..];
    IndicesTail(h.channel);
    SlotFreed(h.active, h.live.Keys, Indices(h.channel), cap);
    FirstStands(h, cap, rejudged);
    WrittenBack(h.live, rest, h.memory, v, cap, rejudged);
  }

  lemma WrittenBack(live: map<nat, Execution>, rest: seq<Verdict>, r: Record, v: Verdict, cap: nat, rejudged: bool)
    requires RecordOk(r, cap, rejudged) && r.state == EvalRunning
    requires CopiesOk(live, [v] + rest, r.executions, r.references)
    requires StandsFor(v.execution, r.executions, r.references, v.index)
    requires v.index !in live && v.index !in Indices(rest)
    ensures var m := Scored(r.(executions := r.executions[v.index := Settle(v)]));
      RecordOk(m, cap, rejudged) && CopiesOk(live, rest, m.executions, m.references)
  {
    WriteBackRecordOk(r, v, cap, rejudged);
    OthersUnaffected(live, rest, r, v);
    var m := r.(executions := r.executions[v.index := Settle(v)]);
    ScoredRecordOk(m, cap, rejudged);
    ScoredFollows(m);
    CopiesFollow(live, rest, m.executions, m.references, Scored(m).executions, Scored(m).references);
  }

  lemma ActsKeeps(h: Holder, g: Holder, cap: nat, rejudged: bool, action: Action)
    requires HolderOk(h, cap, rejudged) && Acts(cap, h, g, action)
    ensures HolderOk(g, cap, rejudged)
  {
    match action
    case CancelPass(removals, memory) => CancelPassKeeps(h, g, cap, rejudged, removals, memory);
    case AdvancePass(lookups) => AdvancePassKeeps(h, g, cap, rejudged, lookups);
    case Launch(i) => LaunchKeeps(h, g, cap, rejudged, i);
    case JudgeFinish(i, judgment, compacted, failed) =>
      JudgeFinishKeeps(h, g, cap, rejudged, Verdict(i, Judged(h.live[i], judgment, compacted), failed));
    case Receive => ReceiveKeeps(h, g, cap, rejudged);
    case _ => PhaseMoved(h, g, cap, rejudged, action);
  }

  // Actions that only move the phase.
  lemma PhaseMoved(h: Holder, g: Holder, cap: nat, rejudged: bool, action: Action)
    requires HolderOk(h, cap, rejudged) && Acts(cap, h, g, action)
    requires action.StartAdvancing? || action.SaveRefused? || action.EndLaunch? || action.Tick? || action.Stop?
    ensures HolderOk(g, cap, rejudged)
  {
    assert g == h.(phase := g.phase);
    assert PhaseOk(g);
  }

  // What a holder read or stored last changes only by its own saves.
  lemma ActsKeepsBase(h: Holder, g: Holder, cap: nat, action: Action)
    requires Acts(cap, h, g, action)
    ensures g.base == h.base
  {
  }

  // A holder stays sound when a re-judge is accepted behind its back.
  lemma RejudgedLater(h: Holder, cap: nat)
    requires HolderOk(h, cap, false)
    ensures HolderOk(h, cap, true)
  {
  }

  lemma ClaimKeeps(s: System, t: System, cap: nat, w: Token)
    requires Inv(s, cap) && NextStep(cap, s, t, Claim(w))
    ensures Inv(t, cap)
  {
    assert HolderOk(Claimed(s), cap, s.rejudged);
    OneReplaced(s.holders, cap, s.rejudged, w, Claimed(s));
  }

  lemma WorkKeeps(s: System, t: System, cap: nat, w: Token, action: Action)
    requires Inv(s, cap) && NextStep(cap, s, t, Work(w, action))
    ensures Inv(t, cap)
  {
    var h, g := s.holders[w], t.holders[w];
    assert HolderOk(h, cap, s.rejudged);
    assert Acts(cap, h, g, action);
    ActsKeeps(h, g, cap, s.rejudged, action);
    ActsKeepsBase(h, g, cap, action);
    HolderReplaced(s, t, cap, w);
  }

  lemma HolderReplaced(s: System, t: System, cap: nat, w: Token)
    requires Inv(s, cap) && w in s.holders && w in t.holders && t == s.(holders := s.holders[w := t.holders[w]])
    requires HolderOk(t.holders[w], cap, s.rejudged) && t.holders[w].base == s.holders[w].base
    ensures Inv(t, cap)
  {
    OneReplaced(s.holders, cap, s.rejudged, w, t.holders[w]);
  }

  lemma OneReplaced(holders: map<Token, Holder>, cap: nat, rejudged: bool, w: Token, h: Holder)
    requires HoldersOk(holders, cap, rejudged) && HolderOk(h, cap, rejudged)
    ensures HoldersOk(holders[w := h], cap, rejudged)
  {
  }

  lemma CheckpointKeeps(s: System, t: System, cap: nat, w: Token, acknowledged: bool)
    requires Inv(s, cap) && NextStep(cap, s, t, Checkpoint(w, acknowledged))
    ensures Inv(t, cap)
  {
    assert HolderOk(s.holders[w], cap, s.rejudged);
    assert HolderOk(t.holders[w], cap, s.rejudged);
    OneReplaced(s.holders, cap, s.rejudged, w, t.holders[w]);
    assert RecordOk(t.saved, cap, s.rejudged);
  }

  lemma RetryKeeps(s: System, t: System, cap: nat)
    requires Inv(s, cap) && NextStep(cap, s, t, Retry)
    ensures Inv(t, cap) && s.lease.None?
  {
    RejudgeSettles(s.saved.executions);
    assert !Unsettled(t.saved.executions);
    forall w | w in t.holders ensures HolderOk(t.holders[w], cap, t.rejudged) {
      if !s.rejudged { RejudgedLater(s.holders[w], cap); }
    }
  }

  lemma StepKeeps(s: System, t: System, cap: nat, step: Step)
    requires Inv(s, cap) && NextStep(cap, s, t, step)
    ensures Inv(t, cap)
  {
    match step
    case Claim(w) => ClaimKeeps(s, t, cap, w);
    case Work(w, action) => WorkKeeps(s, t, cap, w, action);
    case Checkpoint(w, acknowledged) => CheckpointKeeps(s, t, cap, w, acknowledged);
    case Retry => RetryKeeps(s, t, cap);
    case _ =>
  }

  // ---- Whole runs ----

  ghost predicate Joined(cap: nat, run: seq<System>, k: int) { 0 < k < |run| ==> Next(cap, run[k - 1], run[k]) }

  ghost predicate Run(cap: nat, models: nat, run: seq<System>) {
    run != [] && Init(run[0], models) && forall k :: Joined(cap, run, k)
  }

  lemma FreshOccupied(n: nat)
    ensures Occupied(seq(n, i => Fresh)) == 0
  {
    OccupiedZero(seq(n, i => Fresh));
  }

  lemma {:induction false} RunKeeps(cap: nat, models: nat, run: seq<System>, k: nat)
    requires Run(cap, models, run) && k < |run|
    ensures Inv(run[k], cap)
    decreases k
  {
    if k == 0 {
      FreshOccupied(models);
    } else {
      RunKeeps(cap, models, run, k - 1);
      assert Joined(cap, run, k);
      var step :| NextStep(cap, run[k - 1], run[k], step);
      StepKeeps(run[k - 1], run[k], cap, step);
    }
  }

  lemma RunHolder(cap: nat, models: nat, run: seq<System>, k: nat, w: Token)
    requires Run(cap, models, run) && k < |run| && w in run[k].holders
    ensures HolderOk(run[k].holders[w], cap, run[k].rejudged)
  {
    RunKeeps(cap, models, run, k);
  }

  // Until a re-judge is accepted, neither the stored evaluation nor any holder's
  // copy, stale or not, ever has more running and judging executions than the
  // cap; after one, an excess consists of judged executions with nothing left
  // to admit.
  lemma ConcurrencyRespected(cap: nat, models: nat, run: seq<System>, k: nat)
    requires Run(cap, models, run) && k < |run|
    ensures var s := run[k];
      && (!s.rejudged ==> Occupied(s.saved.executions) <= cap)
      && (Occupied(s.saved.executions) > cap ==> Settled(s.saved.executions))
    ensures forall w :: w in run[k].holders ==> var xs := run[k].holders[w].memory.executions;
      (!run[k].rejudged ==> Occupied(xs) <= cap) && (Occupied(xs) > cap ==> Settled(xs))
  {
    RunKeeps(cap, models, run, k);
    forall w | w in run[k].holders
      ensures var xs := run[k].holders[w].memory.executions;
        (!run[k].rejudged ==> Occupied(xs) <= cap) && (Occupied(xs) > cap ==> Settled(xs))
    {
      RunHolder(cap, models, run, k, w);
    }
  }

  // An accepted re-judge leaves as many judging executions as transcripts were
  // kept, so it starts above the cap exactly when those outnumber it.
  lemma RejudgeExceedsIff(cap: nat, models: nat, run: seq<System>, k: nat)
    requires Run(cap, models, run) && k + 1 < |run| && NextStep(cap, run[k], run[k + 1], Retry)
    ensures Occupied(run[k + 1].saved.executions) == Kept(run[k].saved.executions)
    ensures Occupied(run[k + 1].saved.executions) > cap <==> Kept(run[k].saved.executions) > cap
  {
    RunKeeps(cap, models, run, k);
    RejudgeOccupies(run[k].saved.executions, cap);
  }

  // Completed or cancelled means that every execution is terminal.
  lemma FinishedMeansTerminal(cap: nat, models: nat, run: seq<System>, k: nat)
    requires Run(cap, models, run) && k < |run|
    requires run[k].saved.state == EvalCompleted || run[k].saved.state == EvalCancelled
    ensures AllTerminal(run[k].saved.executions) && run[k].lease.None?
  {
    RunKeeps(cap, models, run, k);
  }

  lemma SlotsAddUp(active: set<nat>, live: set<nat>, waiting: seq<nat>, cap: nat)
    requires SlotsOk(active, live, waiting, cap)
    ensures |live| + |waiting| == |active| <= cap
  {
    DistinctCardinality(waiting);
  }

  // A holder's live judges never outnumber the cap (re-judging included), each
  // owns a different execution that is still being judged, and the result it
  // sends always finds room in the buffer.
  lemma JudgesNeverBlock(cap: nat, models: nat, run: seq<System>, k: nat, w: Token)
    requires Run(cap, models, run) && k < |run| && w in run[k].holders
    ensures var h := run[k].holders[w];
      && |h.live| + |h.channel| <= cap
      && Distinct(Indices(h.channel)) && h.live.Keys !! Elements(Indices(h.channel))
      && (forall i :: i in h.live ==> i < |h.memory.executions| && h.memory.executions[i].state.Judging? && |h.channel| < cap)
  {
    RunHolder(cap, models, run, k, w);
    HolderRoom(run[k].holders[w], cap, run[k].rejudged);
  }

  lemma HolderRoom(h: Holder, cap: nat, rejudged: bool)
    requires HolderOk(h, cap, rejudged)
    ensures |h.live| + |h.channel| <= cap
    ensures forall i :: i in h.live ==> i < |h.memory.executions| && h.memory.executions[i].state.Judging? && |h.channel| < cap
  {
    SlotsAddUp(h.active, h.live.Keys, Indices(h.channel), cap);
    forall i | i in h.live
      ensures i < |h.memory.executions| && h.memory.executions[i].state.Judging? && |h.channel| < cap
    {
      assert StandsFor(h.live[i], h.memory.executions, h.memory.references, i);
      assert h.live.Keys != {};
    }
  }

  lemma UsedCovers(cap: nat, models: nat, run: seq<System>, k: nat)
    requires Run(cap, models, run) && k < |run|
    ensures run[k].holders.Keys <= run[k].used
  {
    RunKeeps(cap, models, run, k);
  }

  // ---- Waiting for the judges ----

  // Every live judge can finish at any time: its send never waits.
  lemma JudgeCanFinish(cap: nat, models: nat, run: seq<System>, k: nat, w: Token, i: nat) returns (t: System)
    requires Run(cap, models, run) && k < |run| && w in run[k].holders && i in run[k].holders[w].live
    ensures NextStep(cap, run[k], t, Work(w, JudgeFinish(i, None, None, true)))
    ensures t.holders[w].live == run[k].holders[w].live - {i}
  {
    var h := run[k].holders[w];
    RunHolder(cap, models, run, k, w);
    HolderRoom(h, cap, run[k].rejudged);
    var g := h.(live := h.live - {i}, channel := h.channel + [Verdict(i, Judged(h.live[i], None, None), true)]);
    t := run[k].(holders := run[k].holders[w := g]);
  }

  // A leaving holder starts nothing: whatever happens, its judges only go.
  lemma LeavingOnlyDrains(cap: nat, s: System, t: System, step: Step, w: Token)
    requires s.holders.Keys <= s.used && NextStep(cap, s, t, step)
    requires w in s.holders && w in t.holders && s.holders[w].phase == Leaving
    ensures t.holders[w].phase == Leaving && t.holders[w].live.Keys <= s.holders[w].live.Keys
  {
    if step.Work? && step.w == w {
      LeavingActs(cap, s.holders[w], t.holders[w], step.action);
    } else {
      assert t.holders[w] == s.holders[w];
    }
  }

  lemma LeavingActs(cap: nat, h: Holder, g: Holder, action: Action)
    requires h.phase == Leaving && Acts(cap, h, g, action)
    ensures g.phase == Leaving && g.live.Keys <= h.live.Keys
  {
  }

  ghost predicate Works(run: seq<System>, w: Token, j: int) { 0 <= j < |run| && w in run[j].holders }

  ghost predicate Gone(run: seq<System>, w: Token, i: nat, j: int) { Works(run, w, j) && i !in run[j].holders[w].live }

  lemma {:induction false} DrainsFrom(cap: nat, models: nat, run: seq<System>, k: nat, m: nat, w: Token)
    requires Run(cap, models, run) && k <= m < |run| && forall j :: k <= j <= m ==> Works(run, w, j)
    requires Works(run, w, k) && run[k].holders[w].phase == Leaving
    ensures Works(run, w, m) && run[m].holders[w].phase == Leaving && run[m].holders[w].live.Keys <= run[k].holders[w].live.Keys
    decreases m - k
  {
    if k < m {
      assert Works(run, w, m - 1) && Works(run, w, m);
      DrainsFrom(cap, models, run, k, m - 1, w);
      UsedCovers(cap, models, run, m - 1);
      assert Joined(cap, run, m);
      var step :| NextStep(cap, run[m - 1], run[m], step);
      LeavingOnlyDrains(cap, run[m - 1], run[m], step, w);
    }
  }

  // Waiting for the judges ends in every continuation: once each judge that was
  // live when the holder began to leave has finished, in whatever order and
  // between whatever other steps, none is live and the holder can leave.
  lemma DrainFinishes(cap: nat, models: nat, run: seq<System>, k: nat, m: nat, w: Token) returns (t: System)
    requires Run(cap, models, run) && k <= m < |run| && forall j :: k <= j <= m ==> Works(run, w, j)
    requires Works(run, w, k) && run[k].holders[w].phase == Leaving
    requires forall i :: i in run[k].holders[w].live ==> exists j :: k <= j <= m && Gone(run, w, i, j)
    ensures Works(run, w, m) && run[m].holders[w].live == map[] && NextStep(cap, run[m], t, Leave(w, false))
  {
    DrainsFrom(cap, models, run, k, m, w);
    forall i | i in run[m].holders[w].live ensures false {
      var j :| k <= j <= m && Gone(run, w, i, j);
      DrainsFrom(cap, models, run, k, j, w);
      DrainsFrom(cap, models, run, j, m, w);
    }
    t := run[m].(holders := run[m].holders - {w});
  }

  // ---- Durability ----

  // Whatever a holder works from was the stored record at some earlier moment.
  lemma {:induction false} BaseWasStored(cap: nat, models: nat, run: seq<System>, k: nat, w: Token) returns (m: nat)
    requires Run(cap, models, run) && k < |run| && w in run[k].holders
    ensures m <= k && SameContents(run[m].saved, run[k].holders[w].base)
    decreases k
  {
    assert Joined(cap, run, k);
    var step :| NextStep(cap, run[k - 1], run[k], step);
    if w in run[k - 1].holders && run[k].holders[w].base == run[k - 1].holders[w].base {
      m := BaseWasStored(cap, models, run, k - 1, w);
    } else {
      BaseChanges(cap, run[k - 1], run[k], step, w);
      m := k;
    }
  }

  lemma BaseChanges(cap: nat, s: System, t: System, step: Step, w: Token)
    requires NextStep(cap, s, t, step) && w in t.holders
    requires w !in s.holders || t.holders[w].base != s.holders[w].base
    ensures SameContents(t.saved, t.holders[w].base)
  {
    if step.Work? && step.w == w { ActsKeepsBase(s.holders[w], t.holders[w], cap, step.action); }
  }

  // A run is admitted only from a copy equal to what its holder last stored or
  // claimed, so every judgment the holder received before is durable by then;
  // while the holder has the lease, that is what is stored now.
  lemma AdmissionAfterCheckpoint(cap: nat, models: nat, run: seq<System>, k: nat, w: Token, i: nat)
    returns (m: nat)
    requires Run(cap, models, run) && k + 1 < |run| && w in run[k].holders && w in run[k + 1].holders
    requires Admits(run[k].holders[w].memory.executions, run[k + 1].holders[w].memory.executions, i)
    ensures m <= k && run[m].saved.executions == run[k].holders[w].memory.executions
    ensures run[k].lease == Some(w) ==> run[k].saved.executions == run[k].holders[w].memory.executions
  {
    RunKeeps(cap, models, run, k);
    assert Joined(cap, run, k + 1);
    var step :| NextStep(cap, run[k], run[k + 1], step);
    OnlyPassesAdmit(run[k], run[k + 1], cap, step, w, i);
    m := BaseWasStored(cap, models, run, k, w);
    RunHolder(cap, models, run, k, w);
  }

  ghost predicate Admits(xs: seq<Execution>, ys: seq<Execution>, i: nat) {
    i < |xs| && i < |ys| && xs[i].state.Queued? && (ys[i].state.Running? || ys[i].state.Judging?)
  }

  lemma OnlyPassesAdmit(s: System, t: System, cap: nat, step: Step, w: Token, i: nat)
    requires HoldersOk(s.holders, cap, s.rejudged) && s.holders.Keys <= s.used
    requires NextStep(cap, s, t, step) && w in s.holders && w in t.holders
    requires Admits(s.holders[w].memory.executions, t.holders[w].memory.executions, i)
    ensures s.holders[w].phase == Advancing
  {
    if step.Work? && step.w == w {
      assert HolderOk(s.holders[w], cap, s.rejudged);
      OnlyAdvanceAdmits(s.holders[w], t.holders[w], cap, s.rejudged, step.action, i);
    } else {
      MemoryStays(cap, s, t, step, w);
    }
  }

  lemma MemoryStays(cap: nat, s: System, t: System, step: Step, w: Token)
    requires s.holders.Keys <= s.used && NextStep(cap, s, t, step) && w in s.holders && w in t.holders
    requires !(step.Work? && step.w == w)
    ensures t.holders[w].memory == s.holders[w].memory
  {
  }

  lemma OnlyAdvanceAdmits(h: Holder, g: Holder, cap: nat, rejudged: bool, action: Action, i: nat)
    requires HolderOk(h, cap, rejudged) && Acts(cap, h, g, action) && Admits(h.memory.executions, g.memory.executions, i)
    ensures h.phase == Advancing
  {
    if action.Receive? {
      ReceiveLeavesQueued(h, g, cap, rejudged, i);
    }
  }

  lemma ReceiveLeavesQueued(h: Holder, g: Holder, cap: nat, rejudged: bool, i: nat)
    requires HolderOk(h, cap, rejudged) && Acts(cap, h, g, Receive)
    requires i < |h.memory.executions| == |g.memory.executions| && h.memory.executions[i].state.Queued?
    ensures g.memory.executions[i].state.Queued?
  {
    var v := h.channel[0];
    FirstStands(h, cap, rejudged);
    ScoredKeeps(h.memory.(executions := h.memory.executions[v.index := Settle(v)]));
  }

  // Writing a judge's whole copy back and scoring gives exactly the record that
  // updating the judge's own fields in place and scoring would give.
  lemma WriteBackLosesNothing(cap: nat, models: nat, run: seq<System>, k: nat, w: Token)
    requires Run(cap, models, run) && k < |run| && w in run[k].holders
    requires run[k].holders[w].phase == Waiting && run[k].holders[w].channel != []
    ensures var h := run[k].holders[w]; var v := h.channel[0];
      && v.index < |h.memory.executions|
      && Received(h).memory == Scored(h.memory.(executions := h.memory.executions[v.index := InPlace(h.memory.executions[v.index], v)]))
  {
    RunHolder(cap, models, run, k, w);
    var h := run[k].holders[w];
    FirstStands(h, cap, run[k].rejudged);
    CopyEqualsInPlace(h.memory, h.channel[0], cap, run[k].rejudged);
  }

  // Only the judge's own fields and the final state, on the current execution.
  function InPlace(x: Execution, v: Verdict): Execution {
    var y := Judged(x, v.execution.judgment, v.execution.compacted);
    if v.failed then y.(state := Errored, message := Some(JudgingFailed)) else y.(state := Completed)
  }

  lemma CopyEqualsInPlace(r: Record, v: Verdict, cap: nat, rejudged: bool)
    requires RecordOk(r, cap, rejudged) && r.state == EvalRunning
    requires StandsFor(v.execution, r.executions, r.references, v.index)
    ensures Scored(r.(executions := r.executions[v.index := Settle(v)]))
         == Scored(r.(executions := r.executions[v.index := InPlace(r.executions[v.index], v)]))
  {
    var i := v.index;
    var xs, ys := r.executions[i := Settle(v)], r.executions[i := InPlace(r.executions[i], v)];
    forall j | 0 <= j < |xs| ensures SameEvidence(xs[j], ys[j]) {
    }
    ScoreIgnoresOldScores(xs, ys, r.references);
    WriteBackRecordOk(r, v, cap, rejudged);
    if r.references.None? && Unsettled(xs) {
      assert xs == ys;
    }
  }

  // Launching goes on until no judge waits beside a free slot, and can always go
  // on or end.
  lemma JudgesFillSlots(cap: nat, h: Holder) returns (g: Holder, action: Action)
    requires h.phase == Launching
    ensures Acts(cap, h, g, action)
    ensures if JudgesFilled(h, cap) then action.EndLaunch? else action.Launch? && g.live.Keys == h.live.Keys + {action.index}
  {
    if JudgesFilled(h, cap) {
      g, action := h.(phase := Waiting), EndLaunch;
    } else {
      var i := Unjudged(cap, h);
      g, action := h.(active := h.active + {i}, live := h.live[i := h.memory.executions[i]]), Launch(i);
    }
  }

  lemma Unjudged(cap: nat, h: Holder) returns (i: nat)
    requires !JudgesFilled(h, cap)
    ensures i < |h.memory.executions| && h.memory.executions[i].state.Judging? && i !in h.active && |h.active| < cap
  {
    i :| i < |h.memory.executions| && h.memory.executions[i].state.Judging? && i !in h.active;
  }

  // What a pass that did not fail leads to.
  lemma PassOutcome(h: Holder, cap: nat, lookups: seq<Lookup>)
    requires |lookups| == |h.memory.executions| && !Advance(h.memory.executions, cap, lookups).1 && h.memory.state == EvalRunning
    ensures var g := Advanced(h, cap, lookups);
      && (g.memory.state == EvalCompleted <==> AllTerminal(g.memory.executions))
      && (g.phase == Saving <==> HasJudging(g.memory.executions))
      && (g.phase == Leaving <==> !HasJudging(g.memory.executions))
  {
    var m := Scored(h.memory.(executions := Advance(h.memory.executions, cap, lookups).0));
    if HasJudging(m.executions) {
      var i :| 0 <= i < |m.executions| && m.executions[i].state.Judging?;
      assert !m.executions[i].state.Terminal();
    }
  }

  // A holder that claimed after a cancel request admits nothing and judges
  // nothing: it cancels and leaves.
  lemma {:induction false} CancellingOnlyCancels(cap: nat, models: nat, run: seq<System>, k: nat, w: Token)
    requires Run(cap, models, run) && k < |run| && w in run[k].holders && run[k].holders[w].cancelling
    ensures (run[k].holders[w].phase == Deciding || run[k].holders[w].phase == Leaving) && run[k].holders[w].live == map[]
    decreases k
  {
    assert Joined(cap, run, k);
    var step :| NextStep(cap, run[k - 1], run[k], step);
    UsedCovers(cap, models, run, k - 1);
    if !step.Claim? {
      assert w in run[k - 1].holders;
      CancellingStep(cap, run[k - 1], run[k], step, w);
      CancellingOnlyCancels(cap, models, run, k - 1, w);
    } else if w in run[k - 1].holders {
      CancellingOnlyCancels(cap, models, run, k - 1, w);
    }
  }

  lemma CancellingStep(cap: nat, s: System, t: System, step: Step, w: Token)
    requires NextStep(cap, s, t, step) && !step.Claim? && w in s.holders && w in t.holders
    ensures t.holders[w].cancelling == s.holders[w].cancelling
    ensures s.holders[w].cancelling && (s.holders[w].phase == Deciding || s.holders[w].phase == Leaving) && s.holders[w].live == map[] ==>
      (t.holders[w].phase == Deciding || t.holders[w].phase == Leaving) && t.holders[w].live == map[]
  {
  }

  lemma ClaimAfterCancel(cap: nat, s: System, t: System, step: Step, w: Token)
    requires NextStep(cap, s, t, step) && s.cancelRequested && w !in s.holders && w in t.holders
    ensures t.holders[w].cancelling && t.lease == Some(w)
  {
  }

  // A cancel request is honoured: while it stands, whatever is saved leaves the
  // evaluation running or cancelled, never completed.
  lemma CancelHonoured(cap: nat, s: System, t: System, step: Step)
    requires NextStep(cap, s, t, step) && s.cancelRequested
    ensures t.cancelRequested
    ensures t.saved != s.saved && !step.Retry? ==> t.saved.state == EvalRunning || t.saved.state == EvalCancelled
  {
  }

  // ---- Building runs ----

  lemma Extend(cap: nat, models: nat, run: seq<System>, t: System, step: Step)
    requires Run(cap, models, run) && NextStep(cap, run[|run| - 1], t, step)
    ensures Run(cap, models, run + [t])
  {
    var longer := run + [t];
    forall k ensures Joined(cap, longer, k) {
      assert Joined(cap, run, k);
      if k == |run| { assert Next(cap, longer[k - 1], longer[k]); }
    }
  }
}
