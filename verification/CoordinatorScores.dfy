// What the coordinator's runs do to references and scores: the references are
// the medians of the run metrics, set once and never moved, and every score
// stays in its range, in the stored row and in every holder's copy.
module CoordinatorScores {
  import opened Common
  import opened Evaluation
  import opened Scoring
  import opened EvaluationEngine
  import opened Coordinator

  ghost predicate AllInRange(xs: seq<Execution>) { forall i :: 0 <= i < |xs| ==> InRange(xs[i]) }

  // Once set, the references are the medians of a list in which nothing waits
  // for a slot or runs.
  ghost predicate ReferencesOk(r: Record) {
    r.references.Some? ==> !Unsettled(r.executions) && r.references == NewReferences(r.executions)
  }

  ghost predicate ScoresOk(r: Record) {
    GradesInRange(r.executions) && AllInRange(r.executions) && ReferencesOk(r)
  }

  ghost predicate CopiesGraded(live: map<nat, Execution>, channel: seq<Verdict>) {
    && (forall i :: i in live ==> GradeInRange(live[i]))
    && (forall k :: 0 <= k < |channel| ==> GradeInRange(channel[k].execution))
  }

  // A holder never moves references it was given.
  ghost predicate Fixed(from: Record, to: Record) { from.references.Some? ==> to.references == from.references }

  ghost predicate HolderScores(h: Holder) {
    ScoresOk(h.memory) && Fixed(h.base, h.memory) && CopiesGraded(h.live, h.channel)
  }

  ghost predicate Scores(s: System) {
    ScoresOk(s.saved) && forall w :: w in s.holders ==> HolderScores(s.holders[w])
  }

  // ---- Records ----

  // Scoring repairs the ranges and fixes the references.
  lemma ScoredScoresOk(r: Record)
    requires GradesInRange(r.executions) && ReferencesOk(r)
    requires r.references.None? && Unsettled(r.executions) ==> AllInRange(r.executions)
    ensures ScoresOk(Scored(r)) && Fixed(r, Scored(r))
  {
    var xs, ys, refs := r.executions, Scored(r).executions, Scored(r).references;
    ScoredKeeps(r);
    MetricsFollowEvidence(ys, xs);
    NewReferencesValid(xs);
    forall i | 0 <= i < |ys| ensures GradeInRange(ys[i]) && InRange(ys[i]) {
      assert SameEvidence(ys[i], xs[i]) && GradeInRange(xs[i]);
      if !(r.references.None? && Unsettled(xs)) {
        RateRange(xs[i], refs);
      }
    }
  }

  lemma SameScoresOk(xs: seq<Execution>, ys: seq<Execution>)
    requires |xs| == |ys| && GradesInRange(xs) && AllInRange(xs)
    requires forall i :: 0 <= i < |xs| ==> SameScores(ys[i], xs[i])
    ensures GradesInRange(ys) && AllInRange(ys)
  {
    forall i | 0 <= i < |ys| ensures GradeInRange(ys[i]) && InRange(ys[i]) {
      assert SameScores(ys[i], xs[i]) && GradeInRange(xs[i]) && InRange(xs[i]);
    }
  }

  lemma AdvanceScores(r: Record, cap: nat, lookups: seq<Lookup>)
    requires ScoresOk(r) && |lookups| == |r.executions|
    ensures ScoresOk(r.(executions := Advance(r.executions, cap, lookups).0))
  {
    AdvanceKeeps(r.executions, cap, lookups);
    SameScoresOk(r.executions, Advance(r.executions, cap, lookups).0);
    if r.references.Some? { assert Settled(r.executions); }
  }

  lemma CancelScores(a: Record, b: Record, removals: seq<Removal>)
    requires ScoresOk(a) && Cancels(a, b, removals)
    ensures ScoresOk(b)
  {
    var xs, ys := a.executions, b.executions;
    forall i | 0 <= i < |xs| ensures SameScores(ys[i], xs[i]) && SameMetrics(ys[i], xs[i]) {
    }
    SameScoresOk(xs, ys);
    MetricsFollow(ys, xs);
    if Unsettled(ys) {
      var i :| 0 <= i < |ys| && (ys[i].state.Queued? || ys[i].state.Running?);
      assert xs[i].state.Queued? || xs[i].state.Running?;
    }
  }

  lemma WriteBackScores(r: Record, v: Verdict, cap: nat, rejudged: bool)
    requires ScoresOk(r) && RecordOk(r, cap, rejudged) && r.state == EvalRunning
    requires StandsFor(v.execution, r.executions, r.references, v.index) && GradeInRange(v.execution)
    ensures ScoresOk(Scored(r.(executions := r.executions[v.index := Settle(v)])))
    ensures Fixed(r, Scored(r.(executions := r.executions[v.index := Settle(v)])))
  {
    var xs, ys := r.executions, r.executions[v.index := Settle(v)];
    WriteBackRecordOk(r, v, cap, rejudged);
    forall i | 0 <= i < |ys| ensures SameMetrics(ys[i], xs[i]) && GradeInRange(ys[i]) {
      assert GradeInRange(xs[i]);
    }
    MetricsFollow(ys, xs);
    if r.references.None? && Unsettled(ys) {
      forall i | 0 <= i < |ys| ensures InRange(ys[i]) {
        assert InRange(xs[i]);
      }
    }
    ScoredScoresOk(r.(executions := ys));
  }

  lemma RejudgeScores(r: Record)
    requires ScoresOk(r) && AllTerminal(r.executions)
    ensures ScoresOk(r.(executions := Rejudge(r.executions), state := EvalQueued))
  {
    var xs, ys := r.executions, Rejudge(r.executions);
    RejudgeSettles(xs);
    forall i | 0 <= i < |ys| ensures SameMetrics(ys[i], xs[i]) && GradeInRange(ys[i]) && InRange(ys[i]) {
      assert GradeInRange(xs[i]) && InRange(xs[i]);
    }
    MetricsFollow(ys, xs);
  }

  // ---- Steps ----

  lemma AdvancePassScores(h: Holder, g: Holder, cap: nat, lookups: seq<Lookup>)
    requires HolderScores(h) && Acts(cap, h, g, AdvancePass(lookups))
    ensures HolderScores(g)
  {
    var m := h.memory.(executions := Advance(h.memory.executions, cap, lookups).0);
    AdvanceScores(h.memory, cap, lookups);
    ScoredScoresOk(m);
    AdvancedMemory(h, cap, lookups);
    if SameContents(g.memory, m) {
      SameContentsScores(m, g.memory);
    } else {
      assert SameContents(g.memory, Scored(m));
      SameContentsScores(Scored(m), g.memory);
    }
  }

  lemma SameContentsScores(a: Record, b: Record)
    requires SameContents(b, a) && ScoresOk(a)
    ensures ScoresOk(b)
  {
  }

  lemma ReceiveScores(h: Holder, g: Holder, cap: nat, rejudged: bool)
    requires HolderScores(h) && HolderOk(h, cap, rejudged) && Acts(cap, h, g, Receive)
    ensures HolderScores(g)
  {
    FirstStands(h, cap, rejudged);
    WriteBackScores(h.memory, h.channel[0], cap, rejudged);
  }

  lemma ActsScores(h: Holder, g: Holder, cap: nat, rejudged: bool, action: Action)
    requires HolderScores(h) && HolderOk(h, cap, rejudged) && Acts(cap, h, g, action)
    ensures HolderScores(g)
  {
    match action
    case CancelPass(removals, memory) => CancelScores(h.memory, memory, removals);
    case AdvancePass(lookups) => AdvancePassScores(h, g, cap, lookups);
    case Receive => ReceiveScores(h, g, cap, rejudged);
    case _ => CopiesScores(h, g, cap, action);
  }

  lemma CopiesScores(h: Holder, g: Holder, cap: nat, action: Action)
    requires HolderScores(h) && Acts(cap, h, g, action)
    requires !action.CancelPass? && !action.AdvancePass? && !action.Receive?
    ensures HolderScores(g)
  {
    assert g.memory == h.memory && g.base == h.base;
    if action.Launch? { assert GradeInRange(h.memory.executions[action.index]); }
  }

  lemma StepScores(s: System, t: System, cap: nat, step: Step)
    requires Inv(s, cap) && Scores(s) && NextStep(cap, s, t, step)
    ensures Scores(t) && Fixed(s.saved, t.saved)
  {
    match step
    case Work(w, action) => WorkScores(s, t, cap, w, action);
    case Checkpoint(w, acknowledged) => CheckpointScores(s, t, cap, w, acknowledged);
    case Leave(w, stored) => LeaveScores(s, t, cap, w, stored);
    case Retry => RejudgeScores(s.saved);
    case _ =>
  }

  lemma WorkScores(s: System, t: System, cap: nat, w: Token, action: Action)
    requires HoldersOk(s.holders, cap, s.rejudged) && Scores(s) && NextStep(cap, s, t, Work(w, action))
    ensures Scores(t) && t.saved == s.saved
  {
    var h, g := s.holders[w], t.holders[w];
    assert HolderOk(h, cap, s.rejudged) && HolderScores(h);
    ActsScores(h, g, cap, s.rejudged, action);
    assert t.holders == s.holders[w := g];
  }

  lemma CheckpointScores(s: System, t: System, cap: nat, w: Token, acknowledged: bool)
    requires LeaseOk(s) && Scores(s) && NextStep(cap, s, t, Checkpoint(w, acknowledged))
    ensures Scores(t) && Fixed(s.saved, t.saved)
  {
    assert HolderScores(s.holders[w]);
    assert SameContents(t.saved, s.holders[w].memory);
  }

  lemma LeaveScores(s: System, t: System, cap: nat, w: Token, stored: bool)
    requires LeaseOk(s) && Scores(s) && NextStep(cap, s, t, Leave(w, stored))
    ensures Scores(t) && Fixed(s.saved, t.saved)
  {
    assert HolderScores(s.holders[w]);
    assert stored ==> SameContents(t.saved, s.holders[w].memory);
  }

  // ---- Whole runs ----

  lemma {:induction false} RunScores(cap: nat, models: nat, run: seq<System>, k: nat)
    requires Run(cap, models, run) && k < |run|
    ensures Scores(run[k])
    decreases k
  {
    if k > 0 {
      RunScores(cap, models, run, k - 1);
      RunKeeps(cap, models, run, k - 1);
      assert Joined(cap, run, k);
      var step :| NextStep(cap, run[k - 1], run[k], step);
      StepScores(run[k - 1], run[k], cap, step);
    }
  }

  // References, stored or held, are set only in a list with nothing queued or
  // running, and are exactly the medians of that list's metrics, re-judged,
  // cancelled or not.
  lemma ReferencesAreMedians(cap: nat, models: nat, run: seq<System>, k: nat)
    requires Run(cap, models, run) && k < |run|
    ensures Medians(run[k].saved)
    ensures forall w :: w in run[k].holders ==> Medians(run[k].holders[w].memory)
  {
    RunScores(cap, models, run, k);
    OkAreMedians(run[k].saved);
    forall w | w in run[k].holders ensures Medians(run[k].holders[w].memory) {
      assert HolderScores(run[k].holders[w]);
      OkAreMedians(run[k].holders[w].memory);
    }
  }

  ghost predicate Medians(r: Record) {
    r.references.Some? ==>
      && !Unsettled(r.executions) && CountedAt(r.executions) != {}
      && MedianOf(TokensAt(r.executions), r.references.value.tokens)
      && MedianOf(CallsAt(r.executions), r.references.value.toolCalls)
  }

  lemma OkAreMedians(r: Record)
    requires ReferencesOk(r)
    ensures Medians(r)
  {
    NewReferencesAre(r.executions);
  }

  // Once stored, the references never change again.
  lemma {:induction false} ReferencesNeverMove(cap: nat, models: nat, run: seq<System>, k: nat, m: nat)
    requires Run(cap, models, run) && k <= m < |run| && run[k].saved.references.Some?
    ensures run[m].saved.references == run[k].saved.references
    decreases m - k
  {
    if k < m {
      ReferencesNeverMove(cap, models, run, k, m - 1);
      RunScores(cap, models, run, m - 1);
      RunKeeps(cap, models, run, m - 1);
      assert Joined(cap, run, m);
      var step :| NextStep(cap, run[m - 1], run[m], step);
      StepScores(run[m - 1], run[m], cap, step);
    }
  }

  // At every moment every stored execution's efficiency lies in [0,1] and its
  // score is absent, zero or in [60,100]; the same in every holder's copy.
  lemma ScoresStayInRange(cap: nat, models: nat, run: seq<System>, k: nat)
    requires Run(cap, models, run) && k < |run|
    ensures AllInRange(run[k].saved.executions)
    ensures forall w :: w in run[k].holders ==> AllInRange(run[k].holders[w].memory.executions)
  {
    RunScores(cap, models, run, k);
  }
}
