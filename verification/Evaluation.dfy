// Workflow evaluation: the executions of one comparison, and what a scheduling
// pass, a cancellation and a re-judge do to them. The pass is specified with the
// true number of occupied slots; EvaluationEngine keeps a local counter instead.
module Evaluation {
  import opened Common

  datatype RunState = Queued | Running | Judging | Completed | Errored | Cancelled {
    predicate Terminal() { Completed? || Errored? || Cancelled? }
    predicate Occupies() { Running? || Judging? }
  }

  datatype Phase = Pending | Active | Succeeded | Failed | Unacked {
    predicate Terminal() { Succeeded? || Failed? || Unacked? }
  }

  // A floating-point measurement: a real value, or NaN or an infinity.
  datatype Metric = Finite(value: real) | NotFinite

  datatype Judgment = Judgment(correctness: nat, efficiency: nat)

  datatype Notice =
    | RunGone | ForeignRun | NoTranscript | TranscriptUnavailable | JudgingFailed | IdentityChanged

  datatype Execution = Execution(
    state: RunState,
    runStatus: Option<Phase>,
    sessionId: Option<string>,
    transcript: Option<seq<string>>,
    tokens: Option<Metric>,
    toolCalls: Option<int>,
    judgment: Option<Judgment>,
    compacted: Option<bool>,
    message: Option<Notice>,
    measured: Option<real>,
    score: Option<real>)

  const Fresh := Execution(Queued, None, None, None, None, None, None, None, None, None, None)

  // What the cluster and the agent answer when one execution is looked up.
  datatype Creation = Created | AlreadyExists | CreateFailed
  datatype Collection =
    | Collected(transcript: seq<string>, toolCalls: nat, tokens: Option<Metric>)
    | Unavailable(stopped: bool, recent: bool)
  datatype Lookup =
    | Missing(create: Creation)
    | Unreachable
    | Found(owned: bool, matches: bool, phase: Phase, sessionId: string, collect: Collection)

  function Occupied(xs: seq<Execution>): nat {
    if xs == [] then 0 else Occupied(xs[..|xs| - 1]) + if xs[|xs| - 1].state.Occupies() then 1 else 0
  }

  function Slot(x: Execution): nat { if x.state.Occupies() then 1 else 0 }

  ghost predicate AllTerminal(xs: seq<Execution>) {
    forall i :: 0 <= i < |xs| ==> xs[i].state.Terminal()
  }

  // No execution waits for a slot or runs: what remains is judged or finished.
  ghost predicate Settled(xs: seq<Execution>) {
    forall i :: 0 <= i < |xs| ==> !xs[i].state.Queued? && !xs[i].state.Running?
  }

  // Replacing one execution moves the count by the difference of its slots.
  lemma {:induction false} OccupiedUpdate(xs: seq<Execution>, i: nat, x: Execution)
    requires i < |xs|
    ensures Occupied(xs[i := x]) == Occupied(xs) - Slot(xs[i]) + Slot(x)
  {
    var n := |xs| - 1;
    if i == n {
      assert xs[i := x][..n] == xs[..n];
    } else {
      OccupiedUpdate(xs[..n], i, x);
      assert xs[i := x][..n] == xs[..n][i := x];
    }
  }

  lemma {:induction false} OccupiedByState(xs: seq<Execution>, ys: seq<Execution>)
    requires |xs| == |ys| && forall i :: 0 <= i < |xs| ==> xs[i].state == ys[i].state
    ensures Occupied(xs) == Occupied(ys)
  {
    if xs != [] { OccupiedByState(xs[..|xs| - 1], ys[..|ys| - 1]); }
  }

  lemma {:induction false} OccupiedShrinks(xs: seq<Execution>, ys: seq<Execution>)
    requires |xs| == |ys|
    requires forall i :: 0 <= i < |xs| ==> ys[i].state == xs[i].state || ys[i].state.Terminal()
    ensures Occupied(ys) <= Occupied(xs)
  {
    if xs != [] { OccupiedShrinks(xs[..|xs| - 1], ys[..|ys| - 1]); }
  }

  lemma {:induction false} OccupiedZero(xs: seq<Execution>)
    ensures AllTerminal(xs) ==> Occupied(xs) == 0
    ensures Occupied(xs) <= |xs|
    ensures (forall i :: 0 <= i < |xs| ==> !xs[i].state.Occupies()) ==> Occupied(xs) == 0
  {
    if xs != [] { OccupiedZero(xs[..|xs| - 1]); }
  }

  // What one admitted lookup does to its execution; the flag aborts the pass.
  function Observe(x: Execution, l: Lookup): (Execution, bool) {
    match l
    case Missing(create) =>
      if x.state.Queued? then
        if create.CreateFailed? then (x, true) else (x.(state := Running), false)
      else (x.(state := Errored, message := Some(RunGone)), false)
    case Unreachable => (x, true)
    case Found(owned, matches, phase, sessionId, collect) =>
      if !owned || !matches then (x.(state := Errored, message := Some(ForeignRun)), false)
      else
        var y := x.(state := Running, runStatus := Some(phase));
        if !phase.Terminal() then (y, false)
        else if sessionId == "" then (y.(state := Errored, message := Some(NoTranscript)), false)
        else
          var z := y.(sessionId := Some(sessionId));
          match collect
          case Collected(transcript, calls, tokens) =>
            (z.(state := Judging, transcript := Some(transcript), toolCalls := Some(calls),
                tokens := if tokens.Some? then tokens else z.tokens), false)
          case Unavailable(stopped, recent) =>
            if stopped then (z, true)
            else if recent then (z, false)
            else (z.(state := Errored, message := Some(TranscriptUnavailable)), false)
  }

  // The run is this execution's own and has ended, with a session to read.
  predicate Ended(l: Lookup) {
    l.Found? && l.owned && l.matches && l.phase in {Succeeded, Failed, Unacked} && l.sessionId != ""
  }

  predicate Carries(y: Execution, l: Lookup)
    requires Ended(l) && l.collect.Collected?
  {
    && y.sessionId == Some(l.sessionId) && y.transcript == Some(l.collect.transcript)
    && y.toolCalls == Some(l.collect.toolCalls) && y.runStatus == Some(l.phase)
  }

  // What a lookup makes of an admitted execution, outcome by outcome.
  lemma ObserveMeans(x: Execution, l: Lookup)
    requires x.state.Queued? || x.state.Running?
    ensures var (y, stop) := Observe(x, l);
      // judged exactly with complete evidence, which it then carries
      && (y.state.Judging? <==> Ended(l) && l.collect.Collected?)
      && (y.state.Judging? ==> Carries(y, l) && y.tokens == (if l.collect.tokens.Some? then l.collect.tokens else x.tokens))
      // failed exactly when its run is gone, not its own, or left no transcript
      && (y.state.Errored? <==>
           || (l.Missing? && x.state.Running?) || (l.Found? && !(l.owned && l.matches))
           || (l.Found? && l.owned && l.matches && l.phase.Terminal() && l.sessionId == "")
           || (Ended(l) && l.collect.Unavailable? && !l.collect.stopped && !l.collect.recent))
      // the pass stops exactly when the cluster or the agent cannot be reached
      && (stop <==>
           || l.Unreachable? || (l.Missing? && x.state.Queued? && l.create.CreateFailed?)
           || (Ended(l) && l.collect.Unavailable? && l.collect.stopped))
      && (y.state.Queued? ==> x.state.Queued? && stop)
      && y.judgment == x.judgment && y.compacted == x.compacted && y.score == x.score && y.measured == x.measured
  {
  }

  predicate Admissible(xs: seq<Execution>, i: nat, cap: nat)
    requires i < |xs|
  {
    xs[i].state.Running? || (xs[i].state.Queued? && Occupied(xs) < cap)
  }

  // A scheduling pass from index i, in list order, with the true slot count.
  function AdvanceFrom(xs: seq<Execution>, i: nat, cap: nat, ls: seq<Lookup>): (seq<Execution>, bool)
    requires i <= |xs| == |ls|
    decreases |xs| - i
  {
    if i == |xs| then (xs, false)
    else if Admissible(xs, i, cap) then
      var (x, failed) := Observe(xs[i], ls[i]);
      if failed then (xs[i := x], true) else AdvanceFrom(xs[i := x], i + 1, cap, ls)
    else AdvanceFrom(xs, i + 1, cap, ls)
  }

  function Advance(xs: seq<Execution>, cap: nat, ls: seq<Lookup>): (seq<Execution>, bool)
    requires |xs| == |ls|
  {
    AdvanceFrom(xs, 0, cap, ls)
  }

  ghost predicate SameScores(a: Execution, b: Execution) {
    a.score == b.score && a.measured == b.measured && a.judgment == b.judgment
  }

  // Safety of one pass: slots never exceed the larger of the cap and the slots
  // already taken, and only queued and running executions change.
  lemma {:induction false} AdvanceFromKeeps(xs: seq<Execution>, i: nat, cap: nat, ls: seq<Lookup>)
    requires i <= |xs| == |ls|
    ensures |AdvanceFrom(xs, i, cap, ls).0| == |xs|
    ensures Occupied(AdvanceFrom(xs, i, cap, ls).0) <= if Occupied(xs) <= cap then cap else Occupied(xs)
    ensures forall j :: 0 <= j < |xs| && !xs[j].state.Queued? && !xs[j].state.Running? ==>
      AdvanceFrom(xs, i, cap, ls).0[j] == xs[j]
    ensures forall j :: 0 <= j < |xs| ==> SameScores(AdvanceFrom(xs, i, cap, ls).0[j], xs[j])
    decreases |xs| - i
  {
    if i < |xs| {
      if Admissible(xs, i, cap) {
        var (x, failed) := Observe(xs[i], ls[i]);
        OccupiedUpdate(xs, i, x);
        if !failed { AdvanceFromKeeps(xs[i := x], i + 1, cap, ls); }
      } else {
        AdvanceFromKeeps(xs, i + 1, cap, ls);
      }
    }
  }

  lemma AdvanceKeeps(xs: seq<Execution>, cap: nat, ls: seq<Lookup>)
    requires |xs| == |ls|
    ensures |Advance(xs, cap, ls).0| == |xs|
    ensures Occupied(xs) <= cap ==> Occupied(Advance(xs, cap, ls).0) <= cap
    ensures forall j :: 0 <= j < |xs| && !xs[j].state.Queued? && !xs[j].state.Running? ==>
      Advance(xs, cap, ls).0[j] == xs[j]
    ensures forall j :: 0 <= j < |xs| ==> SameScores(Advance(xs, cap, ls).0[j], xs[j])
    ensures Settled(xs) ==> Advance(xs, cap, ls).0 == xs
  {
    AdvanceFromKeeps(xs, 0, cap, ls);
  }

  lemma {:induction false} AdvanceFromPrefix(xs: seq<Execution>, k: nat, cap: nat, ls: seq<Lookup>)
    requires k <= |xs| == |ls|
    ensures |AdvanceFrom(xs, k, cap, ls).0| == |xs| && AdvanceFrom(xs, k, cap, ls).0[..k] == xs[..k]
    decreases |xs| - k
  {
    if k < |xs| {
      if Admissible(xs, k, cap) {
        var (x, failed) := Observe(xs[k], ls[k]);
        if !failed { AdvanceFromPrefix(xs[k := x], k + 1, cap, ls); }
        assert AdvanceFrom(xs, k, cap, ls).0[..k] == xs[..k];
      } else {
        AdvanceFromPrefix(xs, k + 1, cap, ls);
        assert AdvanceFrom(xs, k, cap, ls).0[..k + 1][..k] == xs[..k + 1][..k];
      }
    }
  }

  lemma {:induction false} WaitersFrom(xs: seq<Execution>, k: nat, cap: nat, ls: seq<Lookup>, i: nat)
    requires k <= i < |xs| == |ls|
    ensures var (ys, failed) := AdvanceFrom(xs, k, cap, ls);
      |ys| == |xs| && (!failed && ys[i].state.Queued? ==> Occupied(ys[..i] + xs[i..]) >= cap)
    decreases |xs| - k
  {
    var (ys, failed) := AdvanceFrom(xs, k, cap, ls);
    AdvanceFromPrefix(xs, k, cap, ls);
    assert k == i ==> ys[..i] + xs[i..] == xs;
    if Admissible(xs, k, cap) {
      var (x, stop) := Observe(xs[k], ls[k]);
      if !stop {
        AdvanceFromPrefix(xs[k := x], k + 1, cap, ls);
        assert ys[..k + 1][k] == x;
        if k < i {
          WaitersFrom(xs[k := x], k + 1, cap, ls, i);
          assert xs[k := x][i..] == xs[i..];
        }
      }
    } else {
      AdvanceFromPrefix(xs, k + 1, cap, ls);
      assert ys[..k + 1][k] == xs[k];
      if k < i { WaitersFrom(xs, k + 1, cap, ls, i); }
    }
  }

  // A pass leaves nobody waiting beside a free slot: when an execution is still
  // queued after it, all slots were taken at the moment it was looked at.
  lemma NobodyWaitsBesideFreeSlot(xs: seq<Execution>, cap: nat, ls: seq<Lookup>, i: nat)
    requires |xs| == |ls| && i < |xs|
    ensures var (ys, failed) := Advance(xs, cap, ls);
      |ys| == |xs| && (!failed && ys[i].state.Queued? ==> Occupied(ys[..i] + xs[i..]) >= cap)
  {
    WaitersFrom(xs, 0, cap, ls, i);
  }

  function QueuedFrom(xs: seq<Execution>, k: nat): nat
    requires k <= |xs|
    decreases |xs| - k
  {
    if k == |xs| then 0 else QueuedFrom(xs, k + 1) + if xs[k].state.Queued? then 1 else 0
  }

  lemma {:induction false} QueuedFromUpdate(xs: seq<Execution>, k: nat, i: nat, x: Execution)
    requires i < k <= |xs|
    ensures QueuedFrom(xs[i := x], k) == QueuedFrom(xs, k)
    decreases |xs| - k
  {
    if k < |xs| { QueuedFromUpdate(xs, k + 1, i, x); }
  }

  function Min(a: nat, b: nat): nat { if a < b then a else b }

  lemma {:induction false} FillsFrom(xs: seq<Execution>, k: nat, cap: nat, ls: seq<Lookup>)
    requires k <= |xs| == |ls|
    requires forall j :: k <= j < |xs| ==> !xs[j].state.Running? && ls[j] == Missing(Created)
    ensures var (ys, failed) := AdvanceFrom(xs, k, cap, ls);
      !failed && Occupied(ys) == if Occupied(xs) >= cap then Occupied(xs) else Min(cap, Occupied(xs) + QueuedFrom(xs, k))
    decreases |xs| - k
  {
    if k < |xs| {
      if Admissible(xs, k, cap) {
        var x := xs[k].(state := Running);
        OccupiedUpdate(xs, k, x);
        QueuedFromUpdate(xs, k + 1, k, x);
        FillsFrom(xs[k := x], k + 1, cap, ls);
      } else {
        FillsFrom(xs, k + 1, cap, ls);
      }
    }
  }

  // With nothing running and every run still to be created, a pass fills the
  // slots as far as executions are waiting.
  lemma PassFillsSlots(xs: seq<Execution>, cap: nat, ls: seq<Lookup>)
    requires |xs| == |ls|
    requires forall j :: 0 <= j < |xs| ==> !xs[j].state.Running? && ls[j] == Missing(Created)
    ensures var (ys, failed) := Advance(xs, cap, ls);
      !failed && Occupied(ys) == if Occupied(xs) >= cap then Occupied(xs) else Min(cap, Occupied(xs) + QueuedFrom(xs, 0))
  {
    FillsFrom(xs, 0, cap, ls);
  }

  // Cancelling: a finished execution stays, a judged one stops, and one with a
  // live run stays open until that run is gone.
  datatype Removal = RunMissing | RunForeign | RunDeleted | RemovalFailed

  function CancelOne(x: Execution, r: Removal): (Execution, bool)
    // the flag says that the run still has to disappear
  {
    if x.state.Terminal() then (x, false)
    else if x.state.Judging? then (x.(state := Cancelled), false)
    else match r
      case RunMissing => (x.(state := Cancelled), false)
      case RunForeign => (x.(state := Errored, message := Some(IdentityChanged)), false)
      case RunDeleted => (x, true)
      case RemovalFailed => (x, false)
  }

  // An execution stays open exactly while its run was deleted and is to be waited
  // for, or could not be removed; nothing but its state and message changes.
  lemma CancelOneMeans(x: Execution, r: Removal)
    ensures var (y, waiting) := CancelOne(x, r);
      && (!y.state.Terminal() <==> (x.state.Queued? || x.state.Running?) && (r.RunDeleted? || r.RemovalFailed?))
      && (waiting <==> (x.state.Queued? || x.state.Running?) && r.RunDeleted?)
      && (x.state.Terminal() ==> y == x)
      && (y.state.Errored? <==> x.state.Errored? || ((x.state.Queued? || x.state.Running?) && r.RunForeign?))
      && y.(state := x.state, message := x.message) == x
  {
  }

  // Re-judging: every execution with a transcript goes back to the judge.
  function RejudgeOne(x: Execution): Execution {
    if x.transcript.None? then x
    else x.(state := Judging, judgment := None, compacted := None, score := None, message := None)
  }

  function Rejudge(xs: seq<Execution>): seq<Execution> {
    seq(|xs|, i requires 0 <= i < |xs| => RejudgeOne(xs[i]))
  }

  // What a re-judge forgets and what it keeps.
  lemma RejudgeKeepsEvidence(xs: seq<Execution>, i: nat)
    requires i < |xs|
    ensures var x, y := xs[i], Rejudge(xs)[i];
      && (x.transcript.None? ==> y == x)
      && (x.transcript.Some? ==> y.state.Judging? && y.judgment.None? && y.compacted.None? && y.score.None? && y.message.None?)
      && y.runStatus == x.runStatus && y.sessionId == x.sessionId && y.transcript == x.transcript
      && y.tokens == x.tokens && y.toolCalls == x.toolCalls && y.measured == x.measured
  {
  }

  // A re-judge starts from finished executions, so nothing can be admitted
  // afterwards even though the judged ones may outnumber the cap.
  lemma RejudgeSettles(xs: seq<Execution>)
    requires AllTerminal(xs)
    ensures Settled(Rejudge(xs))
    ensures forall i :: 0 <= i < |xs| ==> (Rejudge(xs)[i].state.Judging? <==> xs[i].transcript.Some?)
  {
  }

  // The executions a re-judge can send back to the judge.
  function Kept(xs: seq<Execution>): nat {
    if xs == [] then 0 else Kept(xs[..|xs| - 1]) + if xs[|xs| - 1].transcript.Some? then 1 else 0
  }

  // A re-judge of finished executions takes one slot per kept transcript, so it
  // starts above the cap exactly when more transcripts than slots were kept.
  lemma {:induction false} RejudgeOccupies(xs: seq<Execution>, cap: nat)
    requires AllTerminal(xs)
    ensures Occupied(Rejudge(xs)) == Kept(xs)
    ensures Occupied(Rejudge(xs)) > cap <==> Kept(xs) > cap
  {
    if xs != [] {
      var n := |xs| - 1;
      RejudgeOccupies(xs[..n], cap);
      assert Rejudge(xs)[..n] == Rejudge(xs[..n]);
    }
  }

  // ... and no cap rules that out.
  lemma {:induction false} RejudgeMayExceedCap(cap: nat) returns (xs: seq<Execution>)
    ensures AllTerminal(xs) && Kept(xs) == cap + 1 && Occupied(xs) == 0 && Occupied(Rejudge(xs)) > cap
  {
    var done := Fresh.(state := Completed, transcript := Some(["s"]));
    if cap == 0 {
      xs := [done];
      assert xs[..0] == [];
    } else {
      var fewer := RejudgeMayExceedCap(cap - 1);
      xs := fewer + [done];
      assert xs[..|fewer|] == fewer;
    }
    OccupiedZero(xs);
    RejudgeOccupies(xs, cap);
  }
}
