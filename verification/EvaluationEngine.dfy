// The evaluation object as the coordinator updates it in place. Each method is
// proved against its specification in Evaluation or Scoring.
module EvaluationEngine {
  import opened Common
  import opened Evaluation
  import opened Scoring

  datatype EvaluationState = EvalQueued | EvalRunning | EvalCompleted | EvalCancelled

  // The first n executions cancelled as specified, the rest as they were.
  ghost predicate CancelledUpTo(before: seq<Execution>, after: seq<Execution>, removals: seq<Removal>, n: nat) {
    && |after| == |before| == |removals| && n <= |before|
    && (forall i :: 0 <= i < n ==> after[i] == CancelOne(before[i], removals[i]).0)
    && (forall i :: n <= i < |before| ==> after[i] == before[i])
  }

  // A run that could not be removed stops the pass.
  predicate Blocks(x: Execution, r: Removal) { !x.state.Terminal() && !x.state.Judging? && r.RemovalFailed? }

  ghost predicate NoneBlocks(xs: seq<Execution>, removals: seq<Removal>, n: nat)
    requires n <= |xs| == |removals|
  {
    forall i :: 0 <= i < n ==> !Blocks(xs[i], removals[i])
  }

  ghost predicate StopsAt(xs: seq<Execution>, removals: seq<Removal>, n: nat)
    requires |xs| == |removals|
  {
    n < |xs| && NoneBlocks(xs, removals, n) && Blocks(xs[n], removals[n])
  }

  class Engine {
    var executions: seq<Execution>
    var references: Option<References>
    var state: EvaluationState
    const concurrency: nat

    constructor (models: nat, concurrency: nat)
      ensures executions == seq(models, i => Fresh)
      ensures references.None? && state == EvalQueued && this.concurrency == concurrency
    {
      executions := seq(models, i => Fresh);
      references := None;
      state := EvalQueued;
      this.concurrency := concurrency;
    }

    method CountActive() returns (active: nat)
      ensures active == Occupied(executions)
    {
      active := 0;
      for i := 0 to |executions|
        invariant active == Occupied(executions[..i])
      {
        if executions[i].state.Running? || executions[i].state.Judging? {
          active := active + 1;
        }
        assert executions[..i + 1][..i] == executions[..i];
      }
      assert executions[..|executions|] == executions;
    }

    // The local `active` counter is adjusted in nine branches; the contract says
    // that every one of them keeps it equal to the true number of taken slots,
    // because the specification never uses a counter.
    method AdvanceRuns(lookups: seq<Lookup>) returns (failed: bool)
      requires |lookups| == |executions|
      modifies this`executions
      ensures (executions, failed) == Advance(old(executions), concurrency, lookups)
    {
      var active := CountActive();
      failed := false;
      for i := 0 to |executions|
        invariant |executions| == |lookups|
        invariant active == Occupied(executions)
        invariant AdvanceFrom(executions, i, concurrency, lookups) == Advance(old(executions), concurrency, lookups)
      {
        var execution := executions[i];
        if execution.state.Queued? {
          if active >= concurrency {
            continue;
          }
          active := active + 1;
        } else if !execution.state.Running? {
          continue;
        }
        ghost var before := executions;
        var stop, released;
        execution, stop, released := Examine(execution, lookups[i]);
        OccupiedUpdate(before, i, execution);
        executions := executions[i := execution];
        if stop {
          return true;
        }
        if released {
          active := active - 1;
        }
      }
    }

    // The branches after admission. `released` is the branch's own `active--`.
    static method Examine(x: Execution, lookup: Lookup) returns (y: Execution, stop: bool, released: bool)
      requires x.state.Queued? || x.state.Running?
      ensures (y, stop) == Observe(x, lookup)
      ensures !stop ==> Slot(y) == if released then 0 else 1
    {
      y, stop, released := x, false, false;
      match lookup
      case Unreachable =>
        stop := true;
      case Missing(create) =>
        if x.state.Queued? {
          if create.CreateFailed? {
            stop := true;
            return;
          }
          y := y.(state := Running);
          return;
        }
        y := y.(state := Errored, message := Some(RunGone));
        released := true;
      case Found(owned, matches, phase, sessionId, collect) =>
        if !owned || !matches {
          y := y.(state := Errored, message := Some(ForeignRun));
          released := true;
          return;
        }
        y := y.(state := Running, runStatus := Some(phase));
        if !phase.Terminal() {
          return;
        }
        if sessionId == "" {
          y := y.(state := Errored, message := Some(NoTranscript));
          released := true;
          return;
        }
        y := y.(sessionId := Some(sessionId));
        match collect
        case Unavailable(stopped, recent) =>
          if stopped {
            stop := true;
            return;
          }
          if recent {
            return;
          }
          y := y.(state := Errored, message := Some(TranscriptUnavailable));
          released := true;
        case Collected(transcript, calls, tokens) =>
          y := y.(transcript := Some(transcript), toolCalls := Some(calls));
          if tokens.Some? {
            y := y.(tokens := tokens);
          }
          y := y.(state := Judging);
    }

    // Cancelling goes in list order and stops at the first run that cannot be
    // removed; the evaluation is marked cancelled only when no run is left.
    method Cancel(removals: seq<Removal>) returns (failed: bool)
      requires |removals| == |executions|
      modifies this`executions, this`state
      ensures |executions| == |old(executions)|
      ensures !failed ==> NoneBlocks(old(executions), removals, |removals|) && CancelledUpTo(old(executions), executions, removals, |removals|)
      ensures failed ==> exists n :: StopsAt(old(executions), removals, n) && CancelledUpTo(old(executions), executions, removals, n)
      ensures state == if !failed && AllTerminal(executions) then EvalCancelled else old(state)
    {
      var pending := false;
      failed := false;
      for i := 0 to |executions|
        invariant |executions| == |old(executions)| && state == old(state)
        invariant CancelledUpTo(old(executions), executions, removals, i) && NoneBlocks(old(executions), removals, i)
        invariant pending <==> exists j :: 0 <= j < i && !executions[j].state.Terminal()
      {
        var execution := executions[i];
        if execution.state.Terminal() {
          continue;
        }
        if execution.state.Judging? || removals[i].RunMissing? {
          executions := executions[i := execution.(state := Cancelled)];
          continue;
        }
        if removals[i].RemovalFailed? {
          assert StopsAt(old(executions), removals, i);
          return true;
        }
        if removals[i].RunForeign? {
          executions := executions[i := execution.(state := Errored, message := Some(IdentityChanged))];
          continue;
        }
        pending := true;
      }
      if !pending {
        state := EvalCancelled;
      }
    }

    // Refused while the evaluation runs and when no transcript was kept.
    method RequestRejudge() returns (ready: bool)
      modifies this`executions, this`state
      ensures ready <==> old(state) == EvalCompleted && exists i :: 0 <= i < |old(executions)| && old(executions)[i].transcript.Some?
      ensures executions == if ready then Rejudge(old(executions)) else old(executions)
      ensures state == if ready then EvalQueued else old(state)
    {
      ready := false;
      if state != EvalCompleted {
        return;
      }
      for i := 0 to |executions|
        invariant |executions| == |old(executions)| && state == EvalCompleted
        invariant forall j :: 0 <= j < i ==> executions[j] == RejudgeOne(old(executions[j]))
        invariant forall j :: i <= j < |executions| ==> executions[j] == old(executions[j])
        invariant ready <==> exists j :: 0 <= j < i && old(executions)[j].transcript.Some?
      {
        var execution := executions[i];
        if execution.transcript.None? {
          continue;
        }
        execution := execution.(state := Judging, judgment := None, compacted := None, score := None, message := None);
        executions := executions[i := execution];
        ready := true;
      }
      if ready {
        state := EvalQueued;
      }
      assert !ready ==> executions == old(executions);
    }

    // The reference medians, if any execution counts; an open run stops the pass.
    method ComputeReferences() returns (open: bool, refs: Option<References>)
      ensures open <==> Unsettled(executions)
      ensures !open ==> refs == NewReferences(executions)
      ensures !open ==> (refs.Some? <==> CountedAt(executions) != {})
      ensures !open && refs.Some? ==> MedianOf(TokensAt(executions), refs.value.tokens) && MedianOf(CallsAt(executions), refs.value.toolCalls)
    {
      var tokens, calls: seq<real> := [], [];
      open := false;
      refs := None;
      for i := 0 to |executions|
        invariant forall j :: 0 <= j < i ==> !executions[j].state.Queued? && !executions[j].state.Running?
        invariant tokens == Tokens(executions[..i]) && calls == Calls(executions[..i])
      {
        var x := executions[i];
        if x.state.Queued? || x.state.Running? {
          open := true;
          return;
        }
        assert executions[..i + 1][..i] == executions[..i];
        if x.runStatus.None? || x.runStatus.value != Succeeded {
          continue;
        }
        if x.tokens.None? || x.toolCalls.None? {
          continue;
        }
        if x.tokens.value.NotFinite? || x.tokens.value.value < 0.0 || x.toolCalls.value < 0 {
          continue;
        }
        tokens := tokens + [x.tokens.value.value];
        calls := calls + [x.toolCalls.value as real];
      }
      assert executions[..|executions|] == executions;
      MetricsAligned(executions);
      NewReferencesAre(executions);
      if |tokens| > 0 {
        SortLength(tokens);
        SortLength(calls);
        refs := Some(References(Median(tokens), Median(calls)));
      }
    }

    method ScoreExecutions()
      modifies this`executions, this`references
      ensures (executions, references) == Score(old(executions), old(references))
    {
      if references.None? {
        var open, refs := ComputeReferences();
        if open {
          return;
        }
        references := refs;
      }
      ghost var fixed := references;
      for i := 0 to |executions|
        invariant |executions| == |old(executions)| && references == fixed
        invariant forall j :: 0 <= j < i ==> executions[j] == Rate(old(executions[j]), references)
        invariant forall j :: i <= j < |executions| ==> executions[j] == old(executions[j])
      {
        var x := RateExecution(executions[i], references);
        executions := executions[i := x];
      }
      assert executions == RateAll(old(executions), references);
    }

    static method RateExecution(execution: Execution, refs: Option<References>) returns (x: Execution)
      ensures x == Rate(execution, refs)
    {
      x := execution.(score := None, measured := None);
      if x.tokens.None? || x.toolCalls.None? {
        return;
      }
      if x.tokens.value.NotFinite? || x.tokens.value.value < 0.0 || x.toolCalls.value < 0 {
        return;
      }
      if refs.Some? {
        var values := [x.tokens.value.value, x.toolCalls.value as real];
        var references := [refs.value.tokens, refs.value.toolCalls];
        var efficiency := 0.0;
        for j := 0 to 2
          invariant efficiency == if j == 0 then 0.0 else if j == 1 then Ratio(references[0], values[0]) / 2.0
            else Ratio(references[0], values[0]) / 2.0 + Ratio(references[1], values[1]) / 2.0
        {
          var ratio := 0.5;
          if references[j] + values[j] > 0.0 {
            ratio := references[j] / (references[j] + values[j]);
          }
          efficiency := efficiency + ratio / 2.0;
        }
        x := x.(measured := Some(efficiency));
      }
      if x.judgment.None? || x.runStatus.None? {
        return;
      }
      if x.runStatus.value != Succeeded || x.judgment.value.correctness < 3 {
        x := x.(score := Some(0.0));
        return;
      }
      if x.measured.None? {
        return;
      }
      x := x.(score := Some(Grade(x.judgment.value, x.measured.value)));
    }
  }
}
