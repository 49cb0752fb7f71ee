// Scoring an evaluation against the medians of its succeeded executions.
// Measurements are reals; NaN and the infinities are the NotFinite metric.
module Scoring {
  import opened Common
  import opened Evaluation

  datatype References = References(tokens: real, toolCalls: real)

  ghost predicate Sorted(s: seq<real>) {
    forall i, j :: 0 <= i < j < |s| ==> s[i] <= s[j]
  }

  function Insert(s: seq<real>, x: real): seq<real> {
    if s == [] then [x]
    else if x <= s[0] then [x] + s
    else [s[0]] + Insert(s[1..], x)
  }

  function Sort(s: seq<real>): seq<real> {
    if s == [] then [] else Insert(Sort(s[1..]), s[0])
  }

  lemma {:induction false} InsertContents(s: seq<real>, x: real)
    ensures multiset(Insert(s, x)) == multiset(s) + multiset{x}
  {
    if s != [] {
      assert s == [s[0]] + s[1..];
      if x > s[0] { InsertContents(s[1..], x); }
    }
  }

  lemma {:induction false} InsertSorts(s: seq<real>, x: real)
    requires Sorted(s)
    ensures Sorted(Insert(s, x))
  {
    if s != [] && x > s[0] {
      InsertSorts(s[1..], x);
      InsertContents(s[1..], x);
      SortedCons(s[0], s[1..], Insert(s[1..], x), x);
    }
  }

  lemma SortedCons(head: real, tail: seq<real>, rest: seq<real>, x: real)
    requires Sorted(rest) && multiset(rest) == multiset(tail) + multiset{x}
    requires head <= x && forall k :: 0 <= k < |tail| ==> head <= tail[k]
    ensures Sorted([head] + rest)
  {
    forall k | 0 <= k < |rest| ensures head <= rest[k] {
      assert rest[k] in multiset(rest);
    }
  }

  lemma {:induction false} SortSorts(s: seq<real>)
    ensures Sorted(Sort(s)) && multiset(Sort(s)) == multiset(s)
  {
    if s != [] {
      SortSorts(s[1..]);
      InsertSorts(Sort(s[1..]), s[0]);
      InsertContents(Sort(s[1..]), s[0]);
      assert s == [s[0]] + s[1..];
    }
  }

  // A multiset has one sorted arrangement.
  lemma {:induction false} SortedUnique(a: seq<real>, b: seq<real>)
    requires Sorted(a) && Sorted(b) && multiset(a) == multiset(b)
    ensures a == b
  {
    if a == [] {
      assert |multiset(b)| == 0;
    } else {
      assert |multiset(a)| == |multiset(b)|;
      SortedHead(a, b);
      SortedHead(b, a);
      assert a == [a[0]] + a[1..] && b == [b[0]] + b[1..];
      assert multiset(a[1..]) == multiset(a) - multiset{a[0]};
      assert multiset(b[1..]) == multiset(b) - multiset{b[0]};
      SortedUnique(a[1..], b[1..]);
    }
  }

  lemma SortedHead(a: seq<real>, b: seq<real>)
    requires Sorted(a) && |a| > 0 && |b| > 0 && multiset(a) == multiset(b)
    ensures a[0] <= b[0]
  {
    assert b[0] in multiset(a);
    var k :| 0 <= k < |a| && a[k] == b[0];
  }

  // The middle value, or the mean of the two middle values.
  function Median(values: seq<real>): real
    requires values != []
    requires |Sort(values)| == |values|
  {
    var s := Sort(values);
    var middle := |s| / 2;
    if |s| % 2 == 0 then (s[middle - 1] + s[middle]) / 2.0 else s[middle]
  }

  lemma SortLength(s: seq<real>)
    ensures |Sort(s)| == |s|
  {
    SortSorts(s);
    assert |multiset(Sort(s))| == |multiset(s)|;
  }

  lemma MedianOrderFree(a: seq<real>, b: seq<real>)
    requires a != [] && multiset(a) == multiset(b)
    ensures b != [] && |Sort(a)| == |a| && |Sort(b)| == |b| && Median(a) == Median(b)
  {
    assert |multiset(a)| == |multiset(b)|;
    SortLength(a);
    SortLength(b);
    SortSorts(a);
    SortSorts(b);
    SortedUnique(Sort(a), Sort(b));
  }

  // How many values lie strictly below or above x.
  function Below(values: seq<real>, x: real): nat {
    if values == [] then 0 else Below(values[1..], x) + if values[0] < x then 1 else 0
  }

  function Above(values: seq<real>, x: real): nat {
    if values == [] then 0 else Above(values[1..], x) + if values[0] > x then 1 else 0
  }

  // The mean of the two middle values of the one sorted arrangement, which are
  // the same value for an odd number; at most half of the values on either side.
  ghost predicate IsMedian(values: seq<real>, m: real) {
    && values != []
    && (forall s :: Sorted(s) && multiset(s) == multiset(values) ==> Central(s, m))
    && 2 * Below(values, m) <= |values| && 2 * Above(values, m) <= |values|
  }

  ghost predicate Central(s: seq<real>, m: real) {
    s != [] && m == (s[(|s| - 1) / 2] + s[|s| / 2]) / 2.0
  }

  lemma {:induction false} InsertCounts(s: seq<real>, y: real, x: real)
    ensures Below(Insert(s, y), x) == Below(s, x) + if y < x then 1 else 0
    ensures Above(Insert(s, y), x) == Above(s, x) + if y > x then 1 else 0
  {
    if s != [] {
      if y <= s[0] {
        assert ([y] + s)[1..] == s;
      } else {
        InsertCounts(s[1..], y, x);
        assert ([s[0]] + Insert(s[1..], y))[1..] == Insert(s[1..], y);
      }
    }
  }

  lemma {:induction false} SortCounts(s: seq<real>, x: real)
    ensures Below(Sort(s), x) == Below(s, x) && Above(Sort(s), x) == Above(s, x)
  {
    if s != [] {
      SortCounts(s[1..], x);
      InsertCounts(Sort(s[1..]), s[0], x);
    }
  }

  // In a sorted list everything below x comes before the first value that is not.
  lemma {:induction false} SortedBelow(s: seq<real>, x: real, k: nat)
    requires Sorted(s) && k < |s| && x <= s[k]
    ensures Below(s, x) <= k
  {
    if k > 0 {
      SortedBelow(s[1..], x, k - 1);
    } else {
      NoneBelow(s, x);
    }
  }

  lemma {:induction false} NoneBelow(s: seq<real>, x: real)
    requires forall i :: 0 <= i < |s| ==> x <= s[i]
    ensures Below(s, x) == 0
  {
    if s != [] { NoneBelow(s[1..], x); }
  }

  lemma {:induction false} SortedAbove(s: seq<real>, x: real, k: nat)
    requires Sorted(s) && k < |s| && s[k] <= x
    ensures Above(s, x) <= |s| - 1 - k
  {
    if k > 0 {
      assert s[0] <= s[k];
      SortedAbove(s[1..], x, k - 1);
    } else {
      AboveBound(s[1..], x);
    }
  }

  lemma {:induction false} AboveBound(s: seq<real>, x: real)
    ensures Above(s, x) <= |s|
  {
    if s != [] { AboveBound(s[1..], x); }
  }

  lemma MedianIsCentral(values: seq<real>)
    requires values != []
    ensures |Sort(values)| == |values| && Central(Sort(values), Median(values))
  {
    SortLength(values);
  }

  lemma CentralHalves(s: seq<real>, m: real)
    requires Sorted(s) && Central(s, m)
    ensures 2 * Below(s, m) <= |s| && 2 * Above(s, m) <= |s|
  {
    var n := |s|;
    assert s[(n - 1) / 2] <= s[n / 2];
    SortedBelow(s, m, n / 2);
    SortedAbove(s, m, (n - 1) / 2);
  }

  lemma MedianIsMedian(values: seq<real>)
    requires values != []
    ensures |Sort(values)| == |values| && IsMedian(values, Median(values))
  {
    MedianIsCentral(values);
    SortSorts(values);
    var s, m := Sort(values), Median(values);
    forall a | Sorted(a) && multiset(a) == multiset(values) ensures Central(a, m) {
      SortedUnique(a, s);
    }
    CentralHalves(s, m);
    SortCounts(values, m);
  }

  lemma MedianNonNegative(a: seq<real>)
    requires a != [] && forall x :: x in a ==> x >= 0.0
    ensures |Sort(a)| == |a| && Median(a) >= 0.0
  {
    SortLength(a);
    SortSorts(a);
    forall k | 0 <= k < |a| ensures Sort(a)[k] >= 0.0 {
      assert Sort(a)[k] in multiset(Sort(a));
      assert Sort(a)[k] in a;
    }
  }

  // Both metrics known, finite and non-negative.
  predicate Measurable(x: Execution) {
    && x.tokens.Some? && x.toolCalls.Some?
    && x.tokens.value.Finite? && x.tokens.value.value >= 0.0 && x.toolCalls.value >= 0
  }

  // The executions whose metrics enter the references.
  predicate Counted(x: Execution) {
    x.runStatus == Some(Succeeded) && Measurable(x)
  }

  function Tokens(xs: seq<Execution>): seq<real> {
    if xs == [] then []
    else var last := xs[|xs| - 1];
      Tokens(xs[..|xs| - 1]) + if Counted(last) then [last.tokens.value.value] else []
  }

  function Calls(xs: seq<Execution>): seq<real> {
    if xs == [] then []
    else var last := xs[|xs| - 1];
      Calls(xs[..|xs| - 1]) + if Counted(last) then [last.toolCalls.value as real] else []
  }

  lemma {:induction false} MetricsAligned(xs: seq<Execution>)
    ensures |Tokens(xs)| == |Calls(xs)|
    ensures forall v :: v in Tokens(xs) ==> v >= 0.0
    ensures forall v :: v in Calls(xs) ==> v >= 0.0
  {
    if xs != [] { MetricsAligned(xs[..|xs| - 1]); }
  }

  // The executions whose metrics count, by position.
  ghost function CountedAt(xs: seq<Execution>): set<nat> {
    set i: nat | i < |xs| && xs[i].runStatus == Some(Succeeded) && xs[i].tokens.Some? && xs[i].toolCalls.Some?
      && xs[i].tokens.value.Finite? && xs[i].tokens.value.value >= 0.0 && xs[i].toolCalls.value >= 0
  }

  lemma CountedGrow(xs: seq<Execution>, n: nat)
    requires |xs| == n + 1
    ensures CountedAt(xs) == CountedAt(xs[..n]) + if Counted(xs[n]) then {n} else {}
    ensures n in CountedAt(xs) <==> Counted(xs[n])
  {
    assert forall i: nat | i < n :: xs[..n][i] == xs[i];
  }

  // The metric lists hold one entry for each of them, and theirs alone.
  lemma {:induction false} MetricsAre(xs: seq<Execution>)
    ensures multiset(Tokens(xs)) == TokensAt(xs) && multiset(Calls(xs)) == CallsAt(xs)
    ensures |Tokens(xs)| == |Calls(xs)| == |CountedAt(xs)|
  {
    if xs != [] {
      var n: nat := |xs| - 1;
      MetricsAre(xs[..n]);
      CountedGrow(xs, n);
    }
  }

  // Their tokens and calls, counted with multiplicity.
  ghost function TokensAt(xs: seq<Execution>): multiset<real> {
    if xs == [] then multiset{}
    else
      var n: nat := |xs| - 1;
      TokensAt(xs[..n]) + if n in CountedAt(xs) then multiset{xs[n].tokens.value.value} else multiset{}
  }

  ghost function CallsAt(xs: seq<Execution>): multiset<real> {
    if xs == [] then multiset{}
    else
      var n: nat := |xs| - 1;
      CallsAt(xs[..n]) + if n in CountedAt(xs) then multiset{xs[n].toolCalls.value as real} else multiset{}
  }

  ghost predicate Unsettled(xs: seq<Execution>) {
    exists i :: 0 <= i < |xs| && (xs[i].state.Queued? || xs[i].state.Running?)
  }

  // References are the medians, once; with no counted execution they stay unset.
  ghost function NewReferences(xs: seq<Execution>): Option<References> {
    SortLength(Tokens(xs));
    SortLength(Calls(xs));
    MetricsAligned(xs);
    if Tokens(xs) == [] then None else Some(References(Median(Tokens(xs)), Median(Calls(xs))))
  }

  // The median of a multiset, whatever the order its values come in.
  ghost predicate MedianOf(ms: multiset<real>, m: real) {
    ms != multiset{} && forall values :: multiset(values) == ms ==> IsMedian(values, m)
  }

  lemma MedianOfValues(values: seq<real>)
    requires values != []
    ensures |Sort(values)| == |values| && MedianOf(multiset(values), Median(values))
  {
    MedianIsMedian(values);
    assert values[0] in multiset(values);
    forall a | multiset(a) == multiset(values) ensures IsMedian(a, Median(values)) {
      MedianOrderFree(values, a);
      MedianIsMedian(a);
    }
  }

  // References exist exactly when an execution counts, and are then the medians
  // of the tokens and of the calls of those that do.
  lemma NewReferencesAre(xs: seq<Execution>)
    ensures NewReferences(xs).Some? <==> CountedAt(xs) != {}
    ensures NewReferences(xs).Some? ==>
      MedianOf(TokensAt(xs), NewReferences(xs).value.tokens) && MedianOf(CallsAt(xs), NewReferences(xs).value.toolCalls)
  {
    MetricsAre(xs);
    assert Tokens(xs) == [] <==> |CountedAt(xs)| == 0;
    if Tokens(xs) != [] {
      assert Calls(xs) != [];
      MedianOfValues(Tokens(xs));
      MedianOfValues(Calls(xs));
    }
  }

  function Ratio(reference: real, value: real): real {
    if reference + value > 0.0 then reference / (reference + value) else 0.5
  }

  function Efficiency(refs: References, x: Execution): real
    requires Measurable(x)
  {
    Ratio(refs.tokens, x.tokens.value.value) / 2.0 + Ratio(refs.toolCalls, x.toolCalls.value as real) / 2.0
  }

  function Grade(j: Judgment, measured: real): real {
    100.0 * (j.correctness as real / 4.0) * (0.8 + 0.1 * (j.efficiency as real / 4.0) + 0.1 * measured)
  }

  // The measured efficiency and the score of one execution under fixed references.
  function Rate(x: Execution, refs: Option<References>): Execution {
    var cleared := x.(score := None, measured := None);
    if !Measurable(x) then cleared
    else
      var y := if refs.Some? then cleared.(measured := Some(Efficiency(refs.value, x))) else cleared;
      if x.judgment.None? || x.runStatus.None? then y
      else if x.runStatus.value != Succeeded || x.judgment.value.correctness < 3 then y.(score := Some(0.0))
      else if y.measured.None? then y
      else y.(score := Some(Grade(x.judgment.value, y.measured.value)))
  }

  predicate Judgeable(x: Execution) { Measurable(x) && x.judgment.Some? && x.runStatus.Some? }

  predicate FailedRun(x: Execution)
    requires Judgeable(x)
  {
    x.runStatus != Some(Succeeded) || x.judgment.value.correctness < 3
  }

  // When an execution is measured and scored, and when it scores nothing.
  lemma RateMeans(x: Execution, refs: Option<References>)
    ensures var y := Rate(x, refs);
      && (y.measured.Some? <==> Measurable(x) && refs.Some?)
      && (Judgeable(x) && FailedRun(x) ==> y.score == Some(0.0))
      && (y.score.Some? <==> Judgeable(x) && (FailedRun(x) || refs.Some?))
      && y.(score := x.score, measured := x.measured) == x
  {
  }

  function RateAll(xs: seq<Execution>, refs: Option<References>): seq<Execution> {
    seq(|xs|, i requires 0 <= i < |xs| => Rate(xs[i], refs))
  }

  // One scoring pass over an evaluation.
  ghost function Score(xs: seq<Execution>, refs: Option<References>): (seq<Execution>, Option<References>) {
    if refs.None? && Unsettled(xs) then (xs, refs)
    else
      var refs' := if refs.Some? then refs else NewReferences(xs);
      (RateAll(xs, refs'), refs')
  }

  predicate GradeInRange(x: Execution) {
    x.judgment.Some? ==> x.judgment.value.correctness <= 4 && x.judgment.value.efficiency <= 4
  }

  ghost predicate GradesInRange(xs: seq<Execution>) {
    forall i :: 0 <= i < |xs| ==> GradeInRange(xs[i])
  }

  ghost predicate ReferencesValid(refs: Option<References>) {
    refs.Some? ==> refs.value.tokens >= 0.0 && refs.value.toolCalls >= 0.0
  }

  lemma RatioRange(reference: real, value: real)
    requires reference >= 0.0 && value >= 0.0
    ensures 0.0 <= Ratio(reference, value) <= 1.0
  {
    if reference + value > 0.0 {
      var d := reference + value;
      var q := reference / d;
      assert q * d == reference;
      if q < 0.0 { assert q * d < 0.0; }
      if q > 1.0 { assert q * d > d; }
    }
  }

  lemma Products(k: real, a: real, b: real)
    requires k >= 0.0 && a <= b
    ensures k * a <= k * b && a * k <= b * k
    ensures k > 0.0 && a < b ==> k * a < k * b && a * k < b * k
  {
    var d := b - a;
    assert k * b == k * a + k * d;
    assert k * d >= 0.0;
    if k > 0.0 && a < b { assert k * d > 0.0; }
  }

  lemma QuotientsOrdered(r: real, a: real, b: real, p: real, q: real)
    requires 0.0 < a <= b && 0.0 <= q && p * a == r && q * b == r
    ensures q <= p
  {
    Products(q, a, b);
    if p < q { Products(a, p, q); }
  }

  lemma RatioAntitone(reference: real, less: real, more: real)
    requires reference >= 0.0 && 0.0 <= less <= more
    ensures Ratio(reference, less) >= Ratio(reference, more)
  {
    if reference + less > 0.0 {
      var a, b := reference + less, reference + more;
      var p, q := reference / a, reference / b;
      assert p * a == reference && q * b == reference;
      RatioRange(reference, more);
      QuotientsOrdered(reference, a, b, p, q);
    } else {
      RatioRange(reference, more);
      if reference + more > 0.0 { assert reference / (reference + more) == 0.0; }
    }
  }

  lemma NewReferencesValid(xs: seq<Execution>)
    ensures ReferencesValid(NewReferences(xs))
  {
    MetricsAligned(xs);
    if Tokens(xs) != [] {
      MedianNonNegative(Tokens(xs));
      MedianNonNegative(Calls(xs));
    }
  }

  // A rated execution: efficiency within [0, 1], score zero or within [60, 100].
  predicate InRange(x: Execution) {
    && (x.measured.Some? ==> 0.0 <= x.measured.value <= 1.0)
    && (x.score.Some? ==> x.score.value == 0.0 || 60.0 <= x.score.value <= 100.0)
  }

  lemma GradeRange(j: Judgment, m: real)
    requires 3 <= j.correctness <= 4 && j.efficiency <= 4 && 0.0 <= m <= 1.0
    ensures 60.0 <= Grade(j, m) <= 100.0
  {
    var e := j.efficiency as real / 4.0;
    var inner := 0.8 + 0.1 * e + 0.1 * m;
    assert 0.8 <= inner <= 1.0;
    var quality := j.correctness as real / 4.0;
    assert Grade(j, m) == 100.0 * quality * inner;
    if j.correctness == 3 {
      assert quality == 0.75;
      assert Grade(j, m) == 75.0 * inner;
    } else {
      assert quality == 1.0;
      assert Grade(j, m) == 100.0 * inner;
    }
  }

  lemma RateRange(x: Execution, refs: Option<References>)
    requires ReferencesValid(refs) && GradeInRange(x)
    ensures InRange(Rate(x, refs))
  {
    if Measurable(x) && refs.Some? {
      RatioRange(refs.value.tokens, x.tokens.value.value);
      RatioRange(refs.value.toolCalls, x.toolCalls.value as real);
      var m := Efficiency(refs.value, x);
      assert 0.0 <= m <= 1.0;
      if x.judgment.Some? && x.judgment.value.correctness >= 3 { GradeRange(x.judgment.value, m); }
    }
  }

  // After any pass every execution that was rated is in range, and valid
  // references stay valid.
  lemma ScoreRange(xs: seq<Execution>, refs: Option<References>)
    requires GradesInRange(xs) && ReferencesValid(refs)
    requires forall i :: 0 <= i < |xs| ==> InRange(xs[i])
    ensures var (ys, refs') := Score(xs, refs);
      |ys| == |xs| && ReferencesValid(refs') && forall i :: 0 <= i < |ys| ==> InRange(ys[i])
  {
    NewReferencesValid(xs);
    var (ys, refs') := Score(xs, refs);
    if !(refs.None? && Unsettled(xs)) {
      forall i | 0 <= i < |xs| ensures InRange(ys[i]) { RateRange(xs[i], refs'); }
    }
  }

  // Scoring rewrites only the two score fields.
  lemma ScoreTouchesOnlyScores(xs: seq<Execution>, refs: Option<References>)
    ensures |Score(xs, refs).0| == |xs|
    ensures forall i :: 0 <= i < |xs| ==> SameEvidence(Score(xs, refs).0[i], xs[i])
  {
  }

  ghost predicate SameEvidence(a: Execution, b: Execution) {
    a.(score := None, measured := None) == b.(score := None, measured := None)
  }

  // What the references are computed from.
  ghost predicate SameMetrics(a: Execution, b: Execution) {
    a.runStatus == b.runStatus && a.tokens == b.tokens && a.toolCalls == b.toolCalls
  }

  lemma {:induction false} MetricsFollow(xs: seq<Execution>, ys: seq<Execution>)
    requires |xs| == |ys| && forall i :: 0 <= i < |xs| ==> SameMetrics(xs[i], ys[i])
    ensures Tokens(xs) == Tokens(ys) && Calls(xs) == Calls(ys)
    ensures NewReferences(xs) == NewReferences(ys)
  {
    if xs != [] {
      var n := |xs| - 1;
      forall i | 0 <= i < n ensures SameMetrics(xs[..n][i], ys[..n][i]) {
        assert SameMetrics(xs[i], ys[i]);
      }
      MetricsFollow(xs[..n], ys[..n]);
      assert SameMetrics(xs[n], ys[n]);
      assert Counted(xs[n]) == Counted(ys[n]);
    }
  }

  lemma MetricsFollowEvidence(xs: seq<Execution>, ys: seq<Execution>)
    requires |xs| == |ys| && forall i :: 0 <= i < |xs| ==> SameEvidence(xs[i], ys[i])
    ensures Tokens(xs) == Tokens(ys) && Calls(xs) == Calls(ys)
    ensures NewReferences(xs) == NewReferences(ys)
    ensures Unsettled(xs) <==> Unsettled(ys)
  {
    forall i | 0 <= i < |xs| ensures SameMetrics(xs[i], ys[i]) && xs[i].state == ys[i].state {
      assert SameEvidence(xs[i], ys[i]);
    }
    MetricsFollow(xs, ys);
  }

  // A pass depends on the evidence only, so stale score fields cannot matter.
  lemma ScoreIgnoresOldScores(xs: seq<Execution>, ys: seq<Execution>, refs: Option<References>)
    requires |xs| == |ys| && forall i :: 0 <= i < |xs| ==> SameEvidence(xs[i], ys[i])
    ensures Score(xs, refs).1 == Score(ys, refs).1
    ensures refs.Some? || !Unsettled(xs) ==> Score(xs, refs).0 == Score(ys, refs).0
  {
    forall i | 0 <= i < |xs| ensures xs[i].state == ys[i].state {
      assert SameEvidence(xs[i], ys[i]);
    }
    MetricsFollowEvidence(xs, ys);
    if refs.Some? || !Unsettled(xs) {
      assert !(refs.None? && Unsettled(ys));
      var refs' := Score(xs, refs).1;
      forall i | 0 <= i < |xs| ensures Rate(xs[i], refs') == Rate(ys[i], refs') {
        assert SameEvidence(xs[i], ys[i]);
      }
      assert RateAll(xs, refs') == RateAll(ys, refs');
    }
  }

  lemma ScoreIdempotent(xs: seq<Execution>, refs: Option<References>)
    ensures var (ys, refs') := Score(xs, refs); Score(ys, refs') == (ys, refs')
  {
    var (ys, refs') := Score(xs, refs);
    ScoreTouchesOnlyScores(xs, refs);
    if !(refs.None? && Unsettled(xs)) {
      forall i | 0 <= i < |xs| ensures xs[i].state == ys[i].state && Rate(ys[i], refs') == ys[i] {
        assert SameEvidence(ys[i], xs[i]);
      }
      MetricsFollowEvidence(xs, ys);
      assert RateAll(ys, refs') == ys;
    }
  }

  // Two executions that differ only in cost: the cheaper one never scores lower.
  ghost predicate NoCostlier(x: Execution, y: Execution) {
    && Measurable(x) && Measurable(y)
    && x.judgment == y.judgment && x.runStatus == y.runStatus
    && x.tokens.value.value <= y.tokens.value.value && x.toolCalls.value <= y.toolCalls.value
  }

  lemma CheaperScoresNoLower(x: Execution, y: Execution, refs: References)
    requires NoCostlier(x, y) && ReferencesValid(Some(refs))
    ensures var a, b := Rate(x, Some(refs)), Rate(y, Some(refs));
      && a.measured.value >= b.measured.value
      && a.score.Some? == b.score.Some?
      && (a.score.Some? ==> a.score.value >= b.score.value)
  {
    RatioAntitone(refs.tokens, x.tokens.value.value, y.tokens.value.value);
    RatioAntitone(refs.toolCalls, x.toolCalls.value as real, y.toolCalls.value as real);
    if x.judgment.Some? {
      GradeMonotone(x.judgment.value, Efficiency(refs, x), Efficiency(refs, y));
    }
  }

  lemma GradeMonotone(j: Judgment, hi: real, lo: real)
    requires hi >= lo
    ensures Grade(j, hi) >= Grade(j, lo)
  {
    var q := 100.0 * (j.correctness as real / 4.0);
    var c := 0.8 + 0.1 * (j.efficiency as real / 4.0);
    assert Grade(j, hi) - Grade(j, lo) == q * (0.1 * (hi - lo));
  }

  // The whole scale: sixty at its lower end, a hundred at its upper, with the
  // weight of each part.
  lemma GradeScale(j: Judgment, m: real)
    ensures Grade(Judgment(3, 0), 0.0) == 60.0 && Grade(Judgment(4, 4), 1.0) == 100.0
    ensures j.correctness > 0 ==> Grade(j.(efficiency := j.efficiency + 1), m) == Grade(j, m) + 0.625 * j.correctness as real
    ensures j.correctness > 0 ==> Grade(j, m + 1.0) == Grade(j, m) + 2.5 * j.correctness as real
    ensures 4.0 * Grade(j, m) == j.correctness as real * Grade(j.(correctness := 4), m)
  {
  }

  // A run that costs what the references cost is measured at one half, a free
  // one at one, and each metric alone makes a difference.
  lemma EfficiencyScale(refs: References, x: Execution, y: Execution)
    requires Measurable(x) && Measurable(y) && refs.tokens > 0.0 && refs.toolCalls > 0.0
    ensures x.tokens.value.value == refs.tokens && x.toolCalls.value as real == refs.toolCalls ==> Efficiency(refs, x) == 0.5
    ensures x.tokens.value.value == 0.0 && x.toolCalls.value == 0 ==> Efficiency(refs, x) == 1.0
    ensures x.tokens.value.value < y.tokens.value.value && x.toolCalls == y.toolCalls ==> Efficiency(refs, x) > Efficiency(refs, y)
    ensures x.tokens == y.tokens && x.toolCalls.value < y.toolCalls.value ==> Efficiency(refs, x) > Efficiency(refs, y)
  {
    RatioAnchors(refs.tokens);
    RatioAnchors(refs.toolCalls);
    if x.tokens.value.value < y.tokens.value.value { RatioStrict(refs.tokens, x.tokens.value.value, y.tokens.value.value); }
    if x.toolCalls.value < y.toolCalls.value { RatioStrict(refs.toolCalls, x.toolCalls.value as real, y.toolCalls.value as real); }
  }

  lemma RatioAnchors(reference: real)
    requires reference > 0.0
    ensures Ratio(reference, reference) == 0.5 && Ratio(reference, 0.0) == 1.0
  {
    var q := reference / (reference + reference);
    assert q * (reference + reference) == reference;
    if q < 0.5 { Products(reference + reference, q, 0.5); }
    if q > 0.5 { Products(reference + reference, 0.5, q); }
  }

  lemma RatioStrict(reference: real, less: real, more: real)
    requires reference > 0.0 && 0.0 <= less < more
    ensures Ratio(reference, less) > Ratio(reference, more)
  {
    var a, b := reference + less, reference + more;
    var p, q := reference / a, reference / b;
    assert p * a == reference && q * b == reference;
    QuotientsApart(reference, a, b, p, q);
  }

  lemma QuotientsApart(r: real, a: real, b: real, p: real, q: real)
    requires 0.0 < r && 0.0 < a < b && p * a == r && q * b == r
    ensures q < p
  {
    if q <= 0.0 { Products(b, q, 0.0); }
    Products(q, a, b);
    if p <= q { Products(a, p, q); }
  }

  lemma {:induction false} MetricsConcat(xs: seq<Execution>, ys: seq<Execution>)
    ensures Tokens(xs + ys) == Tokens(xs) + Tokens(ys)
    ensures Calls(xs + ys) == Calls(xs) + Calls(ys)
  {
    if ys == [] {
      assert xs + ys == xs;
    } else {
      var n := |ys| - 1;
      assert (xs + ys)[..|xs| + n] == xs + ys[..n];
      MetricsConcat(xs, ys[..n]);
    }
  }

  lemma MetricsWithout(ys: seq<Execution>, k: nat)
    requires k < |ys|
    ensures multiset(Tokens(ys)) == multiset(Tokens(Without(ys, k))) + multiset(Tokens([ys[k]]))
    ensures multiset(Calls(ys)) == multiset(Calls(Without(ys, k))) + multiset(Calls([ys[k]]))
  {
    var a, x, b := ys[..k], [ys[k]], ys[k + 1..];
    MultisetWithout(ys, k);
    MetricsConcat(a, b);
    MetricsConcat(a, x + b);
    MetricsConcat(x, b);
    MultisetMiddle(Tokens(a), Tokens(x), Tokens(b));
    MultisetMiddle(Calls(a), Calls(x), Calls(b));
  }

  lemma {:induction false} MetricsPermute(xs: seq<Execution>, ys: seq<Execution>)
    requires multiset(xs) == multiset(ys)
    ensures multiset(Tokens(xs)) == multiset(Tokens(ys))
    ensures multiset(Calls(xs)) == multiset(Calls(ys))
    decreases |xs|
  {
    if xs == [] {
      assert |multiset(ys)| == 0;
    } else {
      assert xs[0] in multiset(ys);
      var k :| 0 <= k < |ys| && ys[k] == xs[0];
      MultisetWithout(xs, 0);
      MultisetWithout(ys, k);
      MetricsPermute(Without(xs, 0), Without(ys, k));
      MetricsWithout(xs, 0);
      MetricsWithout(ys, k);
    }
  }

  // References do not depend on the order of the executions.
  lemma ReferencesOrderFree(xs: seq<Execution>, ys: seq<Execution>)
    requires multiset(xs) == multiset(ys)
    ensures NewReferences(xs) == NewReferences(ys)
  {
    MetricsPermute(xs, ys);
    assert |multiset(Tokens(xs))| == |multiset(Tokens(ys))|;
    MetricsAligned(xs);
    if Tokens(xs) != [] {
      MedianOrderFree(Tokens(xs), Tokens(ys));
      MedianOrderFree(Calls(xs), Calls(ys));
    }
  }
}
