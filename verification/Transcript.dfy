// Collecting the evidence of one execution: a worklist over the session graph
// of an agent, with the token, tool-call and time totals it accumulates.
module Transcript {
  import opened Common

  type Id = string

  datatype ToolState = ToolPending | ToolRunning | ToolCompleted | ToolFailed
  // `task` is the delegated session named by a completed task's metadata, or "".
  datatype Part = Tool(name: string, state: ToolState, task: Id) | OtherPart

  datatype Usage = Usage(input: real, output: real, reasoning: real, cacheRead: real, cacheWrite: real)

  datatype Message =
    | User(created: int)
    | Assistant(created: int, completed: Option<int>, usage: Usage, parts: seq<Part>)
    | OtherRole

  datatype Session = Session(children: seq<Id>, messages: seq<Message>)

  // What the agent answers: the sessions it can read and those still active.
  datatype World = World(sessions: map<Id, Session>, busy: set<Id>)

  datatype Evidence = Evidence(sessions: seq<Id>, calls: nat, tokens: Option<real>, duration: int)

  function Total(u: Usage): real {
    u.input + u.output + u.reasoning + u.cacheRead + u.cacheWrite
  }

  // All five kinds of token count alike.
  lemma TotalCountsAll(u: Usage, v: Usage, d: Usage)
    requires v.input == u.input + d.input && v.output == u.output + d.output && v.reasoning == u.reasoning + d.reasoning
    requires v.cacheRead == u.cacheRead + d.cacheRead && v.cacheWrite == u.cacheWrite + d.cacheWrite
    ensures Total(v) == Total(u) + d.input + d.output + d.reasoning + d.cacheRead + d.cacheWrite
  {
  }

  // The first prompt: the earliest user message, zero meaning not seen yet.
  function Started(messages: seq<Message>): int {
    if messages == [] then 0
    else
      var n := |messages| - 1;
      var before := Started(messages[..n]);
      if messages[n].User? && (before == 0 || messages[n].created < before) then messages[n].created else before
  }

  // With creation times other than zero it is the earliest of the user messages.
  lemma {:induction false} StartedIsEarliest(messages: seq<Message>)
    requires forall i :: 0 <= i < |messages| && messages[i].User? ==> messages[i].created != 0
    ensures Started(messages) == 0 <==> forall i :: 0 <= i < |messages| ==> !messages[i].User?
    ensures forall i :: 0 <= i < |messages| && messages[i].User? ==> Started(messages) <= messages[i].created
    ensures Started(messages) != 0 ==> exists i :: 0 <= i < |messages| && messages[i] == User(Started(messages))
  {
    if messages != [] {
      var n := |messages| - 1;
      var before := messages[..n];
      StartedIsEarliest(before);
      if Started(before) != 0 {
        var i :| 0 <= i < |before| && before[i] == User(Started(before));
        assert messages[i] == before[i];
      }
      forall i | 0 <= i < n ensures messages[i] == before[i] {
      }
    }
  }

  // Where a session stands: the root establishes the start while it is read,
  // every other session uses the value the root ended with.
  datatype Clock = RootClock | FixedClock(start: int)

  function At(clock: Clock, messages: seq<Message>, k: nat): int
    requires k <= |messages|
  {
    if clock.RootClock? then Started(messages[..k]) else clock.start
  }

  // Charged to this execution: an assistant message not older than the start.
  predicate Charged(clock: Clock, messages: seq<Message>, k: nat)
    requires k < |messages|
  {
    messages[k].Assistant? && messages[k].created >= At(clock, messages, k)
  }

  // Work from before the first prompt is free: with it known, one more message is
  // charged exactly if the assistant created it at that moment or later.
  lemma {:induction false} ChargedFromStart(start: int, messages: seq<Message>, m: Message)
    ensures var more, n := messages + [m], |messages|;
      && TokensTo(FixedClock(start), more, n + 1)
           == TokensTo(FixedClock(start), messages, n) + (if m.Assistant? && start <= m.created then Total(m.usage) else 0.0)
      && CallsTo(FixedClock(start), more, n + 1)
           == CallsTo(FixedClock(start), messages, n) + (if m.Assistant? && start <= m.created then CallsIn(m.parts) else 0)
  {
    TotalsByPrefix(FixedClock(start), messages, messages + [m], |messages|);
  }

  lemma {:induction false} TotalsByPrefix(clock: Clock, a: seq<Message>, b: seq<Message>, n: nat)
    requires n <= |a| <= |b| && a == b[..|a|]
    ensures TokensTo(clock, a, n) == TokensTo(clock, b, n) && CallsTo(clock, a, n) == CallsTo(clock, b, n)
    decreases n
  {
    if n > 0 {
      TotalsByPrefix(clock, a, b, n - 1);
      assert a[n - 1] == b[n - 1] && a[..n - 1] == b[..n - 1];
    }
  }

  predicate ToolsSettled(parts: seq<Part>) {
    forall i :: 0 <= i < |parts| && parts[i].Tool? ==> parts[i].state.ToolCompleted? || parts[i].state.ToolFailed?
  }

  predicate CallCounts(p: Part) {
    p.Tool? && p.name != "get_workflow" && p.name != "set_workflowrun_status"
  }

  predicate Delegates(p: Part) {
    p.Tool? && p.name == "task" && p.state.ToolCompleted? && p.task != ""
  }

  function CallsIn(parts: seq<Part>): nat {
    if parts == [] then 0
    else CallsIn(parts[..|parts| - 1]) + if CallCounts(parts[|parts| - 1]) then 1 else 0
  }

  function TasksIn(parts: seq<Part>): seq<Id> {
    if parts == [] then []
    else
      var last := parts[|parts| - 1];
      TasksIn(parts[..|parts| - 1]) + if Delegates(last) then [last.task] else []
  }

  // Every tool call counts but the two that only report on the workflow.
  lemma {:induction false} CallsCounted(parts: seq<Part>)
    ensures CallsIn(parts) == |CallPositions(parts)|
  {
    if parts != [] {
      var n: nat := |parts| - 1;
      CallsCounted(parts[..n]);
      assert CallPositions(parts) == CallPositions(parts[..n]) + if CallCounts(parts[n]) then {n} else {};
    }
  }

  ghost function CallPositions(parts: seq<Part>): set<nat> {
    set i: nat | i < |parts| && parts[i].Tool? && parts[i].name !in {"get_workflow", "set_workflowrun_status"}
  }

  // A session is delegated exactly by a completed task that names one.
  lemma {:induction false} TasksNamed(parts: seq<Part>, id: Id)
    ensures id in TasksIn(parts) <==> id != "" && exists i :: 0 <= i < |parts| && parts[i] == Tool("task", ToolCompleted, id)
  {
    if parts != [] {
      var n := |parts| - 1;
      TasksNamed(parts[..n], id);
      assert forall i | 0 <= i < n :: parts[..n][i] == parts[i];
    }
  }

  // Totals over the first n messages of a session.
  function TokensTo(clock: Clock, messages: seq<Message>, n: nat): real
    requires n <= |messages|
  {
    if n == 0 then 0.0 else
    TokensTo(clock, messages, n - 1)
      + if Charged(clock, messages, n - 1) then Total(messages[n - 1].usage) else 0.0
  }

  function CallsTo(clock: Clock, messages: seq<Message>, n: nat): nat
    requires n <= |messages|
  {
    if n == 0 then 0 else
    CallsTo(clock, messages, n - 1)
      + if Charged(clock, messages, n - 1) then CallsIn(messages[n - 1].parts) else 0
  }

  function TasksTo(clock: Clock, messages: seq<Message>, n: nat): seq<Id>
    requires n <= |messages|
  {
    if n == 0 then [] else
    TasksTo(clock, messages, n - 1)
      + if Charged(clock, messages, n - 1) then TasksIn(messages[n - 1].parts) else []
  }

  function Later(a: int, b: int): int { if a < b then b else a }

  function FinishedTo(clock: Clock, messages: seq<Message>, n: nat, from: int): int
    requires n <= |messages|
  {
    if n == 0 then from
    else
      var before := FinishedTo(clock, messages, n - 1, from);
      if Charged(clock, messages, n - 1) && messages[n - 1].completed.Some?
      then Later(before, messages[n - 1].completed.value) else before
  }

  // A message that stops the collection.
  predicate MessageSound(clock: Clock, messages: seq<Message>, k: nat)
    requires k < |messages|
  {
    messages[k].Assistant? ==>
      messages[k].completed.Some? && (Charged(clock, messages, k) ==> ToolsSettled(messages[k].parts))
  }

  predicate SessionSound(clock: Clock, messages: seq<Message>) {
    && (forall k :: 0 <= k < |messages| ==> MessageSound(clock, messages, k))
    && (exists k :: 0 <= k < |messages| && messages[k].Assistant?)
  }

  // Reading one session's messages, in order, with the source's early returns.
  method ReadMessages(clock: Clock, messages: seq<Message>, completed0: int)
    returns (ok: bool, started: int, tokens: real, calls: nat, completed: int, tasks: seq<Id>)
    ensures ok <==> SessionSound(clock, messages)
    ensures ok ==> started == At(clock, messages, |messages|)
    ensures ok ==> tokens == TokensTo(clock, messages, |messages|) && calls == CallsTo(clock, messages, |messages|)
    ensures ok ==> completed == FinishedTo(clock, messages, |messages|, completed0)
    ensures ok ==> tasks == TasksTo(clock, messages, |messages|)
  {
    started := if clock.RootClock? then 0 else clock.start;
    ok, tokens, calls, completed, tasks := false, 0.0, 0, completed0, [];
    var answered := false;
    for k := 0 to |messages|
      invariant !ok && started == At(clock, messages, k)
      invariant tokens == TokensTo(clock, messages, k) && calls == CallsTo(clock, messages, k)
      invariant completed == FinishedTo(clock, messages, k, completed0)
      invariant tasks == TasksTo(clock, messages, k)
      invariant forall j :: 0 <= j < k ==> MessageSound(clock, messages, j)
      invariant answered <==> exists j :: 0 <= j < k && messages[j].Assistant?
    {
      var message := messages[k];
      assert messages[..k + 1][..k] == messages[..k];
      if message.User? && clock.RootClock? {
        if started == 0 || message.created < started {
          started := message.created;
        }
      }
      if !message.Assistant? {
        continue;
      }
      if message.completed.None? {
        assert !MessageSound(clock, messages, k);
        return;
      }
      answered := true;
      if message.created < started {
        continue;
      }
      completed := Later(completed, message.completed.value);
      tokens := tokens + Total(message.usage);
      var settled, n, delegated := ReadParts(message.parts);
      if !settled {
        assert !MessageSound(clock, messages, k);
        return;
      }
      calls := calls + n;
      tasks := tasks + delegated;
    }
    ok := answered;
  }

  method ReadParts(parts: seq<Part>) returns (settled: bool, calls: nat, tasks: seq<Id>)
    ensures settled <==> ToolsSettled(parts)
    ensures settled ==> calls == CallsIn(parts) && tasks == TasksIn(parts)
  {
    settled, calls, tasks := true, 0, [];
    for i := 0 to |parts|
      invariant settled && ToolsSettled(parts[..i])
      invariant calls == CallsIn(parts[..i]) && tasks == TasksIn(parts[..i])
    {
      var part := parts[i];
      assert parts[..i + 1][..i] == parts[..i];
      if !part.Tool? {
        continue;
      }
      if !part.state.ToolCompleted? && !part.state.ToolFailed? {
        settled := false;
        return;
      }
      if part.name != "get_workflow" && part.name != "set_workflowrun_status" {
        calls := calls + 1;
      }
      if part.name != "task" || !part.state.ToolCompleted? {
        continue;
      }
      if part.task != "" {
        tasks := tasks + [part.task];
      }
    }
    assert parts[..|parts|] == parts;
  }

  // ---- The session graph ----

  function RootStart(w: World, root: Id): int {
    if root in w.sessions then Started(w.sessions[root].messages) else 0
  }

  function ClockOf(w: World, root: Id, id: Id): Clock {
    if id == root then RootClock else FixedClock(RootStart(w, root))
  }

  // The links the collection follows out of a session.
  function Links(w: World, root: Id, id: Id): seq<Id> {
    if id !in w.sessions then []
    else
      var s := w.sessions[id];
      s.children + TasksTo(ClockOf(w, root, id), s.messages, |s.messages|)
  }

  ghost predicate Hop(w: World, root: Id, p: seq<Id>, i: int) {
    0 < i < |p| ==> p[i] in Links(w, root, p[i - 1])
  }

  ghost predicate Trail(w: World, root: Id, p: seq<Id>) {
    p != [] && p[0] == root && forall i :: Hop(w, root, p, i)
  }

  ghost predicate Reachable(w: World, root: Id, id: Id) {
    exists p :: Trail(w, root, p) && p[|p| - 1] == id
  }

  predicate Readable(w: World, root: Id, id: Id) {
    id in w.sessions && id !in w.busy && SessionSound(ClockOf(w, root, id), w.sessions[id].messages)
  }

  lemma TrailExtends(w: World, root: Id, id: Id, next: Id)
    requires Reachable(w, root, id) && next in Links(w, root, id)
    ensures Reachable(w, root, next)
  {
    var p :| Trail(w, root, p) && p[|p| - 1] == id;
    var q := p + [next];
    forall i ensures Hop(w, root, q, i) {
      assert Hop(w, root, p, i);
    }
    assert Trail(w, root, q);
  }

  lemma RootReachable(w: World, root: Id)
    ensures Reachable(w, root, root)
  {
    assert Trail(w, root, [root]);
  }

  ghost predicate Closed(w: World, root: Id, ids: set<Id>) {
    root in ids && forall id, next :: id in ids && next in Links(w, root, id) ==> next in ids
  }

  lemma {:induction false} TrailStaysInside(w: World, root: Id, ids: set<Id>, p: seq<Id>, k: nat)
    requires Closed(w, root, ids) && Trail(w, root, p) && k < |p|
    ensures p[k] in ids
    decreases k
  {
    if k > 0 {
      TrailStaysInside(w, root, ids, p, k - 1);
      assert Hop(w, root, p, k);
    }
  }

  lemma ReachableStaysInside(w: World, root: Id, ids: set<Id>, id: Id)
    requires Closed(w, root, ids) && Reachable(w, root, id)
    ensures id in ids
  {
    var p :| Trail(w, root, p) && p[|p| - 1] == id;
    TrailStaysInside(w, root, ids, p, |p| - 1);
  }

  // Every identifier that can ever enter the worklist.
  ghost function Universe(w: World, root: Id): set<Id> {
    {root} + set id, next | id in w.sessions.Keys && next in Links(w, root, id) :: next
  }

  // Totals over the sessions of a list.
  ghost function Tokens(w: World, root: Id, ids: seq<Id>): real {
    if ids == [] then 0.0 else
    var id := ids[|ids| - 1];
    Tokens(w, root, ids[..|ids| - 1]) +
      if id in w.sessions then TokensTo(ClockOf(w, root, id), w.sessions[id].messages, |w.sessions[id].messages|) else 0.0
  }

  ghost function Calls(w: World, root: Id, ids: seq<Id>): nat {
    if ids == [] then 0 else
    var id := ids[|ids| - 1];
    Calls(w, root, ids[..|ids| - 1]) +
      if id in w.sessions then CallsTo(ClockOf(w, root, id), w.sessions[id].messages, |w.sessions[id].messages|) else 0
  }

  ghost function Finished(w: World, root: Id, ids: seq<Id>): int {
    if ids == [] then 0 else
    var id := ids[|ids| - 1];
    var before := Finished(w, root, ids[..|ids| - 1]);
    if id in w.sessions then FinishedTo(ClockOf(w, root, id), w.sessions[id].messages, |w.sessions[id].messages|, before)
    else before
  }

  // The worklist between iterations: `sessions[..index]` is read, and everything
  // those sessions link to is listed.
  ghost predicate Listed(w: World, root: Id, sessions: seq<Id>, index: nat) {
    && index <= |sessions| && sessions != [] && sessions[0] == root && Distinct(sessions)
    && (forall id :: id in sessions ==> Reachable(w, root, id) && id in Universe(w, root))
    && (forall k :: 0 <= k < index ==> Readable(w, root, sessions[k]))
    && (forall k :: 0 <= k < index ==> AllIn(Links(w, root, sessions[k]), sessions))
  }

  ghost predicate AllIn(ids: seq<Id>, sessions: seq<Id>) { forall id :: id in ids ==> id in sessions }

  // Appending the identifiers not seen before, as both inner loops do.
  method AppendNew(sessions0: seq<Id>, seen0: set<Id>, ids: seq<Id>) returns (sessions: seq<Id>, seen: set<Id>)
    ensures sessions == sessions0 + NewIn(ids, seen0)
    ensures seen == seen0 + Elements(ids)
  {
    sessions, seen := sessions0, seen0;
    assert Elements(ids[..0]) == {};
    for i := 0 to |ids|
      invariant sessions == sessions0 + NewIn(ids[..i], seen0)
      invariant seen == seen0 + Elements(ids[..i])
    {
      PrefixGrow(ids, i);
      NewInGrow(ids, i, seen0);
      if ids[i] !in seen {
        seen := seen + {ids[i]};
        sessions := sessions + [ids[i]];
      }
    }
    assert ids[..|ids|] == ids;
  }

  // On a worklist whose entries are the ones seen, no entry repeats.
  method Enqueue(sessions0: seq<Id>, seen0: set<Id>, ids: seq<Id>) returns (sessions: seq<Id>, seen: set<Id>)
    requires Distinct(sessions0) && seen0 == Elements(sessions0)
    ensures Distinct(sessions) && seen == Elements(sessions)
    ensures |sessions| >= |sessions0| && sessions[..|sessions0|] == sessions0
    ensures seen == seen0 + Elements(ids)
  {
    sessions, seen := AppendNew(sessions0, seen0, ids);
    AppendedNew(sessions0, ids);
  }

  lemma AppendedNew(sessions: seq<Id>, ids: seq<Id>)
    requires Distinct(sessions)
    ensures var longer := sessions + NewIn(ids, Elements(sessions));
      Distinct(longer) && Elements(longer) == Elements(sessions) + Elements(ids)
  {
    var more := NewIn(ids, Elements(sessions));
    NewInElements(ids, Elements(sessions));
    var longer := sessions + more;
    forall i, j | 0 <= i < j < |longer| ensures longer[i] != longer[j] {
      if i < |sessions| <= j {
        assert longer[j] in more && longer[i] in Elements(sessions);
      }
    }
  }

  lemma ListedBound(w: World, root: Id, sessions: seq<Id>, index: nat)
    requires Listed(w, root, sessions, index)
    ensures |sessions| <= |Universe(w, root)|
  {
    assert Elements(sessions) <= Universe(w, root);
    DistinctBound(sessions, Universe(w, root));
  }

  // One readable session processed and its links listed.
  lemma ListedStep(w: World, root: Id, sessions: seq<Id>, index: nat, longer: seq<Id>)
    requires Listed(w, root, sessions, index) && index < |sessions| && Readable(w, root, sessions[index])
    requires Distinct(longer) && |longer| >= |sessions| && longer[..|sessions|] == sessions
    requires Elements(longer) == Elements(sessions) + Elements(Links(w, root, sessions[index]))
    ensures Listed(w, root, longer, index + 1)
  {
    var id := sessions[index];
    assert forall k | 0 <= k < |sessions| :: longer[..|sessions|][k] == longer[k];
    LinkedReachable(w, root, sessions, id, longer);
    forall k | 0 <= k < index + 1 ensures AllIn(Links(w, root, longer[k]), longer) {
      assert k < index ==> AllIn(Links(w, root, sessions[k]), sessions);
      StillIn(Links(w, root, sessions[k]), sessions, Links(w, root, id), longer);
    }
  }

  lemma StillIn(ids: seq<Id>, sessions: seq<Id>, more: seq<Id>, longer: seq<Id>)
    requires Elements(longer) == Elements(sessions) + Elements(more)
    requires ids == more || AllIn(ids, sessions)
    ensures AllIn(ids, longer)
  {
    forall id | id in ids ensures id in longer { assert id in Elements(longer); }
  }

  lemma LinkedReachable(w: World, root: Id, sessions: seq<Id>, id: Id, longer: seq<Id>)
    requires id in sessions && Readable(w, root, id)
    requires forall x :: x in sessions ==> Reachable(w, root, x) && x in Universe(w, root)
    requires Elements(longer) == Elements(sessions) + Elements(Links(w, root, id))
    ensures forall x :: x in longer ==> Reachable(w, root, x) && x in Universe(w, root)
  {
    forall x | x in longer ensures Reachable(w, root, x) && x in Universe(w, root) {
      assert x in Elements(longer);
      if x !in sessions { TrailExtends(w, root, id, x); }
    }
  }

  // The finished worklist lists exactly the reachable sessions, all readable.
  lemma ListedDone(w: World, root: Id, sessions: seq<Id>)
    requires Listed(w, root, sessions, |sessions|)
    ensures forall id :: id in sessions <==> Reachable(w, root, id)
    ensures forall id :: Reachable(w, root, id) ==> Readable(w, root, id)
  {
    assert Closed(w, root, Elements(sessions)) by {
      assert sessions[0] in sessions;
    }
    forall id | Reachable(w, root, id) ensures id in sessions && Readable(w, root, id) {
      ReachableStaysInside(w, root, Elements(sessions), id);
      var k :| 0 <= k < |sessions| && sessions[k] == id;
    }
  }

  // Every reachable session can be read, and the timestamps make sense.
  ghost predicate Complete(w: World, root: Id) {
    && (forall id :: Reachable(w, root, id) ==> Readable(w, root, id))
    && RootStart(w, root) != 0
    && TimesOrdered(w, root)
  }

  // The evidence an execution must end up with.
  ghost predicate Faithful(w: World, root: Id, e: Evidence) {
    && Distinct(e.sessions) && (forall id :: id in e.sessions <==> Reachable(w, root, id))
    && e.calls == Calls(w, root, e.sessions)
    && e.tokens == (if Tokens(w, root, e.sessions) > 0.0 then Some(Tokens(w, root, e.sessions)) else None)
    && e.duration == Finished(w, root, e.sessions) - RootStart(w, root) >= 0
  }

  // The running totals of the sessions read so far.
  datatype Tally = Tally(tokens: real, calls: nat, started: int, completed: int)

  ghost function TallyOf(w: World, root: Id, ids: seq<Id>): Tally {
    Tally(Tokens(w, root, ids), Calls(w, root, ids), if ids == [] then 0 else RootStart(w, root), Finished(w, root, ids))
  }

  // One iteration: read the session at `index` and list what it links to.
  method ReadSession(w: World, root: Id, sessions: seq<Id>, seen: set<Id>, index: nat, tally: Tally)
    returns (ok: bool, more: seq<Id>, noted: set<Id>, sum: Tally)
    requires Listed(w, root, sessions, index) && index < |sessions| && seen == Elements(sessions)
    requires tally == TallyOf(w, root, sessions[..index])
    ensures ok <==> Readable(w, root, sessions[index])
    ensures ok ==> Listed(w, root, more, index + 1) && noted == Elements(more)
    ensures ok ==> sum == TallyOf(w, root, more[..index + 1])
  {
    var id := sessions[index];
    more, noted, sum, ok := sessions, seen, tally, false;
    if id in w.busy || id !in w.sessions {
      return;
    }
    var session := w.sessions[id];
    more, noted := Enqueue(sessions, seen, session.children);
    var clock := if index == 0 then RootClock else FixedClock(tally.started);
    ClockAgrees(w, root, sessions, index);
    var start, spent, made, finish, tasks;
    ok, start, spent, made, finish, tasks := ReadMessages(clock, session.messages, tally.completed);
    if !ok {
      return;
    }
    more, noted := Enqueue(more, noted, tasks);
    LinksSplit(w, root, id);
    ListedStep(w, root, sessions, index, more);
    sum := Tally(tally.tokens + spent, tally.calls + made, start, finish);
    TallyStep(w, root, sessions, index);
    assert more[..index + 1] == sessions[..index + 1];
  }

  lemma ClockAgrees(w: World, root: Id, sessions: seq<Id>, index: nat)
    requires Listed(w, root, sessions, index) && index < |sessions|
    ensures ClockOf(w, root, sessions[index]) == if index == 0 then RootClock else FixedClock(RootStart(w, root))
  {
  }

  lemma TallyStep(w: World, root: Id, sessions: seq<Id>, index: nat)
    requires index < |sessions| && sessions[index] in w.sessions && sessions[0] == root
    ensures var before, after := TallyOf(w, root, sessions[..index]), TallyOf(w, root, sessions[..index + 1]);
      var messages := w.sessions[sessions[index]].messages;
      var clock := ClockOf(w, root, sessions[index]);
      && after.tokens == before.tokens + TokensTo(clock, messages, |messages|)
      && after.calls == before.calls + CallsTo(clock, messages, |messages|)
      && after.started == At(clock, messages, |messages|)
      && after.completed == FinishedTo(clock, messages, |messages|, before.completed)
  {
    assert sessions[..index + 1][..index] == sessions[..index];
    var messages := w.sessions[sessions[index]].messages;
    assert messages[..|messages|] == messages;
  }

  lemma RootListed(w: World, root: Id)
    ensures Listed(w, root, [root], 0) && Elements([root]) == {root}
    ensures TallyOf(w, root, [root][..0]) == Tally(0.0, 0, 0, 0)
  {
    RootReachable(w, root);
  }

  // The worklist: it stops at a session that cannot be read, or has read them all.
  method ReadAll(w: World, root: Id) returns (ok: bool, sessions: seq<Id>, tally: Tally)
    ensures !ok ==> exists id :: Reachable(w, root, id) && !Readable(w, root, id)
    ensures ok ==> Listed(w, root, sessions, |sessions|) && tally == TallyOf(w, root, sessions)
  {
    var seen := {root};
    sessions, tally := [root], Tally(0.0, 0, 0, 0);
    var index := 0;
    RootListed(w, root);
    while index < |sessions|
      invariant Listed(w, root, sessions, index) && seen == Elements(sessions)
      invariant tally == TallyOf(w, root, sessions[..index])
      decreases |Universe(w, root)| - index
    {
      ListedBound(w, root, sessions, index);
      ghost var id := sessions[index];
      assert Reachable(w, root, id);
      ok, sessions, seen, tally := ReadSession(w, root, sessions, seen, index, tally);
      if !ok {
        return;
      }
      index := index + 1;
    }
    assert sessions[..index] == sessions;
    ok := true;
  }

  // The collection succeeds exactly on complete evidence, on every finite graph.
  method Collect(w: World, root: Id) returns (evidence: Option<Evidence>)
    ensures evidence.Some? <==> Complete(w, root)
    ensures evidence.Some? ==> Faithful(w, root, evidence.value)
  {
    var ok, sessions, tally := ReadAll(w, root);
    if !ok {
      return None;
    }
    CollectDone(w, root, sessions, tally);
    if tally.started == 0 || tally.completed < tally.started {
      return None;
    }
    return Some(Conclude(sessions, tally));
  }

  function Conclude(sessions: seq<Id>, tally: Tally): Evidence {
    Evidence(sessions, tally.calls, if tally.tokens > 0.0 then Some(tally.tokens) else None,
             tally.completed - tally.started)
  }

  lemma CollectDone(w: World, root: Id, sessions: seq<Id>, tally: Tally)
    requires Listed(w, root, sessions, |sessions|) && tally == TallyOf(w, root, sessions)
    ensures tally.started != 0 && tally.completed >= tally.started <==> Complete(w, root)
    ensures Complete(w, root) ==> Faithful(w, root, Conclude(sessions, tally))
  {
    ListedDone(w, root, sessions);
    TimesDecided(w, root, sessions);
  }

  ghost predicate EndsAfter(clock: Clock, messages: seq<Message>, k: nat, x: int) {
    k < |messages| && Charged(clock, messages, k) && messages[k].completed.Some? && messages[k].completed.value >= x
  }

  // Some charged answer of a reachable session ends at or after the first prompt.
  ghost predicate TimesOrdered(w: World, root: Id) {
    || RootStart(w, root) <= 0
    || exists id, k :: Reachable(w, root, id) && id in w.sessions
         && EndsAfter(ClockOf(w, root, id), w.sessions[id].messages, k, RootStart(w, root))
  }

  lemma {:induction false} FinishedToReaches(clock: Clock, messages: seq<Message>, n: nat, from: int, x: int)
    requires n <= |messages|
    ensures FinishedTo(clock, messages, n, from) >= x <==> from >= x || exists k :: 0 <= k < n && EndsAfter(clock, messages, k, x)
  {
    if n > 0 {
      FinishedToReaches(clock, messages, n - 1, from, x);
      if EndsAfter(clock, messages, n - 1, x) {
        assert FinishedTo(clock, messages, n, from) >= x;
      }
    }
  }

  ghost predicate SessionEndsAfter(w: World, root: Id, id: Id, x: int) {
    id in w.sessions && exists k :: EndsAfter(ClockOf(w, root, id), w.sessions[id].messages, k, x)
  }

  lemma {:induction false} FinishedReaches(w: World, root: Id, ids: seq<Id>, x: int)
    ensures Finished(w, root, ids) >= x <==> 0 >= x || exists id :: id in ids && SessionEndsAfter(w, root, id, x)
  {
    if ids != [] {
      var n := |ids| - 1;
      var id := ids[n];
      FinishedReaches(w, root, ids[..n], x);
      assert ids == ids[..n] + [id];
      if id in w.sessions {
        var messages := w.sessions[id].messages;
        FinishedToReaches(ClockOf(w, root, id), messages, |messages|, Finished(w, root, ids[..n]), x);
        assert SessionEndsAfter(w, root, id, x) <==>
          exists k :: 0 <= k < |messages| && EndsAfter(ClockOf(w, root, id), messages, k, x);
      }
      assert forall y :: y in ids <==> y in ids[..n] || y == id;
    }
  }

  lemma TimesDecided(w: World, root: Id, sessions: seq<Id>)
    requires forall id :: id in sessions <==> Reachable(w, root, id)
    ensures Finished(w, root, sessions) >= RootStart(w, root) <==> TimesOrdered(w, root)
  {
    var x := RootStart(w, root);
    FinishedReaches(w, root, sessions, x);
    if id :| id in sessions && SessionEndsAfter(w, root, id, x) {
      var k: nat :| EndsAfter(ClockOf(w, root, id), w.sessions[id].messages, k, x);
      assert Reachable(w, root, id);
    }
  }

  lemma LinksSplit(w: World, root: Id, id: Id)
    requires id in w.sessions
    ensures var s := w.sessions[id];
      Elements(Links(w, root, id)) == Elements(s.children) + Elements(TasksTo(ClockOf(w, root, id), s.messages, |s.messages|))
  {
  }
}
