// Chat notifications: a hub of watchers with capacity-one channels. Publishing
// never blocks, and a full channel absorbs further notifications.
module ChatEvents {
  import opened Common

  type ChannelId = nat

  // A capacity-one channel: at most one buffered revision.
  datatype Channel = Channel(buffer: Option<nat>, closed: bool)

  // The hub's table, the channels and the identifiers handed out so far.
  datatype Hub = Hub(watchers: map<string, map<ChannelId, nat>>, channels: map<ChannelId, Channel>, next: ChannelId)

  predicate HasPrefix(s: string, prefix: string) {
    |prefix| <= |s| && s[..|prefix|] == prefix
  }

  // Which subscriptions a published scope reaches.
  predicate Matches(key: string, scope: string) {
    key == scope || ('/' !in scope && HasPrefix(key, scope + "/"))
  }

  // The workspace of a subscription key: everything before the first slash.
  function Workspace(key: string): string {
    if key == "" || key[0] == '/' then "" else [key[0]] + Workspace(key[1..])
  }

  // A publish to a workspace identifier without slash reaches exactly the keys
  // of that workspace.
  lemma {:induction false} BroadcastReachesWorkspace(key: string, workspace: string)
    requires '/' !in workspace
    ensures Matches(key, workspace) <==> Workspace(key) == workspace
    decreases |key|
  {
    if key == "" {
      assert workspace == "" ==> !HasPrefix(key, workspace + "/");
    } else if workspace == "" {
      assert workspace + "/" == "/";
      assert HasPrefix(key, "/") <==> key[0] == '/' by { assert key[..1] == [key[0]]; }
    } else {
      var k, w := key[1..], workspace[1..];
      assert key == [key[0]] + k && workspace == [workspace[0]] + w;
      assert '/' !in w;
      BroadcastReachesWorkspace(k, w);
      assert workspace + "/" == [workspace[0]] + (w + "/");
      PrefixCons(key, workspace[0], w + "/");
      assert workspace[0] in workspace;
    }
  }

  lemma PrefixCons(key: string, c: char, rest: string)
    requires key != ""
    ensures HasPrefix(key, [c] + rest) <==> key[0] == c && HasPrefix(key[1..], rest)
  {
    if |rest| < |key| {
      assert key[..|rest| + 1] == [key[0]] + key[1..][..|rest|];
    }
  }

  function Entry(h: Hub, key: string): map<ChannelId, nat> { if key in h.watchers then h.watchers[key] else map[] }

  function Subscribed(h: Hub, key: string): Hub {
    Hub(h.watchers[key := Entry(h, key)[h.next := 0]], h.channels[h.next := Channel(Some(0), false)], h.next + 1)
  }

  function Cancelled(h: Hub, key: string, id: ChannelId): Hub {
    var entry := Entry(h, key) - {id};
    h.(watchers := if entry == map[] then h.watchers - {key} else h.watchers[key := entry],
       channels := if id in Entry(h, key) && id in h.channels then h.channels[id := h.channels[id].(closed := true)] else h.channels)
  }

  // What one notification does to a channel: fill it, or leave it full.
  function Notified(c: Channel, revision: nat): Channel {
    if c.buffer.None? then c.(buffer := Some(revision)) else c
  }

  function Bumped(entry: map<ChannelId, nat>): map<ChannelId, nat> {
    map id | id in entry :: entry[id] + 1
  }

  // The channels after every watcher of one entry was offered its new revision.
  function Offered(channels: map<ChannelId, Channel>, entry: map<ChannelId, nat>): map<ChannelId, Channel> {
    map id | id in channels :: if id in entry then Notified(channels[id], entry[id] + 1) else channels[id]
  }

  // A watcher is live under one key; closed channels watch nothing.
  ghost predicate Watches(h: Hub, key: string, id: ChannelId) {
    key in h.watchers && id in h.watchers[key]
  }

  ghost predicate Valid(h: Hub) {
    && (forall key, id :: Watches(h, key, id) ==> id in h.channels && !h.channels[id].closed)
    && (forall key, other, id :: Watches(h, key, id) && Watches(h, other, id) ==> key == other)
    && (forall id :: id in h.channels ==> id < h.next)
    && (forall key :: key in h.watchers ==> h.watchers[key] != map[])
  }

  // The key a channel watches under, if any.
  ghost function KeyOf(h: Hub, id: ChannelId): Option<string> {
    if exists key :: Watches(h, key, id) then (var key :| Watches(h, key, id); Some(key)) else None
  }

  lemma KeyOfUnique(h: Hub, key: string, id: ChannelId)
    requires Valid(h) && Watches(h, key, id)
    ensures KeyOf(h, id) == Some(key)
  {
  }

  ghost predicate Reached(h: Hub, scope: string, id: ChannelId) {
    KeyOf(h, id).Some? && Matches(KeyOf(h, id).value, scope)
  }

  // Publishing: every matching watcher's revision grows by one and its channel
  // is offered the new revision.
  ghost function Published(h: Hub, scope: string): Hub {
    h.(watchers := map key | key in h.watchers :: if Matches(key, scope) then Bumped(h.watchers[key]) else h.watchers[key],
       channels := map id | id in h.channels ::
         if Reached(h, scope, id) then Notified(h.channels[id], Entry(h, KeyOf(h, id).value)[id] + 1) else h.channels[id])
  }

  function Drained(h: Hub, id: ChannelId): Hub
    requires id in h.channels
  {
    h.(channels := h.channels[id := h.channels[id].(buffer := None)])
  }

  lemma SubscribeKeeps(h: Hub, key: string)
    requires Valid(h)
    ensures Valid(Subscribed(h, key))
    ensures forall k, id :: Watches(Subscribed(h, key), k, id) <==> Watches(h, k, id) || (k == key && id == h.next)
  {
    var t := Subscribed(h, key);
    forall k, id ensures Watches(t, k, id) <==> Watches(h, k, id) || (k == key && id == h.next) {
    }
    assert h.next in t.watchers[key];
    forall k, id | Watches(t, k, id) ensures id in t.channels && !t.channels[id].closed {
      assert id != h.next ==> Watches(h, k, id);
    }
  }

  lemma CancelKeeps(h: Hub, key: string, id: ChannelId)
    requires Valid(h)
    ensures Valid(Cancelled(h, key, id))
    ensures forall k, i :: Watches(Cancelled(h, key, id), k, i) <==> Watches(h, k, i) && !(k == key && i == id)
  {
    var t := Cancelled(h, key, id);
    forall k, i ensures Watches(t, k, i) <==> Watches(h, k, i) && !(k == key && i == id) {
      assert i in Entry(h, key) - {id} <==> Watches(h, key, i) && i != id;
    }
    forall k, i | Watches(t, k, i) ensures i in t.channels && !t.channels[i].closed {
      assert Watches(h, k, i);
      if i == id && id in Entry(h, key) { assert Watches(h, key, id); }
    }
  }

  // Cancelling a channel that no longer watches changes nothing, whatever
  // happened since it was cancelled; so cancelling twice is cancelling once.
  lemma CancelInert(h: Hub, key: string, id: ChannelId)
    requires Valid(h) && !Watches(h, key, id)
    ensures Cancelled(h, key, id) == h
  {
    assert Entry(h, key) - {id} == Entry(h, key);
    if key in h.watchers {
      assert h.watchers[key := h.watchers[key]] == h.watchers;
    } else {
      assert h.watchers - {key} == h.watchers;
    }
  }

  lemma CancelIdempotent(h: Hub, key: string, id: ChannelId)
    requires Valid(h)
    ensures Cancelled(Cancelled(h, key, id), key, id) == Cancelled(h, key, id)
  {
    CancelKeeps(h, key, id);
    CancelInert(Cancelled(h, key, id), key, id);
  }

  lemma PublishKeeps(h: Hub, scope: string)
    requires Valid(h)
    ensures Valid(Published(h, scope))
    ensures forall k, id :: Watches(Published(h, scope), k, id) <==> Watches(h, k, id)
  {
    var t := Published(h, scope);
    forall k, id ensures Watches(t, k, id) <==> Watches(h, k, id) {
    }
    forall k | k in t.watchers ensures t.watchers[k] != map[] {
      var id :| id in h.watchers[k];
      assert Watches(t, k, id);
    }
  }

  lemma DrainKeeps(h: Hub, id: ChannelId)
    requires Valid(h) && id in h.channels
    ensures Valid(Drained(h, id))
    ensures forall k, i :: Watches(Drained(h, id), k, i) <==> Watches(h, k, i)
  {
    var t := Drained(h, id);
    forall k, i ensures Watches(t, k, i) <==> Watches(h, k, i) {
    }
    forall k, i | Watches(t, k, i) ensures i in t.channels && !t.channels[i].closed {
      assert Watches(h, k, i);
    }
  }

  // ---- Every sequence of operations ----

  datatype Op = Subscribe(key: string) | Cancel(key: string, id: ChannelId) | Publish(scope: string) | Receive(id: ChannelId)

  // The hub with what a listener owes its user: `due` holds the channels with a
  // matching publish since their last receive, `last` the last revision received.
  datatype History = History(hub: Hub, due: set<ChannelId>, last: map<ChannelId, nat>)

  ghost function Apply(s: History, op: Op): History {
    match op
    case Subscribe(key) => s.(hub := Subscribed(s.hub, key))
    case Cancel(key, id) => s.(hub := Cancelled(s.hub, key, id))
    case Publish(scope) =>
      s.(hub := Published(s.hub, scope), due := s.due + set id | id in s.hub.channels && Reached(s.hub, scope, id))
    case Receive(id) =>
      if id in s.hub.channels && s.hub.channels[id].buffer.Some?
      then s.(hub := Drained(s.hub, id), due := s.due - {id}, last := s.last[id := s.hub.channels[id].buffer.value])
      else s
  }

  ghost function After(ops: seq<Op>): History {
    if ops == [] then History(Hub(map[], map[], 0), {}, map[]) else Apply(After(ops[..|ops| - 1]), ops[|ops| - 1])
  }

  ghost predicate ChannelOk(s: History, id: ChannelId) {
    && (id in s.due ==> id in s.hub.channels && s.hub.channels[id].buffer.Some?)
    && (id in s.last ==> id in s.hub.channels)
    && (id in s.last && s.hub.channels[id].buffer.Some? ==> s.last[id] < s.hub.channels[id].buffer.value)
  }

  // Revisions are counted under the key: nothing buffered or received is ahead.
  ghost predicate RevisionOk(s: History, key: string, id: ChannelId) {
    Watches(s.hub, key, id) ==>
      && id in s.hub.channels
      && (s.hub.channels[id].buffer.Some? ==> s.hub.channels[id].buffer.value <= s.hub.watchers[key][id])
      && (id in s.last ==> s.last[id] <= s.hub.watchers[key][id])
  }

  ghost predicate Sound(s: History) {
    Valid(s.hub) && (forall id :: ChannelOk(s, id)) && (forall key, id :: RevisionOk(s, key, id))
  }

  lemma SubscribeSound(s: History, key: string)
    requires Sound(s)
    ensures Sound(Apply(s, Subscribe(key)))
  {
    SubscribeKeeps(s.hub, key);
    var t := Apply(s, Subscribe(key));
    forall id ensures ChannelOk(t, id) { assert ChannelOk(s, id); }
    forall k, id ensures RevisionOk(t, k, id) { assert RevisionOk(s, k, id) && ChannelOk(s, id); }
  }

  lemma CancelSound(s: History, key: string, id: ChannelId)
    requires Sound(s)
    ensures Sound(Apply(s, Cancel(key, id)))
  {
    CancelKeeps(s.hub, key, id);
    var t := Apply(s, Cancel(key, id));
    forall i ensures ChannelOk(t, i) { assert ChannelOk(s, i); }
    forall k, i ensures RevisionOk(t, k, i) { assert RevisionOk(s, k, i); }
  }

  lemma PublishSound(s: History, scope: string)
    requires Sound(s)
    ensures Sound(Apply(s, Publish(scope)))
  {
    PublishKeeps(s.hub, scope);
    var t := Apply(s, Publish(scope));
    forall id ensures ChannelOk(t, id) {
      assert ChannelOk(s, id);
      if Reached(s.hub, scope, id) {
        var key := KeyOf(s.hub, id).value;
        assert RevisionOk(s, key, id);
      }
    }
    forall key, id ensures RevisionOk(t, key, id) {
      assert RevisionOk(s, key, id);
      if Watches(s.hub, key, id) { KeyOfUnique(s.hub, key, id); }
    }
  }

  lemma ReceiveSound(s: History, id: ChannelId)
    requires Sound(s)
    ensures Sound(Apply(s, Receive(id)))
  {
    if id in s.hub.channels && s.hub.channels[id].buffer.Some? {
      DrainKeeps(s.hub, id);
      var t := Apply(s, Receive(id));
      forall i ensures ChannelOk(t, i) { assert ChannelOk(s, i); }
      forall k, i ensures RevisionOk(t, k, i) { assert RevisionOk(s, k, i); }
    }
  }

  lemma {:induction false} AlwaysSound(ops: seq<Op>)
    ensures Sound(After(ops))
  {
    if ops != [] {
      var s, op := After(ops[..|ops| - 1]), ops[|ops| - 1];
      AlwaysSound(ops[..|ops| - 1]);
      match op
      case Subscribe(key) => SubscribeSound(s, key);
      case Cancel(key, id) => CancelSound(s, key, id);
      case Publish(scope) => PublishSound(s, scope);
      case Receive(id) => ReceiveSound(s, id);
    }
  }

  // A watcher with a matching publish since its last receive never waits on an
  // empty channel.
  lemma NoNotificationLost(ops: seq<Op>, id: ChannelId)
    requires id in After(ops).due
    ensures id in After(ops).hub.channels && After(ops).hub.channels[id].buffer.Some?
  {
    AlwaysSound(ops);
    assert ChannelOk(After(ops), id);
  }

  // No publish ever sends on a closed channel.
  lemma NeverSendsOnClosed(ops: seq<Op>, scope: string, id: ChannelId)
    requires Reached(After(ops).hub, scope, id)
    ensures id in After(ops).hub.channels && !After(ops).hub.channels[id].closed
  {
    AlwaysSound(ops);
    assert Watches(After(ops).hub, KeyOf(After(ops).hub, id).value, id);
  }

  // What a listener receives is strictly newer than what it received before.
  lemma ReceivesIncrease(ops: seq<Op>, id: ChannelId)
    requires id in After(ops).last && id in After(ops).hub.channels && After(ops).hub.channels[id].buffer.Some?
    ensures After(ops + [Receive(id)]).last[id] > After(ops).last[id]
  {
    AlwaysSound(ops);
    assert ChannelOk(After(ops), id);
    assert (ops + [Receive(id)])[..|ops|] == ops;
  }

  // A workspace-wide publish makes exactly that workspace's watchers due.
  lemma BroadcastExact(ops: seq<Op>, workspace: string, key: string, id: ChannelId)
    requires '/' !in workspace && Watches(After(ops).hub, key, id)
    ensures id in After(ops + [Publish(workspace)]).due <==> id in After(ops).due || Workspace(key) == workspace
  {
    AlwaysSound(ops);
    KeyOfUnique(After(ops).hub, key, id);
    BroadcastReachesWorkspace(key, workspace);
    assert (ops + [Publish(workspace)])[..|ops|] == ops;
  }

  // A publish to one user's key makes exactly that key's watchers due.
  lemma KeyedPublishExact(ops: seq<Op>, scope: string, key: string, id: ChannelId)
    requires '/' in scope && Watches(After(ops).hub, key, id)
    ensures id in After(ops + [Publish(scope)]).due <==> id in After(ops).due || key == scope
  {
    AlwaysSound(ops);
    KeyOfUnique(After(ops).hub, key, id);
    assert (ops + [Publish(scope)])[..|ops|] == ops;
  }

  // What a publish does to a channel: an unread revision stays, an empty channel
  // of a watcher it reaches gets the revision after its last, others nothing.
  lemma PublishOffers(h: Hub, scope: string, key: string, id: ChannelId)
    requires Valid(h) && Watches(h, key, id)
    ensures var h' := Published(h, scope);
      && id in h'.channels && Watches(h', key, id)
      && h'.watchers[key][id] == h.watchers[key][id] + (if Matches(key, scope) then 1 else 0)
      && (h.channels[id].buffer.Some? ==> h'.channels[id] == h.channels[id])
      && (h.channels[id].buffer.None? ==> h'.channels[id].buffer == if Matches(key, scope) then Some(h'.watchers[key][id]) else None)
  {
    KeyOfUnique(h, key, id);
  }

  // ---- The hub object ----

  class ChatSessionEvents {
    var watchers: map<string, map<ChannelId, nat>>
    var channels: map<ChannelId, Channel>
    var next: ChannelId

    ghost function State(): Hub
      reads this
    {
      Hub(watchers, channels, next)
    }

    constructor ()
      ensures State() == Hub(map[], map[], 0) && Valid(State())
    {
      watchers, channels, next := map[], map[], 0;
    }

    method Subscribe(key: string) returns (id: ChannelId)
      requires Valid(State())
      modifies this
      ensures State() == Subscribed(old(State()), key) && id == old(next)
      ensures Valid(State()) && Watches(State(), key, id) && channels[id] == Channel(Some(0), false)
    {
      SubscribeKeeps(State(), key);
      id := next;
      var entry := if key in watchers then watchers[key] else map[];
      entry := entry[id := 0];
      watchers := watchers[key := entry];
      channels := channels[id := Channel(Some(0), false)];
      next := next + 1;
    }

    method Cancel(key: string, id: ChannelId)
      requires Valid(State())
      modifies this
      ensures State() == Cancelled(old(State()), key, id)
      ensures Valid(State()) && !Watches(State(), key, id)
    {
      CancelKeeps(State(), key, id);
      ghost var before := State();
      var entry := if key in watchers then watchers[key] else map[];
      if id in entry {
        assert Watches(before, key, id);
        channels := channels[id := channels[id].(closed := true)];
      }
      entry := entry - {id};
      if entry == map[] {
        watchers := watchers - {key};
      } else {
        watchers := watchers[key := entry];
      }
    }

    method Receive(id: ChannelId) returns (revision: Option<nat>)
      requires Valid(State()) && id in channels
      modifies this`channels
      ensures revision == old(channels[id].buffer)
      ensures State() == Drained(old(State()), id) && Valid(State())
    {
      DrainKeeps(State(), id);
      revision := channels[id].buffer;
      channels := channels[id := channels[id].(buffer := None)];
    }

    // The inner loop: bump every watcher of one key and offer the revision.
    static method Notify(before: map<ChannelId, Channel>, entry: map<ChannelId, nat>)
      returns (after: map<ChannelId, Channel>, bumped: map<ChannelId, nat>)
      requires forall id :: id in entry ==> id in before && !before[id].closed
      ensures bumped == Bumped(entry)
      ensures after == Offered(before, entry)
    {
      after, bumped := before, entry;
      var rest := entry.Keys;
      while rest != {}
        invariant rest <= entry.Keys && bumped.Keys == entry.Keys && after.Keys == before.Keys
        invariant forall id :: id in entry ==> bumped[id] == if id in rest then entry[id] else entry[id] + 1
        invariant forall id :: id in before ==>
          after[id] == if id in entry && id !in rest then Notified(before[id], entry[id] + 1) else before[id]
      {
        var id :| id in rest;
        var revision := bumped[id] + 1;
        bumped := bumped[id := revision];
        if after[id].buffer.None? {
          after := after[id := after[id].(buffer := Some(revision))];
        }
        rest := rest - {id};
      }
      assert bumped == Bumped(entry);
      assert after == Offered(before, entry);
    }

    // The outer loop, over the keys in the map's unspecified order.
    static method NotifyMatching(ghost h: Hub, scope: string, watchers0: map<string, map<ChannelId, nat>>,
                                 channels0: map<ChannelId, Channel>)
      returns (watchers: map<string, map<ChannelId, nat>>, channels: map<ChannelId, Channel>)
      requires Valid(h) && watchers0 == h.watchers && channels0 == h.channels
      ensures watchers == StageWatchers(h, scope, {}) && channels == StageChannels(h, scope, {})
    {
      watchers, channels := watchers0, channels0;
      var rest := watchers.Keys;
      StagesMeet(h, scope);
      while rest != {}
        invariant rest <= h.watchers.Keys
        invariant watchers == StageWatchers(h, scope, rest)
        invariant channels == StageChannels(h, scope, rest)
      {
        var key :| key in rest;
        StageStep(h, scope, rest, key);
        StageChannelStep(h, scope, rest, key);
        rest := rest - {key};
        var matches := Matches(key, scope);
        if !matches {
          continue;
        }
        var bumped;
        channels, bumped := Notify(channels, watchers[key]);
        watchers := watchers[key := bumped];
      }
    }

    method Publish(scope: string)
      requires Valid(State())
      modifies this`watchers, this`channels
      ensures State() == Published(old(State()), scope) && Valid(State())
    {
      StagesMeet(State(), scope);
      PublishKeeps(State(), scope);
      watchers, channels := NotifyMatching(State(), scope, watchers, channels);
    }
  }

  // A publish that has yet to visit the keys in `rest`.
  ghost function StageWatchers(h: Hub, scope: string, rest: set<string>): map<string, map<ChannelId, nat>> {
    map key | key in h.watchers ::
      if key !in rest && Matches(key, scope) then Bumped(h.watchers[key]) else h.watchers[key]
  }

  ghost predicate Done(h: Hub, scope: string, rest: set<string>, id: ChannelId) {
    Reached(h, scope, id) && KeyOf(h, id).value !in rest
  }

  ghost function StageChannels(h: Hub, scope: string, rest: set<string>): map<ChannelId, Channel> {
    map id | id in h.channels ::
      if Done(h, scope, rest, id) then Notified(h.channels[id], Entry(h, KeyOf(h, id).value)[id] + 1) else h.channels[id]
  }

  lemma StagesMeet(h: Hub, scope: string)
    requires Valid(h)
    ensures Published(h, scope) == h.(watchers := StageWatchers(h, scope, {}), channels := StageChannels(h, scope, {}))
    ensures StageWatchers(h, scope, h.watchers.Keys) == h.watchers
    ensures StageChannels(h, scope, h.watchers.Keys) == h.channels
  {
    forall id | Reached(h, scope, id) ensures KeyOf(h, id).value in h.watchers {
      assert Watches(h, KeyOf(h, id).value, id);
    }
    assert Published(h, scope).channels == StageChannels(h, scope, {});
  }

  lemma StageStep(h: Hub, scope: string, rest: set<string>, key: string)
    requires key in rest && rest <= h.watchers.Keys
    ensures StageWatchers(h, scope, rest)[key] == h.watchers[key]
    ensures StageWatchers(h, scope, rest - {key})
         == if Matches(key, scope) then StageWatchers(h, scope, rest)[key := Bumped(h.watchers[key])] else StageWatchers(h, scope, rest)
  {
  }

  // The watchers of a key are exactly the channels filed under it, all open.
  lemma EntryMembers(h: Hub, key: string)
    requires Valid(h) && key in h.watchers
    ensures forall id :: id in h.watchers[key] <==> KeyOf(h, id) == Some(key)
    ensures forall id :: id in h.watchers[key] ==> id in h.channels && !h.channels[id].closed
  {
    forall id ensures id in h.watchers[key] <==> KeyOf(h, id) == Some(key) {
      if id in h.watchers[key] {
        assert Watches(h, key, id);
        KeyOfUnique(h, key, id);
      }
    }
    forall id | id in h.watchers[key] ensures id in h.channels && !h.channels[id].closed {
      assert Watches(h, key, id);
    }
  }

  // Visiting a key offers its watchers, untouched and open so far, the revision.
  lemma StageChannelStep(h: Hub, scope: string, rest: set<string>, key: string)
    requires Valid(h) && key in rest && rest <= h.watchers.Keys
    ensures StageChannels(h, scope, rest - {key})
         == if Matches(key, scope) then Offered(StageChannels(h, scope, rest), h.watchers[key]) else StageChannels(h, scope, rest)
    ensures forall id :: id in h.watchers[key] ==>
      id in StageChannels(h, scope, rest) && !StageChannels(h, scope, rest)[id].closed
  {
    EntryMembers(h, key);
    var p, n := StageChannels(h, scope, rest), StageChannels(h, scope, rest - {key});
    forall id | id in h.channels
      ensures n[id] == if Matches(key, scope) && id in h.watchers[key] then Notified(p[id], h.watchers[key][id] + 1) else p[id]
    {
      StageOne(h, scope, rest, key, id);
    }
    if Matches(key, scope) {
      OfferedPointwise(p, n, h.watchers[key]);
    } else {
      assert n == p;
    }
  }

  lemma OfferedPointwise(p: map<ChannelId, Channel>, n: map<ChannelId, Channel>, entry: map<ChannelId, nat>)
    requires n.Keys == p.Keys
    requires forall id | id in p :: n[id] == if id in entry then Notified(p[id], entry[id] + 1) else p[id]
    ensures n == Offered(p, entry)
  {
  }

  lemma StageOne(h: Hub, scope: string, rest: set<string>, key: string, id: ChannelId)
    requires key in rest && key in h.watchers && (id in h.watchers[key] <==> KeyOf(h, id) == Some(key))
    ensures Done(h, scope, rest - {key}, id) <==> Done(h, scope, rest, id) || (Matches(key, scope) && id in h.watchers[key])
    ensures id in h.watchers[key] ==> !Done(h, scope, rest, id)
  {
  }
}
