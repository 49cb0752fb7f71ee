// Bringing an upstream OpenAPI document under a namespace: every component gets
// a prefixed name, and every reference to one follows it.
module RefRewrite {
  import opened Common
  import opened JsonTree

  type Tree = Json<string>
  type Fields = map<string, Tree>
  type RefMap = map<string, string>

  const Namespace := "Opencode"
  const Root := "#/components/"
  const Buckets: seq<string> :=
    ["schemas", "parameters", "responses", "requestBodies", "headers", "examples", "securitySchemes", "links", "callbacks"]

  function Entries(parent: Fields, key: string): Fields {
    if key in parent && parent[key].Obj? then parent[key].fields else map[]
  }

  function Ref(bucket: string, name: string): string { Root + (bucket + "/" + name) }

  // ---- References name one component each ----

  lemma BucketsPlain(bucket: string)
    requires bucket in Buckets
    ensures '/' !in bucket
  {
  }

  lemma SplitAtSlash(a: string, x: string, b: string, y: string)
    requires '/' !in a && '/' !in b && a + "/" + x == b + "/" + y
    ensures a == b && x == y
  {
    var s := a + "/" + x;
    assert s[|a|] == '/' && s[|b|] == '/';
    assert forall i | 0 <= i < |a| :: s[i] == a[i];
    assert forall i | 0 <= i < |b| :: s[i] == b[i];
    assert a == s[..|a|] && b == s[..|b|];
    assert x == s[|a| + 1..] && y == s[|b| + 1..];
  }

  lemma PrefixCancels(prefix: string, x: string, y: string)
    requires prefix + x == prefix + y
    ensures x == y
  {
    assert (prefix + x)[|prefix|..] == x;
    assert (prefix + y)[|prefix|..] == y;
  }

  lemma RefInjective(a: string, x: string, b: string, y: string)
    requires a in Buckets && b in Buckets && Ref(a, x) == Ref(b, y)
    ensures a == b && x == y
  {
    PrefixCancels(Root, a + "/" + x, b + "/" + y);
    BucketsPlain(a);
    BucketsPlain(b);
    SplitAtSlash(a, x, b, y);
  }

  predicate Known(components: Fields, bucket: string, name: string) { bucket in Buckets && name in Entries(components, bucket) }

  // Exactly the upstream components are renamed, each to its prefixed name.
  ghost predicate IsRefMap(refs: RefMap, components: Fields) {
    && (forall b, name | Known(components, b, name) :: Ref(b, name) in refs && refs[Ref(b, name)] == Ref(b, Namespace + name))
    && (forall r | r in refs :: exists b, name :: Known(components, b, name) && r == Ref(b, name))
  }

  method BuildRefMap(components: Fields) returns (refs: RefMap)
    ensures IsRefMap(refs, components)
  {
    refs := map[];
    for i := 0 to |Buckets|
      invariant forall b, name | Known(components, b, name) && b in Buckets[..i] :: Renamed(refs, b, name)
      invariant forall r | r in refs :: exists b, name :: Known(components, b, name) && r == Ref(b, name)
    {
      refs := AddBucket(components, Buckets[i], refs);
    }
  }

  predicate Renamed(refs: RefMap, b: string, name: string) { Ref(b, name) in refs && refs[Ref(b, name)] == Ref(b, Namespace + name) }

  method AddBucket(components: Fields, bucket: string, before: RefMap) returns (refs: RefMap)
    requires bucket in Buckets
    requires forall r | r in before :: exists b, name :: Known(components, b, name) && r == Ref(b, name)
    ensures forall r | r in refs :: exists b, name :: Known(components, b, name) && r == Ref(b, name)
    ensures forall b, name | Known(components, b, name) && Renamed(before, b, name) :: Renamed(refs, b, name)
    ensures forall name | Known(components, bucket, name) :: Renamed(refs, bucket, name)
  {
    refs := before;
    var names := Entries(components, bucket).Keys;
    while names != {}
      invariant names <= Entries(components, bucket).Keys
      invariant forall r | r in refs :: exists b, name :: Known(components, b, name) && r == Ref(b, name)
      invariant forall b, name | Known(components, b, name) && Renamed(before, b, name) :: Renamed(refs, b, name)
      invariant forall name | Known(components, bucket, name) && name !in names :: Renamed(refs, bucket, name)
      decreases |names|
    {
      var name :| name in names;
      assert Known(components, bucket, name);
      forall b, other | Known(components, b, other) && Renamed(refs, b, other)
        ensures Renamed(refs[Ref(bucket, name) := Ref(bucket, Namespace + name)], b, other)
      {
        if Ref(b, other) == Ref(bucket, name) {
          RefInjective(b, other, bucket, name);
        }
      }
      refs := refs[Ref(bucket, name) := Ref(bucket, Namespace + name)];
      names := names - {name};
    }
  }

  // ---- Rewriting the references of a tree ----

  function RewriteRefs(j: Tree, refs: RefMap): Tree
    decreases j, 0
  {
    match j
    case Obj(m) => Obj(map k | k in m :: Child(m[k], refs))
    case Arr(a) => Arr(seq(|a|, i requires 0 <= i < |a| => RewriteRefs(a[i], refs)))
    case _ => j
  }

  // A string is replaced only as the value of a key.
  function Child(j: Tree, refs: RefMap): Tree
    decreases j, 1
  {
    if j.Str? && j.text in refs then Str(refs[j.text]) else RewriteRefs(j, refs)
  }

  method RewriteReferences(j: Tree, refs: RefMap) returns (r: Tree)
    ensures r == RewriteRefs(j, refs)
    decreases j, 1
  {
    match j
    case Obj(m) =>
      var node := RewriteFields(m, refs);
      return Obj(node);
    case Arr(a) =>
      var items: seq<Tree> := [];
      for i := 0 to |a|
        invariant |items| == i && forall k | 0 <= k < i :: items[k] == RewriteRefs(a[k], refs)
      {
        var next := RewriteReferences(a[i], refs);
        items := items + [next];
      }
      return Arr(items);
    case _ => return j;
  }

  // No entry is visited twice, so a new name that is also an old one is not
  // renamed again.
  method RewriteFields(m: Fields, refs: RefMap) returns (node: Fields)
    ensures node == map k | k in m :: Child(m[k], refs)
    decreases Obj(m), 0
  {
    var keys := m.Keys;
    node := m;
    while keys != {}
      invariant node.Keys == m.Keys && keys <= m.Keys
      invariant forall k | k in m :: node[k] == if k in keys then m[k] else Child(m[k], refs)
      decreases |keys|
    {
      var key :| key in keys;
      var child := node[key];
      if child.Str? && child.text in refs {
        node := node[key := Str(refs[child.text])];
      } else {
        var next := RewriteReferences(child, refs);
        node := node[key := next];
      }
      keys := keys - {key};
    }
  }

  datatype Step = Key(name: string) | Index(position: nat)

  function At(j: Tree, path: seq<Step>): Option<Tree>
    decreases |path|
  {
    if path == [] then Some(j) else
    match path[0]
    case Key(k) => if j.Obj? && k in j.fields then At(j.fields[k], path[1..]) else None
    case Index(i) => if j.Arr? && i < |j.items| then At(j.items[i], path[1..]) else None
  }

  predicate ByKey(path: seq<Step>) { path != [] && path[|path| - 1].Key? }

  // Every place keeps what it held, up to the references inside.
  lemma {:induction false} RewriteAt(j: Tree, refs: RefMap, path: seq<Step>)
    ensures At(RewriteRefs(j, refs), path) ==
      match At(j, path)
      case None => None
      case Some(t) => Some(if ByKey(path) then Child(t, refs) else RewriteRefs(t, refs))
    decreases |path|
  {
    if path != [] {
      match path[0]
      case Key(k) =>
        if j.Obj? && k in j.fields {
          RewriteAt(j.fields[k], refs, path[1..]);
        }
      case Index(i) =>
        if j.Arr? && i < |j.items| {
          RewriteAt(j.items[i], refs, path[1..]);
        }
    }
  }

  // ---- Namespacing and merging ----

  function Join(prefix: string, name: string): string { prefix + name }

  // The same entries, each under its prefixed name, and no others.
  ghost predicate IsPrefixed(prefix: string, bucket: Fields, out: Fields) {
    && (forall name | name in bucket :: Join(prefix, name) in out && out[Join(prefix, name)] == bucket[name])
    && (forall k | k in out :: exists name :: name in bucket && k == Join(prefix, name))
  }

  lemma PrefixedStep(prefix: string, done: Fields, out: Fields, name: string, value: Tree)
    requires IsPrefixed(prefix, done, out) && name !in done
    ensures Join(prefix, name) !in out
    ensures IsPrefixed(prefix, done[name := value], out[Join(prefix, name) := value])
  {
    var k := Join(prefix, name);
    if k in out {
      var other :| other in done && k == Join(prefix, other);
      PrefixCancels(prefix, name, other);
      assert false;
    }
    var done', out' := done[name := value], out[k := value];
    forall j | j in out' ensures exists n :: n in done' && j == Join(prefix, n) {
      if j == k {
        assert name in done';
      } else {
        var n :| n in done && j == Join(prefix, n);
        assert n in done';
      }
    }
  }

  lemma Moved(left: Fields, done: Fields, name: string)
    requires left.Keys !! done.Keys && name in left
    ensures (left - {name}) + done[name := left[name]] == left + done
  {
  }

  // Prefixing loses no entry, whatever the names.
  method PrefixBucket(prefix: string, bucket: Fields) returns (out: Fields)
    ensures IsPrefixed(prefix, bucket, out)
    ensures |out| == |bucket|
  {
    out := map[];
    var left, done: Fields := bucket, map[];
    while left != map[]
      invariant left.Keys !! done.Keys && left + done == bucket
      invariant IsPrefixed(prefix, done, out) && |out| == |done|
      decreases |left|
    {
      var name :| name in left;
      PrefixedStep(prefix, done, out, name, left[name]);
      Moved(left, done, name);
      out := out[Join(prefix, name) := left[name]];
      left, done := left - {name}, done[name := left[name]];
    }
    assert done == bucket;
  }

  // Bucket by bucket, the extra entries over the base's; other keys as they were.
  ghost predicate IsMerged(buckets: seq<string>, merged: Fields, base: Fields, extra: Fields) {
    && (forall b | b in buckets :: Entries(merged, b) == Entries(base, b) + Entries(extra, b))
    && (forall key | key !in buckets :: (key in merged <==> key in base) && (key in base ==> merged[key] == base[key]))
  }

  lemma MergeStep(done: seq<string>, merged: Fields, base: Fields, extra: Fields, b: string)
    requires IsMerged(done, merged, base, extra)
    ensures IsMerged(done + [b], merged[b := Obj(Entries(merged, b) + Entries(extra, b))], base, extra)
  {
    if b in done {
      assert Entries(merged, b) + Entries(extra, b) == Entries(merged, b);
    } else {
      assert Entries(merged, b) == Entries(base, b);
    }
  }

  method MergeComponents(buckets: seq<string>, base: Fields, extra: Fields) returns (merged: Fields)
    ensures IsMerged(buckets, merged, base, extra)
  {
    merged := base;
    for i := 0 to |buckets|
      invariant IsMerged(buckets[..i], merged, base, extra)
    {
      var b := buckets[i];
      assert buckets[..i + 1] == buckets[..i] + [b];
      MergeStep(buckets[..i], merged, base, extra, b);
      merged := merged[b := Obj(Entries(merged, b) + Entries(extra, b))];
    }
    assert buckets[..|buckets|] == buckets;
  }

  ghost predicate IsNamespaced(buckets: seq<string>, prefix: string, components: Fields, extra: Fields) {
    forall b | b in buckets :: IsPrefixed(prefix, Entries(components, b), Entries(extra, b))
  }

  method NamespaceComponents(buckets: seq<string>, prefix: string, components: Fields) returns (extra: Fields)
    ensures IsNamespaced(buckets, prefix, components, extra)
  {
    extra := map[];
    for i := 0 to |buckets|
      invariant IsNamespaced(buckets[..i], prefix, components, extra)
    {
      var bucket := PrefixBucket(prefix, Entries(components, buckets[i]));
      assert buckets[..i + 1] == buckets[..i] + [buckets[i]];
      extra := extra[buckets[i] := Obj(bucket)];
    }
    assert buckets[..|buckets|] == buckets;
  }

  // ---- References resolve after the merge ----

  ghost predicate ResolvesTo(components: Fields, r: string, t: Tree) {
    exists b, name :: Known(components, b, name) && r == Ref(b, name) && Entries(components, b)[name] == t
  }

  lemma ResolvesUnique(components: Fields, r: string, t: Tree, u: Tree)
    requires ResolvesTo(components, r, t) && ResolvesTo(components, r, u)
    ensures t == u
  {
    var a, x :| Known(components, a, x) && r == Ref(a, x) && Entries(components, a)[x] == t;
    var b, y :| Known(components, b, y) && r == Ref(b, y) && Entries(components, b)[y] == u;
    RefInjective(a, x, b, y);
  }

  predicate Site(j: Tree, path: seq<Step>, r: string) { ByKey(path) && At(j, path) == Some(Str(r)) }

  predicate ComponentRef(r: string) { Root <= r }

  // Every component reference of the document names a component of it.
  ghost predicate Closed(doc: Fields) {
    forall path, r | Site(Obj(doc), path, r) && ComponentRef(r) :: exists t :: ResolvesTo(Entries(doc, "components"), r, t)
  }

  // The rewritten document and what the merge made of its components.
  ghost predicate Generated(doc: Fields, base: Fields, refs: RefMap, rewritten: Tree, merged: Fields) {
    && IsRefMap(refs, Entries(doc, "components"))
    && rewritten == RewriteRefs(Obj(doc), refs)
    && exists extra ::
        && IsNamespaced(Buckets, Namespace, Entries(rewritten.fields, "components"), extra)
        && IsMerged(Buckets, merged, base, extra)
  }

  method Generate(doc: Fields, base: Fields) returns (refs: RefMap, rewritten: Tree, merged: Fields)
    ensures Generated(doc, base, refs, rewritten, merged)
  {
    refs := BuildRefMap(Entries(doc, "components"));
    rewritten := RewriteReferences(Obj(doc), refs);
    var extra := NamespaceComponents(Buckets, Namespace, Entries(rewritten.fields, "components"));
    merged := MergeComponents(Buckets, base, extra);
  }

  // No component is lost: each is found under its prefixed name, rewritten.
  lemma ComponentKept(doc: Fields, base: Fields, refs: RefMap, rewritten: Tree, merged: Fields, b: string, name: string)
    requires Generated(doc, base, refs, rewritten, merged)
    requires Known(Entries(doc, "components"), b, name)
    ensures Known(merged, b, Namespace + name)
    ensures Entries(merged, b)[Namespace + name] == Child(Entries(Entries(doc, "components"), b)[name], refs)
  {
    var before, after := Entries(doc, "components"), Entries(rewritten.fields, "components");
    var extra :| IsNamespaced(Buckets, Namespace, after, extra) && IsMerged(Buckets, merged, base, extra);
    EntryRewritten(doc, refs, "components", b, name);
    MergedEntry(Buckets, Namespace, merged, base, after, extra, b, name);
  }

  lemma EntryRewritten(doc: Fields, refs: RefMap, section: string, b: string, name: string)
    requires name in Entries(Entries(doc, section), b)
    ensures var after := Entries(RewriteRefs(Obj(doc), refs).fields, section);
      name in Entries(after, b) && Entries(after, b)[name] == Child(Entries(Entries(doc, section), b)[name], refs)
  {
    var s := doc[section];
    assert RewriteRefs(Obj(doc), refs).fields[section] == RewriteRefs(s, refs);
    assert RewriteRefs(s, refs).fields[b] == RewriteRefs(s.fields[b], refs);
    assert RewriteRefs(s.fields[b], refs).fields[name] == Child(s.fields[b].fields[name], refs);
  }

  lemma MergedEntry(buckets: seq<string>, prefix: string, merged: Fields, base: Fields, components: Fields, extra: Fields, b: string, name: string)
    requires IsNamespaced(buckets, prefix, components, extra) && IsMerged(buckets, merged, base, extra)
    requires b in buckets && name in Entries(components, b)
    ensures Join(prefix, name) in Entries(merged, b) && Entries(merged, b)[Join(prefix, name)] == Entries(components, b)[name]
  {
    assert IsPrefixed(prefix, Entries(components, b), Entries(extra, b));
  }

  lemma {:induction false} ReferenceFollows(doc: Fields, base: Fields, refs: RefMap, rewritten: Tree, merged: Fields, r: string, t: Tree)
    requires Generated(doc, base, refs, rewritten, merged)
    requires ResolvesTo(Entries(doc, "components"), r, t)
    ensures r in refs && ResolvesTo(merged, refs[r], Child(t, refs))
  {
    var components := Entries(doc, "components");
    var b, name :| Known(components, b, name) && r == Ref(b, name) && Entries(components, b)[name] == t;
    ComponentKept(doc, base, refs, rewritten, merged, b, name);
  }

  // Every component reference of the rewritten document stands where the
  // original had one, and resolves to the rewritten copy of its target.
  lemma ReferencesResolve(doc: Fields, base: Fields, refs: RefMap, rewritten: Tree, merged: Fields, path: seq<Step>, r': string)
    requires Closed(doc) && Generated(doc, base, refs, rewritten, merged)
    requires Site(rewritten, path, r') && ComponentRef(r')
    ensures exists r, t ::
      && Site(Obj(doc), path, r) && ResolvesTo(Entries(doc, "components"), r, t)
      && ResolvesTo(merged, r', Child(t, refs))
  {
    var r := OriginalSite(doc, refs, path, r');
    if r in refs {
      var b, name :| Known(Entries(doc, "components"), b, name) && r == Ref(b, name);
      assert ComponentRef(r);
    }
    var t :| ResolvesTo(Entries(doc, "components"), r, t);
    ReferenceFollows(doc, base, refs, rewritten, merged, r, t);
  }

  lemma OriginalSite(doc: Fields, refs: RefMap, path: seq<Step>, r': string) returns (r: string)
    requires Site(RewriteRefs(Obj(doc), refs), path, r')
    ensures Site(Obj(doc), path, r) && r' == if r in refs then refs[r] else r
  {
    RewriteAt(Obj(doc), refs, path);
    r := At(Obj(doc), path).value.text;
  }

  // Conversely no reference is dropped or pointed elsewhere.
  lemma ReferencesKept(doc: Fields, base: Fields, refs: RefMap, rewritten: Tree, merged: Fields, path: seq<Step>, r: string)
    requires Generated(doc, base, refs, rewritten, merged)
    requires Site(Obj(doc), path, r)
    ensures Site(rewritten, path, if r in refs then refs[r] else r)
  {
    RewriteAt(Obj(doc), refs, path);
  }

  // The base's own components stay as they are unless they carry the prefix.
  lemma BaseKept(doc: Fields, base: Fields, refs: RefMap, rewritten: Tree, merged: Fields, b: string, name: string)
    requires Generated(doc, base, refs, rewritten, merged)
    requires Known(base, b, name) && !("Opencode" <= name)
    ensures Known(merged, b, name) && Entries(merged, b)[name] == Entries(base, b)[name]
  {
    var after := Entries(rewritten.fields, "components");
    var extra :| IsNamespaced(Buckets, Namespace, after, extra) && IsMerged(Buckets, merged, base, extra);
    NotPrefixed(Namespace, Entries(after, b), Entries(extra, b), name);
  }

  lemma NotPrefixed(prefix: string, bucket: Fields, out: Fields, name: string)
    requires IsPrefixed(prefix, bucket, out) && !(prefix <= name)
    ensures name !in out
  {
    forall n ensures Join(prefix, n) != name { assert prefix <= Join(prefix, n); }
  }

  // The buckets are the component kinds of OpenAPI 3.0.
  lemma BucketsComplete(b: string)
    ensures var kinds := {"callbacks", "examples", "headers", "links", "parameters", "requestBodies", "responses", "schemas", "securitySchemes"};
      b in Buckets <==> b in kinds
  {
  }
}
