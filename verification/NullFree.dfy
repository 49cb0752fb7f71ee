// What the schema rewriter is for: null as a type is gone from its output, in
// type lists always, and in unions exactly but for one kind of node.
module NullFree {
  import opened Common
  import opened JsonTree
  import opened SchemaRewrite

  predicate NullUnion(m: Fields) { AnyOf in m && m[AnyOf].Arr? && HasNull(m[AnyOf].items) }

  predicate NullType(m: Fields) { Type in m && m[Type].Arr? && Str(NullName) in m[Type].items }

  // A union of null and one other branch, where that branch is a boolean schema,
  // which cannot be merged, or brings a union with null of its own, which is
  // merged and not looked at again.
  predicate Leftover(m: Fields) {
    NullUnion(m) && var rest := NonNull(m[AnyOf].items);
      |rest| == 1 && (!rest[0].Obj? || NullUnion(rest[0].fields))
  }

  lemma NoNullRest(items: seq<Tree>)
    ensures !HasNull(NonNull(items))
  {
    if HasNull(NonNull(items)) {
      var i :| 0 <= i < |NonNull(items)| && IsNullSchema(NonNull(items)[i]);
      NonNullFrom(items, i);
    }
  }

  lemma NoNullRestTypes(types: seq<Tree>)
    ensures Str(NullName) !in NonNullTypes(types)
  {
    forall i | 0 <= i < |NonNullTypes(types)| ensures NonNullTypes(types)[i] != Str(NullName) {
      NonNullTypesFrom(types, i);
    }
  }

  lemma SplitLeaves(m: Fields)
    requires Shape(m)
    ensures NullUnion(Split(m, AnyOf)) <==> Leftover(m)
  {
    if NullUnion(m) {
      NoNullRest(m[AnyOf].items);
      if Merges(m) { MergedBranch(m); }
    }
  }

  lemma CollapseLeaves(m: Fields)
    ensures NullUnion(Collapse(m, AnyOf)) <==> NullUnion(m)
    ensures NullType(Collapse(m, AnyOf)) ==> NullType(m)
  {
    if AnyOf in m && m[AnyOf].Arr? && SamePrimitive(m[AnyOf].items) {
      PrimitiveIsNotNull(m[AnyOf].items);
    }
  }

  lemma PrimitiveIsNotNull(items: seq<Tree>)
    requires SamePrimitive(items)
    ensures !HasNull(items)
  {
    forall i | 0 <= i < |items| ensures !IsNullSchema(items[i]) {
      assert TypedAs(items[i], items[0].fields[Type]);
    }
  }

  // One node: no type list of its own names null any more, and its union does
  // exactly when the node is a leftover.
  lemma NodeNullFreeIff(m: Fields)
    requires Shape(m)
    ensures !NullType(Steps(m))
    ensures NullUnion(Steps(m)) <==> Leftover(m)
  {
    StepsAre(m);
    SplitShape(m);
    var a := Split(m, AnyOf);
    SplitLeaves(m);
    SplitTypesLeaves(a);
    CollapseLeaves(SplitTypes(a));
  }

  lemma SplitTypesLeaves(m: Fields)
    requires Shape(m)
    ensures !NullType(SplitTypes(m))
    ensures NullUnion(SplitTypes(m)) <==> NullUnion(m)
  {
    if NullType(m) {
      var rest := NonNullTypes(m[Type].items);
      NoNullRestTypes(m[Type].items);
      if |rest| == 1 { NonNullTypesFrom(m[Type].items, 0); }
    }
  }

  predicate PrimitiveUnion(m: Fields) { AnyOf in m && m[AnyOf].Arr? && SamePrimitive(m[AnyOf].items) }

  // No union of one primitive type is left; where there was one, its type is now
  // the node's.
  lemma NodeCollapsed(m: Fields)
    requires Shape(m)
    ensures !PrimitiveUnion(Steps(m))
    ensures var n := SplitTypes(Split(m, AnyOf));
      PrimitiveUnion(n) ==> AnyOf !in Steps(m) && Type in Steps(m) && TypedAs(n[AnyOf].items[0], Steps(m)[Type])
  {
    StepsAre(m);
  }

  // A node is marked nullable exactly when it split null out.
  lemma MarkedIff(m: Fields)
    requires Shape(m) && Nullable !in m
    ensures Marked(Steps(m)) <==> NullUnion(m) || NullType(Split(m, AnyOf))
  {
    StepsAre(m);
    if Merges(m) { MergedBranch(m); }
  }

  // ---- The whole tree ----

  // No union with a null branch and no type list with null, at any schema of it.
  predicate NullFree(s: Tree)
    decreases s
  {
    s.Obj? ==>
      var m := s.fields;
      && !NullUnion(m) && !NullType(m)
      && (AnyOf in m && m[AnyOf].Arr? ==> forall i | 0 <= i < |m[AnyOf].items| :: NullFree(m[AnyOf].items[i]))
      && (Items in m ==> NullFree(m[Items]))
      && (Properties in m && m[Properties].Obj? ==> forall k | k in m[Properties].fields :: NullFree(m[Properties].fields[k]))
  }

  // No schema of the tree is a leftover.
  predicate Plain(s: Tree)
    decreases s
  {
    s.Obj? ==>
      var m := s.fields;
      && !Leftover(m)
      && (AnyOf in m && m[AnyOf].Arr? ==> forall i | 0 <= i < |m[AnyOf].items| :: Plain(m[AnyOf].items[i]))
      && (Items in m ==> Plain(m[Items]))
      && (Properties in m && m[Properties].Obj? ==> forall k | k in m[Properties].fields :: Plain(m[Properties].fields[k]))
  }

  predicate AllPlain(items: seq<Tree>) { forall i | 0 <= i < |items| :: Plain(items[i]) }

  predicate PlainMap(p: Fields) { forall k | k in p :: Plain(p[k]) }

  predicate PlainChildren(m: Fields) {
    && (AnyOf in m && m[AnyOf].Arr? ==> AllPlain(m[AnyOf].items))
    && (Items in m ==> Plain(m[Items]))
    && (Properties in m && m[Properties].Obj? ==> PlainMap(m[Properties].fields))
  }

  lemma PlainObj(m: Fields)
    requires Plain(Obj(m))
    ensures !Leftover(m) && PlainChildren(m)
  {
  }

  lemma RestPlain(items: seq<Tree>)
    requires AllPlain(items)
    ensures AllPlain(NonNull(items))
  {
    forall i | 0 <= i < |NonNull(items)| ensures Plain(NonNull(items)[i]) { NonNullFrom(items, i); }
  }

  lemma OverlaidPlain(m: Fields, b: Fields)
    requires PlainChildren(m) && PlainChildren(b)
    ensures PlainChildren((m - {AnyOf}) + b)
  {
  }

  lemma SplitKeepsPlain(m: Fields)
    requires Shape(m) && PlainChildren(m)
    ensures PlainChildren(Split(m, AnyOf))
  {
    if Splits(m) {
      var rest, marked := NonNull(m[AnyOf].items), m[Nullable := Bool(true)];
      RestPlain(m[AnyOf].items);
      assert PlainChildren(marked);
      if Merges(m) {
        MergedBranch(m);
        assert Plain(rest[0]);
        PlainObj(rest[0].fields);
        OverlaidPlain(marked, rest[0].fields);
      }
    }
  }

  lemma StepsKeepPlain(m: Fields)
    requires Shape(m) && PlainChildren(m)
    ensures PlainChildren(Steps(m))
  {
    StepsAre(m);
    SplitKeepsPlain(m);
    TypesKeepPlain(Split(m, AnyOf));
  }

  lemma TypesKeepPlain(m: Fields)
    requires PlainChildren(m)
    ensures PlainChildren(Collapse(SplitTypes(m), AnyOf))
  {
  }

  // Only a null schema is rewritten into one.
  lemma NullComesFromNull(b: Tree)
    requires Schema(b) && IsNullSchema(Rewrite(b))
    ensures IsNullSchema(b)
  {
    var m := b.fields;
    SchemaObj(m);
    RewriteObj(m);
    StepsAre(m);
    var a := Split(m, AnyOf);
    assert Rewrite(Steps(m)[Type]) == Str(NullName);
    assert SplitTypes(a)[Type] == Str(NullName);
    if NullType(a) { NoNullRestTypes(a[Type].items); }
    if Merges(m) {
      MergedBranch(m);
      NonNullFrom(m[AnyOf].items, 0);
    }
  }

  lemma ImageNullFree(n: Fields, r: Fields)
    requires Shape(n) && Image(n, r) && !NullUnion(n) && !NullType(n)
    ensures !NullUnion(r) && !NullType(r)
  {
    if Type in n { ScalarsFixed(n[Type]); }
    if NullUnion(r) {
      var i :| 0 <= i < |r[AnyOf].items| && IsNullSchema(r[AnyOf].items[i]);
      assert r[AnyOf].items[i] == Rewrite(n[AnyOf].items[i]) && Schema(n[AnyOf].items[i]);
      NullComesFromNull(n[AnyOf].items[i]);
    }
  }

  ghost predicate NullFreeChildren(m: Fields) {
    && (AnyOf in m && m[AnyOf].Arr? ==> forall i | 0 <= i < |m[AnyOf].items| :: NullFree(m[AnyOf].items[i]))
    && (Items in m ==> NullFree(m[Items]))
    && (Properties in m && m[Properties].Obj? ==> forall k | k in m[Properties].fields :: NullFree(m[Properties].fields[k]))
  }

  lemma {:induction false} ChildrenNullFree(s: Tree, n: Fields, r: Fields)
    requires Rewritten(s, n, r) && PlainChildren(n)
    ensures NullFreeChildren(r)
    decreases s, 0
  {
    if AnyOf in n {
      assert Below(s, n[AnyOf]);
      forall i | 0 <= i < |r[AnyOf].items| ensures NullFree(r[AnyOf].items[i]) {
        RewriteNullFree(n[AnyOf].items[i]);
      }
    }
    if Items in n && n[Items].Obj? {
      assert Below(s, n[Items]);
      RewriteNullFree(n[Items]);
    }
    if Properties in n {
      var p := n[Properties].fields;
      PropertiesRewrite(p);
      assert Below(s, n[Properties]);
      forall k | k in p ensures NullFree(r[Properties].fields[k]) { RewriteNullFree(p[k]); }
    }
  }

  // Without leftovers, null as a type is gone from the whole output.
  lemma {:induction false} RewriteNullFree(s: Tree)
    requires Schema(s) && Plain(s)
    ensures NullFree(Rewrite(s))
    decreases s, 1
  {
    if s.Obj? {
      var n := Steps(s.fields);
      SchemaObj(s.fields);
      PlainObj(s.fields);
      RewriteNode(s.fields);
      NodeNullFreeIff(s.fields);
      StepsKeepPlain(s.fields);
      ImageNullFree(n, Rewrite(s).fields);
      ChildrenNullFree(s, n, Rewrite(s).fields);
    }
  }
}
