// What the schema rewriter does to the members of an enum, which it takes for
// schemas like everything else: exactly when a listed value is lost.
module EnumMembers {
  import opened JsonTree
  import opened MapSum
  import opened SchemaRewrite

  // ---- Every change makes a tree lighter ----

  function Unmarked(m: Fields): nat { if Marked(m) then 0 else 1 }

  // Nodes, not counting `nullable: true`, plus one per object without it.
  ghost function Weight(j: Tree): nat
    decreases j
  {
    match j
    case Obj(m) => 1 + Unmarked(m) + Sum(map k | k in m && !(k == Nullable && m[k] == Bool(true)) :: Weight(m[k]))
    case Arr(a) => 1 + Sum(map i: nat | i < |a| :: Weight(a[i]))
    case _ => 1
  }

  ghost function Weights(m: Fields): map<Text, nat> { map k | k in m && !(k == Nullable && m[k] == Bool(true)) :: Weight(m[k]) }

  ghost function Load(m: Fields): nat { Unmarked(m) + Sum(Weights(m)) }

  ghost function ItemWeights(a: seq<Tree>): map<nat, nat> { map i: nat | i < |a| :: Weight(a[i]) }

  ghost function ListWeight(a: seq<Tree>): nat {
    if a == [] then 0 else ListWeight(a[..|a| - 1]) + Weight(a[|a| - 1])
  }

  lemma ObjWeight(m: Fields)
    ensures Weight(Obj(m)) == 1 + Load(m)
  {
    assert Weights(m) == map k | k in m && !(k == Nullable && m[k] == Bool(true)) :: Weight(m[k]);
  }

  lemma {:induction false} ItemWeightsTotal(a: seq<Tree>)
    ensures Sum(ItemWeights(a)) == ListWeight(a)
  {
    if a == [] {
      assert ItemWeights(a) == map[];
    } else {
      var n: nat := |a| - 1;
      ItemWeightsTotal(a[..n]);
      var rest := ItemWeights(a[..n]);
      assert n !in rest && ItemWeights(a) == rest[n := Weight(a[n])];
      SumUpdate<nat>(rest, n, Weight(a[n]));
    }
  }

  lemma ArrWeight(a: seq<Tree>)
    ensures Weight(Arr(a)) == 1 + ListWeight(a)
  {
    ItemWeightsTotal(a);
    assert ItemWeights(a) == map i: nat | i < |a| :: Weight(a[i]);
  }

  lemma MarkedLoad(m: Fields)
    ensures Load(m[Nullable := Bool(true)]) <= Load(m)
    ensures !Marked(m) ==> Load(m[Nullable := Bool(true)]) < Load(m)
  {
    var n := m[Nullable := Bool(true)];
    SumMonotone(Weights(n), Weights(m));
  }

  lemma RemovedLoad(m: Fields, key: Text)
    requires key in m && key != Nullable
    ensures Load(m - {key}) == Load(m) - Weight(m[key])
  {
    SumPick(Weights(m), key);
    assert Weights(m - {key}) == Weights(m) - {key};
  }

  lemma ReplacedLoad(m: Fields, key: Text, v: Tree)
    requires key in m && key != Nullable
    ensures Load(m[key := v]) == Load(m) - Weight(m[key]) + Weight(v)
  {
    SumUpdate(Weights(m), key, Weight(v));
    assert Weights(m[key := v]) == Weights(m)[key := Weight(v)];
  }

  lemma OverlaidLoad(m: Fields, b: Fields)
    ensures Load(m + b) <= Load(m) + Load(b)
  {
    SumOverlay(Weights(m), Weights(b));
    SumMonotone(Weights(m + b), Weights(m) + Weights(b));
  }

  lemma TypedWeight(j: Tree)
    requires j.Obj? && Type in j.fields
    ensures Weight(j) >= 2
  {
    SumPick(Weights(j.fields), Type);
    ObjWeight(j.fields);
  }

  lemma {:induction false} NonNullWeight(items: seq<Tree>)
    ensures ListWeight(NonNull(items)) <= ListWeight(items)
    ensures HasNull(items) ==> ListWeight(NonNull(items)) + 2 <= ListWeight(items)
  {
    if items != [] {
      var n := |items| - 1;
      NonNullWeight(items[..n]);
      SplitGrow(items, n);
      assert items[..n + 1] == items;
      if IsNullSchema(items[n]) {
        TypedWeight(items[n]);
        assert NonNull(items) == NonNull(items[..n]);
      } else {
        assert NonNull(items)[..|NonNull(items)| - 1] == NonNull(items[..n]);
      }
    }
  }

  lemma {:induction false} NonNullTypesWeight(types: seq<Tree>)
    ensures ListWeight(NonNullTypes(types)) <= ListWeight(types)
    ensures Str(NullName) in types ==> ListWeight(NonNullTypes(types)) < ListWeight(types)
  {
    if types != [] {
      var n := |types| - 1;
      NonNullTypesWeight(types[..n]);
      assert types == types[..n] + [types[n]];
      if types[n] == Str(NullName) {
        assert NonNullTypes(types) == NonNullTypes(types[..n]);
      } else {
        assert NonNullTypes(types)[..|NonNullTypes(types)| - 1] == NonNullTypes(types[..n]);
      }
    }
  }

  lemma SingleWeight(a: seq<Tree>)
    requires |a| == 1
    ensures ListWeight(a) == Weight(a[0])
  {
    assert a[..0] == [];
  }

  lemma SplitLoad(m: Fields, key: Text)
    requires key != Nullable
    ensures Load(Split(m, key)) <= Load(m)
    ensures Split(m, key) != m ==> Load(Split(m, key)) < Load(m)
  {
    if key in m && m[key].Arr? && HasNull(m[key].items) {
      var rest := NonNull(m[key].items);
      MarkedLoad(m);
      if |rest| != 1 {
        ReducedLoad(m[Nullable := Bool(true)], key, m[key].items);
      } else if rest[0].Obj? {
        MergedLoad(m[Nullable := Bool(true)], key, m[key].items);
      } else if Marked(m) {
        assert m[Nullable := Bool(true)] == m;
      }
    }
  }

  lemma ReducedLoad(m: Fields, key: Text, items: seq<Tree>)
    requires key != Nullable && key in m && m[key] == Arr(items) && HasNull(items)
    ensures Load(m[key := Arr(NonNull(items))]) < Load(m)
  {
    NonNullWeight(items);
    ArrWeight(items);
    ArrWeight(NonNull(items));
    ReplacedLoad(m, key, Arr(NonNull(items)));
  }

  lemma MergedLoad(m: Fields, key: Text, items: seq<Tree>)
    requires key != Nullable && key in m && m[key] == Arr(items) && HasNull(items)
    requires |NonNull(items)| == 1 && NonNull(items)[0].Obj?
    ensures Load((m - {key}) + NonNull(items)[0].fields) < Load(m)
  {
    var rest := NonNull(items);
    NonNullWeight(items);
    ArrWeight(items);
    SingleWeight(rest);
    ObjWeight(rest[0].fields);
    RemovedLoad(m, key);
    OverlaidLoad(m - {key}, rest[0].fields);
  }

  lemma SplitTypesLoad(m: Fields)
    ensures Load(SplitTypes(m)) <= Load(m)
    ensures SplitTypes(m) != m ==> Load(SplitTypes(m)) < Load(m)
  {
    if Type in m && m[Type].Arr? && Str(NullName) in m[Type].items {
      var rest := NonNullTypes(m[Type].items);
      var marked := m[Nullable := Bool(true)];
      MarkedLoad(m);
      NonNullTypesWeight(m[Type].items);
      ArrWeight(m[Type].items);
      if |rest| == 0 {
        RemovedLoad(marked, Type);
      } else if |rest| == 1 {
        SingleWeight(rest);
        ReplacedLoad(marked, Type, rest[0]);
      } else {
        ArrWeight(rest);
        ReplacedLoad(marked, Type, Arr(rest));
      }
    }
  }

  lemma CollapseLoad(m: Fields, key: Text)
    requires key != Nullable && key != Type
    ensures Load(Collapse(m, key)) <= Load(m)
    ensures Collapse(m, key) != m ==> Load(Collapse(m, key)) < Load(m)
  {
    if key in m && m[key].Arr? && SamePrimitive(m[key].items) {
      UnionWeight(m[key].items);
      RemovedLoad(m, key);
      RetypedLoad(m - {key}, m[key].items[0].fields[Type]);
    }
  }

  lemma UnionWeight(items: seq<Tree>)
    requires SamePrimitive(items)
    ensures Weight(Arr(items)) >= 3
  {
    ArrWeight(items);
    MemberWeight(items, 0);
    TypedWeight(items[0]);
  }

  lemma RetypedLoad(m: Fields, t: Tree)
    requires t.Str?
    ensures Load(m[Type := t]) <= Load(m) + 2
  {
    OverlaidLoad(m, map[Type := t]);
    assert m[Type := t] == m + map[Type := t];
    TypeLoad(t);
  }

  lemma TypeLoad(t: Tree)
    requires t.Str?
    ensures Load(map[Type := t]) == 2
  {
    assert Weights(map[Type := t]) == map[Type := 1];
    SumPick(map[Type := 1], Type);
    assert map[Type := 1] - {Type} == map[];
  }

  lemma {:induction false} MemberWeight(a: seq<Tree>, i: nat)
    requires i < |a|
    ensures Weight(a[i]) <= ListWeight(a)
  {
    if i < |a| - 1 { MemberWeight(a[..|a| - 1], i); }
  }

  lemma StepsLoad(m: Fields)
    ensures Load(Steps(m)) <= Load(m)
    ensures Steps(m) != m ==> Load(Steps(m)) < Load(m)
  {
    var a := Split(m, AnyOf);
    var b := Split(a, OneOf);
    var c := SplitTypes(b);
    var d := Collapse(c, AnyOf);
    SplitLoad(m, AnyOf);
    SplitLoad(a, OneOf);
    SplitTypesLoad(b);
    CollapseLoad(c, AnyOf);
    CollapseLoad(d, OneOf);
  }

  ghost predicate Lighter(from: Tree, to: Tree) { Weight(to) <= Weight(from) && (to != from ==> Weight(to) < Weight(from)) }

  lemma ItemsLighter(a: seq<Tree>)
    requires forall i | 0 <= i < |a| :: Lighter(a[i], Rewrite(a[i]))
    ensures Lighter(Arr(a), Rewrite(Arr(a)))
  {
    ListLighter(a, Rewrite(Arr(a)).items);
  }

  lemma ListLighter(a: seq<Tree>, b: seq<Tree>)
    requires |b| == |a| && forall i | 0 <= i < |a| :: Lighter(a[i], b[i])
    ensures Lighter(Arr(a), Arr(b))
  {
    ArrWeight(a);
    ArrWeight(b);
    ItemWeightsTotal(a);
    ItemWeightsTotal(b);
    SumMonotone(ItemWeights(b), ItemWeights(a));
    if Sum(ItemWeights(b)) == Sum(ItemWeights(a)) {
      forall i: nat | i < |a| ensures b[i] == a[i] {
        assert i in ItemWeights(b) && ItemWeights(b)[i] == ItemWeights(a)[i];
      }
      assert b == a;
    }
  }

  lemma ImageMarks(n: Fields, r: Fields)
    requires Image(n, r)
    ensures Marked(r) <==> Marked(n)
    ensures Weights(r).Keys == Weights(n).Keys
  {
    forall k ensures k in Weights(r) <==> k in Weights(n) {
      if k in n { assert r[k] == Bool(true) <==> n[k] == Bool(true); }
    }
  }

  lemma FieldsLighter(n: Fields, r: Fields)
    requires Image(n, r) && forall k | k in n :: Lighter(n[k], Rewrite(n[k]))
    ensures Load(r) <= Load(n) && (r != n ==> Load(r) < Load(n))
  {
    ImageMarks(n, r);
    SumMonotone(Weights(r), Weights(n));
    if Sum(Weights(r)) == Sum(Weights(n)) {
      forall k | k in n ensures r[k] == n[k] {
        if k in Weights(n) { assert k in Weights(r) && Weights(r)[k] == Weights(n)[k]; }
      }
      assert r == n;
    }
  }

  // The rewriting never makes a tree heavier, and lighter whenever it changes it.
  lemma {:induction false} RewriteLighter(j: Tree)
    ensures Lighter(j, Rewrite(j))
    decreases j
  {
    match j
    case Obj(m) =>
      var n := Steps(m);
      StepsBelow(m);
      RewriteObj(m);
      forall k | k in n ensures Lighter(n[k], Rewrite(n[k])) {
        assert Below(j, n[k]);
        match n[k]
        case Arr(a) =>
          forall i | 0 <= i < |a| ensures Lighter(a[i], Rewrite(a[i])) { RewriteLighter(a[i]); }
          ItemsLighter(a);
        case Obj(_) => RewriteLighter(n[k]);
        case _ =>
      }
      FieldsLighter(n, Rewrite(j).fields);
      StepsLoad(m);
      ObjWeight(m);
      ObjWeight(Rewrite(j).fields);
    case Arr(a) =>
      forall i | 0 <= i < |a| ensures Lighter(a[i], Rewrite(a[i])) { RewriteLighter(a[i]); }
      ItemsLighter(a);
    case _ =>
  }

  // A tree is left as it is exactly when no object in it is changed by its own
  // steps.
  lemma {:induction false} FixedIff(j: Tree)
    ensures Rewrite(j) == j <==> Untouched(j)
    decreases j
  {
    if Rewrite(j) == j {
      match j
      case Obj(m) =>
        RewriteObj(m);
        StepsFixed(m);
        forall k | k in m ensures Untouched(m[k]) { FixedIff(m[k]); }
      case Arr(a) =>
        forall i | 0 <= i < |a| ensures Untouched(a[i]) {
          assert Rewrite(j).items[i] == Rewrite(a[i]);
          FixedIff(a[i]);
        }
      case _ =>
    } else if Untouched(j) {
      UntouchedFixed(j);
    }
  }

  lemma StepsFixed(m: Fields)
    requires Rewrite(Obj(m)) == Obj(m)
    ensures Steps(m) == m
  {
    var n := Steps(m);
    RewriteObj(m);
    forall k | k in n ensures Lighter(n[k], Rewrite(n[k])) { RewriteLighter(n[k]); }
    FieldsLighter(n, m);
    StepsLoad(m);
  }

  // Enum members cannot trade places: if each is still a member after all were
  // rewritten, none was changed. A member that moved would come from a heavier
  // one that moved.
  lemma {:induction false} NoneMoves(items: seq<Tree>, i: nat)
    requires i < |items| && forall k | 0 <= k < |items| :: items[k] in Rewrite(Arr(items)).items
    ensures Rewrite(items[i]) == items[i]
    decreases ListWeight(items) - Weight(items[i])
  {
    if Rewrite(items[i]) != items[i] {
      var j: nat :| j < |items| && Rewrite(Arr(items)).items[j] == items[i];
      RewriteLighter(items[j]);
      MemberWeight(items, i);
      MemberWeight(items, j);
      NoneMoves(items, j);
    }
  }

  // ---- Enum members ----

  lemma EnumNode(m: Fields, v: Tree)
    requires Bare(m - {Enum}) && AnyOf !in m && OneOf !in m && Nullable !in m && Enum in m && m[Enum].Arr?
    ensures Accepts(Obj(m), v) <==> v in m[Enum].items
    ensures Accepts(Rewrite(Obj(m)), v) <==> v in Rewrite(m[Enum]).items
  {
    assert Steps(m) == m;
    RewriteObj(m);
    AcceptsObj(m, v);
    AcceptsObj(Rewrite(Obj(m)).fields, v);
  }

  ghost predicate Widens(s: Tree) { forall v :: Accepts(s, v) ==> Accepts(Rewrite(s), v) }

  // The rewriter descends into enum members as if they were schemas. For a
  // schema that only lists its values, no value is lost if and only if no
  // object inside a member is one that the rewriter changes.
  lemma EnumWidensIff(m: Fields)
    requires Bare(m - {Enum}) && AnyOf !in m && OneOf !in m && Nullable !in m && Enum in m && m[Enum].Arr?
    ensures Widens(Obj(m)) <==> AllUntouched(m[Enum].items)
  {
    var items := m[Enum].items;
    if AllUntouched(items) {
      UntouchedFixed(m[Enum]);
      forall v | Accepts(Obj(m), v) ensures Accepts(Rewrite(Obj(m)), v) { EnumNode(m, v); }
    } else if Widens(Obj(m)) {
      forall k | 0 <= k < |items| ensures items[k] in Rewrite(Arr(items)).items { EnumNode(m, items[k]); }
      forall k | 0 <= k < |items| ensures Untouched(items[k]) {
        NoneMoves(items, k);
        FixedIff(items[k]);
      }
    }
  }

  // Such a loss: the one listed value is itself an object with a type list.
  lemma EnumMemberLost() returns (s: Tree, v: Tree)
    ensures s == Obj(map[Enum := Arr([v])]) && Accepts(s, v) && !Accepts(Rewrite(s), v)
  {
    var types := [Str(NullName), Str(StringName)];
    v := Obj(map[Type := Arr(types)]);
    s := Obj(map[Enum := Arr([v])]);
    EnumNode(s.fields, v);
    RewriteObj(v.fields);
    assert types[..1][..0] == [] && types[..1][0] == types[0];
    assert NonNullTypes(types) == [Str(StringName)];
    assert Nullable in Steps(v.fields);
    assert Rewrite(Arr([v])).items == [Rewrite(v)];
  }
}
