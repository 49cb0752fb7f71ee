// Turning OpenAPI 3.1 schemas into 3.0 ones: `null` is split out of unions and
// type lists into `nullable`, and unions of one primitive type collapse.
module SchemaRewrite {
  import opened Common
  import opened JsonTree

  // JSON strings; the ones the rewriter or the reading of schemas names come first.
  datatype Text =
    | AnyOf | OneOf | Type | Nullable | Enum | Items | Properties
    | NullName | BooleanName | IntegerName | NumberName | StringName | ArrayName | ObjectName
    | Other(text: string)

  type Tree = Json<Text>
  type Fields = map<Text, Tree>

  // ---- One node's rewriting ----

  predicate IsNullSchema(j: Tree) { j.Obj? && Type in j.fields && j.fields[Type] == Str(NullName) }

  function NonNull(items: seq<Tree>): seq<Tree> {
    if items == [] then []
    else NonNull(items[..|items| - 1]) + if IsNullSchema(items[|items| - 1]) then [] else [items[|items| - 1]]
  }

  predicate HasNull(items: seq<Tree>) { exists i :: 0 <= i < |items| && IsNullSchema(items[i]) }

  function Split(m: Fields, key: Text): Fields {
    if key !in m || !m[key].Arr? || !HasNull(m[key].items) then m
    else
      var rest := NonNull(m[key].items);
      var marked := m[Nullable := Bool(true)];
      if |rest| != 1 then marked[key := Arr(rest)]
      else if rest[0].Obj? then (marked - {key}) + rest[0].fields
      else marked
  }

  function NonNullTypes(types: seq<Tree>): seq<Tree> {
    if types == [] then []
    else NonNullTypes(types[..|types| - 1]) + if types[|types| - 1] == Str(NullName) then [] else [types[|types| - 1]]
  }

  function SplitTypes(m: Fields): Fields {
    if Type !in m || !m[Type].Arr? || Str(NullName) !in m[Type].items then m
    else
      var rest := NonNullTypes(m[Type].items);
      var marked := m[Nullable := Bool(true)];
      if |rest| == 0 then marked - {Type}
      else if |rest| == 1 then marked[Type := rest[0]]
      else marked[Type := Arr(rest)]
  }

  function NullableStep(m: Fields): Fields { SplitTypes(Split(Split(m, AnyOf), OneOf)) }

  predicate Primitive(t: Tree) { t in {Str(BooleanName), Str(IntegerName), Str(NumberName), Str(StringName)} }

  predicate TypedAs(j: Tree, t: Tree) { j.Obj? && Type in j.fields && j.fields[Type] == t }

  // Every branch has the first branch's type, and that type is primitive.
  predicate SamePrimitive(items: seq<Tree>) {
    && items != []
    && items[0].Obj? && Type in items[0].fields && Primitive(items[0].fields[Type])
    && forall i | 0 <= i < |items| :: TypedAs(items[i], items[0].fields[Type])
  }

  function Collapse(m: Fields, key: Text): Fields {
    if key in m && m[key].Arr? && SamePrimitive(m[key].items) then (m - {key})[Type := m[key].items[0].fields[Type]] else m
  }

  function PrimitiveStep(m: Fields): Fields { Collapse(Collapse(m, AnyOf), OneOf) }

  function Steps(m: Fields): Fields { PrimitiveStep(NullableStep(m)) }

  // One node, rewritten in place.
  class Node {
    var fields: Fields

    constructor (fields: Fields)
      ensures this.fields == fields
    {
      this.fields := fields;
    }

    method RewriteNullable()
      modifies this
      ensures fields == NullableStep(old(fields))
    {
      SplitUnion(AnyOf);
      SplitUnion(OneOf);
      if Type !in fields || !fields[Type].Arr? {
        return;
      }
      var types := fields[Type].items;
      var filtered: seq<Tree> := [];
      var nullable := false;
      for i := 0 to |types|
        invariant filtered == NonNullTypes(types[..i])
        invariant nullable <==> Str(NullName) in types[..i]
      {
        assert types[..i + 1] == types[..i] + [types[i]];
        if types[i] == Str(NullName) {
          nullable := true;
        } else {
          filtered := filtered + [types[i]];
        }
      }
      assert types[..|types|] == types;
      if !nullable {
        return;
      }
      fields := fields[Nullable := Bool(true)];
      if |filtered| == 0 {
        fields := fields - {Type};
      } else if |filtered| == 1 {
        fields := fields[Type := filtered[0]];
      } else {
        fields := fields[Type := Arr(filtered)];
      }
    }

    method SplitUnion(key: Text)
      modifies this
      ensures fields == Split(old(fields), key)
    {
      if key !in fields || !fields[key].Arr? {
        return;
      }
      var nonNull, nullable := SplitNullableUnion(fields[key].items);
      if !nullable {
        return;
      }
      fields := fields[Nullable := Bool(true)];
      if |nonNull| == 1 {
        if !nonNull[0].Obj? {
          return;
        }
        fields := fields - {key};
        fields := fields + nonNull[0].fields;
        return;
      }
      fields := fields[key := Arr(nonNull)];
    }

    method RewritePrimitiveUnion()
      modifies this
      ensures fields == PrimitiveStep(old(fields))
    {
      CollapseUnion(AnyOf);
      CollapseUnion(OneOf);
    }

    method CollapseUnion(key: Text)
      modifies this
      ensures fields == Collapse(old(fields), key)
    {
      if key in fields && fields[key].Arr? {
        var primitive := SamePrimitiveUnion(fields[key].items);
        if primitive.Some? {
          fields := fields - {key};
          fields := fields[Type := primitive.value];
        }
      }
    }
  }

  lemma SplitGrow(items: seq<Tree>, i: nat)
    requires i < |items|
    ensures NonNull(items[..i + 1]) == NonNull(items[..i]) + if IsNullSchema(items[i]) then [] else [items[i]]
    ensures HasNull(items[..i + 1]) <==> HasNull(items[..i]) || IsNullSchema(items[i])
  {
    var longer := items[..i + 1];
    assert longer[..i] == items[..i] && longer[i] == items[i];
    if HasNull(longer) {
      var j :| 0 <= j < |longer| && IsNullSchema(longer[j]);
      assert j < i ==> items[..i][j] == longer[j];
    }
    if HasNull(items[..i]) {
      var j :| 0 <= j < i && IsNullSchema(items[..i][j]);
      assert longer[j] == items[..i][j];
    }
  }

  method SplitNullableUnion(items: seq<Tree>) returns (nonNull: seq<Tree>, nullable: bool)
    ensures nonNull == NonNull(items)
    ensures nullable <==> HasNull(items)
  {
    nonNull, nullable := [], false;
    for i := 0 to |items|
      invariant nonNull == NonNull(items[..i])
      invariant nullable <==> HasNull(items[..i])
    {
      SplitGrow(items, i);
      if IsNullSchema(items[i]) {
        nullable := true;
      } else {
        nonNull := nonNull + [items[i]];
      }
    }
    assert items[..|items|] == items;
  }

  method SamePrimitiveUnion(items: seq<Tree>) returns (primitive: Option<Tree>)
    ensures primitive.Some? <==> SamePrimitive(items)
    ensures primitive.Some? ==> TypedAs(items[0], primitive.value)
  {
    if items == [] {
      return None;
    }
    primitive := None;
    for i := 0 to |items|
      invariant i == 0 <==> primitive.None?
      invariant primitive.Some? ==> Primitive(primitive.value) && TypedAs(items[0], primitive.value)
      invariant primitive.Some? ==> forall j | 0 <= j < i :: TypedAs(items[j], primitive.value)
    {
      if !items[i].Obj? || Type !in items[i].fields || !Primitive(items[i].fields[Type]) {
        return None;
      }
      var t := items[i].fields[Type];
      if primitive.None? {
        primitive := Some(t);
      } else if primitive.value != t {
        return None;
      }
    }
  }

  // ---- The whole tree ----

  lemma {:induction false} NonNullFrom(items: seq<Tree>, i: nat)
    requires i < |NonNull(items)|
    ensures NonNull(items)[i] in items && !IsNullSchema(NonNull(items)[i])
  {
    if items != [] && i < |NonNull(items[..|items| - 1])| {
      NonNullFrom(items[..|items| - 1], i);
    }
  }

  lemma {:induction false} NonNullTypesFrom(types: seq<Tree>, i: nat)
    requires i < |NonNullTypes(types)|
    ensures NonNullTypes(types)[i] in types && NonNullTypes(types)[i] != Str(NullName)
  {
    if types != [] && i < |NonNullTypes(types[..|types| - 1])| {
      NonNullTypesFrom(types[..|types| - 1], i);
    }
  }

  // What a recursive call on j, or on its elements, may rely on.
  ghost predicate Below(s: Tree, j: Tree) {
    match j
    case Arr(a) => forall i | 0 <= i < |a| :: (s decreases to a[i])
    case _ => j.Scalar() || (s decreases to j)
  }

  ghost predicate AllBelow(s: Tree, m: Fields) { forall k | k in m :: Below(s, m[k]) }

  lemma ElementBelow(s: Tree, j: Tree)
    requires (s decreases to j)
    ensures Below(s, j)
  {
  }

  lemma FieldsBelow(s: Tree, m: Fields)
    requires s == Obj(m) || (s decreases to Obj(m))
    ensures AllBelow(s, m)
  {
    forall k | k in m ensures Below(s, m[k]) {
      var o: Tree := Obj(m);
      assert (o decreases to m[k]);
      ElementBelow(s, m[k]);
    }
  }

  lemma SplitBelow(s: Tree, m: Fields, key: Text)
    requires AllBelow(s, m)
    ensures AllBelow(s, Split(m, key))
  {
    if key in m && m[key].Arr? && HasNull(m[key].items) {
      var rest := NonNull(m[key].items);
      RestBelow(s, m[key].items);
      if |rest| == 1 && rest[0].Obj? {
        FieldsBelow(s, rest[0].fields);
      }
      assert Below(s, Arr(rest));
    }
  }

  lemma RestBelow(s: Tree, items: seq<Tree>)
    requires Below(s, Arr(items))
    ensures forall i | 0 <= i < |NonNull(items)| :: (s decreases to NonNull(items)[i])
    ensures forall i | 0 <= i < |NonNullTypes(items)| :: (s decreases to NonNullTypes(items)[i])
  {
    forall i | 0 <= i < |NonNull(items)| ensures (s decreases to NonNull(items)[i]) {
      NonNullFrom(items, i);
    }
    forall i | 0 <= i < |NonNullTypes(items)| ensures (s decreases to NonNullTypes(items)[i]) {
      NonNullTypesFrom(items, i);
    }
  }

  lemma SplitTypesBelow(s: Tree, m: Fields)
    requires AllBelow(s, m)
    ensures AllBelow(s, SplitTypes(m))
  {
    if Type in m && m[Type].Arr? && Str(NullName) in m[Type].items {
      var rest := NonNullTypes(m[Type].items);
      RestBelow(s, m[Type].items);
      if |rest| == 1 {
        ElementBelow(s, rest[0]);
      }
      assert Below(s, Arr(rest));
    }
  }

  lemma StepsBelow(m: Fields)
    ensures AllBelow(Obj(m), Steps(m))
  {
    var s: Tree := Obj(m);
    FieldsBelow(s, m);
    SplitBelow(s, m, AnyOf);
    SplitBelow(s, Split(m, AnyOf), OneOf);
    SplitTypesBelow(s, Split(Split(m, AnyOf), OneOf));
  }

  function Rewrite(s: Tree): Tree
    decreases s
  {
    match s
    case Arr(a) => Arr(seq(|a|, i requires 0 <= i < |a| => Rewrite(a[i])))
    case Obj(m) =>
      StepsBelow(m);
      var n := Steps(m);
      Obj(map k | k in n ::
        match n[k]
        case Arr(a) => assert Below(s, n[k]); Arr(seq(|a|, i requires 0 <= i < |a| => Rewrite(a[i])))
        case Obj(_) => assert Below(s, n[k]); Rewrite(n[k])
        case _ => n[k])
    case _ => s
  }

  ghost predicate Image(n: Fields, r: Fields) { r.Keys == n.Keys && forall k | k in n :: r[k] == Rewrite(n[k]) }

  lemma RewriteObj(m: Fields)
    ensures Rewrite(Obj(m)).Obj? && Image(Steps(m), Rewrite(Obj(m)).fields)
  {
  }

  // The same with one node at a time changed in place, then its children.
  method RewriteKeywords(s: Tree) returns (r: Tree)
    ensures r == Rewrite(s)
    decreases s, 3
  {
    match s
    case Arr(a) =>
      var items := RewriteItems(s, a);
      return Arr(items);
    case Obj(m) =>
      var node := new Node(m);
      node.RewriteNullable();
      node.RewritePrimitiveUnion();
      StepsBelow(m);
      node.fields := RewriteFields(s, node.fields);
      RewriteObj(m);
      return Obj(node.fields);
    case _ => return s;
  }

  method RewriteFields(ghost s: Tree, n: Fields) returns (r: Fields)
    requires AllBelow(s, n)
    ensures Image(n, r)
    decreases s, 2
  {
    var left := n.Keys;
    r := n;
    while left != {}
      invariant r.Keys == n.Keys && left <= n.Keys
      invariant forall k | k in n :: r[k] == if k in left then n[k] else Rewrite(n[k])
      decreases |left|
    {
      var key :| key in left;
      var child := RewriteChild(s, n[key]);
      r := r[key := child];
      left := left - {key};
    }
  }

  method RewriteChild(ghost s: Tree, j: Tree) returns (r: Tree)
    requires Below(s, j)
    ensures r == Rewrite(j)
    decreases s, 1
  {
    match j
    case Arr(a) =>
      var items := RewriteItems(s, a);
      return Arr(items);
    case Obj(_) =>
      r := RewriteKeywords(j);
    case _ =>
      r := j;
  }

  method RewriteItems(ghost s: Tree, a: seq<Tree>) returns (items: seq<Tree>)
    requires Below(s, Arr(a))
    ensures Arr(items) == Rewrite(Arr(a))
    decreases s, 0
  {
    items := [];
    for i := 0 to |a|
      invariant |items| == i && forall k | 0 <= k < i :: items[k] == Rewrite(a[k])
    {
      var next := RewriteKeywords(a[i]);
      items := items + [next];
    }
  }

  predicate AllScalar(items: seq<Tree>) { forall i | 0 <= i < |items| :: items[i].Scalar() }

  lemma ScalarsFixed(j: Tree)
    requires j.Scalar() || (j.Arr? && AllScalar(j.items))
    ensures Rewrite(j) == j
  {
    if j.Arr? {
      assert Rewrite(j).items == j.items;
    }
  }

  // No object in the tree is changed by its own steps.
  predicate Untouched(j: Tree)
    decreases j
  {
    match j
    case Obj(m) => Steps(m) == m && forall k | k in m :: Untouched(m[k])
    case Arr(a) => forall i | 0 <= i < |a| :: Untouched(a[i])
    case _ => true
  }

  predicate AllUntouched(items: seq<Tree>) { forall i | 0 <= i < |items| :: Untouched(items[i]) }

  lemma {:induction false} UntouchedFixed(j: Tree)
    requires Untouched(j)
    ensures Rewrite(j) == j
    decreases j
  {
    match j
    case Obj(m) =>
      RewriteObj(m);
      forall k | k in m ensures Rewrite(m[k]) == m[k] { UntouchedFixed(m[k]); }
      assert Rewrite(j).fields == m;
    case Arr(a) =>
      forall i | 0 <= i < |a| ensures Rewrite(a[i]) == a[i] { UntouchedFixed(a[i]); }
      assert Rewrite(j).items == a;
    case _ =>
  }

  // ---- What a schema accepts ----

  predicate HasType(name: Text, v: Tree) {
    match name
    case NullName => v.Null?
    case BooleanName => v.Bool?
    case IntegerName => v.Num? && v.number == v.number.Floor as real
    case NumberName => v.Num?
    case StringName => v.Str?
    case ArrayName => v.Arr?
    case ObjectName => v.Obj?
    case _ => false
  }

  predicate Named(t: Tree, v: Tree) { t.Str? && HasType(t.text, v) }

  predicate TypeHolds(m: Fields, v: Tree) {
    Type in m ==>
      match m[Type]
      case Str(_) => Named(m[Type], v)
      case Arr(types) => exists i :: 0 <= i < |types| && Named(types[i], v)
      case _ => true
  }

  predicate EnumHolds(m: Fields, v: Tree) { Enum in m && m[Enum].Arr? ==> v in m[Enum].items }

  // `nullable` adds null to what the other keywords accept.
  predicate Marked(m: Fields) { Nullable in m && m[Nullable] == Bool(true) }

  ghost predicate Accepts(s: Tree, v: Tree)
    decreases s
  {
    match s
    case Bool(b) => b
    case Obj(m) =>
      || (Marked(m) && v == Null)
      || (&& TypeHolds(m, v)
          && EnumHolds(m, v)
          && (AnyOf in m && m[AnyOf].Arr? ==> exists i :: 0 <= i < |m[AnyOf].items| && Accepts(m[AnyOf].items[i], v))
          && (Items in m && v.Arr? ==> forall i | 0 <= i < |v.items| :: Accepts(m[Items], v.items[i]))
          && (Properties in m && m[Properties].Obj? && v.Obj? ==>
                forall k | k in m[Properties].fields && k in v.fields :: Accepts(m[Properties].fields[k], v.fields[k])))
    case _ => true
  }

  ghost predicate AnyAccepts(items: seq<Tree>, v: Tree) { exists i :: 0 <= i < |items| && Accepts(items[i], v) }

  ghost predicate UnionHolds(m: Fields, v: Tree) { AnyOf in m && m[AnyOf].Arr? ==> AnyAccepts(m[AnyOf].items, v) }

  ghost predicate ItemsHold(m: Fields, v: Tree) {
    Items in m && v.Arr? ==> forall i | 0 <= i < |v.items| :: Accepts(m[Items], v.items[i])
  }

  ghost predicate PropertiesHold(m: Fields, v: Tree) {
    Properties in m && m[Properties].Obj? && v.Obj? ==>
      forall k | k in m[Properties].fields && k in v.fields :: Accepts(m[Properties].fields[k], v.fields[k])
  }

  ghost predicate Holds(m: Fields, v: Tree) {
    TypeHolds(m, v) && EnumHolds(m, v) && UnionHolds(m, v) && ItemsHold(m, v) && PropertiesHold(m, v)
  }

  lemma AcceptsObj(m: Fields, v: Tree)
    ensures Accepts(Obj(m), v) <==> ((Marked(m) && v == Null) || Holds(m, v))
  {
  }

  // ---- The schemas considered ----

  predicate TypeShape(t: Tree) { t.Str? || (t.Arr? && forall i | 0 <= i < |t.items| :: t.items[i].Str?) }

  // Well-formed 3.1 schemas over type, enum, anyOf, items and properties, with
  // any annotations beside them.
  predicate Schema(s: Tree)
    decreases s
  {
    match s
    case Bool(_) => true
    case Obj(m) =>
      && Nullable !in m && OneOf !in m
      && (Type in m ==> TypeShape(m[Type]))
      && (Enum in m ==> m[Enum].Arr? && AllUntouched(m[Enum].items))
      && (AnyOf in m ==> m[AnyOf].Arr? && forall i | 0 <= i < |m[AnyOf].items| :: Schema(m[AnyOf].items[i]))
      && (Items in m ==> Schema(m[Items]))
      && (Properties in m ==> m[Properties].Obj? && forall k | k in m[Properties].fields :: Schema(m[Properties].fields[k]))
    case _ => false
  }

  predicate AllSchemas(items: seq<Tree>) { forall i | 0 <= i < |items| :: Schema(items[i]) }

  predicate SchemaMap(p: Fields) { forall k | k in p :: Schema(p[k]) }

  // The same for a node that may have been marked nullable already.
  predicate Shape(m: Fields) {
    && OneOf !in m
    && (Type in m ==> TypeShape(m[Type]))
    && (Enum in m ==> m[Enum].Arr? && AllUntouched(m[Enum].items))
    && (AnyOf in m ==> m[AnyOf].Arr? && AllSchemas(m[AnyOf].items))
    && (Items in m ==> Schema(m[Items]))
    && (Properties in m ==> m[Properties].Obj? && SchemaMap(m[Properties].fields))
  }

  lemma SchemaObj(m: Fields)
    requires Schema(Obj(m))
    ensures Nullable !in m && Shape(m)
  {
  }

  lemma {:induction false} NonNullKeeps(items: seq<Tree>, i: nat)
    requires i < |items| && !IsNullSchema(items[i])
    ensures items[i] in NonNull(items)
  {
    var n := |items| - 1;
    if i < n {
      NonNullKeeps(items[..n], i);
      assert items[..n][i] == items[i];
    }
  }

  lemma RestSchemas(items: seq<Tree>)
    requires AllSchemas(items)
    ensures AllSchemas(NonNull(items))
  {
    forall i | 0 <= i < |NonNull(items)| ensures Schema(NonNull(items)[i]) {
      NonNullFrom(items, i);
    }
  }

  // ---- Splitting null out of a union ----

  lemma SplitShape(m: Fields)
    requires Shape(m)
    ensures Shape(Split(m, AnyOf))
  {
    if AnyOf in m && HasNull(m[AnyOf].items) {
      var rest := NonNull(m[AnyOf].items);
      RestSchemas(m[AnyOf].items);
      if |rest| == 1 && rest[0].Obj? {
        assert Schema(rest[0]);
        SchemaObj(rest[0].fields);
      }
    }
  }

  lemma RestAccepts(items: seq<Tree>, v: Tree)
    requires AllSchemas(items) && v != Null
    ensures AnyAccepts(items, v) <==> AnyAccepts(NonNull(items), v)
  {
    var rest := NonNull(items);
    if AnyAccepts(items, v) {
      var i :| 0 <= i < |items| && Accepts(items[i], v);
      if IsNullSchema(items[i]) {
        AcceptsObj(items[i].fields, v);
        assert false;
      }
      NonNullKeeps(items, i);
      var j :| 0 <= j < |rest| && rest[j] == items[i];
      assert Accepts(rest[j], v);
    }
    if AnyAccepts(rest, v) {
      var j :| 0 <= j < |rest| && Accepts(rest[j], v);
      NonNullFrom(items, j);
      var i :| 0 <= i < |items| && items[i] == rest[j];
      assert Accepts(items[i], v);
    }
  }

  lemma MergedHolds(m: Fields, branch: Fields, v: Tree)
    requires Holds(m, v) && Holds(branch, v)
    ensures Holds((m - {AnyOf}) + branch, v)
  {
  }

  predicate Splits(m: Fields) { AnyOf in m && m[AnyOf].Arr? && HasNull(m[AnyOf].items) }

  predicate Merges(m: Fields) { Splits(m) && |NonNull(m[AnyOf].items)| == 1 && NonNull(m[AnyOf].items)[0].Obj? }

  lemma MergedBranch(m: Fields)
    requires Shape(m) && Merges(m)
    ensures var branch := NonNull(m[AnyOf].items)[0].fields;
      Schema(Obj(branch)) && Nullable !in branch && Split(m, AnyOf) == (m[Nullable := Bool(true)] - {AnyOf}) + branch
  {
    RestSchemas(m[AnyOf].items);
    assert Schema(NonNull(m[AnyOf].items)[0]);
    SchemaObj(NonNull(m[AnyOf].items)[0].fields);
  }

  lemma SplitMarks(m: Fields)
    requires Shape(m) && Splits(m)
    ensures Marked(Split(m, AnyOf))
  {
    if Merges(m) {
      MergedBranch(m);
    }
  }

  lemma SplitHolds(m: Fields, v: Tree)
    requires Shape(m) && Splits(m) && Holds(m, v) && v != Null
    ensures Holds(Split(m, AnyOf), v)
  {
    var rest := NonNull(m[AnyOf].items);
    RestAccepts(m[AnyOf].items, v);
    if Merges(m) {
      MergedBranch(m);
      AcceptsObj(rest[0].fields, v);
      MergedHolds(m[Nullable := Bool(true)], rest[0].fields, v);
    } else if |rest| != 1 {
      assert UnionHolds(m[Nullable := Bool(true)][AnyOf := Arr(rest)], v);
    }
  }

  lemma SplitWidens(m: Fields, v: Tree)
    requires Shape(m) && Nullable !in m && Accepts(Obj(m), v)
    ensures Accepts(Obj(Split(m, AnyOf)), v)
  {
    AcceptsObj(m, v);
    AcceptsObj(Split(m, AnyOf), v);
    if Splits(m) {
      SplitMarks(m);
      if v != Null {
        SplitHolds(m, v);
      }
    }
  }

  // ---- Splitting null out of a type list ----

  lemma {:induction false} NonNullTypesKeeps(types: seq<Tree>, i: nat)
    requires i < |types| && types[i] != Str(NullName)
    ensures types[i] in NonNullTypes(types)
  {
    var n := |types| - 1;
    if i < n {
      NonNullTypesKeeps(types[..n], i);
      assert types[..n][i] == types[i];
    }
  }

  lemma SplitTypesShape(m: Fields)
    requires Shape(m)
    ensures Shape(SplitTypes(m))
  {
    if Type in m && m[Type].Arr? {
      forall i | 0 <= i < |NonNullTypes(m[Type].items)| ensures NonNullTypes(m[Type].items)[i].Str? {
        NonNullTypesFrom(m[Type].items, i);
      }
    }
  }

  predicate AnyNamed(types: seq<Tree>, v: Tree) { exists i :: 0 <= i < |types| && Named(types[i], v) }

  lemma RestNamed(types: seq<Tree>, v: Tree)
    requires v != Null
    ensures AnyNamed(types, v) <==> AnyNamed(NonNullTypes(types), v)
  {
    var rest := NonNullTypes(types);
    if AnyNamed(types, v) {
      var i :| 0 <= i < |types| && Named(types[i], v);
      NonNullTypesKeeps(types, i);
      var j :| 0 <= j < |rest| && rest[j] == types[i];
      assert Named(rest[j], v);
    }
    if AnyNamed(rest, v) {
      var j :| 0 <= j < |rest| && Named(rest[j], v);
      NonNullTypesFrom(types, j);
      var i :| 0 <= i < |types| && types[i] == rest[j];
      assert Named(types[i], v);
    }
  }

  lemma SplitTypesHolds(m: Fields, v: Tree)
    requires Shape(m) && v != Null
    requires Type in m && m[Type].Arr? && Str(NullName) in m[Type].items
    ensures TypeHolds(m, v) ==> TypeHolds(SplitTypes(m), v)
    ensures NonNullTypes(m[Type].items) != [] ==> (TypeHolds(SplitTypes(m), v) <==> TypeHolds(m, v))
  {
    var types := m[Type].items;
    var rest := NonNullTypes(types);
    assert TypeHolds(m, v) <==> AnyNamed(types, v);
    RestNamed(types, v);
    SplitTypesShape(m);
    if |rest| == 1 {
      NonNullTypesFrom(types, 0);
      assert AnyNamed(rest, v) <==> Named(rest[0], v);
    } else if |rest| > 1 {
      assert TypeHolds(SplitTypes(m), v) <==> AnyNamed(rest, v);
    }
  }

  lemma SplitTypesWidens(m: Fields, v: Tree)
    requires Shape(m) && Accepts(Obj(m), v)
    ensures Accepts(Obj(SplitTypes(m)), v)
  {
    AcceptsObj(m, v);
    AcceptsObj(SplitTypes(m), v);
    if v != Null && Type in m && m[Type].Arr? && Str(NullName) in m[Type].items {
      SplitTypesHolds(m, v);
    }
  }

  // ---- Collapsing a union of one primitive type ----

  lemma CollapseShape(m: Fields)
    requires Shape(m)
    ensures Shape(Collapse(m, AnyOf))
  {
  }

  lemma CollapseWidens(m: Fields, v: Tree)
    requires Shape(m) && Accepts(Obj(m), v)
    ensures Accepts(Obj(Collapse(m, AnyOf)), v)
  {
    AcceptsObj(m, v);
    AcceptsObj(Collapse(m, AnyOf), v);
    if AnyOf in m && SamePrimitive(m[AnyOf].items) && !(Marked(m) && v == Null) {
      var items := m[AnyOf].items;
      var i :| 0 <= i < |items| && Accepts(items[i], v);
      assert TypedAs(items[i], items[0].fields[Type]) && Schema(items[i]);
      SchemaObj(items[i].fields);
      AcceptsObj(items[i].fields, v);
    }
  }

  // ---- One node ----

  lemma StepsAre(m: Fields)
    requires Shape(m)
    ensures Shape(Steps(m))
    ensures Steps(m) == Collapse(SplitTypes(Split(m, AnyOf)), AnyOf)
  {
    SplitShape(m);
    SplitTypesShape(Split(m, AnyOf));
    CollapseShape(SplitTypes(Split(m, AnyOf)));
  }

  lemma StepsWiden(m: Fields, v: Tree)
    requires Shape(m) && Nullable !in m && Accepts(Obj(m), v)
    ensures Accepts(Obj(Steps(m)), v)
  {
    StepsAre(m);
    SplitShape(m);
    SplitTypesShape(Split(m, AnyOf));
    SplitWidens(m, v);
    SplitTypesWidens(Split(m, AnyOf), v);
    CollapseWidens(SplitTypes(Split(m, AnyOf)), v);
  }

  // ---- The whole tree ----

  lemma PropertiesRewrite(p: Fields)
    requires SchemaMap(p)
    ensures Rewrite(Obj(p)).Obj? && Image(p, Rewrite(Obj(p)).fields)
  {
    assert Type in p ==> Schema(p[Type]);
    assert AnyOf in p ==> Schema(p[AnyOf]);
    assert OneOf in p ==> Schema(p[OneOf]);
    RewriteObj(p);
  }

  lemma ImageTypeEnum(n: Fields, r: Fields, v: Tree)
    requires Shape(n) && Image(n, r)
    ensures TypeHolds(r, v) <==> TypeHolds(n, v)
    ensures EnumHolds(r, v) <==> EnumHolds(n, v)
    ensures Marked(r) <==> Marked(n)
  {
    if Type in n { ScalarsFixed(n[Type]); }
    if Enum in n { UntouchedFixed(n[Enum]); }
  }

  // A node's fields after its own steps, below the tree s, and their image.
  ghost predicate Rewritten(s: Tree, n: Fields, r: Fields) { Shape(n) && AllBelow(s, n) && Image(n, r) }

  lemma RewriteNode(m: Fields)
    requires Schema(Obj(m))
    ensures Rewrite(Obj(m)).Obj? && Rewritten(Obj(m), Steps(m), Rewrite(Obj(m)).fields)
  {
    SchemaObj(m);
    StepsAre(m);
    StepsBelow(m);
    RewriteObj(m);
  }

  lemma {:induction false} UnionWidens(s: Tree, n: Fields, r: Fields, v: Tree)
    requires Rewritten(s, n, r) && UnionHolds(n, v)
    ensures UnionHolds(r, v)
    decreases s, 0
  {
    if AnyOf in n {
      assert Below(s, n[AnyOf]);
      var i :| 0 <= i < |n[AnyOf].items| && Accepts(n[AnyOf].items[i], v);
      RewriteWidens(n[AnyOf].items[i], v);
      assert Accepts(r[AnyOf].items[i], v);
    }
  }

  lemma {:induction false} ItemsWiden(s: Tree, n: Fields, r: Fields, v: Tree)
    requires Rewritten(s, n, r) && ItemsHold(n, v)
    ensures ItemsHold(r, v)
    decreases s, 0
  {
    if Items in n && v.Arr? && n[Items].Obj? {
      assert Below(s, n[Items]);
      forall i | 0 <= i < |v.items| ensures Accepts(r[Items], v.items[i]) {
        RewriteWidens(n[Items], v.items[i]);
      }
    }
  }

  lemma {:induction false} PropertiesWiden(s: Tree, n: Fields, r: Fields, v: Tree)
    requires Rewritten(s, n, r) && PropertiesHold(n, v)
    ensures PropertiesHold(r, v)
    decreases s, 0
  {
    if Properties in n && v.Obj? {
      var p := n[Properties].fields;
      PropertiesRewrite(p);
      assert Below(s, n[Properties]);
      forall k | k in p && k in v.fields ensures Accepts(r[Properties].fields[k], v.fields[k]) {
        RewriteWidens(p[k], v.fields[k]);
      }
    }
  }

  // Every value accepted before the rewriting is accepted after it.
  lemma {:induction false} RewriteWidens(s: Tree, v: Tree)
    requires Schema(s) && Accepts(s, v)
    ensures Accepts(Rewrite(s), v)
    decreases s, 1
  {
    if s.Obj? {
      var n := Steps(s.fields);
      RewriteNode(s.fields);
      var r := Rewrite(s).fields;
      SchemaObj(s.fields);
      StepsWiden(s.fields, v);
      ImageTypeEnum(n, r, v);
      AcceptsObj(n, v);
      AcceptsObj(r, v);
      if Holds(n, v) {
        UnionWidens(s, n, r, v);
        ItemsWiden(s, n, r, v);
        PropertiesWiden(s, n, r, v);
      }
    }
  }

  // ---- When nothing is widened ----

  // No keyword constrains values beside the union.
  predicate Bare(m: Fields) { Type !in m && Enum !in m && Items !in m && Properties !in m }

  // A branch whose type alone decides about null and the primitive values.
  predicate Pure(j: Tree) { j.Obj? && Enum !in j.fields && AnyOf !in j.fields }

  predicate TypesExact(m: Fields) {
    Type in m && m[Type].Arr? && Str(NullName) in m[Type].items ==>
      NonNullTypes(m[Type].items) != [] && Enum !in m && AnyOf !in m
  }

  predicate SplitExact(m: Fields) {
    Splits(m) ==> Bare(m) && forall i | 0 <= i < |m[AnyOf].items| && IsNullSchema(m[AnyOf].items[i]) :: Pure(m[AnyOf].items[i])
  }

  predicate UnionExact(m: Fields, items: seq<Tree>) {
    SamePrimitive(items) ==> Bare(m) && forall i | 0 <= i < |items| :: Pure(items[i])
  }

  predicate ExactNode(m: Fields) {
    && TypesExact(m)
    && SplitExact(m)
    && (AnyOf in m && m[AnyOf].Arr? && !Merges(m) ==> UnionExact(m, NonNull(m[AnyOf].items)))
  }

  predicate Exact(s: Tree)
    decreases s
  {
    s.Obj? ==>
      var m := s.fields;
      && ExactNode(m)
      && (AnyOf in m && m[AnyOf].Arr? ==> forall i | 0 <= i < |m[AnyOf].items| :: Exact(m[AnyOf].items[i]))
      && (Items in m ==> Exact(m[Items]))
      && (Properties in m && m[Properties].Obj? ==> forall k | k in m[Properties].fields :: Exact(m[Properties].fields[k]))
  }

  predicate AllExact(items: seq<Tree>) { forall i | 0 <= i < |items| :: Exact(items[i]) }

  predicate ExactMap(p: Fields) { forall k | k in p :: Exact(p[k]) }

  predicate ExactChildren(m: Fields) {
    && (AnyOf in m && m[AnyOf].Arr? ==> AllExact(m[AnyOf].items))
    && (Items in m ==> Exact(m[Items]))
    && (Properties in m && m[Properties].Obj? ==> ExactMap(m[Properties].fields))
  }

  lemma ExactObj(m: Fields)
    requires Exact(Obj(m))
    ensures ExactNode(m) && ExactChildren(m)
  {
  }

  lemma RestExact(items: seq<Tree>)
    requires AllExact(items)
    ensures AllExact(NonNull(items))
  {
    forall i | 0 <= i < |NonNull(items)| ensures Exact(NonNull(items)[i]) {
      NonNullFrom(items, i);
    }
  }

  lemma {:induction false} NoNullIsAll(items: seq<Tree>)
    requires !HasNull(items)
    ensures NonNull(items) == items
  {
    if items != [] {
      var n := |items| - 1;
      assert !IsNullSchema(items[n]);
      assert forall i | 0 <= i < n :: items[..n][i] == items[i];
      NoNullIsAll(items[..n]);
      assert items == items[..n] + [items[n]];
    }
  }

  // A union of one primitive type has no null branch.
  lemma UnionAsGiven(m: Fields)
    requires ExactNode(m) && AnyOf in m && m[AnyOf].Arr?
    ensures UnionExact(m, m[AnyOf].items)
  {
    var items := m[AnyOf].items;
    if SamePrimitive(items) {
      assert forall i | 0 <= i < |items| :: TypedAs(items[i], items[0].fields[Type]);
      assert !HasNull(items);
      NoNullIsAll(items);
    }
  }

  lemma SplitKeepsExact(m: Fields)
    requires Shape(m) && Nullable !in m && ExactNode(m) && ExactChildren(m)
    ensures var n := Split(m, AnyOf);
      ExactChildren(n) && TypesExact(n) && (AnyOf in n && n[AnyOf].Arr? ==> UnionExact(n, n[AnyOf].items))
  {
    if Splits(m) {
      RestExact(m[AnyOf].items);
    }
    if Merges(m) {
      var branch := NonNull(m[AnyOf].items)[0].fields;
      MergedBranch(m);
      assert Exact(NonNull(m[AnyOf].items)[0]);
      ExactObj(branch);
      if AnyOf in branch && branch[AnyOf].Arr? {
        UnionAsGiven(branch);
      }
    } else if AnyOf in m {
      if !Splits(m) {
        NoNullIsAll(m[AnyOf].items);
      } else if |NonNull(m[AnyOf].items)| == 1 {
        SingleBoolean(m);
      }
    }
  }

  // A lone branch that is not an object leaves the union as it was.
  lemma SingleBoolean(m: Fields)
    requires Splits(m) && !Merges(m) && |NonNull(m[AnyOf].items)| == 1
    ensures !SamePrimitive(m[AnyOf].items)
  {
  }

  // ---- The steps accept no more, node by node ----

  lemma NullBranchAccepts(m: Fields)
    requires Shape(m) && Splits(m) && SplitExact(m)
    ensures Accepts(Obj(m), Null)
  {
    var items := m[AnyOf].items;
    var i :| 0 <= i < |items| && IsNullSchema(items[i]);
    AcceptsObj(items[i].fields, Null);
    assert Accepts(items[i], Null);
    AcceptsObj(m, Null);
  }

  lemma SplitNarrows(m: Fields, v: Tree)
    requires Shape(m) && Nullable !in m && SplitExact(m)
    requires Accepts(Obj(Split(m, AnyOf)), v)
    ensures Accepts(Obj(m), v)
  {
    if Splits(m) {
      if v == Null {
        NullBranchAccepts(m);
      } else {
        var rest := NonNull(m[AnyOf].items);
        AcceptsObj(m, v);
        AcceptsObj(Split(m, AnyOf), v);
        RestAccepts(m[AnyOf].items, v);
        if Merges(m) {
          MergedBranch(m);
          AcceptsObj(rest[0].fields, v);
          assert Accepts(rest[0], v);
        }
      }
    }
  }

  lemma SplitTypesNarrows(m: Fields, v: Tree)
    requires Shape(m) && TypesExact(m)
    requires Accepts(Obj(SplitTypes(m)), v)
    ensures Accepts(Obj(m), v)
  {
    AcceptsObj(m, v);
    AcceptsObj(SplitTypes(m), v);
    if Type in m && m[Type].Arr? && Str(NullName) in m[Type].items {
      if v == Null {
        var i :| 0 <= i < |m[Type].items| && m[Type].items[i] == Str(NullName);
        assert Named(m[Type].items[i], v);
      } else {
        SplitTypesHolds(m, v);
      }
    }
  }

  lemma CollapseNarrows(m: Fields, v: Tree)
    requires Shape(m) && (AnyOf in m && m[AnyOf].Arr? ==> UnionExact(m, m[AnyOf].items))
    requires Accepts(Obj(Collapse(m, AnyOf)), v)
    ensures Accepts(Obj(m), v)
  {
    AcceptsObj(m, v);
    AcceptsObj(Collapse(m, AnyOf), v);
    if AnyOf in m && SamePrimitive(m[AnyOf].items) && !(Marked(m) && v == Null) {
      var items := m[AnyOf].items;
      assert Pure(items[0]);
      AcceptsObj(items[0].fields, v);
      assert Accepts(items[0], v);
    }
  }

  lemma StepsNarrow(m: Fields, v: Tree)
    requires Shape(m) && Nullable !in m && ExactNode(m) && ExactChildren(m)
    requires Accepts(Obj(Steps(m)), v)
    ensures Accepts(Obj(m), v)
  {
    StepsAre(m);
    SplitShape(m);
    SplitTypesShape(Split(m, AnyOf));
    SplitKeepsExact(m);
    CollapseNarrows(SplitTypes(Split(m, AnyOf)), v);
    SplitTypesNarrows(Split(m, AnyOf), v);
    SplitNarrows(m, v);
  }

  lemma StepsKeepExact(m: Fields)
    requires Shape(m) && Nullable !in m && ExactNode(m) && ExactChildren(m)
    ensures ExactChildren(Steps(m))
  {
    StepsAre(m);
    SplitKeepsExact(m);
  }

  // ---- The whole tree accepts exactly the same ----

  lemma {:induction false} UnionNarrows(s: Tree, n: Fields, r: Fields, v: Tree)
    requires Rewritten(s, n, r) && ExactChildren(n) && UnionHolds(r, v)
    ensures UnionHolds(n, v)
    decreases s, 0
  {
    if AnyOf in n {
      assert Below(s, n[AnyOf]);
      var i :| 0 <= i < |r[AnyOf].items| && Accepts(r[AnyOf].items[i], v);
      RewriteNarrows(n[AnyOf].items[i], v);
      assert Accepts(n[AnyOf].items[i], v);
    }
  }

  lemma {:induction false} ItemsNarrow(s: Tree, n: Fields, r: Fields, v: Tree)
    requires Rewritten(s, n, r) && ExactChildren(n) && ItemsHold(r, v)
    ensures ItemsHold(n, v)
    decreases s, 0
  {
    if Items in n && v.Arr? && n[Items].Obj? {
      assert Below(s, n[Items]);
      forall i | 0 <= i < |v.items| ensures Accepts(n[Items], v.items[i]) {
        RewriteNarrows(n[Items], v.items[i]);
      }
    }
  }

  lemma {:induction false} PropertiesNarrow(s: Tree, n: Fields, r: Fields, v: Tree)
    requires Rewritten(s, n, r) && ExactChildren(n) && PropertiesHold(r, v)
    ensures PropertiesHold(n, v)
    decreases s, 0
  {
    if Properties in n && v.Obj? {
      var p := n[Properties].fields;
      PropertiesRewrite(p);
      assert Below(s, n[Properties]);
      forall k | k in p && k in v.fields ensures Accepts(p[k], v.fields[k]) {
        assert Accepts(r[Properties].fields[k], v.fields[k]);
        RewriteNarrows(p[k], v.fields[k]);
      }
    }
  }

  lemma {:induction false} RewriteNarrows(s: Tree, v: Tree)
    requires Schema(s) && Exact(s) && Accepts(Rewrite(s), v)
    ensures Accepts(s, v)
    decreases s, 1
  {
    if s.Obj? {
      var n := Steps(s.fields);
      RewriteNode(s.fields);
      var r := Rewrite(s).fields;
      SchemaObj(s.fields);
      ExactObj(s.fields);
      StepsKeepExact(s.fields);
      ImageTypeEnum(n, r, v);
      AcceptsObj(r, v);
      if Holds(r, v) {
        UnionNarrows(s, n, r, v);
        ItemsNarrow(s, n, r, v);
        PropertiesNarrow(s, n, r, v);
      }
      AcceptsObj(n, v);
      StepsNarrow(s.fields, v);
    }
  }

  lemma RewriteExact(s: Tree, v: Tree)
    requires Schema(s) && Exact(s)
    ensures Accepts(Rewrite(s), v) <==> Accepts(s, v)
  {
    if Accepts(s, v) {
      RewriteWidens(s, v);
    } else if Accepts(Rewrite(s), v) {
      RewriteNarrows(s, v);
    }
  }

  // A type list that admits null, with nothing beside it that could refuse
  // null, is split exactly if and only if it names another type.
  lemma TypeListExactIff(m: Fields)
    requires Shape(m) && Nullable !in m && Type in m && m[Type].Arr? && Str(NullName) in m[Type].items
    requires Enum !in m && AnyOf !in m
    ensures (forall v :: Accepts(Obj(NullableStep(m)), v) <==> Accepts(Obj(m), v)) <==> NonNullTypes(m[Type].items) != []
  {
    assert NullableStep(m) == SplitTypes(m);
    if NonNullTypes(m[Type].items) != [] {
      forall v ensures Accepts(Obj(NullableStep(m)), v) <==> Accepts(Obj(m), v) {
        if Accepts(Obj(m), v) {
          SplitTypesWidens(m, v);
        } else if Accepts(Obj(SplitTypes(m)), v) {
          SplitTypesNarrows(m, v);
        }
      }
    } else {
      var v: Tree := Str(NullName);
      AcceptsObj(m, v);
      AcceptsObj(SplitTypes(m), v);
      RestNamed(m[Type].items, v);
      assert AnyNamed(m[Type].items, v) <==> TypeHolds(m, v);
    }
  }
}
