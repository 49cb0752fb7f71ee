// Shared vocabulary: optional values, duplicate-free sequences and the few
// facts about finite sets that the component models rely on.
module Common {
  datatype Option<+T> = None | Some(value: T)

  ghost predicate Distinct<T>(s: seq<T>) {
    forall i, j :: 0 <= i < j < |s| ==> s[i] != s[j]
  }

  ghost function Elements<T>(s: seq<T>): set<T> {
    set x | x in s
  }

  // Growing a sequence at either end, seen as a set.
  lemma ElementsGrow<T>(s: seq<T>, x: T)
    ensures Elements(s + [x]) == Elements(s) + {x}
    ensures Elements([x] + s) == Elements(s) + {x}
    ensures Distinct(s) && x !in s ==> Distinct(s + [x]) && Distinct([x] + s)
  {
    forall y ensures y in Elements(s + [x]) <==> y in Elements(s) + {x} {
      assert y in s + [x] <==> y in s || y == x;
    }
    forall y ensures y in Elements([x] + s) <==> y in Elements(s) + {x} {
      assert y in [x] + s <==> y in s || y == x;
    }
  }

  lemma PrefixGrow<T>(s: seq<T>, i: nat)
    requires i < |s|
    ensures s[..i + 1] == s[..i] + [s[i]]
    ensures Elements(s[..i + 1]) == Elements(s[..i]) + {s[i]}
    ensures Distinct(s[..i]) && s[i] !in Elements(s[..i]) ==> Distinct(s[..i + 1])
  {
    assert s[..i + 1] == s[..i] + [s[i]];
    ElementsGrow(s[..i], s[i]);
  }

  // What a list brings that was not seen before, each once, in list order.
  function NewIn<T(==)>(list: seq<T>, seen: set<T>): seq<T> {
    if list == [] then []
    else
      var before, last := list[..|list| - 1], list[|list| - 1];
      NewIn(before, seen) + if last in seen || last in before then [] else [last]
  }

  lemma NewInGrow<T>(list: seq<T>, i: nat, seen: set<T>)
    requires i < |list|
    ensures NewIn(list[..i + 1], seen) == NewIn(list[..i], seen) + if list[i] in seen || list[i] in list[..i] then [] else [list[i]]
  {
    assert list[..i + 1][..i] == list[..i];
  }

  lemma {:induction false} NewInElements<T>(list: seq<T>, seen: set<T>)
    ensures forall x :: x in NewIn(list, seen) <==> x in list && x !in seen
    ensures Distinct(NewIn(list, seen))
  {
    if list != [] {
      var n := |list| - 1;
      NewInElements(list[..n], seen);
      assert forall x :: x in list <==> x in list[..n] || x == list[n];
      if list[n] !in seen && list[n] !in list[..n] {
        ElementsGrow(NewIn(list[..n], seen), list[n]);
      }
    }
  }

  // Identifiers never run out.
  lemma {:induction false} FreshNat(s: set<nat>) returns (n: nat)
    ensures n !in s && forall x :: x in s ==> x < n
  {
    if s == {} {
      n := 0;
    } else {
      var y :| y in s;
      var m := FreshNat(s - {y});
      assert s == (s - {y}) + {y};
      n := if y < m then m else y + 1;
    }
  }

  lemma SubsetCardinality<T>(a: set<T>, b: set<T>)
    requires a <= b
    ensures |a| <= |b|
    ensures |a| == |b| ==> a == b
  {
    assert b == a + (b - a);
    if |a| == |b| { assert |b - a| == 0; }
  }

  // A duplicate-free sequence has as many entries as elements.
  lemma {:induction false} DistinctCardinality<T>(s: seq<T>)
    requires Distinct(s)
    ensures |Elements(s)| == |s|
  {
    if s == [] {
      assert Elements(s) == {};
    } else {
      var n := |s| - 1;
      DistinctCardinality(s[..n]);
      assert Elements(s) == Elements(s[..n]) + {s[n]};
    }
  }

  lemma DistinctBound<T>(s: seq<T>, u: set<T>)
    requires Distinct(s) && Elements(s) <= u
    ensures |s| <= |u|
    ensures |s| == |u| ==> Elements(s) == u
  {
    DistinctCardinality(s);
    SubsetCardinality(Elements(s), u);
  }

  lemma MultisetMiddle<T>(a: seq<T>, x: seq<T>, b: seq<T>)
    ensures multiset(a + (x + b)) == multiset(a + b) + multiset(x)
  {
  }

  // Taking out the element at k.
  function Without<T>(s: seq<T>, k: nat): seq<T>
    requires k < |s|
  {
    s[..k] + s[k + 1..]
  }

  lemma MultisetWithout<T>(s: seq<T>, k: nat)
    requires k < |s|
    ensures s == s[..k] + ([s[k]] + s[k + 1..])
    ensures multiset(s) == multiset(Without(s, k)) + multiset{s[k]}
    ensures multiset(Without(s, k)) == multiset(s) - multiset{s[k]}
  {
    assert s == s[..k] + ([s[k]] + s[k + 1..]);
    MultisetMiddle(s[..k], [s[k]], s[k + 1..]);
  }
}
