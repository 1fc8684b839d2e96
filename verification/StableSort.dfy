/** Sorting as go-cmp's SortSlices does it: stable, by a string key, largest first. The
    sorted forms of two lists are equal exactly when, key by key, the lists hold the same
    elements in the same order. */
module StableSort {

  /** Go's `a > b` on strings. */
  predicate Above(a: string, b: string)
    decreases |a|
  {
    if a == "" then false
    else if b == "" then true
    else if a[0] != b[0] then a[0] > b[0]
    else Above(a[1..], b[1..])
  }

  lemma {:induction false} AboveTotal(a: string, b: string)
    ensures a == b || Above(a, b) || Above(b, a)
    ensures !(Above(a, b) && Above(b, a))
    ensures !Above(a, a)
    decreases |a|
  {
    if a != "" {
      AboveTotal(a[1..], if b != "" then b[1..] else "");
      if b != "" && a[0] == b[0] {
        if a[1..] == b[1..] {
          assert a == [a[0]] + a[1..] && b == [b[0]] + b[1..];
        }
      }
    }
  }

  lemma {:induction false} AboveTransitive(a: string, b: string, c: string)
    requires !Above(b, a) && !Above(c, b)
    ensures !Above(c, a)
    decreases |a|
  {
    if a != "" && b != "" && c != "" && a[0] == b[0] == c[0] {
      AboveTransitive(a[1..], b[1..], c[1..]);
    }
  }

  function Insert<T>(key: T -> string, x: T, xs: seq<T>): seq<T> {
    if xs == [] || !Above(key(xs[0]), key(x)) then [x] + xs else [xs[0]] + Insert(key, x, xs[1..])
  }

  function Sort<T>(key: T -> string, xs: seq<T>): seq<T> {
    if xs == [] then [] else Insert(key, xs[0], Sort(key, xs[1..]))
  }

  /** The elements with key `r`, in order. */
  function Having<T>(key: T -> string, r: string, xs: seq<T>): seq<T> {
    if xs == [] then []
    else (if key(xs[0]) == r then [xs[0]] else []) + Having(key, r, xs[1..])
  }

  predicate Descending<T>(key: T -> string, xs: seq<T>) {
    forall i, j :: 0 <= i < j < |xs| ==> !Above(key(xs[j]), key(xs[i]))
  }

  // ---- the sort is a stable sort ----

  lemma {:induction false} InsertDescends<T>(key: T -> string, x: T, xs: seq<T>)
    requires Descending(key, xs)
    ensures Descending(key, Insert(key, x, xs))
    ensures forall y :: y in Insert(key, x, xs) ==> y == x || y in xs
  {
    var r := Insert(key, x, xs);
    if xs == [] || !Above(key(xs[0]), key(x)) {
      forall j | 0 < j < |r|
        ensures !Above(key(r[j]), key(x))
      {
        AboveTotal(key(xs[0]), key(xs[0]));
        AboveTransitive(key(x), key(xs[0]), key(xs[j - 1]));
      }
    } else {
      var t := Insert(key, x, xs[1..]);
      InsertDescends(key, x, xs[1..]);
      forall j | 0 < j < |r|
        ensures !Above(key(r[j]), key(xs[0]))
      {
        assert r[j] == t[j - 1] && t[j - 1] in t;
        AboveTotal(key(x), key(xs[0]));
      }
    }
  }

  lemma {:induction false} SortDescends<T>(key: T -> string, xs: seq<T>)
    ensures Descending(key, Sort(key, xs))
  {
    if xs != [] {
      SortDescends(key, xs[1..]);
      InsertDescends(key, xs[0], Sort(key, xs[1..]));
    }
  }

  lemma {:induction false} InsertGroups<T>(key: T -> string, x: T, xs: seq<T>, r: string)
    ensures Having(key, r, Insert(key, x, xs)) == (if key(x) == r then [x] else []) + Having(key, r, xs)
  {
    if xs == [] || !Above(key(xs[0]), key(x)) {
      assert ([x] + xs)[1..] == xs;
    } else {
      var rest := Insert(key, x, xs[1..]);
      assert ([xs[0]] + rest)[1..] == rest;
      InsertGroups(key, x, xs[1..], r);
      AboveTotal(key(xs[0]), key(x));
      if key(xs[0]) == r {
        assert Having(key, r, rest) == Having(key, r, xs[1..]);
      } else {
        assert Having(key, r, [xs[0]] + rest) == Having(key, r, rest);
        assert Having(key, r, xs) == Having(key, r, xs[1..]);
      }
    }
  }

  /** Stability: the elements sharing a key keep their order. */
  lemma {:induction false} SortGroups<T>(key: T -> string, xs: seq<T>, r: string)
    ensures Having(key, r, Sort(key, xs)) == Having(key, r, xs)
  {
    if xs != [] {
      SortGroups(key, xs[1..], r);
      InsertGroups(key, xs[0], Sort(key, xs[1..]), r);
    }
  }

  // ---- a sorted list is determined by its groups ----

  ghost predicate SameGroups<T>(key: T -> string, a: seq<T>, b: seq<T>) {
    forall r :: Having(key, r, a) == Having(key, r, b)
  }

  lemma {:induction false} HavingMember<T>(key: T -> string, r: string, xs: seq<T>)
    ensures Having(key, r, xs) != [] <==> exists i :: 0 <= i < |xs| && key(xs[i]) == r
  {
    if xs != [] {
      HavingMember(key, r, xs[1..]);
      if exists i :: 0 <= i < |xs| && key(xs[i]) == r {
        var i :| 0 <= i < |xs| && key(xs[i]) == r;
        assert i > 0 ==> key(xs[1..][i - 1]) == r;
      }
      if exists i :: 0 <= i < |xs[1..]| && key(xs[1..][i]) == r {
        var i :| 0 <= i < |xs[1..]| && key(xs[1..][i]) == r;
        assert key(xs[i + 1]) == r;
      }
    }
  }

  /** The head of a sorted list has the largest key of any list with the same groups. */
  lemma HeadDominates<T>(key: T -> string, a: seq<T>, b: seq<T>)
    requires a != [] && b != [] && Descending(key, a)
    requires SameGroups(key, a, b)
    ensures !Above(key(b[0]), key(a[0]))
  {
    HavingMember(key, key(b[0]), b);
    HavingMember(key, key(b[0]), a);
    var i :| 0 <= i < |a| && key(a[i]) == key(b[0]);
    AboveTotal(key(a[0]), key(a[0]));
  }

  lemma {:induction false} GroupsDetermine<T>(key: T -> string, a: seq<T>, b: seq<T>)
    requires Descending(key, a) && Descending(key, b)
    requires SameGroups(key, a, b)
    ensures a == b
    decreases |a|
  {
    if a == [] || b == [] {
      if a != [] { HavingMember(key, key(a[0]), a); HavingMember(key, key(a[0]), b); }
      if b != [] { HavingMember(key, key(b[0]), a); HavingMember(key, key(b[0]), b); }
    } else {
      HeadDominates(key, a, b);
      HeadDominates(key, b, a);
      AboveTotal(key(a[0]), key(b[0]));
      var r0 := key(a[0]);
      assert Having(key, r0, a)[0] == a[0] && Having(key, r0, b)[0] == b[0];
      forall r
        ensures Having(key, r, a[1..]) == Having(key, r, b[1..])
      {
        assert Having(key, r, a) == (if r0 == r then [a[0]] else []) + Having(key, r, a[1..]);
        assert Having(key, r, b) == (if r0 == r then [b[0]] else []) + Having(key, r, b[1..]);
        if r0 == r {
          assert Having(key, r, a)[1..] == Having(key, r, a[1..]);
          assert Having(key, r, b)[1..] == Having(key, r, b[1..]);
        } else {
          assert Having(key, r, a) == Having(key, r, a[1..]);
          assert Having(key, r, b) == Having(key, r, b[1..]);
        }
      }
      GroupsDetermine(key, a[1..], b[1..]);
      assert a == [a[0]] + a[1..] && b == [b[0]] + b[1..];
    }
  }

  /** Sorting forgets exactly the order between different keys. */
  lemma SortedAlike<T>(key: T -> string, a: seq<T>, b: seq<T>)
    ensures Sort(key, a) == Sort(key, b) <==> SameGroups(key, a, b)
  {
    var sa, sb := Sort(key, a), Sort(key, b);
    forall r
      ensures Having(key, r, sa) == Having(key, r, a) && Having(key, r, sb) == Having(key, r, b)
    {
      SortGroups(key, a, r);
      SortGroups(key, b, r);
    }
    assert SameGroups(key, sa, sb) <==> SameGroups(key, a, b);
    SortDescends(key, a);
    SortDescends(key, b);
    if SameGroups(key, sa, sb) {
      GroupsDetermine(key, sa, sb);
    }
  }

  // ---- sorting a list of strings forgets exactly its order ----

  function Self(s: string): string { s }

  function Repeat(s: string, n: nat): seq<string> {
    if n == 0 then [] else [s] + Repeat(s, n - 1)
  }

  lemma {:induction false} RepeatLength(s: string, n: nat)
    ensures |Repeat(s, n)| == n
  {
    if n > 0 { RepeatLength(s, n - 1); }
  }

  lemma CountCons(x: string, xs: seq<string>, r: string)
    ensures multiset([x] + xs)[r] == multiset(xs)[r] + if x == r then 1 else 0
  {
    assert multiset([x] + xs) == multiset{x} + multiset(xs);
  }

  lemma {:induction false} HavingSelf(r: string, xs: seq<string>)
    ensures Having(Self, r, xs) == Repeat(r, multiset(xs)[r])
  {
    if xs != [] {
      HavingSelf(r, xs[1..]);
      CountCons(xs[0], xs[1..], r);
      assert multiset(xs)[r] == multiset([xs[0]] + xs[1..])[r] by { assert xs == [xs[0]] + xs[1..]; }
    }
  }

  lemma GroupsAreCounts(a: seq<string>, b: seq<string>, r: string)
    ensures Having(Self, r, a) == Having(Self, r, b) <==> multiset(a)[r] == multiset(b)[r]
  {
    HavingSelf(r, a);
    HavingSelf(r, b);
    RepeatLength(r, multiset(a)[r]);
    RepeatLength(r, multiset(b)[r]);
  }

  lemma StringsSortedAlike(a: seq<string>, b: seq<string>)
    ensures Sort(Self, a) == Sort(Self, b) <==> multiset(a) == multiset(b)
  {
    SortedAlike(Self, a, b);
    if SameGroups(Self, a, b) {
      forall r
        ensures multiset(a)[r] == multiset(b)[r]
      {
        assert Having(Self, r, a) == Having(Self, r, b);
        GroupsAreCounts(a, b, r);
      }
    }
    if multiset(a) == multiset(b) {
      forall r
        ensures Having(Self, r, a) == Having(Self, r, b)
      {
        GroupsAreCounts(a, b, r);
      }
    }
  }

  // ---- sorting commutes with a map that keeps the key ----

  function Map<T, R>(f: T -> R, xs: seq<T>): seq<R> {
    if xs == [] then [] else [f(xs[0])] + Map(f, xs[1..])
  }

  lemma {:induction false} MapAt<T, R>(f: T -> R, xs: seq<T>)
    ensures |Map(f, xs)| == |xs|
    ensures forall i :: 0 <= i < |xs| ==> Map(f, xs)[i] == f(xs[i])
  {
    if xs != [] { MapAt(f, xs[1..]); }
  }

  lemma {:induction false} MapInsert<T(!new), R>(f: T -> R, key: T -> string, key': R -> string, x: T, xs: seq<T>)
    requires forall t :: key'(f(t)) == key(t)
    ensures Map(f, Insert(key, x, xs)) == Insert(key', f(x), Map(f, xs))
  {
    if xs == [] || !Above(key(xs[0]), key(x)) {
      assert ([x] + xs)[1..] == xs;
    } else {
      MapInsert(f, key, key', x, xs[1..]);
      assert ([xs[0]] + Insert(key, x, xs[1..]))[1..] == Insert(key, x, xs[1..]);
      assert Map(f, xs)[1..] == Map(f, xs[1..]);
    }
  }

  lemma {:induction false} MapSort<T(!new), R>(f: T -> R, key: T -> string, key': R -> string, xs: seq<T>)
    requires forall t :: key'(f(t)) == key(t)
    ensures Map(f, Sort(key, xs)) == Sort(key', Map(f, xs))
  {
    if xs != [] {
      MapSort(f, key, key', xs[1..]);
      MapInsert(f, key, key', xs[0], Sort(key, xs[1..]));
      assert Map(f, xs)[1..] == Map(f, xs[1..]);
    }
  }
}
