/** Stable sorting by a total preorder: the meaning of Python's `sorted` and `list.sort`. */
module Ordering {

  ghost predicate TotalPreorder<T(!new)>(le: (T, T) -> bool) {
    && (forall a, b :: le(a, b) || le(b, a))
    && (forall a, b, c :: le(a, b) && le(b, c) ==> le(a, c))
  }

  ghost predicate SortedBy<T>(le: (T, T) -> bool, s: seq<T>) {
    forall i, j :: 0 <= i < j < |s| ==> le(s[i], s[j])
  }

  /** Puts `x` behind every element at most `x`, so equal elements keep their arrival order. */
  function Insert<T>(le: (T, T) -> bool, s: seq<T>, x: T): (r: seq<T>)
    ensures |r| == |s| + 1
    ensures multiset(r) == multiset(s) + multiset{x}
  {
    if s == [] then [x]
    else if le(s[0], x) then
      assert s == [s[0]] + s[1..];
      [s[0]] + Insert(le, s[1..], x)
    else [x] + s
  }

  function StableSort<T>(le: (T, T) -> bool, s: seq<T>): (r: seq<T>)
    ensures |r| == |s|
    ensures multiset(r) == multiset(s)
  {
    if s == [] then []
    else
      assert s == s[..|s| - 1] + [s[|s| - 1]];
      Insert(le, StableSort(le, s[..|s| - 1]), s[|s| - 1])
  }

  lemma {:induction false} InsertKeepsSorted<T(!new)>(le: (T, T) -> bool, s: seq<T>, x: T)
    requires TotalPreorder(le) && SortedBy(le, s)
    ensures SortedBy(le, Insert(le, s, x))
  {
    if s != [] && le(s[0], x) {
      InsertKeepsSorted(le, s[1..], x);
      var r := Insert(le, s[1..], x);
      forall j | 0 <= j < |r| ensures le(s[0], r[j]) {
        assert r[j] in multiset(r);
        assert r[j] == x || r[j] in s[1..];
      }
    }
  }

  lemma {:induction false} SortIsSorted<T(!new)>(le: (T, T) -> bool, s: seq<T>)
    requires TotalPreorder(le)
    ensures SortedBy(le, StableSort(le, s))
  {
    if s != [] {
      SortIsSorted(le, s[..|s| - 1]);
      InsertKeepsSorted(le, StableSort(le, s[..|s| - 1]), s[|s| - 1]);
    }
  }

  lemma {:induction false} InsertLast<T>(le: (T, T) -> bool, s: seq<T>, x: T)
    requires forall i :: 0 <= i < |s| ==> le(s[i], x)
    ensures Insert(le, s, x) == s + [x]
  {
    if s != [] {
      InsertLast(le, s[1..], x);
      assert s == [s[0]] + s[1..];
    }
  }

  /** Sorting a sorted sequence changes nothing. */
  lemma {:induction false} SortOfSorted<T(!new)>(le: (T, T) -> bool, s: seq<T>)
    requires SortedBy(le, s)
    ensures StableSort(le, s) == s
  {
    if s != [] {
      SortOfSorted(le, s[..|s| - 1]);
      InsertLast(le, s[..|s| - 1], s[|s| - 1]);
    }
  }

  lemma SortMembers<T>(le: (T, T) -> bool, s: seq<T>, x: T)
    ensures x in s <==> x in StableSort(le, s)
  {
    assert x in multiset(s) <==> x in multiset(StableSort(le, s));
  }

  ghost predicate Strictly<T(!new)>(le: (T, T) -> bool, s: seq<T>) {
    forall i, j :: 0 <= i < j < |s| ==> le(s[i], s[j]) && !le(s[j], s[i])
  }

  lemma StrictHeads<T(!new)>(le: (T, T) -> bool, s: seq<T>, t: seq<T>)
    requires Strictly(le, s) && Strictly(le, t) && s != [] && t != [] && s[0] in t && t[0] in s
    ensures s[0] == t[0]
  {
  }

  lemma StrictTail<T(!new)>(le: (T, T) -> bool, s: seq<T>)
    requires Strictly(le, s) && s != []
    ensures Strictly(le, s[1..])
  {
  }

  lemma TailMultiset<T>(s: seq<T>)
    requires s != []
    ensures multiset(s[1..]) == multiset(s) - multiset{s[0]}
  {
    assert s == [s[0]] + s[1..];
  }

  /** Two sequences with the same elements, both strictly increasing, are the same sequence. */
  lemma {:induction false} StrictlySortedUnique<T(!new)>(le: (T, T) -> bool, s: seq<T>, t: seq<T>)
    requires Strictly(le, s) && Strictly(le, t) && multiset(s) == multiset(t)
    ensures s == t
  {
    hide Strictly;
    assert |s| == |multiset(s)| == |t|;
    if s != [] {
      assert s[0] in multiset(t) && t[0] in multiset(s);
      StrictTail(le, s);
      StrictTail(le, t);
      StrictHeads(le, s, t);
      TailMultiset(s);
      TailMultiset(t);
      StrictlySortedUnique(le, s[1..], t[1..]);
      assert s == [s[0]] + s[1..] && t == [t[0]] + t[1..];
    }
  }

  // ----- stability -----

  /** Sorted, and equal elements in the order of their ranks. */
  ghost predicate StablyBy<T>(le: (T, T) -> bool, rank: T -> int, s: seq<T>) {
    forall i, j :: 0 <= i < j < |s| ==> le(s[i], s[j]) && (le(s[j], s[i]) ==> rank(s[i]) < rank(s[j]))
  }

  /** `x` may stand before `y`. */
  ghost predicate MayPrecede<T>(le: (T, T) -> bool, rank: T -> int, x: T, y: T) {
    le(x, y) && (le(y, x) ==> rank(x) < rank(y))
  }

  lemma StableHead<T>(le: (T, T) -> bool, rank: T -> int, x: T, s: seq<T>)
    requires StablyBy(le, rank, s) && forall j :: 0 <= j < |s| ==> MayPrecede(le, rank, x, s[j])
    ensures StablyBy(le, rank, [x] + s)
  {
    var r := [x] + s;
    forall i, j | 0 <= i < j < |r| ensures MayPrecede(le, rank, r[i], r[j]) {
      if i > 0 {
        assert r[i] == s[i - 1] && r[j] == s[j - 1];
      }
    }
  }

  lemma StableTail<T>(le: (T, T) -> bool, rank: T -> int, s: seq<T>)
    requires StablyBy(le, rank, s) && s != []
    ensures StablyBy(le, rank, s[1..])
    ensures forall j :: 0 <= j < |s[1..]| ==> MayPrecede(le, rank, s[0], s[1..][j])
  {
  }

  lemma InsertMembers<T>(le: (T, T) -> bool, s: seq<T>, x: T, y: T)
    requires y in Insert(le, s, x)
    ensures y == x || y in s
  {
    assert y in multiset(Insert(le, s, x));
  }

  /** An element below the head of a stable sequence may stand before all of it. */
  lemma BelowAll<T(!new)>(le: (T, T) -> bool, rank: T -> int, s: seq<T>, x: T)
    requires TotalPreorder(le) && StablyBy(le, rank, s) && s != [] && !le(s[0], x)
    ensures forall j :: 0 <= j < |s| ==> MayPrecede(le, rank, x, s[j])
  {
    forall j | 0 <= j < |s| ensures MayPrecede(le, rank, x, s[j]) {
      assert j > 0 ==> le(s[0], s[j]);
    }
  }

  lemma {:induction false} InsertKeepsStable<T(!new)>(le: (T, T) -> bool, rank: T -> int, s: seq<T>, x: T)
    requires TotalPreorder(le) && StablyBy(le, rank, s)
    requires forall i :: 0 <= i < |s| ==> rank(s[i]) < rank(x)
    ensures StablyBy(le, rank, Insert(le, s, x))
  {
    if s == [] {
    } else if le(s[0], x) {
      hide TotalPreorder, StablyBy, MayPrecede;
      StableTail(le, rank, s);
      InsertKeepsStable(le, rank, s[1..], x);
      var r := Insert(le, s[1..], x);
      forall j | 0 <= j < |r| ensures MayPrecede(le, rank, s[0], r[j]) {
        InsertMembers(le, s[1..], x, r[j]);
        Precedes(le, rank, s[0], x);
      }
      StableHead(le, rank, s[0], r);
    } else {
      hide TotalPreorder, StablyBy, MayPrecede;
      BelowAll(le, rank, s, x);
      StableHead(le, rank, x, s);
    }
  }

  lemma Precedes<T>(le: (T, T) -> bool, rank: T -> int, x: T, y: T)
    requires le(x, y) && rank(x) < rank(y)
    ensures MayPrecede(le, rank, x, y)
  {
  }

  /** Elements that arrive in the order of their ranks leave a stable sort in that order among equals. */
  lemma {:induction false} SortIsStable<T(!new)>(le: (T, T) -> bool, rank: T -> int, s: seq<T>)
    requires TotalPreorder(le) && forall i, j :: 0 <= i < j < |s| ==> rank(s[i]) < rank(s[j])
    ensures StablyBy(le, rank, StableSort(le, s))
  {
    if s != [] {
      var before, last := s[..|s| - 1], s[|s| - 1];
      SortIsStable(le, rank, before);
      forall i | 0 <= i < |before| ensures rank(StableSort(le, before)[i]) < rank(last) {
        SortMembers(le, before, StableSort(le, before)[i]);
      }
      InsertKeepsStable(le, rank, StableSort(le, before), last);
    }
  }

  /** Code-point order of strings, as Python compares them. */
  predicate StringLe(a: string, b: string) {
    a == [] || (b != [] && (a[0] < b[0] || (a[0] == b[0] && StringLe(a[1..], b[1..]))))
  }

  /** The strings agree before place `i`, and there the first has the lower code point. */
  predicate LowerAt(a: string, b: string, i: nat) { i < |a| && i < |b| && a[..i] == b[..i] && a[i] < b[i] }

  lemma LowerInTails(a: string, b: string, i: nat)
    requires a != [] && b != [] && a[0] == b[0]
    ensures LowerAt(a, b, i + 1) <==> LowerAt(a[1..], b[1..], i)
  {
    if i < |a[1..]| && i < |b[1..]| {
      assert a[..i + 1] == [a[0]] + a[1..][..i] && b[..i + 1] == [b[0]] + b[1..][..i];
      assert a[1..][..i] == a[..i + 1][1..] && b[1..][..i] == b[..i + 1][1..];
    }
  }

  lemma LowerAtHeads(a: string, b: string, i: nat)
    requires a != [] && b != [] && a[0] != b[0]
    ensures LowerAt(a, b, i) <==> i == 0 && a[0] < b[0]
  {
    if 0 < i <= |a| && i <= |b| {
      assert a[..i][0] == a[0] && b[..i][0] == b[0];
    }
  }

  /** One string is a beginning of the other, or at the first place where they differ it has the lower code point. */
  lemma {:induction false} StringLeMeaning(a: string, b: string)
    ensures StringLe(a, b) <==> a <= b || exists i: nat :: LowerAt(a, b, i)
  {
    if a != [] && b != [] {
      hide LowerAt;
      if a[0] == b[0] {
        StringLeMeaning(a[1..], b[1..]);
        assert a == [a[0]] + a[1..] && b == [b[0]] + b[1..];
        forall i: nat ensures LowerAt(a, b, i + 1) <==> LowerAt(a[1..], b[1..], i) { LowerInTails(a, b, i); }
        forall i: nat | LowerAt(a, b, i) ensures i > 0 && LowerAt(a[1..], b[1..], i - 1) { LowerNotAtEqual(a, b, i); }
      } else {
        forall i: nat ensures LowerAt(a, b, i) <==> i == 0 && a[0] < b[0] { LowerAtHeads(a, b, i); }
        assert a[0] < b[0] ==> LowerAt(a, b, 0);
      }
    }
  }

  lemma LowerNotAtEqual(a: string, b: string, i: nat)
    requires a != [] && b != [] && a[0] == b[0] && LowerAt(a, b, i)
    ensures i > 0 && LowerAt(a[1..], b[1..], i - 1)
  {
    if i > 0 {
      LowerInTails(a, b, i - 1);
    }
  }

  lemma {:induction false} StringLeTotal(a: string, b: string)
    ensures StringLe(a, b) || StringLe(b, a)
    ensures StringLe(a, b) && StringLe(b, a) ==> a == b
  {
    if a != [] && b != [] && a[0] == b[0] {
      StringLeTotal(a[1..], b[1..]);
      assert a == [a[0]] + a[1..] && b == [b[0]] + b[1..];
    }
  }

  lemma {:induction false} StringLeTransitive(a: string, b: string, c: string)
    requires StringLe(a, b) && StringLe(b, c)
    ensures StringLe(a, c)
  {
    if a != [] && b != [] && c != [] && a[0] == b[0] == c[0] {
      StringLeTransitive(a[1..], b[1..], c[1..]);
    }
  }
}
