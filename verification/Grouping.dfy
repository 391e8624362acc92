/** Filing a list under keys, in order of first appearance: Python's `setdefault(key, []).append(x)`. */
module Grouping {
  import opened Basics
  import opened RoundRobin

  /** The members filed under `k`; an element whose key is None is filed nowhere. */
  function Select<T, K(==)>(s: seq<T>, key: T -> Option<K>, k: K): seq<T> {
    if s == [] then []
    else
      var last := s[|s| - 1];
      Select(s[..|s| - 1], key, k) + if key(last) == Some(k) then [last] else []
  }

  function Rejected<T, K>(s: seq<T>, key: T -> Option<K>): seq<T> {
    if s == [] then []
    else
      var last := s[|s| - 1];
      Rejected(s[..|s| - 1], key) + if key(last).Some? then [] else [last]
  }

  /** The keys in order of first appearance. */
  function KeysOf<T, K(==)>(s: seq<T>, key: T -> Option<K>): seq<K> {
    if s == [] then []
    else
      var before, k := KeysOf(s[..|s| - 1], key), key(s[|s| - 1]);
      if k.Some? && k.value !in before then before + [k.value] else before
  }

  /** `keys` lists the keys once each in order of appearance, and `grouped` holds their members. */
  ghost predicate Groups<T, K(!new)>(s: seq<T>, key: T -> Option<K>, keys: seq<K>, grouped: map<K, seq<T>>) {
    && NoRepeats(keys)
    && keys == KeysOf(s, key)
    && (forall k :: k in grouped <==> k in keys)
    && (forall k :: k in grouped ==> grouped[k] == Select(s, key, k))
    && (forall x :: x in s && key(x).Some? ==> key(x).value in grouped)
  }

  lemma SelectAppend<T, K>(s: seq<T>, key: T -> Option<K>, c: T, k: K)
    ensures Select(s + [c], key, k) == Select(s, key, k) + if key(c) == Some(k) then [c] else []
  {
    assert (s + [c])[..|s|] == s;
  }

  lemma RejectedAppend<T, K>(s: seq<T>, key: T -> Option<K>, c: T)
    ensures Rejected(s + [c], key) == Rejected(s, key) + if key(c).Some? then [] else [c]
  {
    assert (s + [c])[..|s|] == s;
  }

  lemma KeysAppend<T, K>(s: seq<T>, key: T -> Option<K>, c: T)
    ensures KeysOf(s + [c], key) ==
            KeysOf(s, key) + if key(c).Some? && key(c).value !in KeysOf(s, key) then [key(c).value] else []
  {
    assert (s + [c])[..|s|] == s;
  }

  lemma {:induction false} SelectNothing<T, K>(s: seq<T>, key: T -> Option<K>, k: K)
    requires forall x :: x in s ==> key(x) != Some(k)
    ensures Select(s, key, k) == []
  {
    if s != [] {
      assert s[|s| - 1] in s;
      SelectNothing(s[..|s| - 1], key, k);
    }
  }

  /** Filing one more element. */
  lemma GroupsAppend<T, K(!new)>(s: seq<T>, key: T -> Option<K>, keys: seq<K>, grouped: map<K, seq<T>>, c: T)
    requires Groups(s, key, keys, grouped)
    ensures match key(c)
            case None => Groups(s + [c], key, keys, grouped)
            case Some(k) =>
              if k in grouped then Groups(s + [c], key, keys, grouped[k := grouped[k] + [c]])
              else Groups(s + [c], key, keys + [k], grouped[k := [c]])
  {
    hide Select, KeysOf;
    forall k { SelectAppend(s, key, c, k); }
    KeysAppend(s, key, c);
    if key(c).Some? && key(c).value !in grouped {
      SelectNothing(s, key, key(c).value);
    }
  }

  method Group<T, K(==, !new)>(s: seq<T>, key: T -> Option<K>)
    returns (keys: seq<K>, grouped: map<K, seq<T>>, rejected: seq<T>)
    ensures Groups(s, key, keys, grouped)
    ensures rejected == Rejected(s, key)
  {
    hide Groups;
    keys, grouped, rejected := [], map[], [];
    NothingGrouped(key);
    for n := 0 to |s|
      invariant Groups(s[..n], key, keys, grouped)
      invariant rejected == Rejected(s[..n], key)
    {
      var c := s[n];
      assert s[..n + 1] == s[..n] + [c];
      GroupsAppend(s[..n], key, keys, grouped, c);
      RejectedAppend(s[..n], key, c);
      match key(c) {
        case None => rejected := rejected + [c];
        case Some(k) =>
          if k in grouped {
            grouped := grouped[k := grouped[k] + [c]];
          } else {
            keys := keys + [k];
            grouped := grouped[k := [c]];
          }
      }
    }
    assert s[..|s|] == s;
  }

  lemma NothingGrouped<T, K(!new)>(key: T -> Option<K>)
    ensures Groups([], key, [], map[])
  {
  }

  // ----- facts about the groups -----

  lemma {:induction false} SelectSize<T, K>(s: seq<T>, key: T -> Option<K>, k: K)
    ensures |Select(s, key, k)| <= |s|
    ensures k in KeysOf(s, key) ==> |Select(s, key, k)| > 0
  {
    if s != [] {
      SelectSize(s[..|s| - 1], key, k);
    }
  }

  lemma {:induction false} SelectCount<T, K>(s: seq<T>, key: T -> Option<K>, k: K, x: T)
    ensures multiset(Select(s, key, k))[x] == if key(x) == Some(k) then multiset(s)[x] else 0
  {
    if s != [] {
      SelectCount(s[..|s| - 1], key, k, x);
      assert s == s[..|s| - 1] + [s[|s| - 1]];
    }
  }

  lemma {:induction false} RejectedCount<T, K>(s: seq<T>, key: T -> Option<K>, x: T)
    ensures multiset(Rejected(s, key))[x] == if key(x).Some? then 0 else multiset(s)[x]
  {
    if s != [] {
      RejectedCount(s[..|s| - 1], key, x);
      assert s == s[..|s| - 1] + [s[|s| - 1]];
    }
  }

  lemma {:induction false} KeysCover<T, K>(s: seq<T>, key: T -> Option<K>)
    ensures NoRepeats(KeysOf(s, key))
    ensures forall x :: x in s && key(x).Some? ==> key(x).value in KeysOf(s, key)
  {
    if s != [] {
      KeysCover(s[..|s| - 1], key);
    }
  }

  lemma {:induction false} SelectConcat<T, K>(a: seq<T>, b: seq<T>, key: T -> Option<K>, k: K)
    ensures Select(a + b, key, k) == Select(a, key, k) + Select(b, key, k)
  {
    if b == [] {
      assert a + b == a;
    } else {
      SelectConcat(a, b[..|b| - 1], key, k);
      assert (a + b)[..|a + b| - 1] == a + b[..|b| - 1];
    }
  }

  lemma {:induction false} CountsOfNoRepeats<K(!new)>(keys: seq<K>)
    requires NoRepeats(keys)
    ensures forall k :: multiset(keys)[k] <= 1
  {
    if keys != [] {
      var last := |keys| - 1;
      CountsOfNoRepeats(keys[..last]);
      assert keys == keys[..last] + [keys[last]];
      assert keys[last] !in keys[..last];
    }
  }

  lemma PermutedNoRepeats<K(!new)>(keys: seq<K>, names: seq<K>)
    requires NoRepeats(keys) && multiset(names) == multiset(keys)
    ensures NoRepeats(names)
  {
    CountsOfNoRepeats(keys);
    forall i, j | 0 <= i < j < |names| ensures names[i] != names[j] {
      assert names == names[..j] + [names[j]] + names[j + 1..];
      assert names[i] in multiset(names[..j]);
      assert multiset(names)[names[j]] <= 1;
    }
  }

  // ----- where the members stand -----

  /** The first index at which `k` appears, or the length. */
  function FirstAt<T, K(==)>(s: seq<T>, key: T -> Option<K>, k: K): (i: nat)
    ensures i <= |s|
  {
    if s == [] then 0
    else
      var before := FirstAt(s[..|s| - 1], key, k);
      if before < |s| - 1 then before else if key(s[|s| - 1]) == Some(k) then |s| - 1 else |s|
  }

  lemma {:induction false} FirstAtIsFirst<T, K>(s: seq<T>, key: T -> Option<K>, k: K)
    ensures var i := FirstAt(s, key, k);
            && (i < |s| ==> key(s[i]) == Some(k))
            && forall j :: 0 <= j < i ==> key(s[j]) != Some(k)
  {
    if s != [] {
      FirstAtIsFirst(s[..|s| - 1], key, k);
    }
  }

  lemma {:induction false} KeysHaveFirst<T, K>(s: seq<T>, key: T -> Option<K>, k: K)
    ensures k in KeysOf(s, key) <==> FirstAt(s, key, k) < |s|
  {
    if s != [] {
      KeysHaveFirst(s[..|s| - 1], key, k);
    }
  }

  lemma FirstStays<T, K>(s: seq<T>, key: T -> Option<K>, k: K)
    requires s != []
    ensures FirstAt(s[..|s| - 1], key, k) < |s| - 1 ==> FirstAt(s, key, k) == FirstAt(s[..|s| - 1], key, k)
    ensures FirstAt(s, key, k) < |s| - 1 ==> FirstAt(s, key, k) == FirstAt(s[..|s| - 1], key, k)
  {
  }

  /** The keys are listed in the order of their first appearances. */
  lemma {:induction false} KeysInOrder<T, K>(s: seq<T>, key: T -> Option<K>, x: nat, y: nat)
    requires x < y < |KeysOf(s, key)|
    ensures FirstAt(s, key, KeysOf(s, key)[x]) < FirstAt(s, key, KeysOf(s, key)[y])
  {
    hide FirstAt;
    var before, keys := KeysOf(s[..|s| - 1], key), KeysOf(s, key);
    KeysHaveFirst(s[..|s| - 1], key, keys[x]);
    KeysHaveFirst(s[..|s| - 1], key, keys[y]);
    FirstStays(s, key, keys[x]);
    FirstStays(s, key, keys[y]);
    if y < |before| {
      KeysInOrder(s[..|s| - 1], key, x, y);
    }
  }

  /** Where member `r` of a group stands: behind exactly `r` of its group. */
  lemma {:induction false} MemberAt<T, K>(s: seq<T>, key: T -> Option<K>, k: K, r: nat) returns (i: nat)
    requires r < |Select(s, key, k)|
    ensures i < |s| && key(s[i]) == Some(k) && s[i] == Select(s, key, k)[r]
    ensures |Select(s[..i], key, k)| == r
  {
    var before := s[..|s| - 1];
    if r < |Select(before, key, k)| {
      i := MemberAt(before, key, k, r);
      assert before[..i] == s[..i];
    } else {
      i := |s| - 1;
    }
  }

  lemma {:induction false} SelectGrows<T, K>(s: seq<T>, key: T -> Option<K>, k: K, j: nat)
    requires j <= |s|
    ensures |Select(s[..j], key, k)| <= |Select(s, key, k)|
  {
    if j == |s| {
      assert s[..j] == s;
    } else {
      SelectGrows(s[..|s| - 1], key, k, j);
      assert s[..|s| - 1][..j] == s[..j];
    }
  }

  lemma SelectPrefix<T, K>(s: seq<T>, key: T -> Option<K>, k: K, j: nat, i: nat)
    requires j <= i <= |s|
    ensures |Select(s[..j], key, k)| <= |Select(s[..i], key, k)|
  {
    SelectGrows(s[..i], key, k, j);
    assert s[..i][..j] == s[..j];
  }

  /** Members of a group keep the order in which they stand. */
  lemma MembersInOrder<T, K>(s: seq<T>, key: T -> Option<K>, k: K, r: nat, t: nat) returns (i: nat, j: nat)
    requires r < t < |Select(s, key, k)|
    ensures i < j < |s| && s[i] == Select(s, key, k)[r] && s[j] == Select(s, key, k)[t]
  {
    hide Select;
    i := MemberAt(s, key, k, r);
    j := MemberAt(s, key, k, t);
    if j <= i {
      SelectPrefix(s, key, k, j, i);
    }
  }

  // ----- groups taking turns -----

  /** `all` splits the filed elements of `s` into one queue for each of `names`. */
  ghost predicate Partition<T, K>(s: seq<T>, key: T -> Option<K>, names: seq<K>, all: seq<seq<T>>) {
    && |names| == |all| && NoRepeats(names)
    && (forall x :: x in s && key(x).Some? ==> key(x).value in names)
    && forall i :: 0 <= i < |all| ==> multiset(all[i]) == multiset(Select(s, key, names[i]))
  }

  lemma QueueSize<T, K>(s: seq<T>, key: T -> Option<K>, names: seq<K>, all: seq<seq<T>>, i: nat)
    requires Partition(s, key, names, all) && i < |all|
    ensures |all[i]| == |Select(s, key, names[i])| <= |s|
  {
    SelectSize(s, key, names[i]);
    assert |multiset(all[i])| == |multiset(Select(s, key, names[i]))|;
  }

  lemma {:induction false} FlattenCount<T, K>(s: seq<T>, key: T -> Option<K>, names: seq<K>, all: seq<seq<T>>, g: nat, x: T)
    requires Partition(s, key, names, all) && g <= |all|
    ensures multiset(Flatten(all, g))[x] ==
            if key(x).Some? && key(x).value in names[..g] then multiset(s)[x] else 0
  {
    hide Select;
    if g > 0 {
      FlattenCount(s, key, names, all, g - 1, x);
      SelectCount(s, key, names[g - 1], x);
      assert names[..g] == names[..g - 1] + [names[g - 1]];
      if key(x) == Some(names[g - 1]) {
        assert key(x).value !in names[..g - 1];
      }
    }
  }

  /** Enough rounds take every filed element exactly once. */
  lemma TurnsTakeFiled<T, K>(s: seq<T>, key: T -> Option<K>, names: seq<K>, all: seq<seq<T>>, n: nat, x: T)
    requires Partition(s, key, names, all) && |s| <= n
    ensures multiset(InTurn(all, n))[x] == if key(x).Some? then multiset(s)[x] else 0
  {
    hide Select, InTurn;
    forall i | 0 <= i < |all| ensures |all[i]| <= n { QueueSize(s, key, names, all, i); }
    InTurnTakesAll(all, n);
    FlattenCount(s, key, names, all, |all|, x);
    assert names[..|all|] == names;
  }

  /** Group `i` of `all` holds only elements of key `names[i]`. */
  ghost predicate Filed<T, K>(key: T -> Option<K>, names: seq<K>, all: seq<seq<T>>) {
    && |names| == |all| && NoRepeats(names)
    && forall i, j :: 0 <= i < |all| && 0 <= j < |all[i]| ==> key(all[i][j]) == Some(names[i])
  }

  lemma PartitionIsFiled<T, K>(s: seq<T>, key: T -> Option<K>, names: seq<K>, all: seq<seq<T>>)
    requires Partition(s, key, names, all)
    ensures Filed(key, names, all)
  {
    hide Select, NoRepeats;
    forall i, j | 0 <= i < |all| && 0 <= j < |all[i]| ensures key(all[i][j]) == Some(names[i]) {
      SelectCount(s, key, names[i], all[i][j]);
      assert all[i][j] in multiset(all[i]);
    }
  }

  /** Picking group `h` out of the members taken leaves as many as the slots of group `h`. */
  lemma {:induction false} SelectSlots<T, K>(key: T -> Option<K>, names: seq<K>, all: seq<seq<T>>, slots: seq<Slot>, h: nat)
    requires |names| == |all| && Filed(key, names, all) && Within(all, slots) && h < |all|
    ensures |Select(Members(all, slots), key, names[h])| == Count(slots, h)
  {
    if slots != [] {
      var before, last := slots[..|slots| - 1], slots[|slots| - 1];
      SelectSlots(key, names, all, before, h);
      var members := Members(all, slots);
      assert members[..|members| - 1] == Members(all, before);
      assert members[|members| - 1] == all[last.group][last.place];
    }
  }

  lemma SelectMore<T, K>(key: T -> Option<K>, names: seq<K>, all: seq<seq<T>>, r: nat, g: nat, h: nat)
    requires |names| == |all| && Filed(key, names, all) && g < |all| && h < |all|
    ensures Select(More(all[g], r), key, names[h]) == if g == h then More(all[g], r) else []
  {
    if r < |all[g]| {
      SelectAppend([], key, all[g][r], names[h]);
      assert [] + [all[g][r]] == [all[g][r]];
    }
  }

  lemma {:induction false} SelectRound<T, K>(key: T -> Option<K>, names: seq<K>, all: seq<seq<T>>, r: nat, g: nat, h: nat)
    requires |names| == |all| && Filed(key, names, all) && g <= |all| && h < |all|
    requires Within(all, Round(Sizes(all), r, g))
    ensures Select(Members(all, Round(Sizes(all), r, g)), key, names[h]) == if h < g then More(all[h], r) else []
  {
    hide Round, Select, Filed, More, Members;
    if g == 0 {
      MembersOfNone(all, r);
      SelectNothing<T, K>([], key, names[h]);
    } else {
      MembersStep(all, r, g);
      SelectRound(key, names, all, r, g - 1, h);
      SelectConcat(Members(all, Round(Sizes(all), r, g - 1)), More(all[g - 1], r), key, names[h]);
      SelectMore(key, names, all, r, g - 1, h);
    }
  }

  /** The rounds take each group's members in the order of its queue. */
  lemma {:induction false} SelectTurns<T, K>(key: T -> Option<K>, names: seq<K>, all: seq<seq<T>>, n: nat, h: nat)
    requires |names| == |all| && h < |all| && Filed(key, names, all)
    ensures Select(InTurn(all, n), key, names[h]) == all[h][..Min(n, |all[h]|)]
  {
    hide InTurn, Select, Filed, Round, More;
    if n == 0 {
      NoTurns(all);
      SelectNothing<T, K>([], key, names[h]);
    } else {
      SelectTurns(key, names, all, n - 1, h);
      InTurnStep(all, n - 1);
      SelectConcat(InTurn(all, n - 1), Column(all, n - 1), key, names[h]);
      RoundWithin(all, n - 1, |all|);
      SelectRound(key, names, all, n - 1, |all|, h);
      OneMore(all[h], n - 1);
    }
  }

  /** In every prefix one group is at most one ahead of another, unless the other has nothing left. */
  lemma PrefixesAreFair<T, K>(s: seq<T>, key: T -> Option<K>, names: seq<K>, all: seq<seq<T>>, n: nat, m: nat, i: nat, j: nat)
    requires Partition(s, key, names, all) && m <= |InTurn(all, n)| && i < |all| && j < |all|
    ensures var prefix := InTurn(all, n)[..m];
            || |Select(prefix, key, names[j])| <= |Select(prefix, key, names[i])| + 1
            || |Select(prefix, key, names[i])| == |Select(s, key, names[i])|
  {
    hide Select, Filed, Count, Rounds, Partition;
    PartitionIsFiled(s, key, names, all);
    PartitionSizes(s, key, names, all);
    var slots := Rounds(Sizes(all), n);
    RoundsWithin(all, n);
    assert Members(all, slots[..m]) == InTurn(all, n)[..m];
    SelectSlots(key, names, all, slots[..m], i);
    SelectSlots(key, names, all, slots[..m], j);
    Fair(Sizes(all), n, m, i, j);
    QueueSize(s, key, names, all, i);
  }

  lemma PartitionSizes<T, K>(s: seq<T>, key: T -> Option<K>, names: seq<K>, all: seq<seq<T>>)
    requires Partition(s, key, names, all)
    ensures |names| == |all|
  {
  }
}
