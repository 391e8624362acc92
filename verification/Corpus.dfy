/** `search/corpus.py`: representative selection of transcripts and the accounting of a scan. */
module Corpus {
  import opened Basics
  import opened Grouping
  import opened Ordering
  import opened RoundRobin

  /** An inventoried transcript; `invalidReason` is what the inventory already knows against it. */
  datatype Source = Source(relpath: string, channel: string, language: string, size: nat, invalidReason: Option<string>)

  datatype Key = Key(channel: string, language: string)

  /** The group a source is filed under; the inventory's rejects are filed nowhere. */
  function KeyOf(s: Source): Option<Key> {
    if s.invalidReason.None? then Some(Key(s.channel, s.language)) else None
  }

  // ----- orders -----

  predicate BySize(a: Source, b: Source) {
    a.size < b.size || (a.size == b.size && StringLe(a.relpath, b.relpath))
  }

  predicate ByPath(a: Source, b: Source) { StringLe(a.relpath, b.relpath) }

  predicate KeyLe(a: Key, b: Key) {
    if a.channel == b.channel then StringLe(a.language, b.language) else StringLe(a.channel, b.channel)
  }

  lemma BySizeOrders()
    ensures TotalPreorder(BySize)
  {
    forall a, b ensures BySize(a, b) || BySize(b, a) { StringLeTotal(a.relpath, b.relpath); }
    forall a, b, c | BySize(a, b) && BySize(b, c) ensures BySize(a, c) {
      if a.size == b.size == c.size {
        StringLeTransitive(a.relpath, b.relpath, c.relpath);
      }
    }
  }

  lemma ByPathOrders()
    ensures TotalPreorder(ByPath)
  {
    forall a, b ensures ByPath(a, b) || ByPath(b, a) { StringLeTotal(a.relpath, b.relpath); }
    forall a, b, c | ByPath(a, b) && ByPath(b, c) ensures ByPath(a, c) {
      StringLeTransitive(a.relpath, b.relpath, c.relpath);
    }
  }

  lemma KeyLeOrders()
    ensures TotalPreorder(KeyLe)
  {
    forall a, b ensures KeyLe(a, b) || KeyLe(b, a) {
      StringLeTotal(a.channel, b.channel);
      StringLeTotal(a.language, b.language);
    }
    forall a, b, c | KeyLe(a, b) && KeyLe(b, c) ensures KeyLe(a, c) {
      StringLeTotal(a.channel, b.channel);
      StringLeTotal(b.channel, c.channel);
      if a.channel == b.channel == c.channel {
        StringLeTransitive(a.language, b.language, c.language);
      } else {
        StringLeTransitive(a.channel, b.channel, c.channel);
        StringLeTotal(a.channel, c.channel);
      }
    }
  }

  // ----- one group: smallest, largest, next smallest, next largest -----

  function Diverse(bySize: seq<Source>): (r: seq<Source>)
    ensures |r| == |bySize|
    ensures forall i :: 0 <= i < |r| ==> r[i] == if i % 2 == 0 then bySize[i / 2] else bySize[|bySize| - 1 - i / 2]
  {
    seq(|bySize|, i requires 0 <= i < |bySize| =>
      if i % 2 == 0 then bySize[i / 2] else bySize[|bySize| - 1 - i / 2])
  }

  method SizeDiverse(candidates: seq<Source>) returns (diverse: seq<Source>)
    ensures diverse == Diverse(StableSort(BySize, candidates))
  {
    var bySize := StableSort(BySize, candidates);
    diverse := [];
    var low, high := 0, |bySize| - 1;
    while low <= high
      invariant 0 <= low <= high + 1 <= |bySize|
      invariant high == |bySize| - 1 - low
      invariant |diverse| == 2 * low
      invariant forall i :: 0 <= i < |diverse| ==> diverse[i] == Diverse(bySize)[i]
    {
      diverse := diverse + [bySize[low]];
      low := low + 1;
      if low <= high {
        diverse := diverse + [bySize[high]];
        high := high - 1;
      } else {
        break;
      }
    }
    assert diverse == Diverse(bySize);
  }

  lemma DiverseUnfolds(s: seq<Source>)
    requires |s| >= 2
    ensures Diverse(s) == [s[0], s[|s| - 1]] + Diverse(s[1..|s| - 1])
  {
    var inner := s[1..|s| - 1];
    forall i | 2 <= i < |s| ensures Diverse(s)[i] == Diverse(inner)[i - 2] {
      var half := (i - 2) / 2;
      assert i / 2 == half + 1 && (i - 2) % 2 == i % 2;
      assert inner[half] == s[half + 1];
    }
  }

  lemma {:induction false} DiversePermutes(s: seq<Source>)
    ensures multiset(Diverse(s)) == multiset(s)
  {
    hide Diverse;
    if |s| <= 1 {
      DiverseOfShort(s);
    } else {
      var inner := s[1..|s| - 1];
      DiversePermutes(inner);
      DiverseUnfolds(s);
      assert s == [s[0]] + inner + [s[|s| - 1]];
    }
  }

  lemma DiverseOfShort(s: seq<Source>)
    requires |s| <= 1
    ensures Diverse(s) == s
  {
  }

  // ----- taking turns -----

  function Names(s: seq<Source>): (names: seq<Key>)
    ensures |names| == |KeysOf(s, KeyOf)|
  {
    StableSort(KeyLe, KeysOf(s, KeyOf))
  }

  function QueueOf(s: seq<Source>, k: Key): seq<Source> { Diverse(StableSort(BySize, Select(s, KeyOf, k))) }

  function Queues(s: seq<Source>): (queues: seq<seq<Source>>)
    ensures |queues| == |Names(s)|
    ensures forall i :: 0 <= i < |queues| ==> queues[i] == QueueOf(s, Names(s)[i])
  {
    seq(|Names(s)|, i requires 0 <= i < |Names(s)| => QueueOf(s, Names(s)[i]))
  }

  /** The representative order: the groups in turn, then whatever the inventory rejected. */
  ghost function Representative(s: seq<Source>): seq<Source> {
    InTurn(Queues(s), |s|) + StableSort(ByPath, Rejected(s, KeyOf))
  }

  method BuildQueues(s: seq<Source>, keys: seq<Key>, grouped: map<Key, seq<Source>>) returns (queues: map<Key, seq<Source>>)
    requires Groups(s, KeyOf, keys, grouped)
    ensures forall k :: k in keys ==> k in queues && queues[k] == QueueOf(s, k)
  {
    hide StableSort, Diverse, Select;
    queues := map[];
    for n := 0 to |keys|
      invariant forall k :: k in keys[..n] ==> k in queues && queues[k] == QueueOf(s, k)
    {
      var diverse := SizeDiverse(grouped[keys[n]]);
      queues := queues[keys[n] := diverse];
    }
  }

  /** The queues once `n` rounds are over and the groups in `done` have had their turn in the next. */
  ghost predicate Drained(names: seq<Key>, all: seq<seq<Source>>, queues: map<Key, seq<Source>>, n: nat, done: seq<nat>)
    requires |names| == |all|
  {
    forall i :: 0 <= i < |names| ==>
      names[i] in queues && queues[names[i]] == Rest(all[i], n + if i in done then 1 else 0)
  }

  function Rest(queue: seq<Source>, n: nat): seq<Source> { queue[Min(n, |queue|)..] }

  function Named(names: seq<Key>, ids: seq<nat>): (r: seq<Key>)
    requires forall i :: 0 <= i < |ids| ==> ids[i] < |names|
    ensures |r| == |ids|
    ensures forall i :: 0 <= i < |ids| ==> r[i] == names[ids[i]]
  {
    seq(|ids|, i requires 0 <= i < |ids| && ids[i] < |names| => names[ids[i]])
  }

  /** One turn: the group's next source leaves its queue. */
  lemma Pop(names: seq<Key>, all: seq<seq<Source>>, queues: map<Key, seq<Source>>, n: nat, done: seq<nat>, id: nat)
    requires |names| == |all| && NoRepeats(names) && Drained(names, all, queues, n, done)
    requires id < |names| && id !in done && n < |all[id]|
    ensures names[id] in queues && queues[names[id]] == [all[id][n]] + Rest(all[id], n + 1)
    ensures Drained(names, all, queues[names[id] := Rest(all[id], n + 1)], n, done + [id])
  {
  }

  /** What holds of round `n` once the groups `done` have had their turn. */
  ghost predicate Played(names: seq<Key>, all: seq<seq<Source>>, n: nat, done: seq<nat>,
                         taken: seq<Source>, queues: map<Key, seq<Source>>, next: seq<Key>)
    requires |names| == |all|
  {
    && (forall i :: 0 <= i < |done| ==> done[i] < |all| && n < |all[done[i]]|)
    && |taken| == |done| && (forall i :: 0 <= i < |done| ==> taken[i] == all[done[i]][n])
    && Drained(names, all, queues, n, done)
    && next == Named(names, Still(Sizes(all), n + 1, done))
  }

  lemma PlayedStep(names: seq<Key>, all: seq<seq<Source>>, n: nat, done: seq<nat>,
                   taken: seq<Source>, queues: map<Key, seq<Source>>, next: seq<Key>, id: nat)
    requires |names| == |all| && NoRepeats(names) && Played(names, all, n, done, taken, queues, next)
    requires id < |all| && id !in done && n < |all[id]|
    ensures names[id] in queues && queues[names[id]] != [] && queues[names[id]][0] == all[id][n]
    ensures var rest := queues[names[id]][1..];
            Played(names, all, n, done + [id], taken + [all[id][n]], queues[names[id] := rest],
                   if rest != [] then next + [names[id]] else next)
  {
    hide Drained, NoRepeats, Still;
    Pop(names, all, queues, n, done, id);
    RestLength(all[id], n + 1);
    assert queues[names[id]][1..] == Rest(all[id], n + 1);
    StillStep(Sizes(all), n + 1, done, id);
  }

  lemma AllPlayed(names: seq<Key>, all: seq<seq<Source>>, n: nat,
                  taken: seq<Source>, queues: map<Key, seq<Source>>, next: seq<Key>)
    requires |names| == |all| && Played(names, all, n, Active(Sizes(all), n, |all|), taken, queues, next)
    ensures taken == Column(all, n)
    ensures Drained(names, all, queues, n + 1, [])
    ensures next == Named(names, Active(Sizes(all), n + 1, |all|))
  {
    hide Active, Column, Drained, Still, Named;
    AllDrained(names, all, queues, n);
    StillActive(Sizes(all), n, |all|);
    ColumnMembers(all, n);
  }

  /** Round `n` over the active groups. */
  method PlayRound(names: seq<Key>, ghost all: seq<seq<Source>>, queues: map<Key, seq<Source>>, active: seq<Key>, ghost n: nat)
    returns (taken: seq<Source>, rest: map<Key, seq<Source>>, next: seq<Key>)
    requires |names| == |all| && NoRepeats(names) && Drained(names, all, queues, n, [])
    requires active == Named(names, Active(Sizes(all), n, |all|))
    ensures taken == Column(all, n)
    ensures Drained(names, all, rest, n + 1, [])
    ensures next == Named(names, Active(Sizes(all), n + 1, |all|))
  {
    hide Drained, Active, Column, NoRepeats, Played;
    ghost var ids := Active(Sizes(all), n, |all|);
    ActiveIncreases(Sizes(all), n, |all|);
    taken, rest, next := [], queues, [];
    NothingPlayed(names, all, n, queues);
    for j := 0 to |active|
      invariant Played(names, all, n, ids[..j], taken, rest, next)
    {
      var group := active[j];
      PlayedStep(names, all, n, ids[..j], taken, rest, next, ids[j]);
      assert ids[..j + 1] == ids[..j] + [ids[j]];
      var queue := rest[group];
      taken := taken + [queue[0]];
      rest := rest[group := queue[1..]];
      if queue[1..] != [] {
        next := next + [group];
      }
    }
    assert ids[..|ids|] == ids;
    AllPlayed(names, all, n, taken, rest, next);
  }

  lemma NothingPlayed(names: seq<Key>, all: seq<seq<Source>>, n: nat, queues: map<Key, seq<Source>>)
    requires |names| == |all| && Drained(names, all, queues, n, [])
    ensures Played(names, all, n, [], [], queues, [])
  {
  }

  lemma RestLength(queue: seq<Source>, n: nat)
    ensures Rest(queue, n) != [] <==> n < |queue|
  {
  }

  lemma ColumnMembers(all: seq<seq<Source>>, n: nat)
    ensures var ids := Active(Sizes(all), n, |all|);
            && |Column(all, n)| == |ids|
            && forall i :: 0 <= i < |ids| ==> Column(all, n)[i] == all[ids[i]][n]
  {
  }

  /** Those of `ids` with more than `r` members. */
  function Still(sizes: seq<nat>, r: nat, ids: seq<nat>): (kept: seq<nat>)
    requires forall i :: 0 <= i < |ids| ==> ids[i] < |sizes|
    ensures forall i :: 0 <= i < |kept| ==> kept[i] < |sizes|
  {
    if ids == [] then []
    else
      var last := ids[|ids| - 1];
      Still(sizes, r, ids[..|ids| - 1]) + if r < sizes[last] then [last] else []
  }

  lemma StillStep(sizes: seq<nat>, r: nat, ids: seq<nat>, id: nat)
    requires id < |sizes| && forall i :: 0 <= i < |ids| ==> ids[i] < |sizes|
    ensures Still(sizes, r, ids + [id]) == Still(sizes, r, ids) + if r < sizes[id] then [id] else []
  {
    assert (ids + [id])[..|ids|] == ids;
  }

  lemma ActiveStep(sizes: seq<nat>, n: nat, g: nat)
    requires 0 < g <= |sizes|
    ensures Active(sizes, n, g) == Active(sizes, n, g - 1) + if n < sizes[g - 1] then [g - 1] else []
  {
  }

  lemma NobodyStill(sizes: seq<nat>, n: nat)
    ensures Active(sizes, n, 0) == [] && Active(sizes, n + 1, 0) == [] && Still(sizes, n + 1, []) == []
  {
  }

  lemma {:induction false} StillActive(sizes: seq<nat>, n: nat, g: nat)
    requires g <= |sizes|
    ensures Still(sizes, n + 1, Active(sizes, n, g)) == Active(sizes, n + 1, g)
  {
    hide Active, Still;
    if g == 0 {
      NobodyStill(sizes, n);
    } else {
      StillActive(sizes, n, g - 1);
      ActiveStep(sizes, n, g);
      ActiveStep(sizes, n + 1, g);
      if n < sizes[g - 1] {
        StillStep(sizes, n + 1, Active(sizes, n, g - 1), g - 1);
      } else {
        assert Active(sizes, n, g) == Active(sizes, n, g - 1);
        assert Active(sizes, n + 1, g) == Active(sizes, n + 1, g - 1);
      }
    }
  }

  lemma AllDrained(names: seq<Key>, all: seq<seq<Source>>, queues: map<Key, seq<Source>>, n: nat)
    requires |names| == |all| && Drained(names, all, queues, n, Active(Sizes(all), n, |all|))
    ensures Drained(names, all, queues, n + 1, [])
  {
    hide Active;
    forall i | 0 <= i < |all| && n < |all[i]| ensures i in Active(Sizes(all), n, |all|) {
      LongIsActive(Sizes(all), n, |all|, i);
    }
  }

  lemma {:induction false} EveryoneActive(sizes: seq<nat>, g: nat)
    requires g <= |sizes| && forall i :: 0 <= i < |sizes| ==> sizes[i] > 0
    ensures var ids := Active(sizes, 0, g); |ids| == g && forall i :: 0 <= i < g ==> ids[i] == i
  {
    if g > 0 {
      EveryoneActive(sizes, g - 1);
    }
  }

  // ----- the whole selection -----

  lemma NamesCover(s: seq<Source>)
    ensures NoRepeats(Names(s))
    ensures forall k :: k in Names(s) <==> k in KeysOf(s, KeyOf)
  {
    hide StableSort, NoRepeats, KeysOf;
    KeysCover(s, KeyOf);
    forall k { SortMembers(KeyLe, KeysOf(s, KeyOf), k); }
    PermutedNoRepeats(KeysOf(s, KeyOf), Names(s));
  }

  /** The queues split the valid sources by group. */
  lemma QueuesPartition(s: seq<Source>)
    ensures Partition(s, KeyOf, Names(s), Queues(s))
  {
    hide QueueOf, Select, Names, KeysOf, NoRepeats;
    NamesCover(s);
    KeysCover(s, KeyOf);
    forall i | 0 <= i < |Queues(s)| ensures multiset(Queues(s)[i]) == multiset(Select(s, KeyOf, Names(s)[i])) {
      QueuePermutes(s, Names(s)[i]);
    }
  }

  lemma QueuePermutes(s: seq<Source>, k: Key)
    ensures multiset(QueueOf(s, k)) == multiset(Select(s, KeyOf, k))
  {
    hide Diverse, Select;
    DiversePermutes(StableSort(BySize, Select(s, KeyOf, k)));
  }

  method RepresentativeCandidates(candidates: seq<Source>) returns (selected: seq<Source>)
    ensures selected == Representative(candidates)
  {
    hide StableSort, Groups, Drained, Active, QueueOf, Select, KeysOf, InTurn, Column, Queues, Names;
    var keys, grouped, invalid := Group(candidates, KeyOf);
    NamesCover(candidates);
    var queues := BuildQueues(candidates, keys, grouped);
    var names := Names(candidates);
    ghost var all := Queues(candidates);
    Opening(candidates, keys, grouped, queues);
    selected := [];
    var active := names;
    ghost var n := 0;
    while active != []
      invariant NoRepeats(names) && Drained(names, all, queues, n, [])
      invariant active == Named(names, Active(Sizes(all), n, |all|))
      invariant selected == InTurn(all, n) && n <= |candidates|
      decreases |candidates| - n
    {
      StillGoing(candidates, n);
      var taken;
      taken, queues, active := PlayRound(names, all, queues, active, n);
      InTurnStep(all, n);
      selected := selected + taken;
      n := n + 1;
    }
    Exhausted(candidates, n);
    selected := selected + StableSort(ByPath, invalid);
  }

  lemma Opening(s: seq<Source>, keys: seq<Key>, grouped: map<Key, seq<Source>>, queues: map<Key, seq<Source>>)
    requires Groups(s, KeyOf, keys, grouped)
    requires forall k :: k in keys ==> k in queues && queues[k] == QueueOf(s, k)
    ensures |Names(s)| == |Queues(s)|
    ensures Drained(Names(s), Queues(s), queues, 0, [])
    ensures Names(s) == Named(Names(s), Active(Sizes(Queues(s)), 0, |Queues(s)|))
    ensures InTurn(Queues(s), 0) == []
  {
    hide StableSort, Select, QueueOf, InTurn, Groups, Active, KeysOf, Names;
    NamesCover(s);
    GroupsListsKeys(s, keys, grouped);
    forall i | 0 <= i < |Names(s)| ensures Names(s)[i] in keys && |Queues(s)[i]| > 0 {
      SelectSize(s, KeyOf, Names(s)[i]);
      QueueLength(s, Names(s)[i]);
    }
    EveryoneActive(Sizes(Queues(s)), |Queues(s)|);
    NoTurns(Queues(s));
  }

  lemma GroupsListsKeys(s: seq<Source>, keys: seq<Key>, grouped: map<Key, seq<Source>>)
    requires Groups(s, KeyOf, keys, grouped)
    ensures keys == KeysOf(s, KeyOf)
  {
  }

  lemma QueueLength(s: seq<Source>, k: Key)
    ensures |QueueOf(s, k)| == |Select(s, KeyOf, k)|
  {
  }

  lemma StillGoing(s: seq<Source>, n: nat)
    requires Active(Sizes(Queues(s)), n, |Queues(s)|) != []
    ensures n < |s|
  {
    hide Active, QueueOf, Select, KeysOf, Names;
    var id := Active(Sizes(Queues(s)), n, |Queues(s)|)[0];
    QueueLength(s, Names(s)[id]);
    SelectSize(s, KeyOf, Names(s)[id]);
  }

  lemma Exhausted(s: seq<Source>, n: nat)
    requires Active(Sizes(Queues(s)), n, |Queues(s)|) == [] && n <= |s|
    ensures InTurn(Queues(s), n) == InTurn(Queues(s), |s|)
  {
    hide Active, QueueOf, Select, KeysOf, InTurn, Names;
    forall i | 0 <= i < |Queues(s)| ensures |Queues(s)[i]| <= n {
      if n < |Queues(s)[i]| {
        LongIsActive(Sizes(Queues(s)), n, |Queues(s)|, i);
      }
    }
    NoMoreTurns(Queues(s), n, |s|);
  }

  // ----- what the selection promises -----

  /** The representative order is a permutation of its input. */
  lemma RepresentativePermutes(s: seq<Source>)
    ensures multiset(Representative(s)) == multiset(s)
  {
    hide InTurn, Queues, Rejected, Partition;
    var r := Representative(s);
    QueuesPartition(s);
    forall x ensures multiset(r)[x] == multiset(s)[x] {
      TurnsTakeFiled(s, KeyOf, Names(s), Queues(s), |s|, x);
      RejectedCount(s, KeyOf, x);
    }
  }

  /** Groups take their turns in key order, each from its smallest source up and its largest down. */
  lemma TurnsAreOrdered(s: seq<Source>, k: Key)
    ensures SortedBy(KeyLe, Names(s))
    ensures SortedBy(BySize, StableSort(BySize, Select(s, KeyOf, k)))
    ensures SortedBy(ByPath, StableSort(ByPath, Rejected(s, KeyOf)))
  {
    hide StableSort, Select, Rejected, KeysOf, BySize, ByPath, KeyLe, TotalPreorder;
    KeyLeOrders();
    BySizeOrders();
    ByPathOrders();
    SortIsSorted(KeyLe, KeysOf(s, KeyOf));
    SortIsSorted(BySize, Select(s, KeyOf, k));
    SortIsSorted(ByPath, Rejected(s, KeyOf));
  }

  /** Each group appears smallest, largest, next smallest, next largest. */
  lemma GroupsAppearDiverse(s: seq<Source>, k: Key)
    requires k in KeysOf(s, KeyOf)
    ensures Select(InTurn(Queues(s), |s|), KeyOf, k) == Diverse(StableSort(BySize, Select(s, KeyOf, k)))
  {
    hide QueueOf, Select, Names, InTurn, KeysOf, NoRepeats, Filed, StableSort, Partition;
    NamesCover(s);
    QueuesPartition(s);
    PartitionIsFiled(s, KeyOf, Names(s), Queues(s));
    var h :| 0 <= h < |Names(s)| && Names(s)[h] == k;
    SelectTurns(KeyOf, Names(s), Queues(s), |s|, h);
    QueueSize(s, KeyOf, Names(s), Queues(s), h);
    assert Queues(s)[h][..|Queues(s)[h]|] == Queues(s)[h];
    QueueIs(s, k);
  }

  lemma QueueIs(s: seq<Source>, k: Key)
    ensures QueueOf(s, k) == Diverse(StableSort(BySize, Select(s, KeyOf, k)))
  {
  }

  /** In every prefix of the valid part, one group is at most one ahead of another, unless the other has nothing left. */
  lemma GroupsKeepPace(s: seq<Source>, m: nat, k: Key, other: Key)
    requires m <= |InTurn(Queues(s), |s|)| && k in KeysOf(s, KeyOf) && other in KeysOf(s, KeyOf)
    ensures var prefix := InTurn(Queues(s), |s|)[..m];
            || |Select(prefix, KeyOf, other)| <= |Select(prefix, KeyOf, k)| + 1
            || |Select(prefix, KeyOf, k)| == |Select(s, KeyOf, k)|
  {
    hide QueueOf, Select, Names, KeysOf, NoRepeats, Partition, Queues, InTurn;
    NamesCover(s);
    QueuesPartition(s);
    PartitionSizes(s, KeyOf, Names(s), Queues(s));
    var i :| 0 <= i < |Names(s)| && Names(s)[i] == k;
    var j :| 0 <= j < |Names(s)| && Names(s)[j] == other;
    PrefixesAreFair(s, KeyOf, Names(s), Queues(s), |s|, m, i, j);
  }

  // ----- the order, told from the sources -----

  predicate SameGroup(a: Source, b: Source) {
    a.invalidReason.None? && b.invalidReason.None? && a.channel == b.channel && a.language == b.language
  }

  /** Fewer bytes, or as many and a lower path. */
  predicate Smaller(a: Source, b: Source) {
    a.size < b.size || (a.size == b.size && a.relpath != b.relpath && StringLe(a.relpath, b.relpath))
  }

  predicate Under(x: Source, c: Source) { SameGroup(x, c) && Smaller(x, c) }

  predicate NotUnder(x: Source, c: Source) { SameGroup(x, c) && !Smaller(x, c) }

  predicate Over(x: Source, c: Source) { SameGroup(x, c) && Smaller(c, x) }

  predicate NotOver(x: Source, c: Source) { SameGroup(x, c) && !Smaller(c, x) }

  /** How many of `s` stand in the relation to `c`. */
  function HowMany(s: seq<Source>, rel: (Source, Source) -> bool, c: Source): nat {
    if s == [] then 0 else HowMany(s[..|s| - 1], rel, c) + if rel(s[|s| - 1], c) then 1 else 0
  }

  /** Turn 2r of a group takes its r-th smallest source, turn 2r + 1 its r-th largest. */
  predicate TakesTurn(s: seq<Source>, c: Source, turn: nat) {
    && c.invalidReason.None? && turn < HowMany(s, SameGroup, c)
    && (turn % 2 == 0 ==> HowMany(s, Under, c) <= turn / 2 < HowMany(s, NotOver, c))
    && (turn % 2 == 1 ==> HowMany(s, Over, c) <= turn / 2 < HowMany(s, NotUnder, c))
  }

  /** Earlier turns go first; in one turn the groups go by channel, and those of one channel by language. */
  predicate GoesFirst(a: Source, turn: nat, b: Source, other: nat) {
    || turn < other
    || (&& turn == other
        && if a.channel != b.channel then StringLe(a.channel, b.channel)
           else a.language != b.language && StringLe(a.language, b.language))
  }

  /** `t` lists all sources: the valid ones by their turns, then the rejected ones by path. */
  ghost predicate Represents(s: seq<Source>, t: seq<Source>, turns: seq<nat>) {
    && multiset(t) == multiset(s) && |turns| <= |t|
    && (forall x :: 0 <= x < |turns| ==> TakesTurn(s, t[x], turns[x]))
    && (forall x, y :: 0 <= x < y < |turns| ==> GoesFirst(t[x], turns[x], t[y], turns[y]))
    && (forall x :: |turns| <= x < |t| ==> t[x].invalidReason.Some?)
    && forall x, y :: |turns| <= x < y < |t| ==> StringLe(t[x].relpath, t[y].relpath)
  }

  lemma SmallerMeaning(a: Source, b: Source)
    ensures BySize(a, b) <==> !Smaller(b, a)
  {
    StringLeTotal(a.relpath, b.relpath);
  }

  lemma SameGroupKey(a: Source, b: Source)
    requires KeyOf(b).Some?
    ensures SameGroup(a, b) <==> KeyOf(a) == KeyOf(b)
  {
  }

  /** The relation holds only inside the group of `c`. */
  ghost predicate InGroup(rel: (Source, Source) -> bool, c: Source) { forall x :: rel(x, c) ==> SameGroup(x, c) }

  lemma {:induction false} CountConcat(a: seq<Source>, b: seq<Source>, rel: (Source, Source) -> bool, c: Source)
    ensures HowMany(a + b, rel, c) == HowMany(a, rel, c) + HowMany(b, rel, c)
  {
    if b == [] {
      assert a + b == a;
    } else {
      assert (a + b)[..|a + b| - 1] == a + b[..|b| - 1];
      CountConcat(a, b[..|b| - 1], rel, c);
    }
  }

  lemma CountWithout(s: seq<Source>, i: nat, rel: (Source, Source) -> bool, c: Source)
    requires i < |s|
    ensures HowMany(s, rel, c) == HowMany(s[..i] + s[i + 1..], rel, c) + if rel(s[i], c) then 1 else 0
  {
    hide HowMany;
    CountConcat(s[..i], s[i + 1..], rel, c);
    CountConcat(s[..i], [s[i]], rel, c);
    CountConcat(s[..i] + [s[i]], s[i + 1..], rel, c);
    CountSingle(s[i], rel, c);
    assert s == s[..i] + [s[i]] + s[i + 1..];
  }

  lemma CountSingle(x: Source, rel: (Source, Source) -> bool, c: Source)
    ensures HowMany([x], rel, c) == if rel(x, c) then 1 else 0
  {
    assert [x][..0] == [];
  }

  lemma CountAppend(s: seq<Source>, x: Source, rel: (Source, Source) -> bool, c: Source)
    ensures HowMany(s + [x], rel, c) == HowMany(s, rel, c) + if rel(x, c) then 1 else 0
  {
    assert (s + [x])[..|s|] == s;
  }

  lemma {:induction false} CountInGroup(s: seq<Source>, rel: (Source, Source) -> bool, c: Source)
    requires KeyOf(c).Some? && InGroup(rel, c)
    ensures HowMany(s, rel, c) == HowMany(Select(s, KeyOf, KeyOf(c).value), rel, c)
  {
    hide KeyOf, SameGroup, Select, HowMany;
    if s == [] {
      NoneSelected(KeyOf(c).value);
    } else {
      var before, last := s[..|s| - 1], s[|s| - 1];
      var group := Select(before, KeyOf, KeyOf(c).value);
      assert s == before + [last];
      CountInGroup(before, rel, c);
      SameGroupKey(last, c);
      SelectAppend(before, KeyOf, last, KeyOf(c).value);
      CountAppend(before, last, rel, c);
      CountAppend(group, last, rel, c);
      assert group + [] == group;
    }
  }

  lemma NoneSelected(k: Key)
    ensures Select([], KeyOf, k) == []
  {
  }

  lemma WithoutOne(t: seq<Source>, i: nat)
    requires i < |t|
    ensures multiset(t[..i] + t[i + 1..]) == multiset(t) - multiset{t[i]}
  {
    assert t == t[..i] + [t[i]] + t[i + 1..];
  }

  lemma {:induction false} CountPermuted(s: seq<Source>, t: seq<Source>, rel: (Source, Source) -> bool, c: Source)
    requires multiset(s) == multiset(t)
    ensures HowMany(s, rel, c) == HowMany(t, rel, c)
  {
    hide HowMany;
    assert |s| == |multiset(s)| == |t|;
    if s == [] {
      assert t == s;
    } else {
      var last := |s| - 1;
      assert s[last] in multiset(t);
      var i :| 0 <= i < |t| && t[i] == s[last];
      WithoutOne(s, last);
      WithoutOne(t, i);
      CountPermuted(s[..last] + s[last + 1..], t[..i] + t[i + 1..], rel, c);
      CountWithout(s, last, rel, c);
      CountWithout(t, i, rel, c);
    }
  }

  lemma {:induction false} FewRelated(s: seq<Source>, rel: (Source, Source) -> bool, c: Source, r: nat)
    requires r <= |s| && forall j :: r <= j < |s| ==> !rel(s[j], c)
    ensures HowMany(s, rel, c) <= r
  {
    if |s| > r {
      FewRelated(s[..|s| - 1], rel, c, r);
    } else if r > 0 {
      FewRelated(s[..|s| - 1], rel, c, r - 1);
    }
  }

  lemma {:induction false} ManyRelated(s: seq<Source>, rel: (Source, Source) -> bool, c: Source, r: nat)
    requires r <= |s| && forall j :: 0 <= j < r ==> rel(s[j], c)
    ensures HowMany(s, rel, c) >= r
  {
    if r == |s| && r > 0 {
      ManyRelated(s[..r - 1], rel, c, r - 1);
    } else if r < |s| {
      ManyRelated(s[..|s| - 1], rel, c, r);
    }
  }

  lemma {:induction false} EitherWay(s: seq<Source>, c: Source)
    requires forall j :: 0 <= j < |s| ==> SameGroup(s[j], c)
    ensures HowMany(s, SameGroup, c) == |s|
    ensures HowMany(s, Under, c) + HowMany(s, NotUnder, c) == |s|
    ensures HowMany(s, Over, c) + HowMany(s, NotOver, c) == |s|
  {
    hide SameGroup, Smaller;
    if s != [] {
      EitherWay(s[..|s| - 1], c);
    }
  }

  /** Where the members of a sorted group stand among each other. */
  lemma SortedCounts(s: seq<Source>, i: nat)
    requires SortedBy(BySize, s) && i < |s| && forall j :: 0 <= j < |s| ==> SameGroup(s[j], s[i])
    ensures HowMany(s, SameGroup, s[i]) == |s|
    ensures HowMany(s, Under, s[i]) <= i < HowMany(s, NotOver, s[i])
    ensures HowMany(s, Over, s[i]) <= |s| - 1 - i < HowMany(s, NotUnder, s[i])
  {
    hide SameGroup, Smaller, BySize, HowMany;
    EitherWay(s, s[i]);
    forall j | i <= j < |s| ensures !Under(s[j], s[i]) {
      SmallerMeaning(s[i], s[j]);
      NotSmallerThanItself(s[i]);
    }
    FewRelated(s, Under, s[i], i);
    forall j | 0 <= j <= i ensures NotOver(s[j], s[i]) {
      SmallerMeaning(s[j], s[i]);
      NotSmallerThanItself(s[i]);
    }
    ManyRelated(s, NotOver, s[i], i + 1);
  }

  lemma NotSmallerThanItself(a: Source)
    ensures !Smaller(a, a)
  {
  }

  /** Place `p` of a group's queue is its turn `p`. */
  lemma QueueTurns(s: seq<Source>, k: Key, p: nat)
    requires p < |QueueOf(s, k)|
    ensures KeyOf(QueueOf(s, k)[p]) == Some(k)
    ensures TakesTurn(s, QueueOf(s, k)[p], p)
  {
    hide BySize, KeyOf, Select, HowMany, StableSort, SameGroup, Smaller, TotalPreorder, InGroup;
    var own := Select(s, KeyOf, k);
    var bySize := StableSort(BySize, own);
    BySizeOrders();
    SortIsSorted(BySize, own);
    var i := if p % 2 == 0 then p / 2 else |bySize| - 1 - p / 2;
    var c := bySize[i];
    forall j | 0 <= j < |bySize| ensures KeyOf(bySize[j]) == Some(k) { FiledUnder(s, k, bySize[j]); }
    ValidOfKey(c);
    forall j | 0 <= j < |bySize| ensures SameGroup(bySize[j], c) { SameGroupKey(bySize[j], c); }
    SortedCounts(bySize, i);
    GroupCounts(s, bySize, c);
  }

  lemma ValidOfKey(c: Source)
    ensures KeyOf(c).Some? <==> c.invalidReason.None?
  {
  }

  lemma FiledUnder(s: seq<Source>, k: Key, x: Source)
    requires x in StableSort(BySize, Select(s, KeyOf, k))
    ensures KeyOf(x) == Some(k)
  {
    SortMembers(BySize, Select(s, KeyOf, k), x);
    SelectCount(s, KeyOf, k, x);
    assert x in multiset(Select(s, KeyOf, k));
  }

  /** Counting in the whole list or in the sorted group is the same. */
  lemma GroupCounts(s: seq<Source>, bySize: seq<Source>, c: Source)
    requires KeyOf(c).Some? && multiset(bySize) == multiset(Select(s, KeyOf, KeyOf(c).value))
    ensures HowMany(s, SameGroup, c) == HowMany(bySize, SameGroup, c)
    ensures HowMany(s, Under, c) == HowMany(bySize, Under, c) && HowMany(s, NotUnder, c) == HowMany(bySize, NotUnder, c)
    ensures HowMany(s, Over, c) == HowMany(bySize, Over, c) && HowMany(s, NotOver, c) == HowMany(bySize, NotOver, c)
  {
    hide KeyOf, Select, HowMany, SameGroup, Smaller;
    OneCount(s, bySize, SameGroup, c);
    OneCount(s, bySize, Under, c);
    OneCount(s, bySize, NotUnder, c);
    OneCount(s, bySize, Over, c);
    OneCount(s, bySize, NotOver, c);
  }

  lemma OneCount(s: seq<Source>, group: seq<Source>, rel: (Source, Source) -> bool, c: Source)
    requires KeyOf(c).Some? && multiset(group) == multiset(Select(s, KeyOf, KeyOf(c).value)) && InGroup(rel, c)
    ensures HowMany(s, rel, c) == HowMany(group, rel, c)
  {
    hide KeyOf, Select, HowMany;
    CountInGroup(s, rel, c);
    CountPermuted(Select(s, KeyOf, KeyOf(c).value), group, rel, c);
  }

  /** In one turn the groups go in the order of their names. */
  lemma NamesGoFirst(s: seq<Source>, g: nat, h: nat, a: Source, b: Source, turn: nat)
    requires g < h < |Names(s)| && KeyOf(a) == Some(Names(s)[g]) && KeyOf(b) == Some(Names(s)[h])
    ensures GoesFirst(a, turn, b, turn)
  {
    hide StableSort, KeysOf, TotalPreorder;
    KeyLeOrders();
    SortIsSorted(KeyLe, KeysOf(s, KeyOf));
    NamesCover(s);
    assert KeyLe(Names(s)[g], Names(s)[h]);
  }

  ghost predicate FromTurn(s: seq<Source>, a: Slot, c: Source) {
    a.group < |Names(s)| && KeyOf(c) == Some(Names(s)[a.group]) && TakesTurn(s, c, a.place)
  }

  lemma TurnOfSlot(s: seq<Source>, x: nat) returns (a: Slot)
    requires x < |InTurn(Queues(s), |s|)|
    ensures a == Rounds(Sizes(Queues(s)), |s|)[x] && FromTurn(s, a, InTurn(Queues(s), |s|)[x])
  {
    hide Rounds, InTurn, QueueOf, Names, KeyOf, TakesTurn;
    a := TakenFrom(Queues(s), |s|, x);
    QueueTurns(s, Names(s)[a.group], a.place);
  }

  lemma SoonerGoesFirst(s: seq<Source>, a: Slot, b: Slot, c: Source, d: Source)
    requires Sooner(a, b) && FromTurn(s, a, c) && FromTurn(s, b, d)
    ensures GoesFirst(c, a.place, d, b.place)
  {
    hide Names, KeyOf, TakesTurn;
    if a.place == b.place {
      NamesGoFirst(s, a.group, b.group, c, d, a.place);
    }
  }

  /** The representative order, told from sizes, paths, channels and languages. */
  lemma RepresentativeMeaning(s: seq<Source>) returns (turns: seq<nat>)
    ensures Represents(s, Representative(s), turns)
  {
    hide Rounds, InTurn, Queues, Names, KeyOf, TakesTurn, GoesFirst, StableSort, Rejected, FromTurn, Sooner;
    RepresentativePermutes(s);
    var t, taken := Representative(s), InTurn(Queues(s), |s|);
    var slots := Rounds(Sizes(Queues(s)), |s|);
    turns := seq(|taken|, x requires 0 <= x < |taken| && |slots| == |taken| => slots[x].place);
    forall x | 0 <= x < |taken| ensures FromTurn(s, slots[x], t[x]) { var a := TurnOfSlot(s, x); }
    forall x | 0 <= x < |turns| ensures TakesTurn(s, t[x], turns[x]) { OfTurn(s, slots[x], t[x]); }
    forall x, y | 0 <= x < y < |turns| ensures GoesFirst(t[x], turns[x], t[y], turns[y]) {
      SlotsInOrder(Sizes(Queues(s)), |s|, x, y);
      SoonerGoesFirst(s, slots[x], slots[y], t[x], t[y]);
    }
    RejectedLast(s);
    forall x | |turns| <= x < |t| ensures t[x] == StableSort(ByPath, Rejected(s, KeyOf))[x - |turns|] {}
  }

  lemma OfTurn(s: seq<Source>, a: Slot, c: Source)
    requires FromTurn(s, a, c)
    ensures TakesTurn(s, c, a.place)
  {
  }

  lemma RejectedLast(s: seq<Source>)
    ensures var r := StableSort(ByPath, Rejected(s, KeyOf));
            && (forall x :: 0 <= x < |r| ==> r[x].invalidReason.Some?)
            && forall x, y :: 0 <= x < y < |r| ==> StringLe(r[x].relpath, r[y].relpath)
  {
    hide StableSort, Rejected, TotalPreorder;
    var r := StableSort(ByPath, Rejected(s, KeyOf));
    ByPathOrders();
    SortIsSorted(ByPath, Rejected(s, KeyOf));
    forall x | 0 <= x < |r| ensures r[x].invalidReason.Some? {
      SortMembers(ByPath, Rejected(s, KeyOf), r[x]);
      RejectedCount(s, KeyOf, r[x]);
      assert r[x] in multiset(Rejected(s, KeyOf));
    }
    forall x, y | 0 <= x < y < |r| ensures StringLe(r[x].relpath, r[y].relpath) { assert ByPath(r[x], r[y]); }
  }

  // ----- scanning -----

  /** What reading, decoding, parsing, re-reading and splitting one transcript turn up. */
  datatype Reading = Reading(opens: bool, utf8: bool, parses: bool, stable: bool, segments: nat, splits: bool)

  /** The reason a selected source is not indexed, if there is one. */
  function Verdict(c: Source, reading: Reading): Option<string> {
    if c.invalidReason.Some? then c.invalidReason
    else if !reading.opens then Some("unreadable_source")
    else if !reading.utf8 then Some("invalid_utf8")
    else if !reading.stable then Some("source_changed_during_parse")
    else if !reading.parses then Some("parse_error")
    else if reading.segments == 0 then Some("empty_segments")
    else if !reading.splits then Some("invalid_segments")
    else None
  }

  datatype Selection = Ordered | Representatively

  datatype Manifest = Manifest(documents: seq<Source>, invalid: seq<(Source, string)>, discovered: nat)

  /** The sources of `s` that can be indexed, and those that cannot, each in order. */
  function Indexable(s: seq<Source>, read: Source -> Reading): seq<Source> {
    if s == [] then []
    else
      var last := s[|s| - 1];
      Indexable(s[..|s| - 1], read) + if Verdict(last, read(last)).None? then [last] else []
  }

  function Unindexable(s: seq<Source>, read: Source -> Reading): seq<(Source, string)> {
    if s == [] then []
    else
      var last := s[|s| - 1];
      Unindexable(s[..|s| - 1], read) +
        match Verdict(last, read(last)) case None => [] case Some(reason) => [(last, reason)]
  }

  lemma {:induction false} EverySourceCounted(s: seq<Source>, read: Source -> Reading)
    ensures |Indexable(s, read)| + |Unindexable(s, read)| == |s|
  {
    if s != [] {
      EverySourceCounted(s[..|s| - 1], read);
    }
  }

  lemma {:induction false} IndexableCount(s: seq<Source>, read: Source -> Reading, x: Source)
    ensures multiset(Indexable(s, read))[x] == if Verdict(x, read(x)).None? then multiset(s)[x] else 0
  {
    hide Verdict;
    if s != [] {
      IndexableCount(s[..|s| - 1], read, x);
      assert s == s[..|s| - 1] + [s[|s| - 1]];
    }
  }

  /** How many sources can be indexed does not depend on their order. */
  lemma IndexableOfPermutation(s: seq<Source>, t: seq<Source>, read: Source -> Reading)
    requires multiset(s) == multiset(t)
    ensures |Indexable(s, read)| == |Indexable(t, read)|
  {
    hide Indexable, Verdict;
    forall x ensures multiset(Indexable(s, read))[x] == multiset(Indexable(t, read))[x] {
      IndexableCount(s, read, x);
      IndexableCount(t, read, x);
    }
    assert multiset(Indexable(s, read)) == multiset(Indexable(t, read));
    assert |multiset(Indexable(s, read))| == |Indexable(s, read)|;
  }

  lemma IndexStep(s: seq<Source>, c: Source, read: Source -> Reading)
    ensures Indexable(s + [c], read) == Indexable(s, read) + if Verdict(c, read(c)).None? then [c] else []
    ensures Unindexable(s + [c], read) == Unindexable(s, read) +
            match Verdict(c, read(c)) case None => [] case Some(reason) => [(c, reason)]
  {
    assert (s + [c])[..|s|] == s;
  }

  /** Indexing a longer prefix never indexes fewer. */
  lemma {:induction false} IndexableGrows(s: seq<Source>, n: nat, read: Source -> Reading)
    requires n <= |s|
    ensures |Indexable(s[..n], read)| <= |Indexable(s, read)|
  {
    if n == |s| {
      assert s[..n] == s;
    } else {
      IndexableGrows(s[..|s| - 1], n, read);
      assert s[..|s| - 1][..n] == s[..n];
    }
  }

  // ----- what a scan says of the sources it visits -----

  /** The source can be indexed. */
  predicate Sound(c: Source, r: Reading) {
    c.invalidReason.None? && r.opens && r.utf8 && r.stable && r.parses && r.segments > 0 && r.splits
  }

  /** The reason is what the inventory knows, or the first step of the reading that fails. */
  predicate Explains(c: Source, r: Reading, reason: string) {
    var read := r.opens && r.utf8 && r.stable;
    || c.invalidReason == Some(reason)
    || (&& c.invalidReason.None?
        && (|| (reason == "unreadable_source" && !r.opens)
            || (reason == "invalid_utf8" && r.opens && !r.utf8)
            || (reason == "source_changed_during_parse" && r.opens && r.utf8 && !r.stable)
            || (reason == "parse_error" && read && !r.parses)
            || (reason == "empty_segments" && read && r.parses && r.segments == 0)
            || (reason == "invalid_segments" && read && r.parses && r.segments > 0 && !r.splits)))
  }

  /** The documents are the sources at the places `at`, the others are those at `out`, in order, and every source is
      at one of these places. */
  ghost predicate Accounts(s: seq<Source>, read: Source -> Reading, documents: seq<Source>, invalid: seq<(Source, string)>,
                           at: seq<nat>, out: seq<nat>)
  {
    && |at| == |documents| && |out| == |invalid|
    && Increasing(at) && Increasing(out)
    && (forall x :: 0 <= x < |at| ==> at[x] < |s| && documents[x] == s[at[x]] && Sound(s[at[x]], read(s[at[x]])))
    && (forall x :: 0 <= x < |out| ==>
          out[x] < |s| && invalid[x].0 == s[out[x]] && Explains(s[out[x]], read(s[out[x]]), invalid[x].1))
    && forall i: nat :: i < |s| ==> i in at || i in out
  }

  lemma VerdictMeaning(c: Source, r: Reading)
    ensures match Verdict(c, r) case None => Sound(c, r) case Some(reason) => Explains(c, r, reason)
  {
  }

  lemma AccountsDocument(s: seq<Source>, read: Source -> Reading, documents: seq<Source>, invalid: seq<(Source, string)>,
                         at: seq<nat>, out: seq<nat>, c: Source)
    requires Accounts(s, read, documents, invalid, at, out) && Sound(c, read(c))
    ensures Accounts(s + [c], read, documents + [c], invalid, at + [|s|], out)
  {
    hide Sound, Explains;
    assert (at + [|s|])[|at|] == |s|;
    forall i: nat | i < |s| + 1 ensures i in at + [|s|] || i in out {}
  }

  lemma AccountsInvalid(s: seq<Source>, read: Source -> Reading, documents: seq<Source>, invalid: seq<(Source, string)>,
                        at: seq<nat>, out: seq<nat>, c: Source, reason: string)
    requires Accounts(s, read, documents, invalid, at, out) && Explains(c, read(c), reason)
    ensures Accounts(s + [c], read, documents, invalid + [(c, reason)], at, out + [|s|])
  {
    hide Sound, Explains;
    assert (out + [|s|])[|out|] == |s|;
    forall i: nat | i < |s| + 1 ensures i in at || i in out + [|s|] {}
  }

  /** Every source visited is a document or is listed with its reason, in order. */
  lemma {:induction false} ScanAccounts(s: seq<Source>, read: Source -> Reading) returns (at: seq<nat>, out: seq<nat>)
    ensures Accounts(s, read, Indexable(s, read), Unindexable(s, read), at, out)
  {
    hide Verdict, Sound, Explains, Accounts;
    if s == [] {
      at, out := [], [];
      NothingAccounted(read);
    } else {
      var before, last := s[..|s| - 1], s[|s| - 1];
      at, out := ScanAccounts(before, read);
      assert s == before + [last];
      VerdictMeaning(last, read(last));
      match Verdict(last, read(last)) {
        case None =>
          AccountsDocument(before, read, Indexable(before, read), Unindexable(before, read), at, out, last);
          at := at + [|before|];
          assert Unindexable(s, read) == Unindexable(before, read);
        case Some(reason) =>
          AccountsInvalid(before, read, Indexable(before, read), Unindexable(before, read), at, out, last, reason);
          out := out + [|before|];
          assert Indexable(s, read) == Indexable(before, read);
      }
    }
  }

  lemma NothingAccounted(read: Source -> Reading)
    ensures Accounts([], read, [], [], [], [])
  {
  }

  method Scan(candidates: seq<Source>, read: Source -> Reading, limit: Option<int>, selection: Selection)
    returns (result: Option<Manifest>, ghost selected: seq<Source>, ghost visited: nat,
             ghost turns: seq<nat>, ghost at: seq<nat>, ghost out: seq<nat>)
    ensures result.None? <==> limit.Some? && !(1 <= limit.value <= 50)
    ensures result.Some? ==>
              && result.value.discovered == |candidates|
              && visited <= |selected| && |selected| <= |candidates|
              && result.value.documents == Indexable(selected[..visited], read)
              && result.value.invalid == Unindexable(selected[..visited], read)
              && |result.value.documents| + |result.value.invalid| == visited
              && Accounts(selected[..visited], read, result.value.documents, result.value.invalid, at, out)
    ensures result.Some? && limit.None? ==> selected == candidates && visited == |candidates|
    ensures result.Some? && limit.Some? && selection.Ordered? ==>
              selected == candidates[..Min(limit.value, |candidates|)] && visited == |selected|
    ensures result.Some? && limit.Some? && selection.Representatively? ==>
              && selected == Representative(candidates) && Represents(candidates, selected, turns)
              && |result.value.documents| == Min(limit.value, |Indexable(candidates, read)|)
              && |result.value.documents| <= limit.value
              && (visited < |selected| ==> |result.value.documents| == limit.value)
  {
    hide Indexable, Unindexable, Verdict, Representative, Represents, Accounts;
    selected, visited, turns, at, out := [], 0, [], [], [];
    if limit.Some? && !(1 <= limit.value <= 50) { return None, selected, visited, turns, at, out; }
    var chosen: seq<Source>;
    if limit.None? {
      chosen := candidates;
    } else if selection.Ordered? {
      chosen := candidates[..Min(limit.value, |candidates|)];
    } else {
      chosen := RepresentativeCandidates(candidates);
      turns := RepresentativeMeaning(candidates);
      RepresentativePermutes(candidates);
      SameLength(chosen, candidates);
      IndexableOfPermutation(chosen, candidates, read);
    }
    selected := chosen;
    var documents, invalid := [], [];
    var n := 0;
    NothingIndexed(read);
    while n < |chosen|
      invariant n <= |chosen|
      invariant documents == Indexable(chosen[..n], read)
      invariant invalid == Unindexable(chosen[..n], read)
      invariant limit.Some? && selection.Representatively? ==> |documents| <= limit.value
    {
      if limit.Some? && selection.Representatively? && |documents| == limit.value {
        break;
      }
      var c := chosen[n];
      assert chosen[..n + 1] == chosen[..n] + [c];
      IndexStep(chosen[..n], c, read);
      match Verdict(c, read(c)) {
        case Some(reason) => invalid := invalid + [(c, reason)];
        case None => documents := documents + [c];
      }
      n := n + 1;
    }
    visited := n;
    EverySourceCounted(chosen[..n], read);
    at, out := ScanAccounts(chosen[..n], read);
    IndexableGrows(chosen, n, read);
    assert n == |chosen| ==> chosen[..n] == chosen;
    result := Some(Manifest(documents, invalid, |candidates|));
  }

  lemma SameLength(s: seq<Source>, t: seq<Source>)
    requires multiset(s) == multiset(t)
    ensures |s| == |t|
  {
    assert |multiset(s)| == |s| && |multiset(t)| == |t|;
  }

  lemma NothingIndexed(read: Source -> Reading)
    ensures Indexable([], read) == [] && Unindexable([], read) == []
  {
  }
}
