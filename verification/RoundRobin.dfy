/** Taking turns: round `r` takes the `r`-th member of every group that still has one, in group order. */
module RoundRobin {
  import opened Basics

  /** Member `place` of group `group`. */
  datatype Slot = Slot(group: nat, place: nat)

  /** The groups, among the first `g`, that have more than `r` members. */
  function Active(sizes: seq<nat>, r: nat, g: nat): (ids: seq<nat>)
    requires g <= |sizes|
    ensures forall i :: 0 <= i < |ids| ==> ids[i] < g && sizes[ids[i]] > r
  {
    if g == 0 then []
    else Active(sizes, r, g - 1) + if r < sizes[g - 1] then [g - 1] else []
  }

  lemma {:induction false} LongIsActive(sizes: seq<nat>, n: nat, g: nat, h: nat)
    requires h < g <= |sizes| && n < sizes[h]
    ensures h in Active(sizes, n, g)
  {
    if h < g - 1 {
      LongIsActive(sizes, n, g - 1, h);
    }
  }

  function Turns(ids: seq<nat>, r: nat): (slots: seq<Slot>)
    ensures |slots| == |ids|
    ensures forall i :: 0 <= i < |ids| ==> slots[i] == Slot(ids[i], r)
  {
    seq(|ids|, i requires 0 <= i < |ids| => Slot(ids[i], r))
  }

  /** Round `r` up to group `g`. */
  function Round(sizes: seq<nat>, r: nat, g: nat): seq<Slot>
    requires g <= |sizes|
  {
    Turns(Active(sizes, r, g), r)
  }

  /** The first `n` rounds. */
  function Rounds(sizes: seq<nat>, n: nat): seq<Slot> {
    if n == 0 then [] else Rounds(sizes, n - 1) + Round(sizes, n - 1, |sizes|)
  }

  /** `n` whole rounds and the next one up to group `g`. */
  function Taken(sizes: seq<nat>, n: nat, g: nat): seq<Slot>
    requires g <= |sizes|
  {
    Rounds(sizes, n) + Round(sizes, n, g)
  }

  function Count(slots: seq<Slot>, h: nat): nat {
    if slots == [] then 0
    else Count(slots[..|slots| - 1], h) + if slots[|slots| - 1].group == h then 1 else 0
  }

  lemma {:induction false} CountAppend(a: seq<Slot>, b: seq<Slot>, h: nat)
    ensures Count(a + b, h) == Count(a, h) + Count(b, h)
  {
    if b == [] {
      assert a + b == a;
    } else {
      assert (a + b)[..|a + b| - 1] == a + b[..|b| - 1];
      CountAppend(a, b[..|b| - 1], h);
    }
  }

  lemma RoundStep(sizes: seq<nat>, r: nat, g: nat)
    requires 0 < g <= |sizes|
    ensures Round(sizes, r, g) == Round(sizes, r, g - 1) + if r < sizes[g - 1] then [Slot(g - 1, r)] else []
  {
  }

  lemma CountOne(s: Slot, h: nat)
    ensures Count([], h) == 0
    ensures Count([s], h) == if s.group == h then 1 else 0
  {
    assert [s][..0] == [];
  }

  lemma {:induction false} RoundCount(sizes: seq<nat>, r: nat, g: nat, h: nat)
    requires g <= |sizes| && h < |sizes|
    ensures Count(Round(sizes, r, g), h) == if h < g && r < sizes[h] then 1 else 0
  {
    hide Count;
    CountOne(Slot(if g > 0 then g - 1 else 0, r), h);
    if g > 0 {
      RoundCount(sizes, r, g - 1, h);
      RoundStep(sizes, r, g);
      CountAppend(Round(sizes, r, g - 1), if r < sizes[g - 1] then [Slot(g - 1, r)] else [], h);
    }
  }

  lemma {:induction false} TakenCount(sizes: seq<nat>, n: nat, g: nat, h: nat)
    requires g <= |sizes| && h < |sizes|
    ensures Count(Taken(sizes, n, g), h) == Min(sizes[h], n + if h < g then 1 else 0)
    decreases n
  {
    hide Count, Round;
    if n > 0 {
      TakenCount(sizes, n - 1, |sizes|, h);
    } else {
      CountOne(Slot(0, 0), h);
    }
    RoundCount(sizes, n, g, h);
    CountAppend(Rounds(sizes, n), Round(sizes, n, g), h);
  }

  /** Every prefix of a round is that round cut off at some group. */
  lemma {:induction false} PrefixOfRound(sizes: seq<nat>, r: nat, g: nat, k: nat) returns (f: nat)
    requires g <= |sizes| && k <= |Round(sizes, r, g)|
    ensures f <= g && Round(sizes, r, g)[..k] == Round(sizes, r, f)
  {
    if k == |Round(sizes, r, g)| {
      f := g;
    } else {
      RoundStep(sizes, r, g);
      f := PrefixOfRound(sizes, r, g - 1, k);
      assert Round(sizes, r, g)[..k] == Round(sizes, r, g - 1)[..k];
    }
  }

  lemma NobodyTaken(sizes: seq<nat>)
    ensures Taken(sizes, 0, 0) == []
  {
  }

  /** Every prefix of the rounds is some whole rounds and part of the next. */
  lemma {:induction false} PrefixOfRounds(sizes: seq<nat>, m: nat, k: nat) returns (n: nat, g: nat)
    requires k <= |Rounds(sizes, m)|
    ensures g <= |sizes| && Rounds(sizes, m)[..k] == Taken(sizes, n, g)
  {
    hide Round;
    if m == 0 {
      n, g := 0, 0;
      NobodyTaken(sizes);
    } else if k <= |Rounds(sizes, m - 1)| {
      n, g := PrefixOfRounds(sizes, m - 1, k);
      assert Rounds(sizes, m)[..k] == Rounds(sizes, m - 1)[..k];
    } else {
      var before := Rounds(sizes, m - 1);
      n := m - 1;
      g := PrefixOfRound(sizes, n, |sizes|, k - |before|);
      assert Rounds(sizes, m)[..k] == before + Round(sizes, n, |sizes|)[..k - |before|];
    }
  }

  /** In every prefix two groups' counts differ by at most one, unless the one behind has nothing left. */
  lemma Fair(sizes: seq<nat>, m: nat, k: nat, h: nat, other: nat)
    requires k <= |Rounds(sizes, m)| && h < |sizes| && other < |sizes|
    ensures var c := Count(Rounds(sizes, m)[..k], h);
            c <= sizes[h] && (Count(Rounds(sizes, m)[..k], other) <= c + 1 || c == sizes[h])
  {
    var n, g := PrefixOfRounds(sizes, m, k);
    TakenCount(sizes, n, g, h);
    TakenCount(sizes, n, g, other);
  }

  // ----- the members themselves -----

  function Sizes<T>(groups: seq<seq<T>>): (sizes: seq<nat>)
    ensures |sizes| == |groups|
    ensures forall i :: 0 <= i < |groups| ==> sizes[i] == |groups[i]|
  {
    seq(|groups|, i requires 0 <= i < |groups| => |groups[i]|)
  }

  ghost predicate Within<T>(groups: seq<seq<T>>, slots: seq<Slot>) {
    forall i :: 0 <= i < |slots| ==> slots[i].group < |groups| && slots[i].place < |groups[slots[i].group]|
  }

  ghost function Members<T>(groups: seq<seq<T>>, slots: seq<Slot>): (members: seq<T>)
    requires Within(groups, slots)
    ensures |members| == |slots|
    ensures forall i :: 0 <= i < |slots| ==> members[i] == groups[slots[i].group][slots[i].place]
  {
    seq(|slots|, i requires 0 <= i < |slots| && Within(groups, slots) => groups[slots[i].group][slots[i].place])
  }

  lemma RoundWithin<T>(groups: seq<seq<T>>, r: nat, g: nat)
    requires g <= |groups|
    ensures Within(groups, Round(Sizes(groups), r, g))
  {
  }

  lemma WithinConcat<T>(groups: seq<seq<T>>, a: seq<Slot>, b: seq<Slot>)
    requires Within(groups, a) && Within(groups, b)
    ensures Within(groups, a + b)
  {
  }

  lemma {:induction false} RoundsWithin<T>(groups: seq<seq<T>>, n: nat)
    ensures Within(groups, Rounds(Sizes(groups), n))
  {
    if n > 0 {
      hide Within, Round;
      RoundsWithin(groups, n - 1);
      RoundWithin(groups, n - 1, |groups|);
      WithinConcat(groups, Rounds(Sizes(groups), n - 1), Round(Sizes(groups), n - 1, |groups|));
    }
  }

  /** The members in the order the first `n` rounds take them. */
  ghost function InTurn<T>(groups: seq<seq<T>>, n: nat): (members: seq<T>)
    ensures |members| == |Rounds(Sizes(groups), n)|
  {
    RoundsWithin(groups, n);
    Members(groups, Rounds(Sizes(groups), n))
  }

  /** What round `r` adds. */
  ghost function Column<T>(groups: seq<seq<T>>, r: nat): seq<T> {
    RoundWithin(groups, r, |groups|);
    Members(groups, Round(Sizes(groups), r, |groups|))
  }

  lemma InTurnStep<T>(groups: seq<seq<T>>, n: nat)
    ensures InTurn(groups, n + 1) == InTurn(groups, n) + Column(groups, n)
  {
  }

  /** Once every group is exhausted, further rounds add nothing. */
  lemma {:induction false} NoMoreTurns<T>(groups: seq<seq<T>>, n: nat, m: nat)
    requires n <= m && forall i :: 0 <= i < |groups| ==> |groups[i]| <= n
    ensures InTurn(groups, m) == InTurn(groups, n)
    decreases m
  {
    hide InTurn, Column;
    if n < m {
      NoMoreTurns(groups, n, m - 1);
      InTurnStep(groups, m - 1);
      EmptyColumn(groups, m - 1);
    }
  }

  lemma EmptyColumn<T>(groups: seq<seq<T>>, r: nat)
    requires forall i :: 0 <= i < |groups| ==> |groups[i]| <= r
    ensures Column(groups, r) == []
  {
    EmptyRound(Sizes(groups), r, |groups|);
  }

  lemma {:induction false} EmptyRound(sizes: seq<nat>, r: nat, g: nat)
    requires g <= |sizes| && forall i :: 0 <= i < |sizes| ==> sizes[i] <= r
    ensures Active(sizes, r, g) == []
  {
    if g > 0 {
      EmptyRound(sizes, r, g - 1);
    }
  }

  /** The first `n` members of each of the first `g` groups, one group after the other. */
  ghost function Heads<T>(groups: seq<seq<T>>, n: nat, g: nat): seq<T>
    requires g <= |groups|
  {
    if g == 0 then [] else Heads(groups, n, g - 1) + groups[g - 1][..Min(n, |groups[g - 1]|)]
  }

  function Flatten<T>(groups: seq<seq<T>>, g: nat): seq<T>
    requires g <= |groups|
  {
    if g == 0 then [] else Flatten(groups, g - 1) + groups[g - 1]
  }

  lemma {:induction false} NoHeads<T>(groups: seq<seq<T>>, g: nat)
    requires g <= |groups|
    ensures Heads(groups, 0, g) == []
  {
    if g > 0 {
      NoHeads(groups, g - 1);
    }
  }

  lemma {:induction false} AllHeads<T>(groups: seq<seq<T>>, n: nat, g: nat)
    requires g <= |groups| && forall i :: 0 <= i < |groups| ==> |groups[i]| <= n
    ensures Heads(groups, n, g) == Flatten(groups, g)
  {
    if g > 0 {
      AllHeads(groups, n, g - 1);
      assert groups[g - 1][..|groups[g - 1]|] == groups[g - 1];
    }
  }

  /** The member that group `g` contributes to round `r`. */
  function More<T>(group: seq<T>, r: nat): seq<T> { if r < |group| then [group[r]] else [] }

  lemma MembersStep<T>(groups: seq<seq<T>>, r: nat, g: nat)
    requires 0 < g <= |groups|
    ensures Within(groups, Round(Sizes(groups), r, g)) && Within(groups, Round(Sizes(groups), r, g - 1))
    ensures Members(groups, Round(Sizes(groups), r, g)) ==
            Members(groups, Round(Sizes(groups), r, g - 1)) + More(groups[g - 1], r)
  {
    hide Round, Within;
    RoundWithin(groups, r, g - 1);
    RoundWithin(groups, r, g);
    RoundStep(Sizes(groups), r, g);
  }

  lemma OneMore<T>(group: seq<T>, r: nat)
    ensures group[..Min(r + 1, |group|)] == group[..Min(r, |group|)] + More(group, r)
  {
  }

  lemma MembersOfNone<T>(groups: seq<seq<T>>, r: nat)
    ensures Within(groups, Round(Sizes(groups), r, 0)) && Members(groups, Round(Sizes(groups), r, 0)) == []
  {
  }

  /** Round `r`, up to group `g`, adds one more member to the heads of the groups that have one. */
  lemma {:induction false} RoundAdds<T>(groups: seq<seq<T>>, r: nat, g: nat)
    requires g <= |groups| && Within(groups, Round(Sizes(groups), r, g))
    ensures multiset(Heads(groups, r + 1, g)) ==
            multiset(Heads(groups, r, g)) + multiset(Members(groups, Round(Sizes(groups), r, g)))
  {
    hide Round, Within, Members, More;
    if g == 0 {
      MembersOfNone(groups, r);
    } else {
      MembersStep(groups, r, g);
      RoundAdds(groups, r, g - 1);
      OneMore(groups[g - 1], r);
    }
  }

  /** `n` rounds take exactly the first `n` members of every group. */
  lemma {:induction false} InTurnTakesHeads<T>(groups: seq<seq<T>>, n: nat)
    ensures multiset(InTurn(groups, n)) == multiset(Heads(groups, n, |groups|))
  {
    hide InTurn, Round, Heads;
    if n == 0 {
      NoHeads(groups, |groups|);
      NoTurns(groups);
    } else {
      InTurnTakesHeads(groups, n - 1);
      InTurnStep(groups, n - 1);
      RoundWithin(groups, n - 1, |groups|);
      RoundAdds(groups, n - 1, |groups|);
    }
  }

  lemma NoTurns<T>(groups: seq<seq<T>>)
    ensures InTurn(groups, 0) == []
  {
  }

  /** Enough rounds take every member exactly once. */
  lemma InTurnTakesAll<T>(groups: seq<seq<T>>, n: nat)
    requires forall i :: 0 <= i < |groups| ==> |groups[i]| <= n
    ensures multiset(InTurn(groups, n)) == multiset(Flatten(groups, |groups|))
  {
    InTurnTakesHeads(groups, n);
    AllHeads(groups, n, |groups|);
  }

  lemma {:induction false} MoreTurns<T>(groups: seq<seq<T>>, n: nat, m: nat)
    requires n <= m
    ensures InTurn(groups, n) <= InTurn(groups, m)
    decreases m
  {
    hide InTurn, Column;
    if n < m {
      MoreTurns(groups, n, m - 1);
      InTurnStep(groups, m - 1);
    }
  }

  /** Part of a round is a prefix of it. */
  lemma {:induction false} PartOfColumn<T>(groups: seq<seq<T>>, r: nat, g: nat)
    requires g <= |groups|
    ensures Within(groups, Round(Sizes(groups), r, g)) && Members(groups, Round(Sizes(groups), r, g)) <= Column(groups, r)
    decreases |groups| - g
  {
    hide Round, Members, More;
    RoundWithin(groups, r, g);
    if g < |groups| {
      PartOfColumn(groups, r, g + 1);
      MembersStep(groups, r, g + 1);
    }
  }

  // ----- the order of the turns -----

  ghost predicate Increasing(ids: seq<nat>) { forall i, j :: 0 <= i < j < |ids| ==> ids[i] < ids[j] }

  lemma IncreasingAppend(ids: seq<nat>, id: nat)
    requires Increasing(ids) && forall i :: 0 <= i < |ids| ==> ids[i] < id
    ensures Increasing(ids + [id])
  {
  }

  lemma {:induction false} ActiveIncreases(sizes: seq<nat>, n: nat, g: nat)
    requires g <= |sizes|
    ensures Increasing(Active(sizes, n, g))
  {
    if g > 0 {
      hide Increasing;
      ActiveIncreases(sizes, n, g - 1);
      if n < sizes[g - 1] {
        IncreasingAppend(Active(sizes, n, g - 1), g - 1);
      } else {
        assert Active(sizes, n, g) == Active(sizes, n, g - 1);
      }
    }
  }

  /** The order in which slots are taken: by place, then by group. */
  predicate Sooner(a: Slot, b: Slot) { a.place < b.place || (a.place == b.place && a.group < b.group) }

  lemma {:induction false} PlacesBelow(sizes: seq<nat>, n: nat)
    ensures forall x :: 0 <= x < |Rounds(sizes, n)| ==> Rounds(sizes, n)[x].place < n
  {
    hide Active;
    if n > 0 {
      PlacesBelow(sizes, n - 1);
    }
  }

  lemma RoundInOrder(sizes: seq<nat>, r: nat, x: nat, y: nat)
    requires x < y < |Round(sizes, r, |sizes|)|
    ensures Sooner(Round(sizes, r, |sizes|)[x], Round(sizes, r, |sizes|)[y])
  {
    hide Active;
    ActiveIncreases(sizes, r, |sizes|);
  }

  lemma RoundPlaces(sizes: seq<nat>, r: nat)
    ensures forall x :: 0 <= x < |Round(sizes, r, |sizes|)| ==> Round(sizes, r, |sizes|)[x].place == r
  {
  }

  lemma {:induction false} SlotsInOrder(sizes: seq<nat>, n: nat, x: nat, y: nat)
    requires x < y < |Rounds(sizes, n)|
    ensures Sooner(Rounds(sizes, n)[x], Rounds(sizes, n)[y])
  {
    hide Round;
    if n > 0 {
      var before := |Rounds(sizes, n - 1)|;
      if y < before {
        SlotsInOrder(sizes, n - 1, x, y);
      } else if x < before {
        PlacesBelow(sizes, n - 1);
        RoundPlaces(sizes, n - 1);
      } else {
        RoundInOrder(sizes, n - 1, x - before, y - before);
      }
    }
  }

  /** The members taken are those of the slots, one after the other. */
  lemma TakenFrom<T>(groups: seq<seq<T>>, n: nat, x: nat) returns (a: Slot)
    requires x < |InTurn(groups, n)|
    ensures a == Rounds(Sizes(groups), n)[x] && a.group < |groups| && a.place < |groups[a.group]|
    ensures InTurn(groups, n)[x] == groups[a.group][a.place]
  {
    hide Rounds;
    a := Rounds(Sizes(groups), n)[x];
    RoundsWithin(groups, n);
  }
}
