/** `research/assessment.py`: the best evidence per identity, in a strict order. */
module Assessment {
  import opened Basics
  import opened Grouping
  import opened Ordering

  /** A passage or a video: its identity, its rank in one search, and the video it belongs to. */
  datatype Evidence = Evidence(id: string, rank: real, videoId: string)

  /** Evidence with the two numbers it is compared by. */
  datatype Entry = Entry(first: real, second: real, item: Evidence)

  predicate Before(a: Entry, b: Entry) { a.first < b.first || (a.first == b.first && a.second < b.second) }

  predicate InOrder(a: Entry, b: Entry) {
    Before(a, b) || (a.first == b.first && a.second == b.second && StringLe(a.item.id, b.item.id))
  }

  function EntryId(e: Entry): Option<string> { Some(e.item.id) }

  // ----- the best entry per identity -----

  function Best(entries: seq<Entry>, id: string): (r: Option<Entry>)
    ensures r.Some? <==> id in KeysOf(entries, EntryId)
  {
    if entries == [] then None
    else
      var best, last := Best(entries[..|entries| - 1], id), entries[|entries| - 1];
      if last.item.id == id && (best.None? || Before(last, best.value)) then Some(last) else best
  }

  /** Entry `i` is the least of its identity by its two numbers, and the earliest of equals. */
  ghost predicate LeastAt(entries: seq<Entry>, id: string, i: nat) {
    && i < |entries| && entries[i].item.id == id
    && (forall j :: 0 <= j < i && entries[j].item.id == id ==> Before(entries[i], entries[j]))
    && (forall j :: i < j < |entries| && entries[j].item.id == id ==> !Before(entries[j], entries[i]))
  }

  lemma LeastStays(before: seq<Entry>, last: Entry, id: string, i: nat)
    requires LeastAt(before, id, i) && (last.item.id == id ==> !Before(last, before[i]))
    ensures LeastAt(before + [last], id, i)
  {
    hide Before;
  }

  lemma LeastGoes(before: seq<Entry>, last: Entry, id: string, i: nat)
    requires LeastAt(before, id, i) && last.item.id == id && Before(last, before[i])
    ensures LeastAt(before + [last], id, |before|)
  {
    forall j | 0 <= j < |before| && before[j].item.id == id ensures Before(last, before[j]) {
      assert j < i ==> Before(before[i], before[j]);
    }
  }

  lemma LeastAlone(before: seq<Entry>, last: Entry, id: string)
    requires last.item.id == id && forall j :: 0 <= j < |before| ==> before[j].item.id != id
    ensures LeastAt(before + [last], id, |before|)
  {
  }

  lemma NoneBefore(before: seq<Entry>, id: string)
    requires id !in KeysOf(before, EntryId)
    ensures forall j :: 0 <= j < |before| ==> before[j].item.id != id
  {
    hide KeysOf;
    KeysCover(before, EntryId);
    forall j | 0 <= j < |before| ensures before[j].item.id != id { assert before[j] in before; }
  }

  lemma BestStep(entries: seq<Entry>, e: Entry, id: string)
    ensures Best(entries + [e], id) ==
            if e.item.id == id && (Best(entries, id).None? || Before(e, Best(entries, id).value)) then Some(e)
            else Best(entries, id)
  {
    assert (entries + [e])[..|entries|] == entries;
  }

  /** The best entry is the least by its two numbers, and the earliest of equals. */
  lemma {:induction false} BestIsLeast(entries: seq<Entry>, id: string) returns (i: nat)
    requires id in KeysOf(entries, EntryId)
    ensures i < |entries| && entries[i].item.id == id && Best(entries, id) == Some(entries[i])
    ensures forall j :: 0 <= j < i && entries[j].item.id == id ==> Before(entries[i], entries[j])
    ensures forall j :: i < j < |entries| && entries[j].item.id == id ==> !Before(entries[j], entries[i])
  {
    i := BestAt(entries, id);
  }

  lemma {:induction false} BestAt(entries: seq<Entry>, id: string) returns (i: nat)
    requires Best(entries, id).Some?
    ensures LeastAt(entries, id, i) && Best(entries, id) == Some(entries[i])
  {
    var before, last := entries[..|entries| - 1], entries[|entries| - 1];
    hide Best, Before, KeysOf;
    assert entries == before + [last];
    BestStep(before, last, id);
    if Best(before, id).Some? {
      i := BestAt(before, id);
      if last.item.id == id && Before(last, before[i]) {
        LeastGoes(before, last, id, i);
        i := |before|;
      } else {
        LeastStays(before, last, id, i);
      }
    } else {
      NoneBefore(before, id);
      LeastAlone(before, last, id);
      i := |before|;
    }
  }

  /** One best entry for each identity, in order of first appearance. */
  function Winners(entries: seq<Entry>): (r: seq<Entry>)
    ensures |r| == |KeysOf(entries, EntryId)|
    ensures forall i :: 0 <= i < |r| ==> Best(entries, KeysOf(entries, EntryId)[i]) == Some(r[i])
  {
    var order := KeysOf(entries, EntryId);
    seq(|order|, i requires 0 <= i < |order| => Best(entries, order[i]).value)
  }

  function Ranked(entries: seq<Entry>): seq<Entry> { StableSort(InOrder, Winners(entries)) }

  function Items(entries: seq<Entry>): (items: seq<Evidence>)
    ensures |items| == |entries|
    ensures forall i :: 0 <= i < |items| ==> items[i] == entries[i].item
  {
    seq(|entries|, i requires 0 <= i < |entries| => entries[i].item)
  }

  // ----- the dictionary -----

  ghost predicate Table(entries: seq<Entry>, order: seq<string>, selected: map<string, Entry>) {
    && order == KeysOf(entries, EntryId)
    && (forall id :: id in selected <==> id in order)
    && (forall id :: id in selected ==> Best(entries, id) == Some(selected[id]))
  }

  lemma TableStep(entries: seq<Entry>, order: seq<string>, selected: map<string, Entry>, e: Entry)
    requires Table(entries, order, selected)
    ensures var id := e.item.id;
            if id !in selected then Table(entries + [e], order + [id], selected[id := e])
            else Table(entries + [e], order, if Before(e, selected[id]) then selected[id := e] else selected)
  {
    hide Best, KeysOf, Before;
    KeysAppend(entries, EntryId, e);
    assert order + [] == order;
    forall id ensures Best(entries + [e], id) ==
                      if e.item.id == id && (Best(entries, id).None? || Before(e, Best(entries, id).value)) then Some(e)
                      else Best(entries, id)
    {
      BestStep(entries, e, id);
    }
  }

  /** The two orders of comparison: (rank, query position), or (language position, rank). */
  datatype Comparison = RankFirst | PositionFirst

  function Tag(c: Comparison, e: Evidence, position: nat): Entry {
    match c
    case RankFirst => Entry(e.rank, position as real, e)
    case PositionFirst => Entry(position as real, e.rank, e)
  }

  function Tagged(c: Comparison, batch: seq<Evidence>, position: nat): (entries: seq<Entry>)
    ensures |entries| == |batch|
    ensures forall i :: 0 <= i < |batch| ==> entries[i] == Tag(c, batch[i], position)
  {
    seq(|batch|, i requires 0 <= i < |batch| => Tag(c, batch[i], position))
  }

  /** The entries of the first `n` batches, batch by batch. */
  function All(c: Comparison, batches: seq<seq<Evidence>>, n: nat): seq<Entry>
    requires n <= |batches|
  {
    if n == 0 then [] else All(c, batches, n - 1) + Tagged(c, batches[n - 1], n - 1)
  }

  /** `_select_best`. */
  method SelectBest(c: Comparison, order0: seq<string>, selected0: map<string, Entry>, candidates: seq<Evidence>,
                    position: nat, ghost entries: seq<Entry>)
    returns (order: seq<string>, selected: map<string, Entry>)
    requires Table(entries, order0, selected0)
    ensures Table(entries + Tagged(c, candidates, position), order, selected)
  {
    hide Table, Before;
    order, selected := order0, selected0;
    ghost var tagged := Tagged(c, candidates, position);
    assert entries + tagged[..0] == entries;
    for n := 0 to |candidates|
      invariant Table(entries + tagged[..n], order, selected)
    {
      var e := Tag(c, candidates[n], position);
      TableStep(entries + tagged[..n], order, selected, e);
      assert entries + tagged[..n] + [e] == entries + tagged[..n + 1];
      if e.item.id !in selected {
        selected := selected[e.item.id := e];
        order := order + [e.item.id];
      } else if Before(e, selected[e.item.id]) {
        selected := selected[e.item.id := e];
      }
    }
    assert tagged[..|candidates|] == tagged;
  }

  lemma TableWinners(entries: seq<Entry>, order: seq<string>, selected: map<string, Entry>)
    requires Table(entries, order, selected)
    ensures forall i :: 0 <= i < |order| ==> order[i] in selected
    ensures (forall i :: 0 <= i < |order| ==> order[i] in selected) ==> Values(order, selected) == Winners(entries)
  {
  }

  function Values(order: seq<string>, selected: map<string, Entry>): (r: seq<Entry>)
    requires forall i :: 0 <= i < |order| ==> order[i] in selected
    ensures |r| == |order|
    ensures forall i :: 0 <= i < |order| ==> r[i] == selected[order[i]]
  {
    seq(|order|, i requires 0 <= i < |order| && order[i] in selected => selected[order[i]])
  }

  // ----- assessing -----

  datatype Coverage = Coverage(matchedPassages: nat, matchedVideos: nat, zeroHits: seq<string>)

  /** The queries among the first `n` that found neither a passage nor a video. */
  function ZeroHits(queries: seq<string>, passages: seq<seq<Evidence>>, videos: seq<seq<Evidence>>, n: nat): seq<string>
    requires n <= |queries| == |passages| == |videos|
  {
    if n == 0 then []
    else ZeroHits(queries, passages, videos, n - 1) +
         if passages[n - 1] == [] && videos[n - 1] == [] then [queries[n - 1]] else []
  }

  function VideoIds(items: seq<Evidence>): set<string> { set e | e in items :: e.videoId }

  /** The query loop and the totals of `assess_local`. */
  method AssessLocal(queries: seq<string>, passages: seq<seq<Evidence>>, videos: seq<seq<Evidence>>)
    returns (bestPassages: seq<Evidence>, bestVideos: seq<Evidence>, coverage: Coverage)
    requires |queries| == |passages| == |videos|
    ensures bestPassages == Items(Ranked(All(RankFirst, passages, |queries|)))
    ensures bestVideos == Items(Ranked(All(RankFirst, videos, |queries|)))
    ensures coverage.zeroHits == ZeroHits(queries, passages, videos, |queries|)
    ensures coverage.matchedPassages == |bestPassages|
    ensures coverage.matchedVideos == |VideoIds(bestPassages) + VideoIds(bestVideos)|
    ensures RanksAs(RankFirst, passages, bestPassages) && RanksAs(RankFirst, videos, bestVideos)
  {
    hide Table, StableSort, Winners, RanksAs;
    var passageOrder, selectedPassages := [], map[];
    var videoOrder, selectedVideos := [], map[];
    var zero := [];
    NothingSelected();
    for q := 0 to |queries|
      invariant Table(All(RankFirst, passages, q), passageOrder, selectedPassages)
      invariant Table(All(RankFirst, videos, q), videoOrder, selectedVideos)
      invariant zero == ZeroHits(queries, passages, videos, q)
    {
      if passages[q] == [] && videos[q] == [] {
        zero := zero + [queries[q]];
      }
      passageOrder, selectedPassages :=
        SelectBest(RankFirst, passageOrder, selectedPassages, passages[q], q, All(RankFirst, passages, q));
      videoOrder, selectedVideos :=
        SelectBest(RankFirst, videoOrder, selectedVideos, videos[q], q, All(RankFirst, videos, q));
    }
    TableWinners(All(RankFirst, passages, |queries|), passageOrder, selectedPassages);
    TableWinners(All(RankFirst, videos, |queries|), videoOrder, selectedVideos);
    bestPassages := Items(StableSort(InOrder, Values(passageOrder, selectedPassages)));
    bestVideos := Items(StableSort(InOrder, Values(videoOrder, selectedVideos)));
    RankedRanks(RankFirst, passages);
    RankedRanks(RankFirst, videos);
    coverage := Coverage(|bestPassages|, |VideoIds(bestPassages) + VideoIds(bestVideos)|, zero);
  }

  lemma NothingSelected()
    ensures Table([], [], map[])
  {
  }

  /** The merge of `search_passages`: one batch of hits per language. */
  method MergeLanguages(hits: seq<seq<Evidence>>, limit: nat) returns (merged: seq<Evidence>)
    ensures var all := Items(Ranked(All(PositionFirst, hits, |hits|)));
            merged == all[..Min(limit, |all|)] && RanksAs(PositionFirst, hits, all)
  {
    hide RanksAs;
    RankedRanks(PositionFirst, hits);
    hide Table, StableSort, Winners;
    var order, selected := [], map[];
    NothingSelected();
    for language := 0 to |hits|
      invariant Table(All(PositionFirst, hits, language), order, selected)
    {
      order, selected :=
        SelectBest(PositionFirst, order, selected, hits[language], language, All(PositionFirst, hits, language));
    }
    TableWinners(All(PositionFirst, hits, |hits|), order, selected);
    var all := Items(StableSort(InOrder, Values(order, selected)));
    merged := all[..Min(limit, |all|)];
  }

  // ----- what the ranking promises -----

  lemma InOrderOrders()
    ensures TotalPreorder(InOrder)
  {
    forall a, b ensures InOrder(a, b) || InOrder(b, a) { StringLeTotal(a.item.id, b.item.id); }
    forall a, b, c | InOrder(a, b) && InOrder(b, c) ensures InOrder(a, c) {
      if a.first == b.first == c.first && a.second == b.second == c.second {
        StringLeTransitive(a.item.id, b.item.id, c.item.id);
      }
    }
  }

  /** `e` is the best entry of its own identity. */
  ghost predicate Wins(entries: seq<Entry>, e: Entry) { Best(entries, e.item.id) == Some(e) }

  lemma {:induction false} BestHasIdentity(entries: seq<Entry>, id: string)
    ensures Best(entries, id).Some? ==> Best(entries, id).value.item.id == id
  {
    if entries != [] {
      BestHasIdentity(entries[..|entries| - 1], id);
    }
  }

  lemma WinnerIds(entries: seq<Entry>)
    ensures forall i :: 0 <= i < |Winners(entries)| ==> Winners(entries)[i].item.id == KeysOf(entries, EntryId)[i]
    ensures NoRepeats(Winners(entries))
  {
    hide Best, KeysOf, Winners;
    KeysCover(entries, EntryId);
    forall i | 0 <= i < |Winners(entries)|
      ensures Winners(entries)[i].item.id == KeysOf(entries, EntryId)[i]
    {
      BestHasIdentity(entries, KeysOf(entries, EntryId)[i]);
    }
  }

  lemma WinnersWin(entries: seq<Entry>, e: Entry)
    ensures e in Winners(entries) <==> Wins(entries, e)
  {
    hide Best, KeysOf, Winners, NoRepeats;
    WinnerIds(entries);
    if Wins(entries, e) {
      var i :| 0 <= i < |KeysOf(entries, EntryId)| && KeysOf(entries, EntryId)[i] == e.item.id;
      assert Winners(entries)[i] == e;
    }
  }

  /** The output holds exactly the winning entries, one for each identity seen. */
  lemma RankedWin(entries: seq<Entry>, e: Entry)
    ensures e in Ranked(entries) <==> Wins(entries, e)
    ensures |Ranked(entries)| == |KeysOf(entries, EntryId)|
  {
    hide Winners, StableSort, Wins;
    SortMembers(InOrder, Winners(entries), e);
    WinnersWin(entries, e);
  }

  lemma SameIdentitySameWinner(entries: seq<Entry>, a: Entry, b: Entry)
    requires Wins(entries, a) && Wins(entries, b) && InOrder(a, b) && InOrder(b, a)
    ensures a == b
  {
    StringLeTotal(a.item.id, b.item.id);
  }

  /** Whatever the batches hold, the output is strictly ordered. */
  lemma RankedStrictly(entries: seq<Entry>)
    ensures Strictly(InOrder, Ranked(entries)) && NoRepeats(Ranked(entries))
  {
    hide Winners, StableSort, Wins, InOrder, KeysOf, Best, TotalPreorder;
    var r := Ranked(entries);
    InOrderOrders();
    SortIsSorted(InOrder, Winners(entries));
    WinnerIds(entries);
    PermutedNoRepeats(Winners(entries), r);
    forall i, j | 0 <= i < j < |r| ensures InOrder(r[i], r[j]) && !InOrder(r[j], r[i]) {
      assert r[i] in r && r[j] in r;
      RankedWin(entries, r[i]);
      RankedWin(entries, r[j]);
      if InOrder(r[j], r[i]) {
        SameIdentitySameWinner(entries, r[i], r[j]);
      }
    }
  }

  lemma SameMembers(s: seq<Entry>, t: seq<Entry>)
    requires NoRepeats(s) && NoRepeats(t) && forall e :: e in s <==> e in t
    ensures multiset(s) == multiset(t)
  {
    CountsOfNoRepeats(s);
    CountsOfNoRepeats(t);
    forall e ensures multiset(s)[e] == multiset(t)[e] {
      assert e in multiset(s) <==> e in s;
      assert e in multiset(t) <==> e in t;
    }
  }

  lemma StrictlyNoRepeats(s: seq<Entry>)
    requires Strictly(InOrder, s)
    ensures NoRepeats(s)
  {
  }

  /** The specification has one solution: any strictly ordered list of exactly the winners is the output. */
  lemma RankedUnique(entries: seq<Entry>, t: seq<Entry>)
    requires Strictly(InOrder, t) && forall e :: e in t <==> Wins(entries, e)
    ensures t == Ranked(entries)
  {
    hide Ranked, Wins, InOrder;
    RankedStrictly(entries);
    StrictlyNoRepeats(t);
    forall e ensures e in Ranked(entries) <==> e in t { RankedWin(entries, e); }
    SameMembers(Ranked(entries), t);
    StrictlySortedUnique(InOrder, Ranked(entries), t);
  }

  // ----- the ranking, told from the batches -----

  /** Hit `e` of batch `q` beats hit `f` of batch `p`: by rank and then by batch, or by batch and then by rank. */
  predicate Better(c: Comparison, e: Evidence, q: nat, f: Evidence, p: nat) {
    match c
    case RankFirst => e.rank < f.rank || (e.rank == f.rank && q < p)
    case PositionFirst => q < p || (q == p && e.rank < f.rank)
  }

  /** Equal hits, by both numbers, go by identity. */
  predicate Precedes(c: Comparison, e: Evidence, q: nat, f: Evidence, p: nat) {
    Better(c, e, q, f, p) || (e.rank == f.rank && q == p && e.id != f.id && StringLe(e.id, f.id))
  }

  predicate Within(batches: seq<seq<Evidence>>, q: nat, k: nat) { q < |batches| && k < |batches[q]| }

  /** Hit `k` of batch `q` is the best of its identity, and the earliest of equals. */
  ghost predicate Merits(c: Comparison, batches: seq<seq<Evidence>>, q: nat, k: nat) {
    && Within(batches, q, k)
    && forall p: nat, j: nat :: Within(batches, p, j) && batches[p][j].id == batches[q][k].id ==>
         if p < q || (p == q && j < k) then Better(c, batches[q][k], q, batches[p][j], p)
         else !Better(c, batches[p][j], p, batches[q][k], q)
  }

  /** Hit `k` of batch `q` is `e` and has won. */
  ghost predicate Gives(c: Comparison, batches: seq<seq<Evidence>>, q: nat, k: nat, e: Evidence) {
    Merits(c, batches, q, k) && batches[q][k] == e
  }

  ghost predicate HasWon(c: Comparison, batches: seq<seq<Evidence>>, e: Evidence) {
    exists q: nat, k: nat :: Gives(c, batches, q, k, e)
  }

  /** The result is the best hit of each identity, each once, in order. */
  ghost predicate RanksAs(c: Comparison, batches: seq<seq<Evidence>>, result: seq<Evidence>) {
    && (forall i, j :: 0 <= i < j < |result| ==> result[i].id != result[j].id)
    && (forall i :: 0 <= i < |result| ==> HasWon(c, batches, result[i]))
    && (forall q: nat, k: nat, e :: Gives(c, batches, q, k, e) ==> e in result)
    && forall i, j, q: nat, k: nat, p: nat, l: nat ::
         (0 <= i < j < |result| && Gives(c, batches, q, k, result[i]) && Gives(c, batches, p, l, result[j])) ==>
           Precedes(c, result[i], q, result[j], p)
  }

  /** Where hit `k` of batch `q` is among all hits. */
  function Flat(batches: seq<seq<Evidence>>, q: nat, k: nat): nat
    requires q <= |batches|
  {
    if q == 0 then k else Flat(batches, q - 1, |batches[q - 1]|) + k
  }

  lemma {:induction false} AllLength(c: Comparison, batches: seq<seq<Evidence>>, n: nat)
    requires n <= |batches|
    ensures |All(c, batches, n)| == Flat(batches, n, 0)
  {
    if n > 0 {
      AllLength(c, batches, n - 1);
    }
  }

  lemma {:induction false} AllAt(c: Comparison, batches: seq<seq<Evidence>>, n: nat, q: nat, k: nat)
    requires q < n <= |batches| && k < |batches[q]|
    ensures Flat(batches, q, k) < |All(c, batches, n)|
    ensures All(c, batches, n)[Flat(batches, q, k)] == Tag(c, batches[q][k], q)
    decreases n
  {
    AllLength(c, batches, n - 1);
    if q < n - 1 {
      AllAt(c, batches, n - 1, q, k);
    }
  }

  /** Places go up with the batch and, within one, with the hit. */
  lemma {:induction false} FlatRises(batches: seq<seq<Evidence>>, q: nat, k: nat, p: nat, j: nat)
    requires q < p < |batches| && k < |batches[q]|
    ensures Flat(batches, q, k) < Flat(batches, p, j)
    decreases p
  {
    if q < p - 1 {
      FlatRises(batches, q, k, p - 1, |batches[p - 1]|);
    }
  }

  /** Every place is that of some hit. */
  lemma {:induction false} FlatCovers(c: Comparison, batches: seq<seq<Evidence>>, n: nat, i: nat) returns (q: nat, k: nat)
    requires n <= |batches| && i < |All(c, batches, n)|
    ensures q < n && k < |batches[q]| && Flat(batches, q, k) == i
  {
    AllLength(c, batches, n - 1);
    AllLength(c, batches, n);
    if i < |All(c, batches, n - 1)| {
      q, k := FlatCovers(c, batches, n - 1, i);
    } else {
      q, k := n - 1, i - |All(c, batches, n - 1)|;
    }
  }

  lemma TagBetter(c: Comparison, e: Evidence, q: nat, f: Evidence, p: nat)
    ensures Before(Tag(c, e, q), Tag(c, f, p)) <==> Better(c, e, q, f, p)
    ensures InOrder(Tag(c, e, q), Tag(c, f, p)) && e.id != f.id ==> Precedes(c, e, q, f, p)
  {
  }

  lemma FlatOrder(batches: seq<seq<Evidence>>, q: nat, k: nat, p: nat, j: nat)
    requires Within(batches, q, k) && Within(batches, p, j)
    ensures Flat(batches, p, j) < Flat(batches, q, k) <==> p < q || (p == q && j < k)
  {
    if p < q {
      FlatRises(batches, p, j, q, k);
    } else if q < p {
      FlatRises(batches, q, k, p, j);
    }
  }

  /** The best of the batches is the least of the entries. */
  lemma LeastMerits(c: Comparison, batches: seq<seq<Evidence>>, q: nat, k: nat)
    requires Within(batches, q, k) && LeastAt(All(c, batches, |batches|), batches[q][k].id, Flat(batches, q, k))
    ensures Merits(c, batches, q, k)
  {
    hide Before, Better, Flat, All, Tag;
    var all := All(c, batches, |batches|);
    AllAt(c, batches, |batches|, q, k);
    forall p: nat, j: nat | Within(batches, p, j) && batches[p][j].id == batches[q][k].id
      ensures if p < q || (p == q && j < k) then Better(c, batches[q][k], q, batches[p][j], p)
              else !Better(c, batches[p][j], p, batches[q][k], q)
    {
      AllAt(c, batches, |batches|, p, j);
      TagItem(c, batches[p][j], p);
      FlatOrder(batches, q, k, p, j);
      TagBetter(c, batches[q][k], q, batches[p][j], p);
      TagBetter(c, batches[p][j], p, batches[q][k], q);
      if p == q && j == k {
        NotBetterThanItself(c, batches[q][k], q);
      } else if !(p < q || (p == q && j < k)) {
        FlatOrder(batches, p, j, q, k);
      }
    }
  }

  lemma NotBetterThanItself(c: Comparison, e: Evidence, q: nat)
    ensures !Better(c, e, q, e, q)
  {
  }

  lemma TagItem(c: Comparison, e: Evidence, q: nat)
    ensures Tag(c, e, q).item == e
  {
  }

  /** An identity has one best hit. */
  lemma OneMerits(c: Comparison, batches: seq<seq<Evidence>>, q: nat, k: nat, p: nat, j: nat)
    requires Merits(c, batches, q, k) && Merits(c, batches, p, j) && batches[q][k].id == batches[p][j].id
    ensures q == p && k == j
  {
  }

  /** The best hit of an identity that is seen at all. */
  lemma BestMerits(c: Comparison, batches: seq<seq<Evidence>>, e: Entry) returns (q: nat, k: nat)
    requires Wins(All(c, batches, |batches|), e)
    ensures Merits(c, batches, q, k) && e == Tag(c, batches[q][k], q)
  {
    hide Best, LeastAt, Merits, All, Flat, Tag;
    var all := All(c, batches, |batches|);
    var i := BestAt(all, e.item.id);
    LeastBounded(all, e.item.id, i);
    q, k := FlatCovers(c, batches, |batches|, i);
    AllAt(c, batches, |batches|, q, k);
    TagItem(c, batches[q][k], q);
    LeastMerits(c, batches, q, k);
  }

  lemma LeastBounded(entries: seq<Entry>, id: string, i: nat)
    requires LeastAt(entries, id, i)
    ensures i < |entries| && entries[i].item.id == id
  {
  }

  /** What the batches give each identity: its best hit, in order. */
  lemma RankedRanks(c: Comparison, batches: seq<seq<Evidence>>)
    ensures RanksAs(c, batches, Items(Ranked(All(c, batches, |batches|))))
  {
    hide Ranked, All, Gives, Wins, Tag, Precedes, InOrder;
    var all := All(c, batches, |batches|);
    var ranked := Ranked(all);
    var result := Items(ranked);
    forall i | 0 <= i < |result| ensures HasWon(c, batches, result[i]) {
      RankedWin(all, ranked[i]);
      var q, k := BestGives(c, batches, ranked[i]);
    }
    forall i, j | 0 <= i < j < |result| ensures result[i].id != result[j].id {
      RankedIds(all, i, j);
    }
    forall q: nat, k: nat, e | Gives(c, batches, q, k, e) ensures e in result {
      GivenIsRanked(c, batches, q, k, e);
    }
    forall i, j, q: nat, k: nat, p: nat, l: nat
      | 0 <= i < j < |result| && Gives(c, batches, q, k, result[i]) && Gives(c, batches, p, l, result[j])
      ensures Precedes(c, result[i], q, result[j], p)
    {
      RankedStrictly(all);
      RankedTag(c, batches, i, q, k);
      RankedTag(c, batches, j, p, l);
      RankedIds(all, i, j);
      TagBetter(c, result[i], q, result[j], p);
    }
  }

  lemma BestGives(c: Comparison, batches: seq<seq<Evidence>>, e: Entry) returns (q: nat, k: nat)
    requires Wins(All(c, batches, |batches|), e)
    ensures Gives(c, batches, q, k, e.item) && e == Tag(c, e.item, q)
  {
    hide Merits, Tag, All;
    q, k := BestMerits(c, batches, e);
    MeritsWithin(c, batches, q, k);
    TagItem(c, batches[q][k], q);
  }

  lemma MeritsWithin(c: Comparison, batches: seq<seq<Evidence>>, q: nat, k: nat)
    requires Merits(c, batches, q, k)
    ensures Within(batches, q, k)
  {
  }

  lemma RankedIds(entries: seq<Entry>, i: nat, j: nat)
    requires i < j < |Ranked(entries)|
    ensures Ranked(entries)[i].item.id != Ranked(entries)[j].item.id
  {
    hide Ranked, InOrder;
    RankedStrictly(entries);
    RankedWin(entries, Ranked(entries)[i]);
    RankedWin(entries, Ranked(entries)[j]);
  }

  lemma GivenOnce(c: Comparison, batches: seq<seq<Evidence>>, q: nat, k: nat, e: Evidence, p: nat, j: nat, f: Evidence)
    requires Gives(c, batches, q, k, e) && Gives(c, batches, p, j, f) && e.id == f.id
    ensures q == p && k == j && e == f
  {
    OneMerits(c, batches, q, k, p, j);
  }

  lemma RankedTag(c: Comparison, batches: seq<seq<Evidence>>, i: nat, q: nat, k: nat)
    requires i < |Ranked(All(c, batches, |batches|))|
    requires Gives(c, batches, q, k, Ranked(All(c, batches, |batches|))[i].item)
    ensures Ranked(All(c, batches, |batches|))[i] == Tag(c, Ranked(All(c, batches, |batches|))[i].item, q)
  {
    hide Ranked, All, Gives, Wins, Tag;
    var e := Ranked(All(c, batches, |batches|))[i];
    RankedWin(All(c, batches, |batches|), e);
    var p, j := BestGives(c, batches, e);
    GivenOnce(c, batches, q, k, e.item, p, j, e.item);
  }

  lemma GivenIsRanked(c: Comparison, batches: seq<seq<Evidence>>, q: nat, k: nat, e: Evidence)
    requires Gives(c, batches, q, k, e)
    ensures e in Items(Ranked(All(c, batches, |batches|)))
  {
    hide Ranked, All, Gives, Tag, Best, Flat;
    var all := All(c, batches, |batches|);
    GivenIsThere(c, batches, q, k, e);
    AllAt(c, batches, |batches|, q, k);
    TagItem(c, e, q);
    BestSeen(all, Flat(batches, q, k));
    var best := Best(all, e.id).value;
    BestHasIdentity(all, e.id);
    var p, j := BestGives(c, batches, best);
    GivenOnce(c, batches, q, k, e, p, j, best.item);
    RankedWin(all, best);
    var i :| 0 <= i < |Ranked(all)| && Ranked(all)[i] == best;
    assert Items(Ranked(all))[i] == e;
  }

  lemma GivenIsThere(c: Comparison, batches: seq<seq<Evidence>>, q: nat, k: nat, e: Evidence)
    requires Gives(c, batches, q, k, e)
    ensures Within(batches, q, k) && batches[q][k] == e
  {
  }

  lemma BestSeen(entries: seq<Entry>, i: nat)
    requires i < |entries|
    ensures Best(entries, entries[i].item.id).Some?
  {
    hide Best, KeysOf;
    KeysCover(entries, EntryId);
    assert entries[i] in entries;
  }

  /** The places, in order, of the queries that find nothing. */
  ghost predicate Silent(passages: seq<seq<Evidence>>, videos: seq<seq<Evidence>>, n: nat, at: seq<nat>)
    requires n <= |passages| == |videos|
  {
    && (forall k :: 0 <= k < |at| ==> at[k] < n && passages[at[k]] == [] && videos[at[k]] == [])
    && (forall j, k :: 0 <= j < k < |at| ==> at[j] < at[k])
    && forall q: nat :: q < n && passages[q] == [] && videos[q] == [] ==> q in at
  }

  lemma SilentStep(passages: seq<seq<Evidence>>, videos: seq<seq<Evidence>>, n: nat, at: seq<nat>)
    requires n < |passages| == |videos| && Silent(passages, videos, n, at)
    ensures Silent(passages, videos, n + 1, if passages[n] == [] && videos[n] == [] then at + [n] else at)
  {
    assert n in at + [n];
  }

  /** The zero-hit list is the queries that find nothing, in their order. */
  lemma {:induction false} ZeroHitsInOrder(queries: seq<string>, passages: seq<seq<Evidence>>, videos: seq<seq<Evidence>>,
                                           n: nat)
    returns (at: seq<nat>)
    requires n <= |queries| == |passages| == |videos|
    ensures Silent(passages, videos, n, at) && |at| == |ZeroHits(queries, passages, videos, n)|
    ensures forall k :: 0 <= k < |at| ==> at[k] < n && ZeroHits(queries, passages, videos, n)[k] == queries[at[k]]
  {
    hide Silent;
    if n == 0 {
      at := [];
      NothingSilent(passages, videos);
    } else {
      at := ZeroHitsInOrder(queries, passages, videos, n - 1);
      SilentStep(passages, videos, n - 1, at);
      if passages[n - 1] == [] && videos[n - 1] == [] {
        at := at + [n - 1];
      }
    }
  }

  lemma NothingSilent(passages: seq<seq<Evidence>>, videos: seq<seq<Evidence>>)
    requires |passages| == |videos|
    ensures Silent(passages, videos, 0, [])
  {
  }

  /** The zero-hit list names, in order, exactly the queries that found nothing. */
  lemma {:induction false} ZeroHitsMeaning(queries: seq<string>, passages: seq<seq<Evidence>>, videos: seq<seq<Evidence>>,
                                           n: nat, text: string)
    requires n <= |queries| == |passages| == |videos|
    ensures text in ZeroHits(queries, passages, videos, n) <==>
            exists q :: 0 <= q < n && queries[q] == text && passages[q] == [] && videos[q] == []
  {
    if n > 0 {
      ZeroHitsMeaning(queries, passages, videos, n - 1, text);
    }
  }
}
