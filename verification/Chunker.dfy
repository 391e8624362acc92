/** `search/chunker.py`: overlapping, bounded passages cut from a transcript. */
module Chunker {
  import opened Ordering

  const MIN_WORDS := 100
  const MAX_WORDS := 220
  const MIN_DURATION_SECONDS := 45.0
  const MAX_DURATION_SECONDS := 90.0
  const OVERLAP_SECONDS := 12.0

  /** What `segment.get("start")` may be. */
  datatype StartField = NotANumber | NotFinite | Number(value: real)
  /** What `segment.get("text")` may be; `Words` is the whitespace-split text. */
  datatype TextField = NotText | Words(words: seq<string>)
  datatype RawSegment = NotADictionary | Fields(start: StartField, text: TextField)

  datatype Segment = Segment(start: real, words: seq<string>)
  /** `first` and `last` are the segment indices the passage was cut from. */
  datatype Passage = Passage(first: nat, last: nat, start: real, end: real, words: seq<string>)

  datatype Result<T> = Ok(value: T) | ValueError

  predicate ValidRaw(r: RawSegment) {
    && r.Fields?
    && r.start.Number? && r.start.value >= 0.0
    && r.text.Words? && r.text.words != []
  }

  function Normalized(r: RawSegment): Segment
    requires ValidRaw(r)
  {
    Segment(r.start.value, r.text.words)
  }

  predicate NotLater(a: Segment, b: Segment) { a.start <= b.start }

  /** What `build_passages` relies on: sorted starts and no empty text. */
  ghost predicate Timeline(segs: seq<Segment>) {
    && (forall i, j :: 0 <= i < j < |segs| ==> segs[i].start <= segs[j].start)
    && forall i :: 0 <= i < |segs| ==> segs[i].words != [] && segs[i].start >= 0.0
  }

  /** Not a dictionary, no finite start from zero on, or no words. */
  predicate Malformed(r: RawSegment) {
    match r
    case NotADictionary => true
    case Fields(Number(start), Words(words)) => start < 0.0 || words == []
    case _ => true
  }

  /** The raw segment's start and words are those of one of the segments. */
  ghost predicate Keeps(segs: seq<Segment>, r: RawSegment) {
    && r.Fields? && r.start.Number? && r.text.Words?
    && exists j :: 0 <= j < |segs| && segs[j].start == r.start.value && segs[j].words == r.text.words
  }

  lemma SortKeeps(s: seq<Segment>, i: nat, r: RawSegment)
    requires i < |s| && ValidRaw(r) && s[i] == Normalized(r)
    ensures Keeps(StableSort(NotLater, s), r)
  {
    SortMembers(NotLater, s, s[i]);
    var sorted := StableSort(NotLater, s);
    var j :| 0 <= j < |sorted| && sorted[j] == s[i];
  }

  method Normalize(raw: seq<RawSegment>) returns (r: Result<seq<Segment>>)
    ensures r.Ok? <==> forall i :: 0 <= i < |raw| ==> ValidRaw(raw[i])
    ensures r.Ok? <==> forall i :: 0 <= i < |raw| ==> !Malformed(raw[i])
    ensures r.Ok? ==> Timeline(r.value) && |r.value| == |raw|
    ensures r.Ok? ==> multiset(r.value) ==
                      multiset(seq(|raw|, i requires 0 <= i < |raw| && ValidRaw(raw[i]) => Normalized(raw[i])))
    ensures r.Ok? ==> forall i :: 0 <= i < |raw| ==> Keeps(r.value, raw[i])
  {
    hide Keeps, StableSort;
    var normalized: seq<Segment> := [];
    for n := 0 to |raw|
      invariant |normalized| == n
      invariant forall i :: 0 <= i < n ==> ValidRaw(raw[i]) && normalized[i] == Normalized(raw[i])
    {
      if !ValidRaw(raw[n]) {
        return ValueError;
      }
      normalized := normalized + [Normalized(raw[n])];
    }
    assert normalized == seq(|raw|, i requires 0 <= i < |raw| && ValidRaw(raw[i]) => Normalized(raw[i]));
    var ordered := StableSort(NotLater, normalized);
    SortIsSorted(NotLater, normalized);
    forall i, j | 0 <= i < j < |ordered| ensures ordered[i].start <= ordered[j].start {
      assert NotLater(ordered[i], ordered[j]);
    }
    forall i | 0 <= i < |ordered| ensures ordered[i].words != [] && ordered[i].start >= 0.0 {
      SortMembers(NotLater, normalized, ordered[i]);
    }
    forall i | 0 <= i < |raw| ensures Keeps(ordered, raw[i]) { SortKeeps(normalized, i, raw[i]); }
    return Ok(ordered);
  }

  /** Words of segments `i` up to and including `j`. */
  function TextOf(segs: seq<Segment>, i: nat, j: nat): seq<string>
    requires i <= j < |segs|
  {
    if i == j then segs[i].words else TextOf(segs, i, j - 1) + segs[j].words
  }

  ghost predicate Fits(segs: seq<Segment>, s: nat, f: nat)
    requires s <= f < |segs|
  {
    |TextOf(segs, s, f)| <= MAX_WORDS && segs[f].start - segs[s].start <= MAX_DURATION_SECONDS
  }

  ghost predicate LongEnough(segs: seq<Segment>, s: nat, f: nat)
    requires s <= f < |segs|
  {
    |TextOf(segs, s, f)| >= MIN_WORDS && segs[f].start - segs[s].start >= MIN_DURATION_SECONDS
  }

  /** A single segment, or within both bounds; it stops at the end of the input, when the next segment
      would break a bound, or at the first point that is long enough. */
  ghost predicate IsChunk(segs: seq<Segment>, s: nat, f: nat) {
    && s <= f < |segs|
    && (f == s || Fits(segs, s, f))
    && (f + 1 == |segs| || !Fits(segs, s, f + 1) || LongEnough(segs, s, f))
    && forall k :: s <= k < f ==> !LongEnough(segs, s, k)
  }

  function EndOf(segs: seq<Segment>, f: nat): real
    requires f < |segs|
  {
    if f + 1 < |segs| then segs[f + 1].start else segs[f].start
  }

  ghost predicate IsPassage(segs: seq<Segment>, p: Passage) {
    && IsChunk(segs, p.first, p.last)
    && p.start == segs[p.first].start
    && p.end == EndOf(segs, p.last)
    && p.words == TextOf(segs, p.first, p.last)
  }

  /** `s` is the least index after `p.first` no more than twelve seconds before the end of `p`. */
  ghost predicate Follows(segs: seq<Segment>, p: Passage, s: nat) {
    && p.first < s < |segs|
    && segs[s].start >= p.end - OVERLAP_SECONDS
    && forall k :: p.first < k < s ==> segs[k].start < p.end - OVERLAP_SECONDS
  }

  /** Passage `i` starts where the passage before it says, and that one did not end the timeline. */
  ghost predicate Linked(segs: seq<Segment>, ps: seq<Passage>, i: int)
    requires 0 < i < |ps|
  {
    ps[i - 1].last < |segs| - 1 && Follows(segs, ps[i - 1], ps[i].first)
  }

  /** The passages of a timeline: from its first segment to its last, each following the one before. */
  ghost predicate Passages(segs: seq<Segment>, ps: seq<Passage>) {
    && (segs == [] <==> ps == [])
    && (forall i :: 0 <= i < |ps| ==> IsPassage(segs, ps[i]))
    && (forall i :: 0 < i < |ps| ==> Linked(segs, ps, i))
    && (ps != [] ==> ps[0].first == 0 && ps[|ps| - 1].last == |segs| - 1)
  }

  lemma {:induction false} TextGrows(segs: seq<Segment>, s: nat, t: nat, f: nat)
    requires s <= t <= f < |segs|
    requires forall i :: 0 <= i < |segs| ==> segs[i].words != []
    ensures |TextOf(segs, t, f)| <= |TextOf(segs, s, f)|
    ensures |TextOf(segs, s, t)| <= |TextOf(segs, s, f)|
    decreases f
  {
    if t < f {
      TextGrows(segs, s, t, f - 1);
    }
  }

  /** The search for the next start never runs off the end: `last + 1` always qualifies. */
  method NextStart(segs: seq<Segment>, p: Passage) returns (s: nat)
    requires Timeline(segs) && IsPassage(segs, p) && p.last < |segs| - 1
    ensures Follows(segs, p, s) && s <= p.last + 1
  {
    var threshold := p.end - OVERLAP_SECONDS;
    s := p.first + 1;
    while s < |segs| && segs[s].start < threshold
      invariant p.first < s <= p.last + 1
      invariant forall k :: p.first < k < s ==> segs[k].start < threshold
    {
      s := s + 1;
    }
  }

  /** The inner loop of `build_passages`: extends the passage that starts at `start`. */
  method Extend(segs: seq<Segment>, start: nat) returns (final: nat, texts: seq<string>)
    requires Timeline(segs) && start < |segs|
    ensures IsChunk(segs, start, final) && texts == TextOf(segs, start, final)
  {
    final := start;
    texts := segs[start].words;
    if |texts| > MAX_WORDS {
      if final + 1 < |segs| {
        TextGrows(segs, start, start, final + 1);
      }
      return;
    }
    while final + 1 < |segs|
      invariant start <= final < |segs|
      invariant texts == TextOf(segs, start, final)
      invariant Fits(segs, start, final)
      invariant forall k :: start <= k <= final ==> !LongEnough(segs, start, k)
    {
      var next := segs[final + 1];
      var duration := next.start - segs[start].start;
      if |texts| + |next.words| > MAX_WORDS || duration > MAX_DURATION_SECONDS {
        break;
      }
      final := final + 1;
      texts := texts + next.words;
      if |texts| >= MIN_WORDS && duration >= MIN_DURATION_SECONDS {
        break;
      }
    }
  }

  /** The passages built so far, and where the next one starts. */
  ghost predicate Partway(segs: seq<Segment>, ps: seq<Passage>, start: nat) {
    && start < |segs|
    && (forall i :: 0 <= i < |ps| ==> IsPassage(segs, ps[i]))
    && (forall i :: 0 < i < |ps| ==> Linked(segs, ps, i))
    && if ps == [] then start == 0
       else ps[0].first == 0 && ps[|ps| - 1].last < |segs| - 1 && Follows(segs, ps[|ps| - 1], start)
  }

  lemma PartwayOn(segs: seq<Segment>, ps: seq<Passage>, p: Passage, next: nat)
    requires Partway(segs, ps, p.first) && IsPassage(segs, p) && p.last < |segs| - 1 && Follows(segs, p, next)
    ensures Partway(segs, ps + [p], next)
  {
    hide IsPassage, Follows;
    Appended(segs, ps, p);
    NextIsLater(segs, p, next);
  }

  lemma PartwayDone(segs: seq<Segment>, ps: seq<Passage>, p: Passage)
    requires Partway(segs, ps, p.first) && IsPassage(segs, p) && p.last == |segs| - 1
    ensures Passages(segs, ps + [p])
  {
    hide IsPassage, Follows;
    Appended(segs, ps, p);
  }

  // ----- what a passage says of the transcript -----

  /** How many words the segments from `s` up to, not including, `k` have. */
  function Total(segs: seq<Segment>, s: nat, k: nat): nat
    requires k <= |segs|
  {
    if k <= s then 0 else Total(segs, s, k - 1) + |segs[k - 1].words|
  }

  /** The words of segment `k` stand in `words` right behind those of the segments from `s` on. */
  ghost predicate Spells(segs: seq<Segment>, s: nat, words: seq<string>, k: nat)
    requires k < |segs|
  {
    && Total(segs, s, k) + |segs[k].words| <= |words|
    && words[Total(segs, s, k)..Total(segs, s, k) + |segs[k].words|] == segs[k].words
  }

  /** From the start of the first segment to that of the segment behind the last, or of the last at the end of the
      input; the text is that of the segments, one after the other. */
  ghost predicate CutFrom(segs: seq<Segment>, p: Passage) {
    && p.first <= p.last < |segs|
    && p.start == segs[p.first].start
    && (p.last < |segs| - 1 ==> p.end == segs[p.last + 1].start)
    && (p.last == |segs| - 1 ==> p.end == segs[p.last].start)
    && |p.words| == Total(segs, p.first, p.last + 1)
    && forall k: nat :: p.first <= k <= p.last ==> Spells(segs, p.first, p.words, k)
  }

  ghost predicate TooFar(segs: seq<Segment>, s: nat, k: nat)
    requires s <= k < |segs|
  {
    Total(segs, s, k + 1) > 220 || segs[k].start - segs[s].start > 90.0
  }

  ghost predicate FarEnough(segs: seq<Segment>, s: nat, k: nat)
    requires s <= k < |segs|
  {
    Total(segs, s, k + 1) >= 100 && segs[k].start - segs[s].start >= 45.0
  }

  /** Several segments keep within both bounds; the passage ends with the first segment that makes it long enough,
      before a segment that would take it too far, or at the end of the input. */
  ghost predicate StopsInTime(segs: seq<Segment>, first: nat, last: nat)
    requires first <= last < |segs|
  {
    && (first < last ==> !TooFar(segs, first, last))
    && (forall k :: first <= k < last ==> !FarEnough(segs, first, k))
    && (last < |segs| - 1 ==> TooFar(segs, first, last + 1) || FarEnough(segs, first, last))
  }

  /** The next passage starts at the earliest later segment at most twelve seconds before the end of this one. */
  ghost predicate Overlaps(segs: seq<Segment>, p: Passage, q: Passage)
    requires p.first < |segs| && q.first < |segs|
  {
    && p.first < q.first && segs[q.first].start >= p.end - 12.0
    && forall k :: p.first < k < q.first ==> segs[k].start < p.end - 12.0
  }

  ghost predicate CutsUp(segs: seq<Segment>, ps: seq<Passage>) {
    && (segs == [] <==> ps == [])
    && (forall i :: 0 <= i < |ps| ==> CutFrom(segs, ps[i]) && StopsInTime(segs, ps[i].first, ps[i].last))
    && (forall i, j :: 0 <= i && j == i + 1 && j < |ps| ==> Overlaps(segs, ps[i], ps[j]))
    && (forall i :: 0 <= i < |ps| ==> (ps[i].last == |segs| - 1 <==> i == |ps| - 1))
    && (ps != [] ==> ps[0].first == 0)
  }

  lemma TotalStep(segs: seq<Segment>, s: nat, k: nat)
    requires s <= k < |segs|
    ensures Total(segs, s, k + 1) == Total(segs, s, k) + |segs[k].words|
    ensures Total(segs, s, s) == 0
  {
  }

  /** Words put behind a text leave what it spells alone. */
  lemma StillSpells(segs: seq<Segment>, s: nat, words: seq<string>, more: seq<string>, k: nat)
    requires k < |segs| && Spells(segs, s, words, k)
    ensures Spells(segs, s, words + more, k)
  {
    hide Total;
    var a, b := Total(segs, s, k), Total(segs, s, k) + |segs[k].words|;
    assert (words + more)[a..b] == words[a..b];
  }

  lemma SpellsLast(segs: seq<Segment>, s: nat, words: seq<string>, k: nat)
    requires k < |segs| && |words| == Total(segs, s, k)
    ensures Spells(segs, s, words + segs[k].words, k)
  {
    hide Total;
  }

  lemma {:induction false} TextIsSpelled(segs: seq<Segment>, s: nat, f: nat)
    requires s <= f < |segs|
    ensures |TextOf(segs, s, f)| == Total(segs, s, f + 1)
    ensures forall k: nat :: s <= k <= f ==> Spells(segs, s, TextOf(segs, s, f), k)
  {
    hide Spells, Total;
    TotalStep(segs, s, f);
    if s < f {
      TextIsSpelled(segs, s, f - 1);
      var before := TextOf(segs, s, f - 1);
      forall k: nat | s <= k < f ensures Spells(segs, s, before + segs[f].words, k) {
        StillSpells(segs, s, before, segs[f].words, k);
      }
      SpellsLast(segs, s, before, f);
    } else {
      SpellsLast(segs, s, [], f);
      assert [] + segs[f].words == segs[f].words;
    }
  }

  lemma BoundsAgree(segs: seq<Segment>, s: nat, k: nat)
    requires s <= k < |segs|
    ensures TooFar(segs, s, k) <==> !Fits(segs, s, k)
    ensures FarEnough(segs, s, k) <==> LongEnough(segs, s, k)
  {
    hide TextOf, Total;
    TextIsSpelled(segs, s, k);
  }

  lemma ChunkStops(segs: seq<Segment>, s: nat, f: nat)
    requires IsChunk(segs, s, f)
    ensures StopsInTime(segs, s, f)
  {
    hide TextOf, Total, Fits, LongEnough, TooFar, FarEnough;
    forall k | s <= k < |segs| ensures TooFar(segs, s, k) <==> !Fits(segs, s, k) { BoundsAgree(segs, s, k); }
    forall k | s <= k < |segs| ensures FarEnough(segs, s, k) <==> LongEnough(segs, s, k) { BoundsAgree(segs, s, k); }
  }

  lemma PassageIsCut(segs: seq<Segment>, p: Passage)
    requires IsPassage(segs, p)
    ensures CutFrom(segs, p) && StopsInTime(segs, p.first, p.last)
  {
    hide Spells, StopsInTime, Total, TextOf;
    TextIsSpelled(segs, p.first, p.last);
    ChunkStops(segs, p.first, p.last);
  }

  /** The passages say of the transcript what it holds, with every bound in seconds and words. */
  lemma PassagesMeaning(segs: seq<Segment>, ps: seq<Passage>)
    requires Timeline(segs) && Passages(segs, ps)
    ensures CutsUp(segs, ps)
  {
    hide IsPassage, CutFrom, StopsInTime, Timeline;
    forall i | 0 <= i < |ps| ensures ps[i].first <= ps[i].last < |segs| { PassageIsInside(segs, ps[i]); }
    forall i | 0 <= i < |ps| ensures CutFrom(segs, ps[i]) && StopsInTime(segs, ps[i].first, ps[i].last) {
      PassageIsCut(segs, ps[i]);
    }
    forall i, j | 0 <= i && j == i + 1 && j < |ps| ensures Overlaps(segs, ps[i], ps[j]) && ps[i].last < |segs| - 1 {
      assert Linked(segs, ps, j);
    }
    forall i | 0 <= i < |ps| ensures ps[i].last == |segs| - 1 <==> i == |ps| - 1 {
      var j := i + 1;
      if j < |ps| {
        assert Linked(segs, ps, j);
      }
    }
  }

  lemma PassageIsInside(segs: seq<Segment>, p: Passage)
    requires IsPassage(segs, p)
    ensures p.first <= p.last < |segs|
  {
  }

  method BuildPassages(segs: seq<Segment>) returns (passages: seq<Passage>)
    requires Timeline(segs)
    ensures Passages(segs, passages)
    ensures CutsUp(segs, passages)
  {
    hide IsChunk, TextOf, Follows, Timeline, CutsUp;
    passages := [];
    if segs == [] {
      PassagesMeaning(segs, passages);
      return;
    }
    var start := 0;
    while true
      invariant Partway(segs, passages, start)
      decreases |segs| - start
    {
      hide Partway, Passages;
      var final, texts := Extend(segs, start);
      ChunkIsInside(segs, start, final);
      var end := if final + 1 < |segs| then segs[final + 1].start else segs[final].start;
      var passage := Passage(start, final, segs[start].start, end, texts);
      ghost var before := passages;
      passages := passages + [passage];
      if final == |segs| - 1 {
        PartwayDone(segs, before, passage);
        PassagesMeaning(segs, passages);
        return;
      }
      start := NextStart(segs, passage);
      PartwayOn(segs, before, passage, start);
      NextIsLater(segs, passage, start);
    }
  }

  lemma ChunkIsInside(segs: seq<Segment>, s: nat, f: nat)
    requires IsChunk(segs, s, f)
    ensures s <= f < |segs|
  {
  }

  lemma NextIsLater(segs: seq<Segment>, p: Passage, s: nat)
    requires Follows(segs, p, s)
    ensures p.first < s < |segs|
  {
  }

  lemma Appended(segs: seq<Segment>, ps: seq<Passage>, p: Passage)
    requires forall i :: 0 < i < |ps| ==> Linked(segs, ps, i)
    requires ps == [] || (ps[|ps| - 1].last < |segs| - 1 && Follows(segs, ps[|ps| - 1], p.first))
    ensures forall i :: 0 < i < |ps| + 1 ==> Linked(segs, ps + [p], i)
  {
    hide Follows;
    forall i | 0 < i < |ps| + 1 ensures Linked(segs, ps + [p], i) {
      if i < |ps| {
        assert Linked(segs, ps, i);
      }
    }
  }

  /** `build_passages` on unchecked segments. */
  method BuildFromRaw(raw: seq<RawSegment>) returns (r: Result<seq<Passage>>, ghost segs: seq<Segment>)
    ensures r.Ok? <==> forall i :: 0 <= i < |raw| ==> !Malformed(raw[i])
    ensures r.Ok? ==> Timeline(segs) && |segs| == |raw| && Passages(segs, r.value) && CutsUp(segs, r.value)
    ensures r.Ok? ==> forall i :: 0 <= i < |raw| ==> Keeps(segs, raw[i])
  {
    var normalized := Normalize(raw);
    if normalized.ValueError? {
      return ValueError, [];
    }
    segs := normalized.value;
    var passages := BuildPassages(normalized.value);
    r := Ok(passages);
  }

  /** A chunk cannot be extended past a fitting point without having been long enough. */
  lemma ChunkStopsEarly(segs: seq<Segment>, s: nat, f: nat, g: nat)
    requires Timeline(segs) && IsChunk(segs, s, f) && f < g < |segs| && Fits(segs, s, g)
    ensures LongEnough(segs, s, f)
  {
    TextGrows(segs, s, f + 1, g);
  }

  /** A start has exactly one chunk: the bounds and the stop rule leave no choice. */
  lemma ChunkUnique(segs: seq<Segment>, s: nat, f: nat, g: nat)
    requires Timeline(segs) && IsChunk(segs, s, f) && IsChunk(segs, s, g)
    ensures f == g
  {
    if f < g {
      ChunkStopsEarly(segs, s, f, g);
    } else if g < f {
      ChunkStopsEarly(segs, s, g, f);
    }
  }

  lemma LongerFromEarlier(segs: seq<Segment>, s: nat, t: nat, g: nat)
    requires Timeline(segs) && s <= t <= g < |segs| && LongEnough(segs, t, g)
    ensures LongEnough(segs, s, g)
  {
    TextGrows(segs, s, t, g);
  }

  /** A chunk that starts later, inside or right behind an earlier chunk, ends no earlier. */
  lemma FinalsMonotone(segs: seq<Segment>, s: nat, f: nat, t: nat, g: nat)
    requires Timeline(segs) && IsChunk(segs, s, f) && IsChunk(segs, t, g)
    requires s < t <= f + 1
    ensures f <= g
  {
    if g < f {
      TextGrows(segs, s, t, f);
      ChunkStopsEarly(segs, t, g, f);
      LongerFromEarlier(segs, s, t, g);
    }
  }

  /** Starts strictly increase, no gap is left, last segments and ends never go back. */
  lemma StepProperties(segs: seq<Segment>, p: Passage, q: Passage)
    requires Timeline(segs) && IsPassage(segs, p) && IsPassage(segs, q)
    requires p.last < |segs| - 1 && Follows(segs, p, q.first)
    ensures p.first < q.first <= p.last + 1
    ensures p.last <= q.last
    ensures p.end <= q.end
  {
    FinalsMonotone(segs, p.first, p.last, q.first, q.last);
  }

  ghost predicate Advances(p: Passage, q: Passage) {
    p.first < q.first <= p.last + 1 && p.last <= q.last && p.end <= q.end
  }

  lemma AllAdvance(segs: seq<Segment>, ps: seq<Passage>)
    requires Timeline(segs) && Passages(segs, ps)
    ensures forall i :: 0 < i < |ps| ==> Advances(ps[i - 1], ps[i])
  {
    forall i | 0 < i < |ps| ensures Advances(ps[i - 1], ps[i]) {
      assert Linked(segs, ps, i);
      StepProperties(segs, ps[i - 1], ps[i]);
    }
  }

  /** Bounds of one passage; a passage over the bounds is a single segment. */
  lemma PassageBounds(segs: seq<Segment>, p: Passage)
    requires Timeline(segs) && IsPassage(segs, p)
    ensures p.start <= p.end
    ensures p.first < p.last ==> |p.words| <= 220 && segs[p.last].start - segs[p.first].start <= 90.0
  {
  }

  lemma {:induction false} Ordered(ps: seq<Passage>, i: nat, j: nat)
    requires forall k :: 0 < k < |ps| ==> Advances(ps[k - 1], ps[k])
    requires i <= j < |ps|
    ensures ps[i].last <= ps[j].last && ps[i].end <= ps[j].end
    ensures i < j ==> ps[i].first < ps[j].first
    decreases j
  {
    if i < j {
      Ordered(ps, i, j - 1);
      assert Advances(ps[j - 1], ps[j]);
    }
  }

  lemma {:induction false} CoveredUpTo(ps: seq<Passage>, n: nat, k: nat) returns (i: nat)
    requires forall j :: 0 < j < |ps| ==> Advances(ps[j - 1], ps[j])
    requires n < |ps| && ps[0].first == 0 && k <= ps[n].last
    ensures i <= n && ps[i].first <= k <= ps[i].last
  {
    if ps[n].first <= k {
      i := n;
    } else {
      assert Advances(ps[n - 1], ps[n]);
      i := CoveredUpTo(ps, n - 1, k);
    }
  }

  ghost predicate Covered(ps: seq<Passage>, k: nat) {
    exists i :: 0 <= i < |ps| && ps[i].first <= k <= ps[i].last
  }

  /** First indices strictly increase, last indices and ends never decrease, and every segment is covered. */
  lemma WholeTranscript(segs: seq<Segment>, ps: seq<Passage>)
    requires Timeline(segs) && Passages(segs, ps)
    ensures forall i, j :: 0 <= i < j < |ps| ==>
                             ps[i].first < ps[j].first && ps[i].last <= ps[j].last && ps[i].end <= ps[j].end
    ensures forall k: nat :: k < |segs| ==> Covered(ps, k)
  {
    AllAdvance(segs, ps);
    forall i, j | 0 <= i < j < |ps|
      ensures ps[i].first < ps[j].first && ps[i].last <= ps[j].last && ps[i].end <= ps[j].end
    {
      Ordered(ps, i, j);
    }
    forall k: nat | k < |segs| ensures Covered(ps, k) {
      var i := CoveredUpTo(ps, |ps| - 1, k);
    }
  }

  lemma FollowsUnique(segs: seq<Segment>, p: Passage, s: nat, t: nat)
    requires Follows(segs, p, s) && Follows(segs, p, t)
    ensures s == t
  {
  }

  lemma SamePassage(segs: seq<Segment>, p: Passage, q: Passage)
    requires Timeline(segs) && IsPassage(segs, p) && IsPassage(segs, q) && p.first == q.first
    ensures p == q
  {
    ChunkUnique(segs, p.first, p.last, q.last);
  }

  lemma PassageAt(segs: seq<Segment>, ps: seq<Passage>, n: nat)
    requires Passages(segs, ps) && n < |ps|
    ensures IsPassage(segs, ps[n]) && ps[0].first == 0
    ensures n > 0 ==> ps[n - 1].last < |segs| - 1 && Follows(segs, ps[n - 1], ps[n].first)
  {
    hide IsPassage, Follows;
    assert n > 0 ==> Linked(segs, ps, n);
  }

  lemma {:induction false} SamePrefix(segs: seq<Segment>, ps: seq<Passage>, qs: seq<Passage>, n: nat)
    requires Timeline(segs) && Passages(segs, ps) && Passages(segs, qs)
    requires n < |ps| && n < |qs|
    ensures ps[n] == qs[n]
  {
    hide Timeline, Passages, IsPassage, Follows;
    PassageAt(segs, ps, n);
    PassageAt(segs, qs, n);
    if n > 0 {
      SamePrefix(segs, ps, qs, n - 1);
      FollowsUnique(segs, ps[n - 1], ps[n].first, qs[n].first);
    }
    SamePassage(segs, ps[n], qs[n]);
  }

  lemma NotShorter(segs: seq<Segment>, ps: seq<Passage>, qs: seq<Passage>)
    requires Timeline(segs) && Passages(segs, ps) && Passages(segs, qs)
    ensures |ps| >= |qs|
  {
    hide Timeline, IsPassage, Linked, Follows;
    if 0 < |ps| < |qs| {
      SamePrefix(segs, ps, qs, |ps| - 1);
      PassageAt(segs, qs, |ps|);
    }
  }

  /** A timeline has exactly one list of passages. */
  lemma PassagesUnique(segs: seq<Segment>, ps: seq<Passage>, qs: seq<Passage>)
    requires Timeline(segs) && Passages(segs, ps) && Passages(segs, qs)
    ensures ps == qs
  {
    NotShorter(segs, ps, qs);
    NotShorter(segs, qs, ps);
    forall n | 0 <= n < |ps| ensures ps[n] == qs[n] {
      SamePrefix(segs, ps, qs, n);
    }
  }
}
