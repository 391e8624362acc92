/** `catalog.py`: importing a corpus into the tables, and the search rows derived from them. */
module Catalog {
  import opened Basics
  import opened Ordering

  // ----- tables -----

  datatype Kind = Insight | Transcript

  /** File contents: whether they decode, whether an insight misses keys, and the text to search, which is None
      when it cannot be stored (a lone surrogate). Contents stand for their own digest. */
  datatype Body = Body(id: int, readable: bool, issues: bool, text: Option<string>)

  /** The unique key of an artifact. */
  datatype Key = Key(video: string, kind: Kind, language: string, body: Body)

  datatype Location = Location(slug: string, path: string)

  /** Videos by id (title and date), sources by video and slug, artifacts in id order with their locations. */
  datatype Tables = Tables(titles: map<string, string>, dates: map<string, Option<string>>,
                           urls: map<(string, string), string>, order: seq<Key>, location: map<Key, Location>)

  /** A search row before its parts are joined; the slugs stand for their sorted list. */
  datatype Row = Row(title: string, sources: set<string>, subject: seq<Option<string>>, body: seq<Option<string>>)

  /** The tables, and the search rows of each video. */
  datatype Store = Store(tables: Tables, search: map<string, seq<Row>>)

  ghost predicate WellFormed(t: Tables) {
    && t.titles.Keys == t.dates.Keys
    && (forall p :: p in t.urls ==> p.0 in t.titles)
    && (forall k :: k in t.location <==> k in t.order)
    && (forall k :: k in t.location ==> (k.video, t.location[k].slug) in t.urls)
    && NoRepeats(t.order)
  }

  // ----- rendering -----

  predicate ByKind(a: Key, b: Key) {
    (a.kind.Insight? && b.kind.Transcript?) || (a.kind == b.kind && StringLe(a.language, b.language))
  }

  function Own(order: seq<Key>, video: string): seq<Key> {
    if order == [] then []
    else
      var last := order[|order| - 1];
      Own(order[..|order| - 1], video) + if last.video == video then [last] else []
  }

  function Texts(keys: seq<Key>, insightsOnly: bool): seq<Option<string>> {
    if keys == [] then []
    else
      var last := keys[|keys| - 1];
      Texts(keys[..|keys| - 1], insightsOnly) +
      if insightsOnly && last.kind.Transcript? then [] else [last.body.text]
  }

  function Slugs(urls: map<(string, string), string>, video: string): set<string> {
    set p | p in urls && p.0 == video :: p.1
  }

  /** `_reindex_video`: what the search row of a video should be. */
  function Render(t: Tables, video: string): Row
    requires video in t.titles
  {
    var sorted := StableSort(ByKind, Own(t.order, video));
    Row(t.titles[video], Slugs(t.urls, video), Texts(sorted, true), Texts(sorted, false))
  }

  function Reindex(s: Store, video: string): Store {
    if video in s.tables.titles then s.(search := s.search[video := [Render(s.tables, video)]]) else s
  }

  ghost predicate RowAgrees(s: Store, video: string) {
    if video in s.tables.titles then video in s.search && s.search[video] == [Render(s.tables, video)]
    else video in s.search ==> s.search[video] == []
  }

  /** Every video has exactly one search row, a fresh rendering of the tables, and nothing else has one. */
  ghost predicate Agrees(s: Store) { forall video :: RowAgrees(s, video) }

  // ----- what a row shows -----

  /** Insights come before transcripts, then languages in order, then artifacts in the order they arrived. */
  predicate ComesFirst(a: Key, i: nat, b: Key, j: nat) {
    if a.kind != b.kind then a.kind.Insight?
    else if a.language != b.language then StringLe(a.language, b.language)
    else i < j
  }

  /** The places of exactly the video's artifacts, in the order of a row. */
  ghost predicate Lists(order: seq<Key>, video: string, at: seq<nat>) {
    && (forall k :: 0 <= k < |at| ==> at[k] < |order| && order[at[k]].video == video)
    && (forall i: nat :: i < |order| && order[i].video == video ==> i in at)
    && forall j, k :: 0 <= j < k < |at| ==> ComesFirst(order[at[j]], at[j], order[at[k]], at[k])
  }

  /** The body is the texts of all of them, the subject the texts of the insights, which come first. */
  ghost predicate Columns(order: seq<Key>, at: seq<nat>, row: Row)
    requires forall k :: 0 <= k < |at| ==> at[k] < |order|
  {
    && |row.body| == |at| && |row.subject| <= |at|
    && (forall k :: 0 <= k < |at| ==> row.body[k] == order[at[k]].body.text)
    && (forall k :: 0 <= k < |row.subject| ==> row.subject[k] == order[at[k]].body.text)
    && forall k :: 0 <= k < |at| ==> (order[at[k]].kind.Insight? <==> k < |row.subject|)
  }

  /** The row says of the video what the tables do. */
  ghost predicate Shows(t: Tables, video: string, row: Row) {
    && video in t.titles && row.title == t.titles[video]
    && (forall slug :: slug in row.sources <==> (video, slug) in t.urls)
    && exists at: seq<nat> :: Lists(t.order, video, at) && Columns(t.order, at, row)
  }

  /** The video has one row, and it shows the tables. */
  ghost predicate Displayed(s: Store, video: string) {
    video in s.search && |s.search[video]| == 1 && Shows(s.tables, video, s.search[video][0])
  }

  /** Where an artifact is in the order; -1 when it is not there. */
  function Place(order: seq<Key>, key: Key): (i: int)
    ensures -1 <= i < |order|
    ensures i >= 0 ==> order[i] == key
  {
    if order == [] then -1
    else if order[|order| - 1] == key then |order| - 1 else Place(order[..|order| - 1], key)
  }

  lemma {:induction false} PlaceOf(order: seq<Key>, i: nat)
    requires i < |order| && NoRepeats(order)
    ensures Place(order, order[i]) == i
  {
    if i < |order| - 1 {
      PlaceOf(order[..|order| - 1], i);
    }
  }

  /** The video's artifacts among the first `n`, in the order they arrived. */
  lemma {:induction false} OwnRises(order: seq<Key>, n: nat, video: string)
    requires n <= |order| && NoRepeats(order)
    ensures forall key :: key in Own(order[..n], video) <==> key in order[..n] && key.video == video
    ensures forall a :: 0 <= a < |Own(order[..n], video)| ==> 0 <= Place(order, Own(order[..n], video)[a]) < n
    ensures forall a, b :: 0 <= a < b < |Own(order[..n], video)| ==>
              Place(order, Own(order[..n], video)[a]) < Place(order, Own(order[..n], video)[b])
  {
    if n > 0 {
      OwnRises(order, n - 1, video);
      assert order[..n] == order[..n - 1] + [order[n - 1]];
      OwnAppend(order[..n - 1], order[n - 1], video);
      PlaceOf(order, n - 1);
    }
  }

  lemma OwnAppend(order: seq<Key>, key: Key, video: string)
    ensures Own(order + [key], video) == Own(order, video) + if key.video == video then [key] else []
  {
    assert (order + [key])[..|order|] == order;
  }

  lemma ByKindOrders()
    ensures TotalPreorder(ByKind)
  {
    forall a, b ensures ByKind(a, b) || ByKind(b, a) { StringLeTotal(a.language, b.language); }
    forall a, b, c | ByKind(a, b) && ByKind(b, c) ensures ByKind(a, c) {
      if a.kind == b.kind == c.kind {
        StringLeTransitive(a.language, b.language, c.language);
      }
    }
  }

  /** The places of a video's artifacts once they are sorted. */
  function Places(order: seq<Key>, keys: seq<Key>): (at: seq<nat>)
    requires forall k :: 0 <= k < |keys| ==> Place(order, keys[k]) >= 0
    ensures |at| == |keys| && forall k :: 0 <= k < |keys| ==> at[k] == Place(order, keys[k])
  {
    seq(|keys|, k requires 0 <= k < |keys| => Place(order, keys[k]))
  }

  /** Exactly the video's artifacts, by kind and language, and equal ones in the order they arrived. */
  ghost predicate Arranged(order: seq<Key>, video: string, keys: seq<Key>) {
    && (forall k :: 0 <= k < |keys| ==> Place(order, keys[k]) >= 0 && keys[k].video == video)
    && (forall i :: 0 <= i < |order| && order[i].video == video ==> order[i] in keys)
    && forall j, k :: 0 <= j < k < |keys| ==>
         ByKind(keys[j], keys[k]) && (ByKind(keys[k], keys[j]) ==> Place(order, keys[j]) < Place(order, keys[k]))
  }

  lemma SortedIsArranged(order: seq<Key>, video: string)
    requires NoRepeats(order)
    ensures Arranged(order, video, StableSort(ByKind, Own(order, video)))
  {
    hide ByKind, Own, Place, TotalPreorder, StableSort;
    var own := Own(order, video);
    var keys := StableSort(ByKind, own);
    assert order[..|order|] == order;
    OwnRises(order, |order|, video);
    ByKindOrders();
    var rank := (key: Key) => Place(order, key);
    SortIsStable(ByKind, rank, own);
    forall k | 0 <= k < |keys| ensures Place(order, keys[k]) >= 0 && keys[k].video == video {
      SortMembers(ByKind, own, keys[k]);
    }
    forall i | 0 <= i < |order| && order[i].video == video ensures order[i] in keys {
      SortMembers(ByKind, own, order[i]);
    }
    forall j, k | 0 <= j < k < |keys|
      ensures ByKind(keys[j], keys[k]) && (ByKind(keys[k], keys[j]) ==> Place(order, keys[j]) < Place(order, keys[k]))
    {
      assert rank(keys[j]) == Place(order, keys[j]) && rank(keys[k]) == Place(order, keys[k]);
    }
  }

  lemma ArrangedLists(order: seq<Key>, video: string, keys: seq<Key>)
    requires NoRepeats(order) && Arranged(order, video, keys)
    ensures Lists(order, video, Places(order, keys))
  {
    hide ByKind, ComesFirst, Places, Place;
    var at := Places(order, keys);
    forall i: nat | i < |order| && order[i].video == video ensures i in at {
      var k :| 0 <= k < |keys| && keys[k] == order[i];
      PlaceOf(order, i);
      assert at[k] == i;
    }
    forall j, k | 0 <= j < k < |at| ensures ComesFirst(order[at[j]], at[j], order[at[k]], at[k]) {
      FirstByKind(keys[j], at[j], keys[k], at[k]);
    }
  }

  lemma FirstByKind(a: Key, i: nat, b: Key, j: nat)
    requires ByKind(a, b) && (ByKind(b, a) ==> i < j)
    ensures ComesFirst(a, i, b, j)
  {
    StringLeTotal(a.language, b.language);
  }

  lemma {:induction false} AllTexts(keys: seq<Key>)
    ensures |Texts(keys, false)| == |keys|
    ensures forall k :: 0 <= k < |keys| ==> Texts(keys, false)[k] == keys[k].body.text
  {
    if keys != [] {
      AllTexts(keys[..|keys| - 1]);
    }
  }

  /** Of keys with the insights first, the insight texts are the texts of the first ones. */
  lemma {:induction false} InsightTexts(keys: seq<Key>)
    requires forall j, k :: 0 <= j < k < |keys| && keys[k].kind.Insight? ==> keys[j].kind.Insight?
    ensures var subject := Texts(keys, true);
            && |subject| <= |keys| && (forall k :: 0 <= k < |subject| ==> subject[k] == keys[k].body.text)
            && forall k :: 0 <= k < |keys| ==> (keys[k].kind.Insight? <==> k < |subject|)
  {
    if keys != [] {
      InsightTexts(keys[..|keys| - 1]);
    }
  }

  lemma ArrangedColumns(order: seq<Key>, video: string, keys: seq<Key>, row: Row)
    requires Arranged(order, video, keys) && row.subject == Texts(keys, true) && row.body == Texts(keys, false)
    ensures Columns(order, Places(order, keys), row)
  {
    hide Texts, Place, Places;
    forall j, k | 0 <= j < k < |keys| && keys[k].kind.Insight? ensures keys[j].kind.Insight? {
      assert ByKind(keys[j], keys[k]);
    }
    AllTexts(keys);
    InsightTexts(keys);
  }

  lemma SlugsMeaning(urls: map<(string, string), string>, video: string, slug: string)
    ensures slug in Slugs(urls, video) <==> (video, slug) in urls
  {
  }

  /** A rendering shows the tables. */
  lemma RenderShows(t: Tables, video: string)
    requires NoRepeats(t.order) && video in t.titles
    ensures Shows(t, video, Render(t, video))
  {
    hide Own, Texts, Lists, Columns, Places, Arranged, Slugs, StableSort, NoRepeats;
    var keys := StableSort(ByKind, Own(t.order, video));
    SortedIsArranged(t.order, video);
    ArrangedPlaces(t.order, video, keys);
    ArrangedLists(t.order, video, keys);
    ArrangedColumns(t.order, video, keys, Render(t, video));
    forall slug ensures slug in Render(t, video).sources <==> (video, slug) in t.urls {
      SlugsMeaning(t.urls, video, slug);
    }
  }

  lemma ArrangedPlaces(order: seq<Key>, video: string, keys: seq<Key>)
    requires Arranged(order, video, keys)
    ensures forall k :: 0 <= k < |keys| ==> Place(order, keys[k]) >= 0
    ensures forall k :: 0 <= k < |keys| ==> Places(order, keys)[k] < |order|
  {
  }

  // ----- writing -----

  function UpsertVideo(t: Tables, video: string, title: string, date: Option<string>): Tables {
    t.(titles := if video in t.titles && title == "" then t.titles else t.titles[video := title],
       dates := if video in t.dates && date.None? then t.dates else t.dates[video := date])
  }

  function UpsertSource(t: Tables, video: string, slug: string, url: string): Tables {
    t.(urls := if (video, slug) in t.urls && url == "" then t.urls else t.urls[(video, slug) := url])
  }

  // ----- importing -----

  datatype Name = Name(video: string, title: string, date: string, language: string)

  /** One inventoried file; `name` is None when the file name cannot be parsed. */
  datatype Item = Item(name: Option<Name>, slug: string, path: string, kind: Kind, body: Body)

  function KeyOf(n: Name, item: Item): Key { Key(n.video, item.kind, n.language, item.body) }

  datatype Work = Work(t: Tables, written: nat, errors: nat, touched: set<string>,
                       seen: set<(string, string)>, moved: set<(string, string)>)

  predicate VideoChanges(t: Tables, n: Name) {
    n.video !in t.titles || t.titles[n.video] != n.title || n.video !in t.dates || t.dates[n.video] != Some(n.date)
  }

  /** What becomes of an item: nothing, an error before or after its video is written, or an artifact. */
  datatype Effect = Unnamed | Unreadable | Unstorable | Known | Added

  function EffectOf(item: Item, known: bool): Effect {
    if item.name.None? then Unnamed
    else if !item.body.readable && (item.kind.Insight? || !known) then Unreadable
    else if known then Known
    else if item.body.text.None? then Unstorable
    else Added
  }

  function Upserted(t: Tables, n: Name, slug: string): Tables {
    UpsertSource(UpsertVideo(t, n.video, n.title, Some(n.date)), n.video, slug, "")
  }

  function Issues(item: Item): nat { if item.kind.Insight? && item.body.issues then 1 else 0 }

  function EffectIn(t: Tables, item: Item): Effect {
    EffectOf(item, item.name.Some? && KeyOf(item.name.value, item) in t.location)
  }

  /** The tables after one turn of the import loop. */
  function StepTables(t: Tables, item: Item): Tables {
    match EffectIn(t, item)
    case Unnamed => t
    case Unreadable => t
    case Unstorable => Upserted(t, item.name.value, item.slug)
    case Known =>
      var u, key := Upserted(t, item.name.value, item.slug), KeyOf(item.name.value, item);
      u.(location := u.location[key := Location(item.slug, item.path)])
    case Added =>
      var u, key := Upserted(t, item.name.value, item.slug), KeyOf(item.name.value, item);
      u.(order := u.order + [key], location := u.location[key := Location(item.slug, item.path)])
  }

  /** The source a known artifact moves away from. */
  function MovedFrom(t: Tables, item: Item): set<(string, string)> {
    if EffectIn(t, item).Known? then
      var key := KeyOf(item.name.value, item);
      if t.location[key].slug != item.slug then {(key.video, t.location[key].slug)} else {}
    else {}
  }

  /** The video whose search row is to be rendered again. */
  function Touches(t: Tables, item: Item): set<string> {
    match EffectIn(t, item)
    case Added => {item.name.value.video}
    case Known =>
      var n := item.name.value;
      if VideoChanges(t, n) || (n.video, item.slug) !in t.urls || MovedFrom(t, item) != {} then {n.video} else {}
    case _ => {}
  }

  function StepErrors(t: Tables, item: Item): nat {
    match EffectIn(t, item)
    case Unnamed => 1
    case Unreadable => 1
    case Unstorable => Issues(item) + 1
    case _ => Issues(item)
  }

  /** One turn of the import loop. */
  function Step(w: Work, item: Item): Work {
    Work(StepTables(w.t, item),
         w.written + (if EffectIn(w.t, item).Added? then 1 else 0),
         w.errors + StepErrors(w.t, item),
         w.touched + Touches(w.t, item),
         w.seen + (if item.name.Some? then {(item.name.value.video, item.slug)} else {}),
         w.moved + MovedFrom(w.t, item))
  }

  function Begin(t: Tables): Work { Work(t, 0, 0, {}, {}, {}) }

  function Fold(t: Tables, items: seq<Item>, n: nat): Work
    requires n <= |items|
  {
    if n == 0 then Begin(t) else Step(Fold(t, items, n - 1), items[n - 1])
  }

  predicate Stale(w: Work, pair: (string, string)) {
    && pair in w.moved && pair !in w.seen
    && pair in w.t.urls && w.t.urls[pair] == ""
    && forall k :: k in w.t.location ==> (k.video, w.t.location[k].slug) != pair
  }

  /** The sources that files moved away from are forgotten when nothing else keeps them. */
  function DropStale(w: Work): Tables {
    w.t.(urls := map pair | pair in w.t.urls && !Stale(w, pair) :: w.t.urls[pair])
  }

  /** The tables after an import, and its counters. */
  function ImportTables(t: Tables, items: seq<Item>): Tables { DropStale(Fold(t, items, |items|)) }

  function ReindexAll(search: map<string, seq<Row>>, t: Tables, touched: set<string>): map<string, seq<Row>> {
    map video | video in search.Keys + touched * t.titles.Keys ::
      if video in touched && video in t.titles then [Render(t, video)] else search[video]
  }

  function Import(s: Store, items: seq<Item>): Store {
    var w, t := Fold(s.tables, items, |items|), ImportTables(s.tables, items);
    Store(t, ReindexAll(s.search, t, w.touched))
  }

  // ----- the import loop as a method -----

  /** `_import_corpus_items`. */
  method ImportItems(t0: Tables, items: seq<Item>) returns (w: Work)
    ensures w == Fold(t0, items, |items|).(t := ImportTables(t0, items))
  {
    hide VideoChanges, Issues;
    var t, written, errors := t0, 0, 0;
    var touched: set<string>, seen: set<(string, string)>, moved: set<(string, string)> := {}, {}, {};
    for i := 0 to |items|
      invariant Work(t, written, errors, touched, seen, moved) == Fold(t0, items, i)
    {
      t, written, errors, touched, seen, moved := ImportItem(t, written, errors, touched, seen, moved, items[i]);
    }
    w := Work(t, written, errors, touched, seen, moved);
    var gone := set pair | pair in moved - seen && pair in t.urls && t.urls[pair] == "" &&
                           forall k :: k in t.location ==> (k.video, t.location[k].slug) != pair :: pair;
    assert t.urls - gone == DropStale(w).urls;
    w := w.(t := t.(urls := t.urls - gone));
  }

  /** The body of the `try`, and its `except`. */
  method ImportItem(t0: Tables, written0: nat, errors0: nat, touched0: set<string>,
                    seen0: set<(string, string)>, moved0: set<(string, string)>, item: Item)
    returns (t: Tables, written: nat, errors: nat, touched: set<string>,
             seen: set<(string, string)>, moved: set<(string, string)>)
    ensures Work(t, written, errors, touched, seen, moved) ==
            Step(Work(t0, written0, errors0, touched0, seen0, moved0), item)
  {
    hide VideoChanges, UpsertVideo, UpsertSource;
    t, written, errors, touched, seen, moved := t0, written0, errors0, touched0, seen0, moved0;
    if item.name.None? {
      errors := errors + 1;
      return;
    }
    var n := item.name.value;
    UpsertedElsewhere(t, n, item.slug);
    var key := KeyOf(n, item);
    seen := seen + {(n.video, item.slug)};
    var known := key in t.location;
    var previousSource := (n.video, item.slug) in t.urls;
    var changed := VideoChanges(t, n);
    if item.kind.Insight? {
      if !item.body.readable {
        errors := errors + 1;
        return;
      }
      errors := errors + Issues(item);
    } else if !known && !item.body.readable {
      errors := errors + 1;
      return;
    }
    t := UpsertVideo(t, n.video, n.title, Some(n.date));
    t := UpsertSource(t, n.video, item.slug, "");
    var inserted := false;
    if known {
      var from := t.location[key];
      if from != Location(item.slug, item.path) {
        t := t.(location := t.location[key := Location(item.slug, item.path)]);
        if from.slug != item.slug {
          moved := moved + {(n.video, from.slug)};
          touched := touched + {n.video};
        }
      } else {
        assert t.location == t.location[key := from];
      }
    } else {
      if item.body.text.None? {
        errors := errors + 1;
        return;
      }
      t := t.(order := t.order + [key], location := t.location[key := Location(item.slug, item.path)]);
      inserted := true;
      written := written + 1;
    }
    if inserted || changed || !previousSource {
      touched := touched + {n.video};
    }
  }

  // ----- what every step keeps -----

  lemma UpsertKeeps(t: Tables, n: Name, slug: string)
    requires WellFormed(t)
    ensures WellFormed(Upserted(t, n, slug))
    ensures n.video in Upserted(t, n, slug).titles && (n.video, slug) in Upserted(t, n, slug).urls
  {
  }

  lemma PlaceKeeps(t: Tables, key: Key, place: Location)
    requires WellFormed(t) && (key.video, place.slug) in t.urls
    ensures key in t.location ==> WellFormed(t.(location := t.location[key := place]))
    ensures key !in t.location ==> WellFormed(t.(order := t.order + [key], location := t.location[key := place]))
  {
    var o := t.order + [key];
    if key !in t.location {
      forall i, j | 0 <= i < j < |o| ensures o[i] != o[j] { assert o[i] == t.order[i] && t.order[i] in t.order; }
      forall k ensures k in t.location[key := place] <==> k in o { assert k in o <==> k in t.order || k == key; }
    }
  }

  lemma StepKeeps(t: Tables, item: Item)
    requires WellFormed(t)
    ensures WellFormed(StepTables(t, item))
  {
    hide WellFormed, Upserted;
    if item.name.Some? {
      UpsertKeeps(t, item.name.value, item.slug);
      UpsertedElsewhere(t, item.name.value, item.slug);
      PlaceKeeps(Upserted(t, item.name.value, item.slug), KeyOf(item.name.value, item), Location(item.slug, item.path));
    }
  }

  lemma UpsertedElsewhere(t: Tables, n: Name, slug: string)
    ensures Upserted(t, n, slug).order == t.order && Upserted(t, n, slug).location == t.location
  {
  }

  lemma StepAdds(t: Tables, item: Item)
    ensures StepTables(t, item).order ==
            t.order + if EffectIn(t, item).Added? then [KeyOf(item.name.value, item)] else []
    ensures MovedFrom(t, item) != {} ==>
              MovedFrom(t, item) == {(item.name.value.video, t.location[KeyOf(item.name.value, item)].slug)}
              && Touches(t, item) == {item.name.value.video}
  {
    hide Upserted, VideoChanges;
    if item.name.Some? {
      UpsertedElsewhere(t, item.name.value, item.slug);
    }
  }

  /** Files only move between sources of videos that are rendered again. */
  ghost predicate MovesTouch(w: Work) { forall p :: p in w.moved ==> p.0 in w.touched }

  lemma StepMoves(w: Work, item: Item)
    requires MovesTouch(w)
    ensures MovesTouch(Step(w, item))
  {
    hide StepTables, StepErrors, EffectIn;
    StepAdds(w.t, item);
  }

  /** No artifact goes, none changes its key, and the counter counts the new ones. */
  lemma {:induction false} FoldGrows(t: Tables, items: seq<Item>, n: nat)
    requires n <= |items| && WellFormed(t)
    ensures var w := Fold(t, items, n);
            WellFormed(w.t) && t.order <= w.t.order && |w.t.order| == |t.order| + w.written && MovesTouch(w)
  {
    hide WellFormed, EffectIn, StepTables, MovesTouch, Touches, MovedFrom, StepErrors;
    if n == 0 {
      assert MovesTouch(Begin(t)) by { NothingMoved(t); }
    } else {
      FoldGrows(t, items, n - 1);
      StepKeeps(Fold(t, items, n - 1).t, items[n - 1]);
      StepAdds(Fold(t, items, n - 1).t, items[n - 1]);
      StepMoves(Fold(t, items, n - 1), items[n - 1]);
    }
  }

  lemma NothingMoved(t: Tables)
    ensures MovesTouch(Begin(t))
  {
  }

  lemma DropKeeps(w: Work)
    requires WellFormed(w.t)
    ensures WellFormed(DropStale(w)) && DropStale(w).order == w.t.order
  {
    var t := DropStale(w);
    forall k | k in t.location ensures (k.video, t.location[k].slug) in t.urls {
      assert !Stale(w, (k.video, t.location[k].slug));
    }
  }

  /** Import conserves: no artifact is lost, every artifact's source is in the table, and the count of written
      items is the growth of the artifact table. */
  lemma ImportConserves(t: Tables, items: seq<Item>)
    requires WellFormed(t)
    ensures var t' := ImportTables(t, items);
            && WellFormed(t') && t.order <= t'.order
            && |t'.order| == |t.order| + Fold(t, items, |items|).written
  {
    FoldGrows(t, items, |items|);
    DropKeeps(Fold(t, items, |items|));
  }

  // ----- what the files say -----

  /** What the files alone say, whatever the tables held: last titles, dates and places, and what is new. */
  datatype Summary = Summary(videos: set<string>, pairs: set<(string, string)>, titles: map<string, string>,
                             dates: map<string, Option<string>>, added: seq<Key>, places: map<Key, Location>)

  function Effects(known: set<Key>, s: Summary, item: Item): Effect {
    EffectOf(item, item.name.Some? && (KeyOf(item.name.value, item) in known || KeyOf(item.name.value, item) in s.added))
  }

  function Reach(s: Summary, n: Name, slug: string): Summary {
    s.(videos := s.videos + {n.video}, pairs := s.pairs + {(n.video, slug)},
       titles := if n.title == "" then s.titles else s.titles[n.video := n.title],
       dates := s.dates[n.video := Some(n.date)])
  }

  function Extend(known: set<Key>, s: Summary, item: Item): Summary {
    match Effects(known, s, item)
    case Unnamed => s
    case Unreadable => s
    case Unstorable => Reach(s, item.name.value, item.slug)
    case Known =>
      Reach(s, item.name.value, item.slug).(
        places := s.places[KeyOf(item.name.value, item) := Location(item.slug, item.path)])
    case Added =>
      Reach(s, item.name.value, item.slug).(
        added := s.added + [KeyOf(item.name.value, item)],
        places := s.places[KeyOf(item.name.value, item) := Location(item.slug, item.path)])
  }

  function Summarise(known: set<Key>, items: seq<Item>, n: nat): Summary
    requires n <= |items|
  {
    if n == 0 then Summary({}, {}, map[], map[], [], map[])
    else Extend(known, Summarise(known, items, n - 1), items[n - 1])
  }

  /** The first titles with the last ones over them, and an empty one for what has neither. */
  function Titles(videos: set<string>, first: map<string, string>, last: map<string, string>): map<string, string> {
    (map v | v in videos :: "") + first + last
  }

  /** The tables with a summary written over them: the last writer wins. */
  function Overlay(t: Tables, s: Summary): Tables {
    Tables(Titles(s.videos, t.titles, s.titles), t.dates + s.dates,
           (map p | p in s.pairs :: "") + t.urls, t.order + s.added, t.location + s.places)
  }

  lemma TitleOf(videos: set<string>, first: map<string, string>, last: map<string, string>, v: string)
    ensures v in Titles(videos, first, last) <==> v in videos || v in first || v in last
    ensures v in Titles(videos, first, last) ==>
              Titles(videos, first, last)[v] == if v in last then last[v] else if v in first then first[v] else ""
  {
  }

  lemma OverlayTitles(videos: set<string>, first: map<string, string>, last: map<string, string>, v: string, title: string)
    requires last.Keys <= videos
    ensures var all := Titles(videos, first, last);
            Titles(videos + {v}, first, if title == "" then last else last[v := title]) ==
            if v in all && title == "" then all else all[v := title]
  {
    hide Titles;
    var next := if title == "" then last else last[v := title];
    var all, more := Titles(videos, first, last), Titles(videos + {v}, first, next);
    forall x
      ensures x in more <==> x in all || x == v
      ensures x in more ==> more[x] == if x == v && (title != "" || v !in all) then title else all[x]
    {
      TitleOf(videos, first, last, x);
      TitleOf(videos + {v}, first, next, x);
    }
  }

  lemma OverlayUrls(pairs: set<(string, string)>, urls: map<(string, string), string>, p: (string, string))
    ensures var all := (map x | x in pairs :: "") + urls;
            (map x | x in pairs + {p} :: "") + urls == if p in all then all else all[p := ""]
  {
  }

  lemma OverlayReach(t: Tables, s: Summary, n: Name, slug: string)
    requires s.titles.Keys <= s.videos
    ensures Overlay(t, Reach(s, n, slug)) == Upserted(Overlay(t, s), n, slug)
  {
    hide Titles;
    OverlayTitles(s.videos, t.titles, s.titles, n.video, n.title);
    OverlayUrls(s.pairs, t.urls, (n.video, slug));
    assert t.dates + s.dates[n.video := Some(n.date)] == (t.dates + s.dates)[n.video := Some(n.date)];
  }

  lemma OverlayPlace(t: Tables, s: Summary, key: Key, place: Location)
    ensures Overlay(t, s.(places := s.places[key := place])) ==
            Overlay(t, s).(location := Overlay(t, s).location[key := place])
    ensures Overlay(t, s.(added := s.added + [key], places := s.places[key := place])) ==
            Overlay(t, s).(order := Overlay(t, s).order + [key], location := Overlay(t, s).location[key := place])
  {
    assert t.location + s.places[key := place] == (t.location + s.places)[key := place];
    assert t.order + (s.added + [key]) == t.order + s.added + [key];
  }

  /** A summary's parts fit together: what is added can be read and stored, is placed, and every place is reached. */
  ghost predicate Fits(known: set<Key>, s: Summary) {
    && s.titles.Keys <= s.videos
    && (forall k :: k in s.added ==> k.body.readable && k.body.text.Some? && k in s.places)
    && (forall k :: k in s.places ==> (k.video, s.places[k].slug) in s.pairs && (k in known || k in s.added))
  }

  lemma ExtendFits(known: set<Key>, s: Summary, item: Item)
    requires Fits(known, s)
    ensures Fits(known, Extend(known, s, item))
  {
    var u := Extend(known, s, item);
    forall k | k in u.added ensures k.body.readable && k.body.text.Some? && k in u.places {
      assert k in s.added || k == KeyOf(item.name.value, item);
    }
    forall k | k in u.places ensures (k.video, u.places[k].slug) in u.pairs && (k in known || k in u.added) {
      assert k in s.added ==> k in u.added;
    }
  }

  lemma ExtendOverlays(t: Tables, s: Summary, item: Item)
    requires Fits(t.location.Keys, s) && s.places.Keys <= t.location.Keys + (set k | k in s.added)
    ensures Overlay(t, Extend(t.location.Keys, s, item)) == StepTables(Overlay(t, s), item)
  {
    hide Overlay, Upserted, Reach;
    if item.name.Some? {
      var n := item.name.value;
      KnownKeys(t, s, KeyOf(n, item));
      FitsTitles(t.location.Keys, s);
      ReachPlaces(s, n, item.slug);
      OverlayReach(t, s, n, item.slug);
      OverlayPlace(t, Reach(s, n, item.slug), KeyOf(n, item), Location(item.slug, item.path));
    }
  }

  lemma FitsTitles(known: set<Key>, s: Summary)
    requires Fits(known, s)
    ensures s.titles.Keys <= s.videos
  {
  }

  lemma ReachPlaces(s: Summary, n: Name, slug: string)
    ensures Reach(s, n, slug).places == s.places && Reach(s, n, slug).added == s.added
  {
  }

  lemma KnownKeys(t: Tables, s: Summary, key: Key)
    requires Fits(t.location.Keys, s)
    ensures key in Overlay(t, s).location <==> key in t.location || key in s.added
  {
  }

  /** The import loop overlays the summary of the files on the tables. */
  lemma {:induction false} FoldOverlays(t: Tables, items: seq<Item>, n: nat)
    requires n <= |items|
    ensures Fits(t.location.Keys, Summarise(t.location.Keys, items, n))
    ensures Fold(t, items, n).t == Overlay(t, Summarise(t.location.Keys, items, n))
  {
    hide StepTables, Touches, MovedFrom, StepErrors, EffectIn, Overlay, Extend, Fits;
    if n == 0 {
      NothingOverlaid(t);
    } else {
      FoldOverlays(t, items, n - 1);
      var s := Summarise(t.location.Keys, items, n - 1);
      ExtendFits(t.location.Keys, s, items[n - 1]);
      FitsPlaces(t.location.Keys, s);
      ExtendOverlays(t, s, items[n - 1]);
    }
  }

  lemma FitsPlaces(known: set<Key>, s: Summary)
    requires Fits(known, s)
    ensures s.places.Keys <= known + (set k | k in s.added)
  {
  }

  lemma NothingOverlaid(t: Tables)
    ensures var none := Summary({}, {}, map[], map[], [], map[]);
            Overlay(t, none) == t && Fits(t.location.Keys, none)
  {
    var none := Summary({}, {}, map[], map[], [], map[]);
    assert Overlay(t, none).titles == t.titles;
    assert Overlay(t, none).urls == t.urls;
  }

  /** What the tables before the import, and the files before this one, say of a video, a source and a place. */
  function TitleSoFar(t: Tables, s: Summary, video: string): Option<string> {
    if video in s.titles then Some(s.titles[video])
    else if video in t.titles then Some(t.titles[video])
    else if video in s.videos then Some("") else None
  }

  function DateSoFar(t: Tables, s: Summary, video: string): Option<Option<string>> {
    if video in s.dates then Some(s.dates[video]) else if video in t.dates then Some(t.dates[video]) else None
  }

  predicate SourceSoFar(t: Tables, s: Summary, pair: (string, string)) { pair in t.urls || pair in s.pairs }

  function PlaceSoFar(t: Tables, s: Summary, key: Key): Option<Location> {
    if key in s.places then Some(s.places[key]) else if key in t.location then Some(t.location[key]) else None
  }

  /** The file gives the video a new artifact, or is a known one and says otherwise than the last word before it:
      another title or date, a new source, or another place. */
  predicate Renders(t: Tables, s: Summary, item: Item, video: string) {
    && item.name.Some? && item.name.value.video == video
    && match Effects(t.location.Keys, s, item)
       case Added => true
       case Known =>
         var n := item.name.value;
         || TitleSoFar(t, s, video) != Some(n.title) || DateSoFar(t, s, video) != Some(Some(n.date))
         || !SourceSoFar(t, s, (video, item.slug))
         || (PlaceSoFar(t, s, KeyOf(n, item)).Some? && PlaceSoFar(t, s, KeyOf(n, item)).value.slug != item.slug)
       case _ => false
  }

  /** Some file has the video's row rendered again; told from the tables and the files before the import. */
  ghost predicate Rerendered(t: Tables, items: seq<Item>, n: nat, video: string)
    requires n <= |items|
  {
    exists i :: 0 <= i < n && Renders(t, Summarise(t.location.Keys, items, i), items[i], video)
  }

  lemma OverlaySays(t: Tables, s: Summary, video: string)
    requires s.titles.Keys <= s.videos
    ensures var u := Overlay(t, s);
            && TitleSoFar(t, s, video) == (if video in u.titles then Some(u.titles[video]) else None)
            && DateSoFar(t, s, video) == (if video in u.dates then Some(u.dates[video]) else None)
  {
  }

  lemma OverlayPlaces(t: Tables, s: Summary, pair: (string, string), key: Key)
    ensures var u := Overlay(t, s);
            && (SourceSoFar(t, s, pair) <==> pair in u.urls)
            && PlaceSoFar(t, s, key) == (if key in u.location then Some(u.location[key]) else None)
  {
  }

  /** A turn touches a video exactly when its file has the video rendered. */
  lemma TouchesExactly(t: Tables, s: Summary, item: Item, video: string)
    requires Fits(t.location.Keys, s)
    ensures video in Touches(Overlay(t, s), item) <==> Renders(t, s, item, video)
  {
    hide Overlay, TitleSoFar, DateSoFar, SourceSoFar, PlaceSoFar;
    if item.name.Some? {
      var n, key := item.name.value, KeyOf(item.name.value, item);
      KnownKeys(t, s, key);
      OverlaySays(t, s, n.video);
      OverlayPlaces(t, s, (n.video, item.slug), key);
    }
  }

  lemma {:induction false} TouchedExactly(t: Tables, items: seq<Item>, n: nat, video: string)
    requires n <= |items|
    ensures video in Fold(t, items, n).touched <==> Rerendered(t, items, n, video)
  {
    hide StepTables, Touches, MovedFrom, StepErrors, EffectIn, Overlay, Summarise, Fits, Renders;
    if n > 0 {
      TouchedExactly(t, items, n - 1, video);
      FoldOverlays(t, items, n - 1);
      TouchesExactly(t, Summarise(t.location.Keys, items, n - 1), items[n - 1], video);
    }
  }

  /** The item fails to store its row after writing the video and a source of it: it can be read, its text cannot be
      stored, and the tables do not have it yet. */
  predicate Fails(t: Tables, item: Item, video: string) {
    && item.name.Some? && item.name.value.video == video && item.body.readable && item.body.text.None?
    && KeyOf(item.name.value, item) !in t.location
  }

  lemma FailsExactly(t: Tables, items: seq<Item>, i: nat, video: string)
    requires i < |items|
    ensures Fails(t, items[i], video) <==>
            EffectIn(Fold(t, items, i).t, items[i]).Unstorable? && items[i].name.value.video == video
  {
    hide Overlay, Fold, Summarise;
    FoldOverlays(t, items, i);
    if items[i].name.Some? {
      KnownKeys(t, Summarise(t.location.Keys, items, i), KeyOf(items[i].name.value, items[i]));
    }
  }

  // ----- rows and tables -----

  /** The tables say the same of this video's title and sources. */
  ghost predicate SameVideo(t: Tables, t': Tables, video: string) {
    && (video in t.titles <==> video in t'.titles)
    && (video in t.titles && video in t'.titles ==> t.titles[video] == t'.titles[video])
    && Slugs(t.urls, video) == Slugs(t'.urls, video)
  }

  /** The tables say the same of this video's artifacts, apart from where they are. */
  ghost predicate SameArtifacts(t: Tables, t': Tables, video: string) { Own(t.order, video) == Own(t'.order, video) }

  lemma UpsertedSame(t: Tables, n: Name, slug: string, video: string)
    ensures video != n.video ==> SameVideo(t, Upserted(t, n, slug), video)
    ensures !VideoChanges(t, n) && (n.video, slug) in t.urls ==> SameVideo(t, Upserted(t, n, slug), video)
  {
    var u := Upserted(t, n, slug);
    if video != n.video {
      forall x ensures x in Slugs(t.urls, video) <==> x in Slugs(u.urls, video) {
        assert (video, x) in t.urls <==> (video, x) in u.urls;
      }
    }
  }

  /** A video that a step does not touch keeps its artifacts; and its title and sources, unless the step failed to
      store a row of it after writing them. */
  lemma StepUntouched(t: Tables, item: Item, video: string)
    requires video !in Touches(t, item)
    ensures SameArtifacts(t, StepTables(t, item), video)
    ensures !(EffectIn(t, item).Unstorable? && item.name.value.video == video) ==>
              SameVideo(t, StepTables(t, item), video)
  {
    hide Upserted, VideoChanges, SameVideo, Own;
    SameAsItself(t, video);
    if item.name.Some? {
      var u, s := Upserted(t, item.name.value, item.slug), StepTables(t, item);
      UpsertedElsewhere(t, item.name.value, item.slug);
      UpsertedSame(t, item.name.value, item.slug, video);
      OwnAppend(t.order, KeyOf(item.name.value, item), video);
      PlacesAside(t, u, s.order, s.location, video);
    }
  }

  lemma SameAsItself(t: Tables, video: string)
    ensures SameVideo(t, t, video)
  {
  }

  lemma PlacesAside(t: Tables, u: Tables, order: seq<Key>, location: map<Key, Location>, video: string)
    ensures SameVideo(t, u, video) <==> SameVideo(t, u.(order := order, location := location), video)
  {
  }

  /** The slugs the failing items of a video wrote, and the last title they wrote. */
  function FailedSlugs(t: Tables, items: seq<Item>, n: nat, video: string): set<string>
    requires n <= |items|
  {
    if n == 0 then {}
    else FailedSlugs(t, items, n - 1, video) + if Fails(t, items[n - 1], video) then {items[n - 1].slug} else {}
  }

  function FailedTitle(t: Tables, items: seq<Item>, n: nat, video: string): Option<string>
    requires n <= |items|
  {
    if n == 0 then None
    else if Fails(t, items[n - 1], video) && items[n - 1].name.value.title != "" then Some(items[n - 1].name.value.title)
    else FailedTitle(t, items, n - 1, video)
  }

  /** What an untouched video has of title and sources: what it had, and what its failing items wrote. */
  ghost predicate Tracks(t: Tables, u: Tables, slugs: set<string>, title: Option<string>, video: string) {
    && (video in u.titles <==> video in t.titles || slugs != {})
    && (video in u.titles ==>
          u.titles[video] == if title.Some? then title.value else if video in t.titles then t.titles[video] else "")
    && Slugs(u.urls, video) == Slugs(t.urls, video) + slugs
    && (title.Some? ==> slugs != {})
  }

  lemma TracksOn(t: Tables, u: Tables, v: Tables, slugs: set<string>, title: Option<string>, video: string)
    requires Tracks(t, u, slugs, title, video) && SameVideo(u, v, video)
    ensures Tracks(t, v, slugs, title, video)
  {
  }

  lemma TracksFailure(t: Tables, u: Tables, n: Name, slug: string, slugs: set<string>, title: Option<string>)
    requires Tracks(t, u, slugs, title, n.video)
    ensures Tracks(t, Upserted(u, n, slug), slugs + {slug}, if n.title != "" then Some(n.title) else title, n.video)
  {
    var v := Upserted(u, n, slug);
    forall x ensures x in Slugs(v.urls, n.video) <==> x in Slugs(u.urls, n.video) + {slug} {
      assert (n.video, x) in v.urls <==> (n.video, x) in u.urls || x == slug;
    }
  }

  /** A video no item touched keeps its artifacts, and its title and sources but for its failing items. */
  lemma {:induction false} FoldUntouched(t: Tables, items: seq<Item>, n: nat, video: string)
    requires n <= |items| && video !in Fold(t, items, n).touched
    ensures SameArtifacts(t, Fold(t, items, n).t, video)
    ensures Tracks(t, Fold(t, items, n).t, FailedSlugs(t, items, n, video), FailedTitle(t, items, n, video), video)
  {
    hide StepTables, SameVideo, Touches, MovedFrom, StepErrors, EffectIn, Tracks, Own, Fails;
    if n == 0 {
      NothingFailed(t, video);
    } else {
      var before, item := Fold(t, items, n - 1), items[n - 1];
      FoldUntouched(t, items, n - 1, video);
      StepUntouched(before.t, item, video);
      FailsExactly(t, items, n - 1, video);
      var slugs, title := FailedSlugs(t, items, n - 1, video), FailedTitle(t, items, n - 1, video);
      if Fails(t, items[n - 1], video) {
        UnstorableTables(before.t, item);
        TracksFailure(t, before.t, item.name.value, item.slug, slugs, title);
      } else {
        TracksOn(t, before.t, StepTables(before.t, item), slugs, title, video);
        assert slugs + {} == slugs;
      }
    }
  }

  lemma NothingFailed(t: Tables, video: string)
    ensures Tracks(t, t, {}, None, video)
  {
  }

  lemma UnstorableTables(t: Tables, item: Item)
    requires EffectIn(t, item).Unstorable?
    ensures item.name.Some?
    ensures StepTables(t, item) == Upserted(t, item.name.value, item.slug)
  {
  }

  /** The text of the file can be stored. */
  predicate Storable(item: Item) { item.body.readable ==> item.body.text.Some? }

  lemma DropUntouched(w: Work, video: string)
    requires MovesTouch(w) && video !in w.touched
    ensures SameVideo(w.t, DropStale(w), video)
  {
    var t := DropStale(w);
    forall x ensures x in Slugs(w.t.urls, video) <==> x in Slugs(t.urls, video) {
      assert (video, x) in w.t.urls <==> (video, x) in t.urls;
    }
  }

  /** A failing item of the video shows: the video is new, its title has changed, or it has a new source. All of it
      can be read off the tables before the import and the files. */
  predicate FailureShows(t: Tables, items: seq<Item>, video: string) {
    var slugs, title := FailedSlugs(t, items, |items|, video), FailedTitle(t, items, |items|, video);
    slugs != {} && (video !in t.titles || (title.Some? && title.value != t.titles[video]) || !(slugs <= Slugs(t.urls, video)))
  }

  lemma TracksMeans(t: Tables, u: Tables, slugs: set<string>, title: Option<string>, video: string)
    requires Tracks(t, u, slugs, title, video)
    ensures SameVideo(t, u, video) <==>
            !(slugs != {} && (video !in t.titles || (title.Some? && title.value != t.titles[video]) ||
                              !(slugs <= Slugs(t.urls, video))))
  {
    hide Slugs;
    assert slugs <= Slugs(t.urls, video) ==> Slugs(t.urls, video) + slugs == Slugs(t.urls, video);
  }

  /** An untouched video keeps its artifacts over the whole import, and its title and sources exactly when no failing
      item of it shows. */
  lemma ImportUntouched(t: Tables, items: seq<Item>, video: string)
    requires WellFormed(t) && video !in Fold(t, items, |items|).touched
    ensures SameArtifacts(t, ImportTables(t, items), video)
    ensures SameVideo(t, ImportTables(t, items), video) <==> !FailureShows(t, items, video)
  {
    hide WellFormed, SameVideo, MovesTouch, Fold, Tracks, Slugs;
    var w := Fold(t, items, |items|);
    FoldGrows(t, items, |items|);
    FoldUntouched(t, items, |items|, video);
    DropUntouched(w, video);
    var slugs, title := FailedSlugs(t, items, |items|, video), FailedTitle(t, items, |items|, video);
    TracksOn(t, w.t, DropStale(w), slugs, title, video);
    TracksMeans(t, DropStale(w), slugs, title, video);
  }

  /** Rows differ exactly when the title or the sources do, as long as the artifacts are the same. */
  lemma RenderSame(t: Tables, u: Tables, video: string)
    requires SameArtifacts(t, u, video) && video in t.titles && video in u.titles
    ensures Render(t, video) == Render(u, video) <==> SameVideo(t, u, video)
  {
  }

  lemma StepTitles(t: Tables, item: Item)
    ensures t.titles.Keys <= StepTables(t, item).titles.Keys
    ensures Touches(t, item) <= StepTables(t, item).titles.Keys
  {
    hide VideoChanges;
  }

  /** No video goes, and every touched video has its row. */
  lemma {:induction false} FoldTitles(t: Tables, items: seq<Item>, n: nat)
    requires n <= |items|
    ensures t.titles.Keys <= Fold(t, items, n).t.titles.Keys
    ensures Fold(t, items, n).touched <= Fold(t, items, n).t.titles.Keys
  {
    hide StepTables, Touches, MovedFrom, StepErrors, EffectIn;
    if n > 0 {
      FoldTitles(t, items, n - 1);
      StepTitles(Fold(t, items, n - 1).t, items[n - 1]);
    }
  }

  lemma NoVideoNoSources(t: Tables, video: string)
    requires WellFormed(t) && video !in t.titles
    ensures Slugs(t.urls, video) == {}
  {
  }

  lemma BothAbsent(t: Tables, u: Tables, video: string)
    requires WellFormed(t) && WellFormed(u) && video !in t.titles && video !in u.titles
    ensures SameVideo(t, u, video)
  {
    NoVideoNoSources(t, video);
    NoVideoNoSources(u, video);
  }

  lemma DropTitles(w: Work)
    ensures DropStale(w).titles == w.t.titles
  {
  }

  /** The row of one video after an import. */
  lemma RowAfterImport(s: Store, items: seq<Item>, video: string)
    requires WellFormed(s.tables) && RowAgrees(s, video)
    ensures RowAgrees(Import(s, items), video) <==>
            Rerendered(s.tables, items, |items|, video) || !FailureShows(s.tables, items, video)
  {
    hide Rerendered, WellFormed, Fold, Render, ImportTables, SameArtifacts, Slugs, FailureShows;
    var w, t := Fold(s.tables, items, |items|), ImportTables(s.tables, items);
    TouchedExactly(s.tables, items, |items|, video);
    FoldTitles(s.tables, items, |items|);
    ImportIsDrop(s.tables, items);
    DropTitles(w);
    if video !in w.touched {
      ImportUntouched(s.tables, items, video);
      if video in s.tables.titles {
        RenderSame(s.tables, t, video);
      } else if video !in t.titles {
        ImportConserves(s.tables, items);
        BothAbsent(s.tables, t, video);
      }
    }
  }

  lemma ImportIsDrop(t: Tables, items: seq<Item>)
    ensures ImportTables(t, items) == DropStale(Fold(t, items, |items|))
  {
  }

  /** Exactly when an import keeps the derived rows in agreement: every video of which a failing file shows is
      rendered again on account of another file. Both sides are told from the tables and the files before the import. */
  lemma AgreementExactly(s: Store, items: seq<Item>)
    requires WellFormed(s.tables) && Agrees(s)
    ensures Agrees(Import(s, items)) <==>
            forall video :: FailureShows(s.tables, items, video) ==> Rerendered(s.tables, items, |items|, video)
  {
    hide Rerendered, WellFormed, Fold, RowAgrees, Import, FailureShows;
    forall video
      ensures RowAgrees(Import(s, items), video) <==>
              Rerendered(s.tables, items, |items|, video) || !FailureShows(s.tables, items, video)
    {
      assert RowAgrees(s, video);
      RowAfterImport(s, items, video);
    }
  }

  lemma {:induction false} StorableNeverFails(t: Tables, items: seq<Item>, n: nat, video: string)
    requires n <= |items| && forall i :: 0 <= i < n ==> Storable(items[i])
    ensures FailedSlugs(t, items, n, video) == {}
  {
    if n > 0 {
      StorableNeverFails(t, items, n - 1, video);
    }
  }

  /** When every readable file has a text that can be stored, the rows agree again after the import. */
  lemma StorableKeepsAgreement(s: Store, items: seq<Item>)
    requires WellFormed(s.tables) && Agrees(s)
    requires forall i :: 0 <= i < |items| ==> Storable(items[i])
    ensures Agrees(Import(s, items))
  {
    hide WellFormed, Fold, RowAgrees, Import, Storable, FailedSlugs, FailedTitle, Agrees;
    forall video ensures !FailureShows(s.tables, items, video) {
      StorableNeverFails(s.tables, items, |items|, video);
    }
    AgreementExactly(s, items);
  }

  /** A new video whose only file is an insight with a lone surrogate is in the tables without a search row. */
  lemma UnstorableBreaksAgreement()
    ensures var item := Item(Some(Name("v", "Title", "2024-01-01", "en")), "inbox", "insights/f.json", Insight,
                             Body(1, true, false, None));
            var empty := Store(Tables(map[], map[], map[], [], map[]), map[]);
            Agrees(empty) && WellFormed(empty.tables) && !Agrees(Import(empty, [item]))
  {
    var item := Item(Some(Name("v", "Title", "2024-01-01", "en")), "inbox", "insights/f.json", Insight,
                     Body(1, true, false, None));
    var empty := Store(Tables(map[], map[], map[], [], map[]), map[]);
    assert Fold(empty.tables, [item], 1) == Step(Begin(empty.tables), item);
    assert EffectIn(empty.tables, item) == Unstorable;
    assert "v" in ImportTables(empty.tables, [item]).titles;
    assert !RowAgrees(Import(empty, [item]), "v");
  }

  // ----- importing again -----

  /** On the second reading what was added is known, and everything else goes as before. */
  lemma ExtendAgain(known: set<Key>, later: set<Key>, s: Summary, item: Item)
    requires known <= later && (forall k :: k in s.added ==> k in later)
    requires forall k :: k in later ==> k in known || (k.body.readable && k.body.text.Some?)
    requires Effects(known, s, item).Added? ==> KeyOf(item.name.value, item) in later
    ensures Extend(later, s.(added := []), item) == Extend(known, s, item).(added := [])
  {
  }

  lemma ExtendGrows(known: set<Key>, s: Summary, item: Item)
    ensures var u := Extend(known, s, item);
            s.pairs <= u.pairs && s.places.Keys <= u.places.Keys && s.added <= u.added
    ensures Effects(known, s, item).Added? ==> KeyOf(item.name.value, item) in Extend(known, s, item).added
    ensures Effects(known, s, item).Added? || Effects(known, s, item).Known? ==>
              KeyOf(item.name.value, item) in Extend(known, s, item).places
  {
  }

  lemma {:induction false} SummaryGrows(known: set<Key>, items: seq<Item>, n: nat, m: nat)
    requires n <= m <= |items|
    ensures var s, u := Summarise(known, items, n), Summarise(known, items, m);
            s.pairs <= u.pairs && s.places.Keys <= u.places.Keys && s.added <= u.added
    decreases m
  {
    hide Extend;
    if n < m {
      SummaryGrows(known, items, n, m - 1);
      ExtendGrows(known, Summarise(known, items, m - 1), items[m - 1]);
    }
  }

  /** `later` is what is known once all the files have been imported. */
  ghost predicate Learned(known: set<Key>, later: set<Key>, items: seq<Item>) {
    later == known + set k | k in Summarise(known, items, |items|).added
  }

  lemma {:induction false} SummariseAgain(known: set<Key>, later: set<Key>, items: seq<Item>, n: nat)
    requires n <= |items| && Learned(known, later, items) && Fits(known, Summarise(known, items, |items|))
    ensures Summarise(later, items, n) == Summarise(known, items, n).(added := [])
  {
    hide Extend;
    if n > 0 {
      var s := Summarise(known, items, n - 1);
      SummariseAgain(known, later, items, n - 1);
      SummaryGrows(known, items, n - 1, |items|);
      SummaryGrows(known, items, n, |items|);
      ExtendGrows(known, s, items[n - 1]);
      ExtendAgain(known, later, s, items[n - 1]);
    }
  }

  lemma OverlayTwice(videos: set<string>, first: map<string, string>, last: map<string, string>)
    requires last.Keys <= videos
    ensures var all := Titles(videos, first, last); Titles(videos, all, last) == all
  {
  }

  lemma DefaultsKnown(pairs: set<(string, string)>, urls: map<(string, string), string>)
    requires pairs <= urls.Keys
    ensures (map p | p in pairs :: "") + urls == urls
  {
  }

  lemma WriteTwice<K, V>(first: map<K, V>, last: map<K, V>)
    ensures first + last + last == first + last
  {
  }

  lemma OverlayAgain(t: Tables, s: Summary, u: Tables)
    requires s.titles.Keys <= s.videos && s.pairs <= u.urls.Keys && u == Overlay(t, s).(urls := u.urls)
    ensures Overlay(u, s.(added := [])) == u
  {
    OverlayTwice(s.videos, t.titles, s.titles);
    WriteTwice(t.dates, s.dates);
    DefaultsKnown(s.pairs, u.urls);
    WriteTwice(t.location, s.places);
    assert u.order + [] == u.order;
  }

  lemma {:induction false} PairsAreSeen(t: Tables, items: seq<Item>, n: nat)
    requires n <= |items|
    ensures Summarise(t.location.Keys, items, n).pairs <= Fold(t, items, n).seen
  {
    hide StepTables, Touches, MovedFrom, StepErrors, EffectIn;
    if n > 0 {
      PairsAreSeen(t, items, n - 1);
    }
  }

  /** The second import moves files only between sources it sees. */
  lemma MovesAreSeen(t: Tables, s: Summary, last: Summary, known: set<Key>, u: Tables, item: Item)
    requires Fits(known, s) && Fits(known, last) && s.pairs <= last.pairs
    requires u.location == t.location + last.places + s.places
    requires EffectIn(u, item).Known? ==> KeyOf(item.name.value, item) in last.places
    ensures MovedFrom(u, item) <= last.pairs
  {
    hide EffectIn;
  }

  /** The tables and the summary that a first import leaves for the second. */
  ghost predicate Second(t: Tables, items: seq<Item>, u: Tables) {
    && u == ImportTables(t, items)
    && Learned(t.location.Keys, u.location.Keys, items)
    && Summarise(t.location.Keys, items, |items|).pairs <= u.urls.Keys
    && Fits(t.location.Keys, Summarise(t.location.Keys, items, |items|))
    && u == Overlay(t, Summarise(t.location.Keys, items, |items|)).(urls := u.urls)
  }

  lemma FirstLeavesSecond(t: Tables, items: seq<Item>)
    ensures Second(t, items, ImportTables(t, items))
  {
    hide Fold, Summarise;
    var s := Summarise(t.location.Keys, items, |items|);
    FoldOverlays(t, items, |items|);
    PairsAreSeen(t, items, |items|);
    var w := Fold(t, items, |items|);
    forall p | p in s.pairs ensures p in DropStale(w).urls {
      assert p in Overlay(t, s).urls && !Stale(w, p);
    }
    forall k ensures k in w.t.location <==> k in t.location || k in s.added { KnownKeys(t, s, k); }
  }

  /** Midway through the second import. */
  lemma SecondFold(t: Tables, items: seq<Item>, u: Tables, n: nat)
    requires n <= |items| && Second(t, items, u)
    ensures Fold(u, items, n).t == Overlay(u, Summarise(t.location.Keys, items, n).(added := []))
    ensures Fits(t.location.Keys, Summarise(t.location.Keys, items, n))
  {
    hide Fold, Summarise, Overlay, Fits, ImportTables;
    FoldOverlays(u, items, n);
    FoldOverlays(t, items, n);
    SummariseAgain(t.location.Keys, u.location.Keys, items, n);
  }

  lemma KnownIsPlaced(t: Tables, items: seq<Item>, u: Tables, n: nat)
    requires n < |items| && Second(t, items, u)
    requires EffectIn(Fold(u, items, n).t, items[n]).Known?
    ensures KeyOf(items[n].name.value, items[n]) in Summarise(t.location.Keys, items, |items|).places
  {
    hide ImportTables, Overlay, Fits, Fold;
    FoldOverlays(u, items, n);
    SummariseAgain(t.location.Keys, u.location.Keys, items, n);
    SummariseAgain(t.location.Keys, u.location.Keys, items, n + 1);
    var s := Summarise(u.location.Keys, items, n);
    KnownKeys(u, s, KeyOf(items[n].name.value, items[n]));
    ExtendGrows(u.location.Keys, s, items[n]);
    SummaryGrows(t.location.Keys, items, n + 1, |items|);
  }

  lemma SecondMovesStep(t: Tables, items: seq<Item>, u: Tables, n: nat)
    requires n < |items| && Second(t, items, u)
    ensures MovedFrom(Fold(u, items, n).t, items[n]) <= Summarise(t.location.Keys, items, |items|).pairs
  {
    hide StepTables, Touches, MovedFrom, StepErrors, EffectIn, Summarise, ImportTables, Fits, Fold;
    SecondFold(t, items, u, n);
    SummaryGrows(t.location.Keys, items, n, |items|);
    var w := Fold(u, items, n);
    if EffectIn(w.t, items[n]).Known? {
      KnownIsPlaced(t, items, u, n);
    }
    MovesAreSeen(t, Summarise(t.location.Keys, items, n), Summarise(t.location.Keys, items, |items|),
                 t.location.Keys, w.t, items[n]);
  }

  lemma {:induction false} SecondMoves(t: Tables, items: seq<Item>, u: Tables, n: nat)
    requires n <= |items| && Second(t, items, u)
    ensures Fold(u, items, n).moved <= Summarise(t.location.Keys, items, |items|).pairs
  {
    hide StepTables, Touches, MovedFrom, StepErrors, EffectIn, Summarise, Second;
    if n > 0 {
      SecondMoves(t, items, u, n - 1);
      SecondMovesStep(t, items, u, n - 1);
    }
  }

  /** Importing the same files again changes nothing in the tables and writes no item. */
  lemma ImportAgain(t: Tables, items: seq<Item>)
    requires WellFormed(t)
    ensures var u := ImportTables(t, items);
            ImportTables(u, items) == u && Fold(u, items, |items|).written == 0
  {
    hide Summarise, Fits, WellFormed, Fold;
    var u := ImportTables(t, items);
    var last := Summarise(t.location.Keys, items, |items|);
    FirstLeavesSecond(t, items);
    SecondFold(t, items, u, |items|);
    FitsTitles(t.location.Keys, last);
    OverlayAgain(t, last, u);
    SecondMoves(t, items, u, |items|);
    SummariseAgain(t.location.Keys, u.location.Keys, items, |items|);
    PairsAreSeen(u, items, |items|);
    var w := Fold(u, items, |items|);
    forall p ensures !Stale(w, p) {}
    assert DropStale(w).urls == u.urls;
    ImportConserves(t, items);
    FoldGrows(u, items, |items|);
  }

  /** And when the first import left the search rows in agreement, the second leaves them as they are. */
  lemma ImportAgainRows(s: Store, items: seq<Item>)
    requires WellFormed(s.tables) && Agrees(Import(s, items))
    ensures Import(Import(s, items), items) == Import(s, items)
  {
    hide WellFormed, Fold, ImportTables, Agrees, ReindexAll;
    ImportAgain(s.tables, items);
    var t := Import(s, items);
    ReindexAgreeing(t, Fold(t.tables, items, |items|).touched);
  }

  /** Rendering rows that agree changes nothing. */
  lemma ReindexAgreeing(s: Store, touched: set<string>)
    requires Agrees(s)
    ensures ReindexAll(s.search, s.tables, touched) == s.search
  {
    hide Render;
    forall video | video in touched && video in s.tables.titles
      ensures video in s.search && s.search[video] == [Render(s.tables, video)]
    {
      assert RowAgrees(s, video);
    }
  }

  // ----- discovery -----

  datatype Listed = Listed(video: string, title: string, date: Option<string>)

  function DiscoverOne(s: Store, l: Listed, slug: string, url: string): Store {
    Reindex(s.(tables := UpsertSource(UpsertVideo(s.tables, l.video, l.title, l.date), l.video, slug, url)), l.video)
  }

  /** `ingest_discovery` after the first `n` videos of a listing. */
  function Discover(s: Store, videos: seq<Listed>, slug: string, url: string, n: nat): Store
    requires n <= |videos|
  {
    if n == 0 then s else DiscoverOne(Discover(s, videos, slug, url, n - 1), videos[n - 1], slug, url)
  }

  lemma DiscoverOneElsewhere(s: Store, l: Listed, slug: string, url: string, video: string)
    requires RowAgrees(s, video) && video != l.video
    ensures RowAgrees(DiscoverOne(s, l, slug, url), video)
  {
    var t := DiscoverOne(s, l, slug, url).tables;
    forall x ensures x in Slugs(s.tables.urls, video) <==> x in Slugs(t.urls, video) {
      assert (video, x) in s.tables.urls <==> (video, x) in t.urls;
    }
    assert Slugs(s.tables.urls, video) == Slugs(t.urls, video);
  }

  lemma DiscoverOneKeeps(s: Store, l: Listed, slug: string, url: string)
    requires WellFormed(s.tables) && Agrees(s)
    ensures WellFormed(DiscoverOne(s, l, slug, url).tables) && Agrees(DiscoverOne(s, l, slug, url))
    ensures DiscoverOne(s, l, slug, url).tables.order == s.tables.order
  {
    var t := DiscoverOne(s, l, slug, url);
    assert RowAgrees(t, l.video);
    forall video ensures RowAgrees(t, video) {
      if video != l.video {
        assert RowAgrees(s, video);
        DiscoverOneElsewhere(s, l, slug, url, video);
      }
    }
  }

  /** Discovery keeps the rows in agreement with the tables. */
  lemma {:induction false} DiscoverKeeps(s: Store, videos: seq<Listed>, slug: string, url: string, n: nat)
    requires n <= |videos| && WellFormed(s.tables) && Agrees(s)
    ensures WellFormed(Discover(s, videos, slug, url, n).tables) && Agrees(Discover(s, videos, slug, url, n))
  {
    hide WellFormed, Agrees, DiscoverOne;
    if n > 0 {
      DiscoverKeeps(s, videos, slug, url, n - 1);
      DiscoverOneKeeps(Discover(s, videos, slug, url, n - 1), videos[n - 1], slug, url);
    }
  }

  // ----- what an import leaves in the tables -----

  /** The file can be read, or it is a transcript the tables had before, which is not read again. */
  predicate Usable(t: Tables, item: Item) {
    && item.name.Some?
    && (item.body.readable
        || (item.kind.Transcript? && Key(item.name.value.video, item.kind, item.name.value.language, item.body) in t.location))
  }

  /** The file writes the video and a source of it. */
  predicate Reaches(t: Tables, item: Item, video: string) { Usable(t, item) && item.name.value.video == video }

  predicate Retitles(t: Tables, item: Item, video: string) { Reaches(t, item, video) && item.name.value.title != "" }

  /** The file is an artifact that can be stored under this key. */
  predicate Brings(item: Item, key: Key) {
    && item.name.Some? && item.body.readable && item.body.text.Some?
    && key == Key(item.name.value.video, item.kind, item.name.value.language, item.body)
  }

  /** The file is the artifact, new or known, and says where it is. */
  predicate Puts(t: Tables, item: Item, key: Key) {
    && Usable(t, item) && key == Key(item.name.value.video, item.kind, item.name.value.language, item.body)
    && (key in t.location || item.body.text.Some?)
  }

  /** The artifacts are those there were and those the files bring. */
  ghost predicate ArtifactFits(t: Tables, items: seq<Item>, n: nat, u: Tables, key: Key)
    requires n <= |items|
  {
    key in u.location <==> key in t.location || exists i :: 0 <= i < n && Brings(items[i], key)
  }

  /** The last of the first `n` files that is the artifact; -1 when none is. */
  function LastPut(t: Tables, items: seq<Item>, n: nat, key: Key): (i: int)
    requires n <= |items|
    ensures -1 <= i < n && (i >= 0 ==> Puts(t, items[i], key))
  {
    if n == 0 then -1 else if Puts(t, items[n - 1], key) then n - 1 else LastPut(t, items, n - 1, key)
  }

  /** The last of them that writes the video. */
  function LastReach(t: Tables, items: seq<Item>, n: nat, video: string): (i: int)
    requires n <= |items|
    ensures -1 <= i < n && (i >= 0 ==> Reaches(t, items[i], video))
  {
    if n == 0 then -1 else if Reaches(t, items[n - 1], video) then n - 1 else LastReach(t, items, n - 1, video)
  }

  /** The last of them that names it. */
  function LastTitle(t: Tables, items: seq<Item>, n: nat, video: string): (i: int)
    requires n <= |items|
    ensures -1 <= i < n && (i >= 0 ==> Retitles(t, items[i], video))
  {
    if n == 0 then -1 else if Retitles(t, items[n - 1], video) then n - 1 else LastTitle(t, items, n - 1, video)
  }

  /** The last of them that writes the source. */
  function LastSource(t: Tables, items: seq<Item>, n: nat, pair: (string, string)): (i: int)
    requires n <= |items|
    ensures -1 <= i < n && (i >= 0 ==> Reaches(t, items[i], pair.0) && items[i].slug == pair.1)
  {
    if n == 0 then -1
    else if Reaches(t, items[n - 1], pair.0) && items[n - 1].slug == pair.1 then n - 1
    else LastSource(t, items, n - 1, pair)
  }

  /** No later file does the same. */
  lemma {:induction false} LastIsLast(t: Tables, items: seq<Item>, n: nat, key: Key, video: string, pair: (string, string))
    requires n <= |items|
    ensures forall j :: LastPut(t, items, n, key) < j < n ==> !Puts(t, items[j], key)
    ensures forall j :: LastReach(t, items, n, video) < j < n ==> !Reaches(t, items[j], video)
    ensures forall j :: LastTitle(t, items, n, video) < j < n ==> !Retitles(t, items[j], video)
    ensures forall j :: LastSource(t, items, n, pair) < j < n ==> !(Reaches(t, items[j], pair.0) && items[j].slug == pair.1)
  {
    hide Puts, Reaches, Retitles;
    if n > 0 {
      LastIsLast(t, items, n - 1, key, video, pair);
    }
  }

  /** An artifact is where the last file that is it says. */
  ghost predicate PlaceFits(t: Tables, items: seq<Item>, n: nat, u: Tables, key: Key)
    requires n <= |items|
  {
    var i := LastPut(t, items, n, key);
    && (key in u.location <==> i >= 0 || key in t.location)
    && (i >= 0 && key in u.location ==> u.location[key] == Location(items[i].slug, items[i].path))
    && (i < 0 && key in t.location && key in u.location ==> u.location[key] == t.location[key])
  }

  /** A video has the title of the last file that names it. */
  ghost predicate TitleFits(t: Tables, items: seq<Item>, n: nat, u: Tables, video: string)
    requires n <= |items|
  {
    var i := LastTitle(t, items, n, video);
    && (video in u.titles <==> video in t.titles || LastReach(t, items, n, video) >= 0)
    && (video in u.titles ==>
          u.titles[video] == if i >= 0 then items[i].name.value.title else if video in t.titles then t.titles[video] else "")
  }

  /** And the date of the last file that writes it. */
  ghost predicate DateFits(t: Tables, items: seq<Item>, n: nat, u: Tables, video: string)
    requires n <= |items|
  {
    var i := LastReach(t, items, n, video);
    && (video in u.dates <==> i >= 0 || video in t.dates)
    && (i >= 0 && video in u.dates ==> u.dates[video] == Some(items[i].name.value.date))
    && (i < 0 && video in t.dates && video in u.dates ==> u.dates[video] == t.dates[video])
  }

  /** The sources before any are dropped; no file brings a URL. */
  ghost predicate SourceFits(t: Tables, items: seq<Item>, n: nat, u: Tables, pair: (string, string))
    requires n <= |items|
  {
    && (pair in u.urls <==> pair in t.urls || LastSource(t, items, n, pair) >= 0)
    && (pair in u.urls ==> u.urls[pair] == if pair in t.urls then t.urls[pair] else "")
  }

  /** What becomes of the file at its turn, told from the tables and files before it. */
  lemma EffectAt(t: Tables, items: seq<Item>, n: nat, u: Tables)
    requires n < |items| && items[n].name.Some?
    requires var name := items[n].name.value;
             ArtifactFits(t, items, n, u, Key(name.video, items[n].kind, name.language, items[n].body))
    ensures var item, effect := items[n], EffectIn(u, items[n]);
            var key := Key(item.name.value.video, item.kind, item.name.value.language, item.body);
            && !effect.Unnamed? && (effect.Unreadable? <==> !Usable(t, item))
            && (effect.Added? <==> Brings(item, key) && key !in u.location)
            && (effect.Known? <==> Usable(t, item) && key in u.location)
            && (effect.Known? || effect.Added? <==> Puts(t, item, key))
  {
  }

  lemma {:induction false} FoldArtifacts(t: Tables, items: seq<Item>, n: nat, key: Key)
    requires n <= |items|
    ensures ArtifactFits(t, items, n, Fold(t, items, n).t, key)
  {
    hide Touches, MovedFrom, StepErrors, Upserted, EffectIn, Brings, Puts, Usable;
    if n > 0 {
      FoldArtifacts(t, items, n - 1, key);
      var before, item := Fold(t, items, n - 1).t, items[n - 1];
      if item.name.Some? {
        FoldArtifacts(t, items, n - 1, KeyOf(item.name.value, item));
        EffectAt(t, items, n - 1, before);
        UpsertedElsewhere(before, item.name.value, item.slug);
        BringsOne(item, key);
      } else {
        UnnamedStays(before, item);
        UnnamedBringsNothing(t, item, key);
      }
    }
  }

  lemma BringsOne(item: Item, key: Key)
    requires item.name.Some?
    ensures Brings(item, key) ==> key == KeyOf(item.name.value, item)
  {
  }

  lemma UnnamedStays(t: Tables, item: Item)
    requires item.name.None?
    ensures EffectIn(t, item).Unnamed? && StepTables(t, item) == t
  {
  }

  lemma UnnamedBringsNothing(t: Tables, item: Item, key: Key)
    requires item.name.None?
    ensures !Brings(item, key) && !Puts(t, item, key) && !Usable(t, item)
  {
  }

  /** What a turn writes. */
  lemma TurnWrites(t: Tables, items: seq<Item>, n: nat)
    requires n < |items|
    ensures var u, item := Fold(t, items, n).t, items[n];
            var v := Fold(t, items, n + 1).t;
            if Usable(t, item) then
              var name := item.name.value;
              var key := Key(name.video, item.kind, name.language, item.body);
              && v.titles == (if name.video in u.titles && name.title == "" then u.titles else u.titles[name.video := name.title])
              && v.dates == u.dates[name.video := Some(name.date)]
              && v.urls == (if (name.video, item.slug) in u.urls then u.urls else u.urls[(name.video, item.slug) := ""])
              && v.location == (if Puts(t, item, key) then u.location[key := Location(item.slug, item.path)] else u.location)
            else v == u
  {
    hide Fold, Touches, MovedFrom, StepErrors, EffectIn, Brings, Puts, Usable;
    var u, item := Fold(t, items, n).t, items[n];
    FoldTurn(t, items, n);
    if item.name.Some? {
      FoldArtifacts(t, items, n, KeyOf(item.name.value, item));
      EffectAt(t, items, n, u);
    } else {
      UnnamedStays(u, item);
      UnnamedBringsNothing(t, item, Key("", item.kind, "", item.body));
    }
  }

  lemma FoldTurn(t: Tables, items: seq<Item>, n: nat)
    requires n < |items|
    ensures Fold(t, items, n + 1).t == StepTables(Fold(t, items, n).t, items[n])
  {
    hide StepTables, Touches, MovedFrom, StepErrors, EffectIn;
  }

  lemma NothingFolded(t: Tables, items: seq<Item>)
    ensures Fold(t, items, 0).t == t
  {
  }

  lemma PlaceTurn(t: Tables, items: seq<Item>, n: nat, key: Key)
    requires n < |items|
    ensures var u, v := Fold(t, items, n).t.location, Fold(t, items, n + 1).t.location;
            if Puts(t, items[n], key) then key in v && v[key] == Location(items[n].slug, items[n].path)
            else (key in v <==> key in u) && (key in u ==> v[key] == u[key])
  {
    hide Fold, Usable;
    TurnWrites(t, items, n);
  }

  lemma TitleTurn(t: Tables, items: seq<Item>, n: nat, video: string)
    requires n < |items|
    ensures var u, v := Fold(t, items, n).t.titles, Fold(t, items, n + 1).t.titles;
            && (video in v <==> video in u || Reaches(t, items[n], video))
            && (video in v ==> v[video] == if Retitles(t, items[n], video) then items[n].name.value.title
                                           else if video in u then u[video] else "")
  {
    hide Fold, Usable, Puts;
    TurnWrites(t, items, n);
  }

  lemma DateTurn(t: Tables, items: seq<Item>, n: nat, video: string)
    requires n < |items|
    ensures var u, v := Fold(t, items, n).t.dates, Fold(t, items, n + 1).t.dates;
            if Reaches(t, items[n], video) then video in v && v[video] == Some(items[n].name.value.date)
            else (video in v <==> video in u) && (video in u ==> v[video] == u[video])
  {
    hide Fold, Usable, Puts;
    TurnWrites(t, items, n);
  }

  lemma SourceTurn(t: Tables, items: seq<Item>, n: nat, pair: (string, string))
    requires n < |items|
    ensures var u, v := Fold(t, items, n).t.urls, Fold(t, items, n + 1).t.urls;
            && (pair in v <==> pair in u || (Reaches(t, items[n], pair.0) && items[n].slug == pair.1))
            && (pair in v ==> v[pair] == if pair in u then u[pair] else "")
  {
    hide Fold, Usable, Puts;
    TurnWrites(t, items, n);
  }

  lemma {:induction false} FoldPlaces(t: Tables, items: seq<Item>, n: nat, key: Key)
    requires n <= |items|
    ensures PlaceFits(t, items, n, Fold(t, items, n).t, key)
  {
    hide Fold, Puts;
    NothingFolded(t, items);
    if n > 0 {
      FoldPlaces(t, items, n - 1, key);
      PlaceTurn(t, items, n - 1, key);
    }
  }

  lemma {:induction false} TitledIsReached(t: Tables, items: seq<Item>, n: nat, video: string)
    requires n <= |items|
    ensures LastTitle(t, items, n, video) <= LastReach(t, items, n, video)
  {
    if n > 0 {
      TitledIsReached(t, items, n - 1, video);
    }
  }

  lemma {:induction false} FoldTitled(t: Tables, items: seq<Item>, n: nat, video: string)
    requires n <= |items|
    ensures TitleFits(t, items, n, Fold(t, items, n).t, video)
  {
    hide Fold, Reaches;
    NothingFolded(t, items);
    if n > 0 {
      FoldTitled(t, items, n - 1, video);
      TitledIsReached(t, items, n - 1, video);
      TitleTurn(t, items, n - 1, video);
    }
  }

  lemma {:induction false} FoldDated(t: Tables, items: seq<Item>, n: nat, video: string)
    requires n <= |items|
    ensures DateFits(t, items, n, Fold(t, items, n).t, video)
  {
    hide Fold, Reaches;
    NothingFolded(t, items);
    if n > 0 {
      FoldDated(t, items, n - 1, video);
      DateTurn(t, items, n - 1, video);
    }
  }

  lemma {:induction false} FoldSourced(t: Tables, items: seq<Item>, n: nat, pair: (string, string))
    requires n <= |items|
    ensures SourceFits(t, items, n, Fold(t, items, n).t, pair)
  {
    hide Fold, Reaches;
    NothingFolded(t, items);
    if n > 0 {
      FoldSourced(t, items, n - 1, pair);
      SourceTurn(t, items, n - 1, pair);
    }
  }

  /** A source is dropped when nothing gives it a URL, no file names it, and all its artifacts have moved away. */
  ghost predicate Dropped(t: Tables, items: seq<Item>, u: Tables, pair: (string, string)) {
    && pair in t.urls && t.urls[pair] == ""
    && (forall i :: 0 <= i < |items| ==> !Names(items[i], pair))
    && (exists key :: key in t.location && (key.video, t.location[key].slug) == pair)
    && forall key :: key in u.location ==> (key.video, u.location[key].slug) != pair
  }

  predicate Names(item: Item, pair: (string, string)) {
    item.name.Some? && item.name.value.video == pair.0 && item.slug == pair.1
  }

  /** What an import of the files leaves, told from the tables and the files before it. */
  ghost predicate Imported(t: Tables, items: seq<Item>, u: Tables) {
    && t.order <= u.order && NoRepeats(u.order) && (forall key :: key in u.order <==> key in u.location)
    && (forall key :: ArtifactFits(t, items, |items|, u, key) && PlaceFits(t, items, |items|, u, key))
    && (forall video :: TitleFits(t, items, |items|, u, video) && DateFits(t, items, |items|, u, video))
    && forall pair :: SourcesFit(t, items, u, pair)
  }

  ghost predicate SourcesFit(t: Tables, items: seq<Item>, u: Tables, pair: (string, string)) {
    && (pair in u.urls <==>
          (pair in t.urls || LastSource(t, items, |items|, pair) >= 0) && !Dropped(t, items, u, pair))
    && (pair in u.urls ==> u.urls[pair] == if pair in t.urls then t.urls[pair] else "")
  }

  /** Something has moved away only from a source that an artifact was in. */
  ghost predicate LeftSome(t: Tables, w: Work, pair: (string, string)) {
    pair in w.moved ==> exists key :: key in t.location && (key.video, t.location[key].slug) == pair
  }

  /** Every artifact that was in the source is still there, or something has moved away from it. */
  ghost predicate LeftMoved(t: Tables, w: Work, pair: (string, string)) {
    forall key :: key in t.location && (key.video, t.location[key].slug) == pair ==>
      key in w.t.location && (w.t.location[key].slug == pair.1 || pair in w.moved)
  }

  /** No artifact has come to the source. */
  ghost predicate NoneCame(t: Tables, w: Work, pair: (string, string)) {
    forall key :: key in w.t.location && (key.video, w.t.location[key].slug) == pair ==>
      key in t.location && t.location[key].slug == pair.1
  }

  /** What no file names loses artifacts only by moves, and gains none. */
  ghost predicate MovesFit(t: Tables, w: Work, pair: (string, string)) {
    pair !in w.seen ==> LeftSome(t, w, pair) && LeftMoved(t, w, pair) && NoneCame(t, w, pair)
  }

  lemma LeftSomeStep(t: Tables, w: Work, item: Item, pair: (string, string))
    requires LeftSome(t, w, pair) && NoneCame(t, w, pair)
    ensures LeftSome(t, Step(w, item), pair)
  {
    hide Upserted, Touches, StepErrors, StepTables;
  }

  lemma LeftMovedStep(t: Tables, w: Work, item: Item, pair: (string, string))
    requires LeftMoved(t, w, pair) && pair !in Step(w, item).seen
    ensures LeftMoved(t, Step(w, item), pair)
  {
    hide Upserted, Touches, StepErrors;
    if item.name.Some? {
      UpsertedElsewhere(w.t, item.name.value, item.slug);
    }
  }

  lemma NoneCameStep(t: Tables, w: Work, item: Item, pair: (string, string))
    requires NoneCame(t, w, pair) && pair !in Step(w, item).seen
    ensures NoneCame(t, Step(w, item), pair)
  {
    hide Upserted, Touches, StepErrors, MovedFrom;
    if item.name.Some? {
      UpsertedElsewhere(w.t, item.name.value, item.slug);
    }
  }

  lemma MovesStep(t: Tables, w: Work, item: Item, pair: (string, string))
    requires MovesFit(t, w, pair)
    ensures MovesFit(t, Step(w, item), pair)
  {
    hide LeftSome, LeftMoved, NoneCame, StepTables, Touches, StepErrors, MovedFrom;
    if pair !in Step(w, item).seen {
      LeftSomeStep(t, w, item, pair);
      LeftMovedStep(t, w, item, pair);
      NoneCameStep(t, w, item, pair);
    }
  }

  lemma {:induction false} FoldMoves(t: Tables, items: seq<Item>, n: nat, pair: (string, string))
    requires n <= |items|
    ensures MovesFit(t, Fold(t, items, n), pair)
  {
    hide Step;
    if n > 0 {
      FoldMoves(t, items, n - 1, pair);
      MovesStep(t, Fold(t, items, n - 1), items[n - 1], pair);
    }
  }

  lemma {:induction false} FoldSees(t: Tables, items: seq<Item>, n: nat, pair: (string, string))
    requires n <= |items|
    ensures pair in Fold(t, items, n).seen <==> exists i :: 0 <= i < n && Names(items[i], pair)
  {
    hide StepTables, Touches, MovedFrom, StepErrors, EffectIn;
    if n > 0 {
      FoldSees(t, items, n - 1, pair);
    }
  }

  lemma DropsExactly(t: Tables, items: seq<Item>, pair: (string, string))
    requires WellFormed(t)
    ensures var w := Fold(t, items, |items|);
            pair in w.t.urls ==> (Stale(w, pair) <==> Dropped(t, items, w.t, pair))
  {
    hide Fold, WellFormed, Names;
    FoldSees(t, items, |items|, pair);
    FoldMoves(t, items, |items|, pair);
    FoldSourced(t, items, |items|, pair);
    SourcesKnown(t, pair);
    NotNamedNotReached(t, items, |items|, pair);
  }

  lemma SourcesKnown(t: Tables, pair: (string, string))
    requires WellFormed(t)
    ensures forall key :: key in t.location && (key.video, t.location[key].slug) == pair ==> pair in t.urls
  {
  }

  lemma NotNamedNotReached(t: Tables, items: seq<Item>, n: nat, pair: (string, string))
    requires n <= |items|
    ensures LastSource(t, items, n, pair) >= 0 ==> exists i :: 0 <= i < n && Names(items[i], pair)
  {
    if LastSource(t, items, n, pair) >= 0 {
      assert Names(items[LastSource(t, items, n, pair)], pair);
    }
  }

  /** What an import leaves of every artifact, title, date and source, whatever the tables held before. */
  lemma ImportMeaning(t: Tables, items: seq<Item>)
    requires WellFormed(t)
    ensures Imported(t, items, ImportTables(t, items))
  {
    hide Fold, ArtifactFits, PlaceFits, TitleFits, DateFits, SourceFits, WellFormed, Dropped, Stale;
    var w, u := Fold(t, items, |items|), ImportTables(t, items);
    ImportConserves(t, items);
    WellOrdered(u);
    forall key ensures ArtifactFits(t, items, |items|, u, key) && PlaceFits(t, items, |items|, u, key) {
      FoldArtifacts(t, items, |items|, key);
      FoldPlaces(t, items, |items|, key);
      DroppingKeeps(t, items, w.t, u, key, "");
    }
    forall video ensures TitleFits(t, items, |items|, u, video) && DateFits(t, items, |items|, u, video) {
      FoldTitled(t, items, |items|, video);
      FoldDated(t, items, |items|, video);
      DroppingKeeps(t, items, w.t, u, Key(video, Insight, "", Body(0, true, true, None)), video);
    }
    forall pair ensures SourcesFit(t, items, u, pair) {
      FoldSourced(t, items, |items|, pair);
      DropsExactly(t, items, pair);
      DroppedSame(t, items, w.t, u, pair);
      SourcesAfterDrop(t, items, w, pair);
    }
  }

  lemma WellOrdered(t: Tables)
    requires WellFormed(t)
    ensures NoRepeats(t.order) && forall key :: key in t.order <==> key in t.location
  {
  }

  /** Dropping sources touches nothing else. */
  lemma DroppingKeeps(t: Tables, items: seq<Item>, u: Tables, v: Tables, key: Key, video: string)
    requires v == u.(urls := v.urls)
    ensures ArtifactFits(t, items, |items|, u, key) <==> ArtifactFits(t, items, |items|, v, key)
    ensures PlaceFits(t, items, |items|, u, key) <==> PlaceFits(t, items, |items|, v, key)
    ensures TitleFits(t, items, |items|, u, video) <==> TitleFits(t, items, |items|, v, video)
    ensures DateFits(t, items, |items|, u, video) <==> DateFits(t, items, |items|, v, video)
  {
    hide LastPut, LastReach, LastTitle, Brings;
  }

  lemma DroppedSame(t: Tables, items: seq<Item>, u: Tables, v: Tables, pair: (string, string))
    requires v == u.(urls := v.urls)
    ensures Dropped(t, items, u, pair) <==> Dropped(t, items, v, pair)
  {
  }

  lemma SourcesAfterDrop(t: Tables, items: seq<Item>, w: Work, pair: (string, string))
    requires SourceFits(t, items, |items|, w.t, pair)
    requires pair in w.t.urls ==> (Stale(w, pair) <==> Dropped(t, items, DropStale(w), pair))
    ensures SourcesFit(t, items, DropStale(w), pair)
  {
    hide Stale, LastSource;
    hide Dropped;
  }

  /** The errors a file makes: it cannot be named or read, its insight lacks keys, its text cannot be stored. */
  function Faults(t: Tables, item: Item): nat {
    if !Usable(t, item) then 1
    else
      (if item.kind.Insight? && item.body.issues then 1 else 0) +
      (if item.body.text.None? &&
          Key(item.name.value.video, item.kind, item.name.value.language, item.body) !in t.location then 1 else 0)
  }

  function TotalFaults(t: Tables, items: seq<Item>, n: nat): nat
    requires n <= |items|
  {
    if n == 0 then 0 else TotalFaults(t, items, n - 1) + Faults(t, items[n - 1])
  }

  lemma FaultsAt(t: Tables, items: seq<Item>, n: nat)
    requires n < |items|
    ensures StepErrors(Fold(t, items, n).t, items[n]) == Faults(t, items[n])
  {
    hide Fold;
    if items[n].name.Some? {
      FoldArtifacts(t, items, n, KeyOf(items[n].name.value, items[n]));
    }
  }

  lemma {:induction false} FoldErrors(t: Tables, items: seq<Item>, n: nat)
    requires n <= |items|
    ensures Fold(t, items, n).errors == TotalFaults(t, items, n)
  {
    hide StepTables, Touches, MovedFrom, StepErrors, Faults;
    if n > 0 {
      FoldErrors(t, items, n - 1);
      FaultsAt(t, items, n - 1);
    }
  }

  /** After an import the videos to be rendered show their tables, and every other row is as it was. */
  lemma ImportDisplays(s: Store, items: seq<Item>)
    requires WellFormed(s.tables)
    ensures forall video :: Rerendered(s.tables, items, |items|, video) ==> Displayed(Import(s, items), video)
    ensures forall video :: !Rerendered(s.tables, items, |items|, video) ==>
              SameRows(s.search, Import(s, items).search, video)
  {
    hide Fold, Rerendered, Shows, Render, WellFormed;
    var w, t := Fold(s.tables, items, |items|), ImportTables(s.tables, items);
    ImportConserves(s.tables, items);
    WellOrdered(t);
    FoldTitles(s.tables, items, |items|);
    DropTitles(w);
    forall video
      ensures Rerendered(s.tables, items, |items|, video) ==> Displayed(Import(s, items), video)
      ensures !Rerendered(s.tables, items, |items|, video) ==> SameRows(s.search, Import(s, items).search, video)
    {
      TouchedExactly(s.tables, items, |items|, video);
      if video in t.titles {
        RenderShows(t, video);
      }
    }
  }

  ghost predicate SameRows(before: map<string, seq<Row>>, after: map<string, seq<Row>>, video: string) {
    (video in after <==> video in before) && (video in after ==> after[video] == before[video])
  }

  /** Rendering the touched videos again displays them and leaves the other rows. */
  lemma ReindexAllShows(search: map<string, seq<Row>>, t: Tables, touched: set<string>)
    ensures var after := ReindexAll(search, t, touched);
            && (NoRepeats(t.order) ==>
                  forall video :: video in touched && video in t.titles ==> Displayed(Store(t, after), video))
            && forall video :: !(video in touched && video in t.titles) ==> SameRows(search, after, video)
  {
    hide Render, Shows, NoRepeats;
    if NoRepeats(t.order) {
      forall video | video in touched && video in t.titles ensures Shows(t, video, Render(t, video)) {
        RenderShows(t, video);
      }
    }
  }

  /** When rows and tables agree, every video of the tables is displayed. */
  lemma AgreementDisplays(s: Store, video: string)
    requires WellFormed(s.tables) && Agrees(s) && video in s.tables.titles
    ensures Displayed(s, video)
  {
    hide Render, Shows, WellFormed;
    assert RowAgrees(s, video);
    WellOrdered(s.tables);
    RenderShows(s.tables, video);
  }

  // ----- what a discovery leaves -----

  /** The last of the first `n` listed entries of the video; the last of them with a title, or with a date. */
  function LastEntry(videos: seq<Listed>, n: nat, video: string, titled: bool, dated: bool): (i: int)
    requires n <= |videos|
    ensures -1 <= i < n
    ensures i >= 0 ==> videos[i].video == video && (titled ==> videos[i].title != "") && (dated ==> videos[i].date.Some?)
  {
    if n == 0 then -1
    else
      var last := videos[n - 1];
      if last.video == video && (titled ==> last.title != "") && (dated ==> last.date.Some?) then n - 1
      else LastEntry(videos, n - 1, video, titled, dated)
  }

  /** The last title given. */
  ghost predicate TitledLast(t: Tables, videos: seq<Listed>, n: nat, u: Tables, video: string)
    requires n <= |videos|
  {
    var listed, titled := LastEntry(videos, n, video, false, false) >= 0, LastEntry(videos, n, video, true, false);
    && (video in u.titles <==> video in t.titles || listed)
    && (video in u.titles ==>
          u.titles[video] == if titled >= 0 then videos[titled].title else if video in t.titles then t.titles[video] else "")
  }

  /** The last date given; the date known before where none is. */
  ghost predicate DatedLast(t: Tables, videos: seq<Listed>, n: nat, u: Tables, video: string)
    requires n <= |videos|
  {
    var listed, dated := LastEntry(videos, n, video, false, false) >= 0, LastEntry(videos, n, video, false, true);
    && (video in u.dates <==> video in t.dates || listed)
    && (video in u.dates ==>
          u.dates[video] == if dated >= 0 then videos[dated].date else if video in t.dates then t.dates[video] else None)
  }

  /** The source is listed for the video, and its URL replaced by one that is not empty. */
  ghost predicate SourcedLast(t: Tables, listed: bool, slug: string, url: string, u: Tables, video: string) {
    forall other: string ::
      && ((video, other) in u.urls <==> (video, other) in t.urls || (listed && other == slug))
      && ((video, other) in u.urls ==>
            u.urls[(video, other)] == if listed && other == slug && url != "" then url
                                      else if (video, other) in t.urls then t.urls[(video, other)] else "")
  }

  /** What a discovery leaves of one video. */
  ghost predicate Discovered(t: Tables, videos: seq<Listed>, slug: string, url: string, n: nat, u: Tables, video: string)
    requires n <= |videos|
  {
    && TitledLast(t, videos, n, u, video) && DatedLast(t, videos, n, u, video)
    && SourcedLast(t, LastEntry(videos, n, video, false, false) >= 0, slug, url, u, video)
  }

  lemma {:induction false} AnyEntry(videos: seq<Listed>, n: nat, video: string, titled: bool, dated: bool)
    requires n <= |videos|
    ensures LastEntry(videos, n, video, titled, dated) <= LastEntry(videos, n, video, false, false)
    ensures LastEntry(videos, n, video, false, false) < 0 <==> forall i :: 0 <= i < n ==> videos[i].video != video
  {
    if n > 0 {
      AnyEntry(videos, n - 1, video, titled, dated);
    }
  }

  lemma TitledOne(t: Tables, videos: seq<Listed>, slug: string, url: string, n: nat, u: Tables, video: string)
    requires n < |videos| && TitledLast(t, videos, n, u, video)
    ensures var l := videos[n];
            TitledLast(t, videos, n + 1, UpsertSource(UpsertVideo(u, l.video, l.title, l.date), l.video, slug, url), video)
  {
    AnyEntry(videos, n, video, true, false);
  }

  lemma DatedOne(t: Tables, videos: seq<Listed>, slug: string, url: string, n: nat, u: Tables, video: string)
    requires n < |videos| && DatedLast(t, videos, n, u, video)
    ensures var l := videos[n];
            DatedLast(t, videos, n + 1, UpsertSource(UpsertVideo(u, l.video, l.title, l.date), l.video, slug, url), video)
  {
    AnyEntry(videos, n, video, false, true);
  }

  lemma SourcedOne(t: Tables, listed: bool, slug: string, url: string, l: Listed, u: Tables, video: string)
    requires SourcedLast(t, listed, slug, url, u, video)
    ensures SourcedLast(t, listed || l.video == video, slug, url,
                        UpsertSource(UpsertVideo(u, l.video, l.title, l.date), l.video, slug, url), video)
  {
  }

  lemma DiscoveredOne(t: Tables, videos: seq<Listed>, slug: string, url: string, n: nat, u: Tables, video: string)
    requires n < |videos| && Discovered(t, videos, slug, url, n, u, video)
    ensures var l := videos[n];
            Discovered(t, videos, slug, url, n + 1,
                       UpsertSource(UpsertVideo(u, l.video, l.title, l.date), l.video, slug, url), video)
  {
    hide TitledLast, DatedLast, SourcedLast, UpsertSource, UpsertVideo;
    TitledOne(t, videos, slug, url, n, u, video);
    DatedOne(t, videos, slug, url, n, u, video);
    SourcedOne(t, LastEntry(videos, n, video, false, false) >= 0, slug, url, videos[n], u, video);
  }

  lemma {:induction false} DiscoveryMeaning(s: Store, videos: seq<Listed>, slug: string, url: string, n: nat, video: string)
    requires n <= |videos|
    ensures Discovered(s.tables, videos, slug, url, n, Discover(s, videos, slug, url, n).tables, video)
    ensures var u := Discover(s, videos, slug, url, n).tables; u.order == s.tables.order && u.location == s.tables.location
  {
    hide Discovered, Render;
    if n == 0 {
      NothingDiscovered(s.tables, videos, slug, url, video);
    } else {
      DiscoveryMeaning(s, videos, slug, url, n - 1, video);
      DiscoveredOne(s.tables, videos, slug, url, n - 1, Discover(s, videos, slug, url, n - 1).tables, video);
    }
  }

  lemma NothingDiscovered(t: Tables, videos: seq<Listed>, slug: string, url: string, video: string)
    ensures Discovered(t, videos, slug, url, 0, t, video)
  {
  }

  /** The listed videos show their tables, and every other row is as it was. */
  lemma {:induction false} DiscoveryDisplays(s: Store, videos: seq<Listed>, slug: string, url: string, n: nat, video: string)
    requires n <= |videos| && NoRepeats(s.tables.order)
    ensures var after := Discover(s, videos, slug, url, n);
            if LastEntry(videos, n, video, false, false) >= 0 then Displayed(after, video)
            else SameRows(s.search, after.search, video)
  {
    hide Displayed, DiscoverOne;
    if n > 0 {
      var before, l := Discover(s, videos, slug, url, n - 1), videos[n - 1];
      DiscoveryDisplays(s, videos, slug, url, n - 1, video);
      DiscoveryMeaning(s, videos, slug, url, n - 1, video);
      if l.video == video {
        OneDisplays(before, l, slug, url);
      } else {
        OneLeaves(before, l, slug, url, video);
      }
    }
  }

  lemma OneDisplays(s: Store, l: Listed, slug: string, url: string)
    requires NoRepeats(s.tables.order)
    ensures Displayed(DiscoverOne(s, l, slug, url), l.video)
  {
    hide Render, Shows;
    RenderShows(DiscoverOne(s, l, slug, url).tables, l.video);
  }

  lemma OneLeaves(s: Store, l: Listed, slug: string, url: string, video: string)
    requires video != l.video
    ensures SameRows(s.search, DiscoverOne(s, l, slug, url).search, video)
    ensures Displayed(s, video) ==> Displayed(DiscoverOne(s, l, slug, url), video)
  {
    hide Render, Lists, Columns;
    var u := DiscoverOne(s, l, slug, url);
    if Displayed(s, video) {
      forall x ensures x in s.search[video][0].sources <==> (video, x) in u.tables.urls {
        assert (video, x) in s.tables.urls <==> (video, x) in u.tables.urls;
      }
    }
  }

  /** The whole of a discovery. */
  lemma DiscoveryLeaves(s: Store, videos: seq<Listed>, slug: string, url: string)
    ensures var u := Discover(s, videos, slug, url, |videos|);
            && u.tables.order == s.tables.order && u.tables.location == s.tables.location
            && (forall video :: Discovered(s.tables, videos, slug, url, |videos|, u.tables, video))
            && (NoRepeats(s.tables.order) ==>
                  && (forall i :: 0 <= i < |videos| ==> Displayed(u, videos[i].video))
                  && forall video :: (forall i :: 0 <= i < |videos| ==> videos[i].video != video) ==>
                       SameRows(s.search, u.search, video))
  {
    hide Discover, Discovered, Displayed, SameRows, NoRepeats, LastEntry;
    DiscoveryMeaning(s, videos, slug, url, |videos|, "");
    forall video
      ensures Discovered(s.tables, videos, slug, url, |videos|, Discover(s, videos, slug, url, |videos|).tables, video)
    {
      DiscoveryMeaning(s, videos, slug, url, |videos|, video);
    }
    if NoRepeats(s.tables.order) {
      forall i | 0 <= i < |videos| ensures Displayed(Discover(s, videos, slug, url, |videos|), videos[i].video) {
        AnyEntry(videos, |videos|, videos[i].video, false, false);
        DiscoveryDisplays(s, videos, slug, url, |videos|, videos[i].video);
      }
      forall video | forall i :: 0 <= i < |videos| ==> videos[i].video != video
        ensures SameRows(s.search, Discover(s, videos, slug, url, |videos|).search, video)
      {
        AnyEntry(videos, |videos|, video, false, false);
        DiscoveryDisplays(s, videos, slug, url, |videos|, video);
      }
    }
  }

  // ----- whole runs -----

  datatype Action = ImportFiles(items: seq<Item>) | ImportRaises | DiscoverVideos(videos: seq<Listed>, slug: string, url: string)

  function Act(s: Store, a: Action): Store {
    match a
    case ImportFiles(items) => Import(s, items)
    case ImportRaises => s
    case DiscoverVideos(videos, slug, url) => Discover(s, videos, slug, url, |videos|)
  }

  function Run(s: Store, actions: seq<Action>): Store
    decreases |actions|
  {
    if actions == [] then s else Run(Act(s, actions[0]), actions[1..])
  }

  predicate AllStorable(a: Action) { a.ImportFiles? ==> forall i :: 0 <= i < |a.items| ==> Storable(a.items[i]) }

  /** Over any sequence of imports and discoveries of storable files, the derived rows agree with the tables. */
  lemma {:induction false} EveryRunAgrees(s: Store, actions: seq<Action>)
    requires WellFormed(s.tables) && Agrees(s)
    requires forall i :: 0 <= i < |actions| ==> AllStorable(actions[i])
    ensures WellFormed(Run(s, actions).tables) && Agrees(Run(s, actions))
    decreases |actions|
  {
    if actions != [] {
      hide WellFormed, Agrees, Import, Storable;
      var a, rest := actions[0], actions[1..];
      assert AllStorable(a);
      match a {
        case ImportFiles(items) =>
          StorableKeepsAgreement(s, items);
          ImportConserves(s.tables, items);
          ImportedTables(s, items);
        case ImportRaises =>
        case DiscoverVideos(videos, slug, url) => DiscoverKeeps(s, videos, slug, url, |videos|);
      }
      forall i | 0 <= i < |rest| ensures AllStorable(rest[i]) { assert rest[i] == actions[i + 1]; }
      EveryRunAgrees(Act(s, a), rest);
    }
  }

  lemma ImportedTables(s: Store, items: seq<Item>)
    ensures Import(s, items).tables == ImportTables(s.tables, items)
  {
  }

  // ----- the database -----

  datatype Status = Completed | Partial

  datatype RunSummary = RunSummary(status: Status, seen: nat, written: nat, errors: nat)

  class Database {
    /** What the open transaction sees, and what the last commit made durable. */
    var tables: Tables
    var search: map<string, seq<Row>>
    var committed: Store

    function View(): Store
      reads this
    {
      Store(tables, search)
    }

    constructor ()
      ensures View() == committed == Store(Tables(map[], map[], map[], [], map[]), map[])
    {
      tables, search := Tables(map[], map[], map[], [], map[]), map[];
      committed := Store(Tables(map[], map[], map[], [], map[]), map[]);
    }

    /** `import_corpus`; with `raisesAfter` an exception that no item's `except` catches comes after so many items. */
    method ImportCorpus(items: seq<Item>, raisesAfter: Option<nat>) returns (summary: Option<RunSummary>)
      modifies this
      ensures raisesAfter.Some? ==> summary.None? && View() == old(View())
      ensures raisesAfter.None? ==> View() == Import(old(View()), items)
      ensures raisesAfter.None? ==>
                var w := Fold(old(tables), items, |items|);
                summary == Some(RunSummary(if w.errors > 0 then Partial else Completed, |items|, w.written, w.errors))
      ensures raisesAfter.None? && WellFormed(old(tables)) ==>
                && WellFormed(tables) && Imported(old(tables), items, tables)
                && (forall video :: Rerendered(old(tables), items, |items|, video) ==> Displayed(View(), video))
                && (forall video :: !Rerendered(old(tables), items, |items|, video) ==>
                      SameRows(old(search), search, video))
                && var faults := TotalFaults(old(tables), items, |items|);
                   summary == Some(RunSummary(if faults > 0 then Partial else Completed, |items|,
                                              |tables.order| - |old(tables).order|, faults))
      ensures committed == View()
    {
      hide Step, DropStale, WellFormed, Imported, Rerendered, Displayed, Fold, ReindexAll, TotalFaults, SameRows;
      if raisesAfter.None? && WellFormed(tables) {
        ImportMeaning(tables, items);
        ImportDisplays(View(), items);
        ImportConserves(tables, items);
        FoldErrors(tables, items, |items|);
      }
      committed := View();
      var read := if raisesAfter.Some? then items[..Min(raisesAfter.value, |items|)] else items;
      var w := ImportItems(tables, read);
      tables := w.t;
      if raisesAfter.Some? {
        tables, search := committed.tables, committed.search;
        return None;
      }
      ReindexTouched(w.touched);
      committed := View();
      return Some(RunSummary(if w.errors > 0 then Partial else Completed, |items|, w.written, w.errors));
    }

    method ReindexTouched(touched: set<string>)
      modifies this`search
      ensures search == ReindexAll(old(search), tables, touched)
      ensures NoRepeats(tables.order) ==>
                (forall video :: video in touched && video in tables.titles ==> Displayed(View(), video))
      ensures forall video :: !(video in touched && video in tables.titles) ==> SameRows(old(search), search, video)
    {
      hide Render, Displayed, SameRows, ReindexAll, NoRepeats;
      ReindexNothing(search, tables);
      var todo := touched;
      assert touched - todo == {};
      while todo != {}
        invariant todo <= touched
        invariant search == ReindexAll(old(search), tables, touched - todo)
      {
        var video :| video in todo;
        ReindexOneMore(old(search), tables, touched - todo, video);
        assert touched - (todo - {video}) == touched - todo + {video};
        search := Reindex(View(), video).search;
        todo := todo - {video};
      }
      assert touched - todo == touched;
      ReindexAllShows(old(search), tables, touched);
    }

    /** `ingest_discovery` of a listing that raises nothing. */
    method IngestDiscovery(videos: seq<Listed>, slug: string, url: string)
      modifies this
      ensures View() == Discover(old(View()), videos, slug, url, |videos|) == committed
      ensures tables.order == old(tables).order && tables.location == old(tables).location
      ensures forall video :: Discovered(old(tables), videos, slug, url, |videos|, tables, video)
      ensures NoRepeats(tables.order) ==>
                && (forall i :: 0 <= i < |videos| ==> Displayed(View(), videos[i].video))
                && forall video :: (forall i :: 0 <= i < |videos| ==> videos[i].video != video) ==>
                     SameRows(old(search), search, video)
    {
      hide Discovered, Displayed, SameRows, NoRepeats, LastEntry, Render;
      ghost var s := View();
      for n := 0 to |videos|
        invariant View() == Discover(s, videos, slug, url, n)
      {
        var l := videos[n];
        tables := UpsertVideo(tables, l.video, l.title, l.date);
        tables := UpsertSource(tables, l.video, slug, url);
        search := Reindex(View(), l.video).search;
      }
      committed := View();
      DiscoveryLeaves(s, videos, slug, url);
    }
  }

  lemma ReindexNothing(search: map<string, seq<Row>>, t: Tables)
    ensures ReindexAll(search, t, {}) == search
  {
    hide Render;
  }

  lemma ReindexOneMore(search: map<string, seq<Row>>, t: Tables, done: set<string>, video: string)
    ensures ReindexAll(search, t, done + {video}) == Reindex(Store(t, ReindexAll(search, t, done)), video).search
  {
    hide Render;
  }
}
