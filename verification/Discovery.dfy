/** `research/discovery.py`: merging the queries' hits and taking the channels in turn. */
module Discovery {
  import opened Basics
  import opened Grouping
  import opened Ordering
  import opened RoundRobin

  const MAX_QUERIES := 8
  const MAX_CANDIDATES := 10

  /** A metadata record; a title that is not a string is None, and so is a channel that is not. */
  datatype Item = NotAVideo | Video(id: string, title: Option<string>, channelId: Option<string>)

  /** What fetching one query ends in. */
  datatype Fetch = Raises | NotAListing | Listing(failed: bool, partial: bool, items: seq<Item>)

  /** What asking the catalog for the ids it already has ends in. */
  datatype Membership = Unavailable | Known(ids: set<string>)

  datatype Code = ProviderExitNonzero | InvalidMetadataRecord | PartialMetadata | CatalogMembershipFailed | NoCandidates

  datatype Candidate = Candidate(video: Item, rank: nat, matched: seq<string>)

  datatype Result = Refused | Found(candidates: seq<Candidate>, errors: seq<Code>, completed: bool)

  // ----- requests and records -----

  predicate IdChar(c: char) { 'A' <= c <= 'Z' || 'a' <= c <= 'z' || '0' <= c <= '9' || c == '_' || c == '-' }

  predicate ValidVideo(v: Item) {
    && v.Video? && |v.id| == 11 && (forall i :: 0 <= i < 11 ==> IdChar(v.id[i]))
    && v.title.Some? && '\0' !in v.title.value && |v.title.value| <= 1000
  }

  predicate Acceptable(queries: seq<string>, limit: int, normalize: string -> string) {
    && 1 <= |queries| <= MAX_QUERIES && 1 <= limit <= MAX_CANDIDATES
    && (forall i :: 0 <= i < |queries| ==> !("ytsearch" <= normalize(queries[i])))
    && forall i, j :: 0 <= i < j < |queries| ==> normalize(queries[i]) != normalize(queries[j])
  }

  /** A record is usable with an id of eleven letters, digits, underscores and hyphens, and a title of at most a
      thousand characters, none of them NUL. */
  lemma ValidMeaning(v: Item)
    ensures ValidVideo(v) <==>
            && v.Video? && |v.id| == 11 && (forall c :: c in v.id ==> c in "_-" || Letter(c) || 48 <= c as int < 58)
            && v.title.Some? && |v.title.value| < 1001 && forall c :: c in v.title.value ==> c as int != 0
  {
    if v.Video? && |v.id| == 11 {
      forall i | 0 <= i < 11 ensures IdChar(v.id[i]) <==> v.id[i] in "_-" || Letter(v.id[i]) || 48 <= v.id[i] as int < 58 {}
      assert forall i :: 0 <= i < 11 ==> v.id[i] in v.id;
    }
  }

  predicate Letter(c: char) { 65 <= c as int < 91 || 97 <= c as int < 123 }

  /** A request is refused for no queries or more than eight, a limit outside one to ten, a query that addresses the
      provider itself, or two queries that normalize alike. */
  lemma RefusalMeaning(queries: seq<string>, limit: int, normalize: string -> string)
    ensures !Acceptable(queries, limit, normalize) <==>
            || queries == [] || |queries| > 8 || limit < 1 || limit > 10
            || (exists q :: q in queries && |normalize(q)| >= 8 && normalize(q)[..8] == "ytsearch")
            || (exists i, j :: 0 <= i < |queries| && 0 <= j < |queries| && i != j
                               && normalize(queries[i]) == normalize(queries[j]))
  {
    forall q ensures "ytsearch" <= normalize(q) <==> |normalize(q)| >= 8 && normalize(q)[..8] == "ytsearch" {}
    if q :| q in queries && "ytsearch" <= normalize(q) {
      var i :| 0 <= i < |queries| && queries[i] == q;
    }
  }

  // ----- hits -----

  /** One valid record: its 1-based rank in the listing of one query. */
  datatype Hit = Hit(video: Item, rank: nat, query: string)

  function HitId(h: Hit): Option<string> { if h.video.Video? then Some(h.video.id) else None }

  function HitQuery(h: Hit): Option<string> { Some(h.query) }

  function Itself<T>(x: T): Option<T> { Some(x) }

  /** The valid records among the first `n` of a listing. */
  function HitsIn(query: string, items: seq<Item>, n: nat): seq<Hit>
    requires n <= |items|
  {
    if n == 0 then []
    else HitsIn(query, items, n - 1) + if ValidVideo(items[n - 1]) then [Hit(items[n - 1], n, query)] else []
  }

  function Seen(items: seq<Item>): nat { Min(|items|, MAX_CANDIDATES) }

  function HitsOf(query: string, fetch: Fetch): seq<Hit> {
    if fetch.Listing? then HitsIn(query, fetch.items, Seen(fetch.items)) else []
  }

  /** All hits of the first `n` queries, query by query. */
  function Hits(queries: seq<string>, fetches: seq<Fetch>, n: nat): seq<Hit>
    requires n <= |queries| == |fetches|
  {
    if n == 0 then [] else Hits(queries, fetches, n - 1) + HitsOf(queries[n - 1], fetches[n - 1])
  }

  /** The codes the first `n` records of a listing report. */
  function InvalidIn(items: seq<Item>, n: nat): seq<Code>
    requires n <= |items|
  {
    if n == 0 then []
    else InvalidIn(items, n - 1) + if ValidVideo(items[n - 1]) then [] else [InvalidMetadataRecord]
  }

  function HeaderCodes(fetch: Fetch): seq<Code> {
    match fetch
    case Raises => [ProviderExitNonzero]
    case NotAListing => [InvalidMetadataRecord]
    case Listing(failed, partial, _) =>
      (if failed then [ProviderExitNonzero] else []) + if partial then [PartialMetadata] else []
  }

  function CodesOf(fetch: Fetch): seq<Code> {
    HeaderCodes(fetch) + if fetch.Listing? then InvalidIn(fetch.items, Seen(fetch.items)) else []
  }

  function Codes(fetches: seq<Fetch>, n: nat): seq<Code>
    requires n <= |fetches|
  {
    if n == 0 then [] else Codes(fetches, n - 1) + CodesOf(fetches[n - 1])
  }

  // ----- merging hits by video -----

  /** The candidate for one video: the record and rank of its first hit, and the queries that found it. */
  function CandidateOf(hits: seq<Hit>, id: string): Candidate {
    var own := Select(hits, HitId, id);
    if own == [] then Candidate(NotAVideo, 0, [])
    else Candidate(own[0].video, own[0].rank, KeysOf(own, HitQuery))
  }

  /** The `candidates_by_id` dictionary after `hits`. */
  ghost predicate Table(hits: seq<Hit>, order: seq<string>, byId: map<string, Candidate>) {
    && order == KeysOf(hits, HitId)
    && (forall id :: id in byId <==> id in order)
    && (forall id :: id in byId ==> byId[id] == CandidateOf(hits, id))
  }

  lemma NewCandidate(hits: seq<Hit>, h: Hit)
    requires h.video.Video? && h.video.id !in KeysOf(hits, HitId)
    ensures CandidateOf(hits + [h], h.video.id) == Candidate(h.video, h.rank, [h.query])
  {
    KeysCover(hits, HitId);
    SelectNothing(hits, HitId, h.video.id);
    SelectAppend(hits, HitId, h, h.video.id);
    KeysAppend([], HitQuery, h);
    assert [] + [h] == [h];
  }

  lemma KnownCandidate(hits: seq<Hit>, h: Hit)
    requires h.video.Video? && h.video.id in KeysOf(hits, HitId)
    ensures var c := CandidateOf(hits, h.video.id);
            CandidateOf(hits + [h], h.video.id) ==
            if h.query in c.matched then c else c.(matched := c.matched + [h.query])
  {
    hide Select, KeysOf;
    var own := Select(hits, HitId, h.video.id);
    SelectSize(hits, HitId, h.video.id);
    SelectAppend(hits, HitId, h, h.video.id);
    KeysAppend(own, HitQuery, h);
  }

  lemma OtherCandidate(hits: seq<Hit>, h: Hit, id: string)
    requires HitId(h) != Some(id)
    ensures CandidateOf(hits + [h], id) == CandidateOf(hits, id)
  {
    hide Select, KeysOf;
    SelectAppend(hits, HitId, h, id);
    assert Select(hits + [h], HitId, id) == Select(hits, HitId, id);
  }

  lemma TableStep(hits: seq<Hit>, order: seq<string>, byId: map<string, Candidate>, h: Hit)
    requires Table(hits, order, byId) && h.video.Video?
    ensures if h.video.id !in byId
            then Table(hits + [h], order + [h.video.id], byId[h.video.id := Candidate(h.video, h.rank, [h.query])])
            else
              var c := byId[h.video.id];
              Table(hits + [h], order,
                    if h.query in c.matched then byId else byId[h.video.id := c.(matched := c.matched + [h.query])])
  {
    hide CandidateOf, KeysOf;
    KeysAppend(hits, HitId, h);
    forall id | id != h.video.id ensures CandidateOf(hits + [h], id) == CandidateOf(hits, id) {
      OtherCandidate(hits, h, id);
    }
    if h.video.id in byId {
      KnownCandidate(hits, h);
    } else {
      NewCandidate(hits, h);
    }
  }

  // ----- the collecting loop -----

  method AppendError(errors: seq<Code>, ghost codes: seq<Code>, code: Code) returns (more: seq<Code>)
    requires errors == KeysOf(codes, Itself)
    ensures more == KeysOf(codes + [code], Itself)
  {
    KeysAppend(codes, Itself, code);
    more := if code in errors then errors else errors + [code];
  }

  /** Files the records of one listing. */
  method FileListing(query: string, items: seq<Item>, ghost hits: seq<Hit>, ghost codes: seq<Code>,
                     order0: seq<string>, byId0: map<string, Candidate>, errors0: seq<Code>)
    returns (order: seq<string>, byId: map<string, Candidate>, errors: seq<Code>)
    requires Table(hits, order0, byId0) && errors0 == KeysOf(codes, Itself)
    ensures Table(hits + HitsIn(query, items, Seen(items)), order, byId)
    ensures errors == KeysOf(codes + InvalidIn(items, Seen(items)), Itself)
  {
    hide Table, KeysOf, ValidVideo;
    order, byId, errors := order0, byId0, errors0;
    assert hits + [] == hits && codes + [] == codes;
    for n := 0 to Seen(items)
      invariant Table(hits + HitsIn(query, items, n), order, byId)
      invariant errors == KeysOf(codes + InvalidIn(items, n), Itself)
    {
      var video := items[n];
      if !ValidVideo(video) {
        errors := AppendError(errors, codes + InvalidIn(items, n), InvalidMetadataRecord);
        assert codes + InvalidIn(items, n) + [InvalidMetadataRecord] == codes + InvalidIn(items, n + 1);
        assert HitsIn(query, items, n + 1) == HitsIn(query, items, n);
      } else {
        ValidIsVideo(video);
        var h := Hit(video, n + 1, query);
        TableStep(hits + HitsIn(query, items, n), order, byId, h);
        assert hits + HitsIn(query, items, n) + [h] == hits + HitsIn(query, items, n + 1);
        assert InvalidIn(items, n + 1) == InvalidIn(items, n);
        if video.id !in byId {
          byId := byId[video.id := Candidate(video, n + 1, [query])];
          order := order + [video.id];
        } else if query !in byId[video.id].matched {
          byId := byId[video.id := byId[video.id].(matched := byId[video.id].matched + [query])];
        }
      }
    }
  }

  lemma ValidIsVideo(v: Item)
    requires ValidVideo(v)
    ensures v.Video?
  {
  }

  method AppendErrorIf(errors: seq<Code>, ghost codes: seq<Code>, code: Code, when: bool) returns (more: seq<Code>)
    requires errors == KeysOf(codes, Itself)
    ensures more == KeysOf(codes + if when then [code] else [], Itself)
  {
    assert codes + [] == codes;
    more := errors;
    if when {
      more := AppendError(errors, codes, code);
    }
  }

  /** One query's turn: report what went wrong and file what was listed. */
  method FileFetch(query: string, fetch: Fetch, ghost hits: seq<Hit>, ghost codes: seq<Code>,
                   order0: seq<string>, byId0: map<string, Candidate>, errors0: seq<Code>)
    returns (order: seq<string>, byId: map<string, Candidate>, errors: seq<Code>)
    requires Table(hits, order0, byId0) && errors0 == KeysOf(codes, Itself)
    ensures Table(hits + HitsOf(query, fetch), order, byId)
    ensures errors == KeysOf(codes + CodesOf(fetch), Itself)
  {
    hide Table, KeysOf, HitsIn, InvalidIn;
    order, byId, errors := order0, byId0, errors0;
    assert hits + [] == hits;
    match fetch {
      case Raises =>
        errors := AppendError(errors, codes, ProviderExitNonzero);
        assert CodesOf(fetch) == [ProviderExitNonzero];
      case NotAListing =>
        errors := AppendError(errors, codes, InvalidMetadataRecord);
        assert CodesOf(fetch) == [InvalidMetadataRecord];
      case Listing(failed, partial, items) =>
        errors := AppendErrorIf(errors, codes, ProviderExitNonzero, failed);
        ghost var headed := codes + if failed then [ProviderExitNonzero] else [];
        errors := AppendErrorIf(errors, headed, PartialMetadata, partial);
        ghost var full := codes + HeaderCodes(fetch);
        assert full == headed + if partial then [PartialMetadata] else [];
        order, byId, errors := FileListing(query, items, hits, full, order, byId, errors);
        assert full + InvalidIn(items, Seen(items)) == codes + CodesOf(fetch);
    }
  }

  /** The loop over the queries. */
  method Collect(queries: seq<string>, fetches: seq<Fetch>)
    returns (order: seq<string>, byId: map<string, Candidate>, errors: seq<Code>)
    requires |queries| == |fetches|
    ensures Table(Hits(queries, fetches, |queries|), order, byId)
    ensures errors == KeysOf(Codes(fetches, |queries|), Itself)
  {
    hide Table, KeysOf, HitsOf, CodesOf;
    order, byId, errors := [], map[], [];
    NothingCollected();
    for q := 0 to |queries|
      invariant Table(Hits(queries, fetches, q), order, byId)
      invariant errors == KeysOf(Codes(fetches, q), Itself)
    {
      order, byId, errors := FileFetch(queries[q], fetches[q], Hits(queries, fetches, q), Codes(fetches, q),
                                       order, byId, errors);
    }
  }

  lemma NothingCollected()
    ensures Table([], [], map[]) && KeysOf<Code, Code>([], Itself) == []
  {
  }

  // ----- channels in turn -----

  /** `_bounded_channel_value`. */
  function BoundedChannel(channel: Option<string>): Option<string> {
    if channel.None? || channel.value == "" || |channel.value| > 300 || '\0' in channel.value then None else channel
  }

  function ChannelKey(c: Candidate): Option<string> {
    match c.video
    case NotAVideo => Some("")
    case Video(id, _, channelId) =>
      Some(match BoundedChannel(channelId) case Some(channel) => channel case None => "video:" + id)
  }

  /** The rank of a group's first member. */
  function LeadRank(group: seq<Candidate>): nat { if group == [] then 0 else group[0].rank }

  predicate LeadsBefore(a: seq<Candidate>, b: seq<Candidate>) { LeadRank(a) <= LeadRank(b) }

  function GroupsOf(s: seq<Candidate>, keys: seq<string>): (groups: seq<seq<Candidate>>)
    ensures |groups| == |keys|
    ensures forall i :: 0 <= i < |keys| ==> groups[i] == Select(s, ChannelKey, keys[i])
  {
    seq(|keys|, i requires 0 <= i < |keys| => Select(s, ChannelKey, keys[i]))
  }

  /** The channel groups by the rank of their first member, earlier arrival first. */
  function ChannelGroups(s: seq<Candidate>): seq<seq<Candidate>> {
    StableSort(LeadsBefore, GroupsOf(s, KeysOf(s, ChannelKey)))
  }

  function KeyOfGroup(group: seq<Candidate>): string {
    if group == [] || ChannelKey(group[0]).None? then "" else ChannelKey(group[0]).value
  }

  function GroupNames(groups: seq<seq<Candidate>>): (names: seq<string>)
    ensures |names| == |groups|
    ensures forall i :: 0 <= i < |groups| ==> names[i] == KeyOfGroup(groups[i])
  {
    seq(|groups|, i requires 0 <= i < |groups| => KeyOfGroup(groups[i]))
  }

  lemma GroupKnowsKey(s: seq<Candidate>, k: string)
    requires k in KeysOf(s, ChannelKey)
    ensures KeyOfGroup(Select(s, ChannelKey, k)) == k
  {
    var group := Select(s, ChannelKey, k);
    SelectSize(s, ChannelKey, k);
    SelectCount(s, ChannelKey, k, group[0]);
    assert group[0] in multiset(group);
  }

  /** Each sorted group is the whole of one channel, and each channel has one group. */
  lemma SortedGroup(s: seq<Candidate>, g: seq<Candidate>)
    ensures g in ChannelGroups(s) <==> exists k :: k in KeysOf(s, ChannelKey) && g == Select(s, ChannelKey, k)
  {
    hide Select, StableSort, KeysOf;
    var groups := GroupsOf(s, KeysOf(s, ChannelKey));
    SortMembers(LeadsBefore, groups, g);
    if k :| k in KeysOf(s, ChannelKey) && g == Select(s, ChannelKey, k) {
      var i :| 0 <= i < |groups| && KeysOf(s, ChannelKey)[i] == k;
      assert groups[i] == g;
    }
  }

  lemma GroupsDistinct(s: seq<Candidate>)
    ensures NoRepeats(ChannelGroups(s))
  {
    hide Select, StableSort, KeysOf, NoRepeats;
    var keys := KeysOf(s, ChannelKey);
    var groups := GroupsOf(s, keys);
    KeysCover(s, ChannelKey);
    forall i | 0 <= i < |keys| ensures KeyOfGroup(groups[i]) == keys[i] { GroupKnowsKey(s, keys[i]); }
    KeyedNoRepeats(groups, keys);
    PermutedNoRepeats(groups, ChannelGroups(s));
  }

  lemma KeyedNoRepeats(groups: seq<seq<Candidate>>, keys: seq<string>)
    requires |groups| == |keys| && NoRepeats(keys)
    requires forall i :: 0 <= i < |keys| ==> KeyOfGroup(groups[i]) == keys[i]
    ensures NoRepeats(groups)
  {
  }

  lemma ChannelsPartition(s: seq<Candidate>)
    ensures Partition(s, ChannelKey, GroupNames(ChannelGroups(s)), ChannelGroups(s))
  {
    hide Select, ChannelGroups, KeysOf, ChannelKey, KeyOfGroup;
    var groups := ChannelGroups(s);
    var names := GroupNames(groups);
    GroupsDistinct(s);
    KeysCover(s, ChannelKey);
    forall i | 0 <= i < |groups| ensures groups[i] == Select(s, ChannelKey, names[i]) {
      SortedGroup(s, groups[i]);
      var k :| k in KeysOf(s, ChannelKey) && groups[i] == Select(s, ChannelKey, k);
      GroupKnowsKey(s, k);
    }
    forall k | k in KeysOf(s, ChannelKey) ensures k in names {
      SortedGroup(s, Select(s, ChannelKey, k));
      GroupKnowsKey(s, k);
      var i :| 0 <= i < |groups| && groups[i] == Select(s, ChannelKey, k);
      assert names[i] == k;
    }
  }

  /** Channels take their turns by the rank of their first member. */
  lemma ChannelsByLeadRank(s: seq<Candidate>)
    ensures SortedBy(LeadsBefore, ChannelGroups(s))
  {
    SortIsSorted(LeadsBefore, GroupsOf(s, KeysOf(s, ChannelKey)));
  }

  /** `n` members at most, from the front. */
  function FirstFew<T>(n: nat, s: seq<T>): seq<T> { s[..Min(n, |s|)] }

  /** The offset loop. */
  method TakeInTurn(groups: seq<seq<Candidate>>, limit: nat, ghost most: nat) returns (selected: seq<Candidate>)
    requires limit > 0 && forall i :: 0 <= i < |groups| ==> |groups[i]| <= most
    ensures selected == FirstFew(limit, InTurn(groups, most))
  {
    hide InTurn, Column, Round, Members, Active;
    selected := [];
    NoTurns(groups);
    var offset := 0;
    while |selected| < limit
      invariant offset <= most && selected == InTurn(groups, offset) && |selected| < limit
      decreases most - offset
    {
      var added := false;
      MembersOfNone(groups, offset);
      for i := 0 to |groups|
        invariant Within(groups, Round(Sizes(groups), offset, i))
        invariant selected == InTurn(groups, offset) + Members(groups, Round(Sizes(groups), offset, i))
        invariant |selected| < limit
        invariant !added ==> forall j :: 0 <= j < i ==> |groups[j]| <= offset
        invariant added ==> offset < most
      {
        MembersStep(groups, offset, i + 1);
        if offset < |groups[i]| {
          selected := selected + [groups[i][offset]];
          added := true;
          if |selected| == limit {
            PartOfColumn(groups, offset, i + 1);
            InTurnStep(groups, offset);
            MoreTurns(groups, offset + 1, most);
            return;
          }
        }
      }
      ColumnIsRound(groups, offset);
      InTurnStep(groups, offset);
      if !added {
        EmptyColumn(groups, offset);
        NoMoreTurns(groups, offset, most);
        return;
      }
      offset := offset + 1;
    }
  }

  lemma ColumnIsRound(groups: seq<seq<Candidate>>, r: nat)
    ensures Within(groups, Round(Sizes(groups), r, |groups|))
    ensures Column(groups, r) == Members(groups, Round(Sizes(groups), r, |groups|))
  {
    RoundWithin(groups, r, |groups|);
  }

  method RoundRobinChannels(candidates: seq<Candidate>, limit: nat) returns (selected: seq<Candidate>)
    requires limit > 0
    ensures selected == FirstFew(limit, InTurn(ChannelGroups(candidates), |candidates|))
  {
    hide Select, StableSort, KeysOf, InTurn, ChannelKey, Partition;
    var keys, byChannel, unfiled := Group(candidates, ChannelKey);
    var groups := seq(|keys|, i requires 0 <= i < |keys| && keys[i] in byChannel => byChannel[keys[i]]);
    assert groups == GroupsOf(candidates, keys);
    groups := StableSort(LeadsBefore, groups);
    ChannelsPartition(candidates);
    GroupSizes(candidates);
    selected := TakeInTurn(groups, limit, |candidates|);
  }

  lemma GroupSizes(s: seq<Candidate>)
    ensures forall i :: 0 <= i < |ChannelGroups(s)| ==> |ChannelGroups(s)[i]| <= |s|
  {
    hide ChannelGroups, Partition, ChannelKey;
    ChannelsPartition(s);
    forall i | 0 <= i < |ChannelGroups(s)| ensures |ChannelGroups(s)[i]| <= |s| {
      QueueSize(s, ChannelKey, GroupNames(ChannelGroups(s)), ChannelGroups(s), i);
    }
  }

  // ----- the order of the turns, told from the candidates -----

  predicate NamesChannel(v: Item) {
    v.Video? && v.channelId.Some? && 1 <= |v.channelId.value| <= 300 && '\0' !in v.channelId.value
  }

  /** Two videos of one channel: the same named channel, or, without a name, the same video. */
  predicate SameChannel(a: Item, b: Item) {
    && a.Video? && b.Video?
    && if NamesChannel(a) && NamesChannel(b) then a.channelId == b.channelId
       else if NamesChannel(a) then a.channelId.value == "video:" + b.id
       else if NamesChannel(b) then b.channelId.value == "video:" + a.id
       else a.id == b.id
  }

  /** How many of the first `n` candidates are of the channel of `v`. */
  function Ahead(s: seq<Candidate>, n: nat, v: Item): nat
    requires n <= |s|
  {
    if n == 0 then 0 else Ahead(s, n - 1, v) + if SameChannel(s[n - 1].video, v) then 1 else 0
  }

  /** Candidate `f` is the first to arrive of the channel of candidate `i`. */
  ghost predicate Leads(s: seq<Candidate>, f: nat, i: nat)
    requires i < |s|
  {
    && f < |s| && SameChannel(s[f].video, s[i].video)
    && forall j :: 0 <= j < f ==> !SameChannel(s[j].video, s[i].video)
  }

  /** The better ranked of two first arrivals goes first, of equal ranks the one that arrived earlier. */
  predicate LeadsSooner(s: seq<Candidate>, f: nat, g: nat)
    requires f < |s| && g < |s|
  {
    s[f].rank < s[g].rank || (s[f].rank == s[g].rank && f < g)
  }

  /** Candidate `i` goes before `j`: fewer of its channel are ahead of it, or as many and its channel goes first. */
  ghost predicate GoesBefore(s: seq<Candidate>, i: nat, j: nat)
    requires i < |s| && j < |s|
  {
    || Ahead(s, i, s[i].video) < Ahead(s, j, s[j].video)
    || (&& Ahead(s, i, s[i].video) == Ahead(s, j, s[j].video)
        && exists f: nat, g: nat :: Leads(s, f, i) && Leads(s, g, j) && LeadsSooner(s, f, g))
  }

  /** `at` puts all candidates in the order of their turns. */
  ghost predicate PutsInTurn(s: seq<Candidate>, at: seq<nat>) {
    && |at| == |s| && (forall x :: 0 <= x < |at| ==> at[x] < |s|)
    && forall x, y :: 0 <= x < y < |at| ==> GoesBefore(s, at[x], at[y])
  }

  /** As many as asked for or as there are, from the front of that order. */
  ghost predicate TakesFirst(s: seq<Candidate>, at: seq<nat>, limit: nat, taken: seq<Candidate>) {
    && |at| == |s| && |taken| == Min(limit, |s|)
    && forall x :: 0 <= x < |taken| ==> at[x] < |s| && taken[x] == s[at[x]]
  }

  ghost predicate AllVideos(s: seq<Candidate>) { forall i :: 0 <= i < |s| ==> s[i].video.Video? }

  lemma SameChannelKey(a: Candidate, b: Candidate)
    requires a.video.Video? && b.video.Video?
    ensures SameChannel(a.video, b.video) <==> ChannelKey(a) == ChannelKey(b)
  {
    if !NamesChannel(a.video) && !NamesChannel(b.video) {
      SamePrefix("video:", a.video.id, b.video.id);
    }
  }

  lemma SamePrefix(p: string, a: string, b: string)
    ensures p + a == p + b <==> a == b
  {
    if p + a == p + b {
      assert a == (p + a)[|p|..] && b == (p + b)[|p|..];
    }
  }

  lemma {:induction false} AheadIsFiled(s: seq<Candidate>, n: nat, c: Candidate)
    requires AllVideos(s) && n <= |s| && c.video.Video? && ChannelKey(c).Some?
    ensures Ahead(s, n, c.video) == |Select(s[..n], ChannelKey, ChannelKey(c).value)|
  {
    hide ChannelKey, SameChannel;
    if n > 0 {
      AheadIsFiled(s, n - 1, c);
      assert s[..n] == s[..n - 1] + [s[n - 1]];
      SelectAppend(s[..n - 1], ChannelKey, s[n - 1], ChannelKey(c).value);
      SameChannelKey(s[n - 1], c);
    }
  }

  lemma FirstLeads(s: seq<Candidate>, i: nat)
    requires AllVideos(s) && i < |s| && ChannelKey(s[i]).Some?
    ensures Leads(s, FirstAt(s, ChannelKey, ChannelKey(s[i]).value), i)
  {
    hide ChannelKey, SameChannel, FirstAt;
    var k := ChannelKey(s[i]).value;
    FirstAtIsFirst(s, ChannelKey, k);
    forall j | 0 <= j < |s| ensures SameChannel(s[j].video, s[i].video) <==> ChannelKey(s[j]) == Some(k) {
      SameChannelKey(s[j], s[i]);
    }
  }

  /** When the first candidate of a group arrived. */
  ghost function Arrival(s: seq<Candidate>, group: seq<Candidate>): int { FirstAt(s, ChannelKey, KeyOfGroup(group)) }

  lemma LeadRankIs(s: seq<Candidate>, k: string)
    requires k in KeysOf(s, ChannelKey)
    ensures FirstAt(s, ChannelKey, k) < |s| && LeadRank(Select(s, ChannelKey, k)) == s[FirstAt(s, ChannelKey, k)].rank
  {
    hide ChannelKey, Select, FirstAt, KeysOf;
    KeysHaveFirst(s, ChannelKey, k);
    FirstAtIsFirst(s, ChannelKey, k);
    SelectSize(s, ChannelKey, k);
    var i := MemberAt(s, ChannelKey, k, 0);
    if FirstAt(s, ChannelKey, k) < i {
      NothingBefore(s[..i], ChannelKey, k, FirstAt(s, ChannelKey, k));
    }
  }

  lemma NothingBefore<T, K>(s: seq<T>, key: T -> Option<K>, k: K, j: nat)
    requires j < |s| && |Select(s, key, k)| == 0
    ensures key(s[j]) != Some(k)
  {
    SelectCount(s, key, k, s[j]);
    assert s[j] in multiset(s);
  }

  /** The groups take their turns by lead rank, equal ranks by arrival. */
  lemma GroupsStable(s: seq<Candidate>)
    ensures StablyBy(LeadsBefore, group => Arrival(s, group), ChannelGroups(s))
  {
    hide ChannelKey, Select, StableSort, KeysOf, FirstAt, KeyOfGroup;
    var keys := KeysOf(s, ChannelKey);
    var groups := GroupsOf(s, keys);
    forall x, y | 0 <= x < y < |groups| ensures Arrival(s, groups[x]) < Arrival(s, groups[y]) {
      GroupKnowsKey(s, keys[x]);
      GroupKnowsKey(s, keys[y]);
      KeysInOrder(s, ChannelKey, x, y);
    }
    SortIsStable(LeadsBefore, group => Arrival(s, group), groups);
  }

  lemma GroupIsFiled(s: seq<Candidate>, g: nat)
    requires g < |ChannelGroups(s)|
    ensures var k := KeyOfGroup(ChannelGroups(s)[g]);
            k in KeysOf(s, ChannelKey) && ChannelGroups(s)[g] == Select(s, ChannelKey, k)
  {
    hide Select, ChannelGroups, KeysOf, ChannelKey, KeyOfGroup;
    var group := ChannelGroups(s)[g];
    SortedGroup(s, group);
    var k :| k in KeysOf(s, ChannelKey) && group == Select(s, ChannelKey, k);
    GroupKnowsKey(s, k);
  }

  /** The candidate of a slot, and how many of its channel are ahead of it. */
  lemma SlotCandidate(s: seq<Candidate>, a: Slot) returns (i: nat)
    requires AllVideos(s) && a.group < |ChannelGroups(s)| && a.place < |ChannelGroups(s)[a.group]|
    ensures i < |s| && s[i] == ChannelGroups(s)[a.group][a.place]
    ensures ChannelKey(s[i]) == Some(KeyOfGroup(ChannelGroups(s)[a.group]))
    ensures Ahead(s, i, s[i].video) == a.place
  {
    hide ChannelKey, Select, ChannelGroups, KeysOf, KeyOfGroup, Ahead;
    GroupIsFiled(s, a.group);
    i := MemberAt(s, ChannelKey, KeyOfGroup(ChannelGroups(s)[a.group]), a.place);
    AheadIsFiled(s, i, s[i]);
  }

  lemma GroupGoesFirst(s: seq<Candidate>, a: nat, b: nat)
    requires a < b < |ChannelGroups(s)|
    ensures var f := FirstAt(s, ChannelKey, KeyOfGroup(ChannelGroups(s)[a]));
            var g := FirstAt(s, ChannelKey, KeyOfGroup(ChannelGroups(s)[b]));
            f < |s| && g < |s| && LeadsSooner(s, f, g)
  {
    hide ChannelKey, Select, ChannelGroups, KeysOf, KeyOfGroup, FirstAt, LeadRank;
    GroupsStable(s);
    GroupIsFiled(s, a);
    GroupIsFiled(s, b);
    LeadRankIs(s, KeyOfGroup(ChannelGroups(s)[a]));
    LeadRankIs(s, KeyOfGroup(ChannelGroups(s)[b]));
    assert LeadsBefore(ChannelGroups(s)[a], ChannelGroups(s)[b]);
  }

  lemma SoonerGoesBefore(s: seq<Candidate>, a: Slot, b: Slot, i: nat, j: nat)
    requires AllVideos(s) && Sooner(a, b) && i < |s| && j < |s|
    requires a.group < |ChannelGroups(s)| && b.group < |ChannelGroups(s)|
    requires ChannelKey(s[i]) == Some(KeyOfGroup(ChannelGroups(s)[a.group])) && Ahead(s, i, s[i].video) == a.place
    requires ChannelKey(s[j]) == Some(KeyOfGroup(ChannelGroups(s)[b.group])) && Ahead(s, j, s[j].video) == b.place
    ensures GoesBefore(s, i, j)
  {
    hide ChannelKey, ChannelGroups, KeyOfGroup, FirstAt, Leads, LeadsSooner, Ahead;
    if a.place == b.place {
      GroupGoesFirst(s, a.group, b.group);
      FirstLeads(s, i);
      FirstLeads(s, j);
    }
  }

  /** The selection is the front of the one order of turns. */
  lemma TurnsMeaning(s: seq<Candidate>, limit: nat) returns (at: seq<nat>)
    requires AllVideos(s)
    ensures PutsInTurn(s, at)
    ensures TakesFirst(s, at, limit, FirstFew(limit, InTurn(ChannelGroups(s), |s|)))
  {
    hide ChannelKey, ChannelGroups, KeyOfGroup, InTurn, Rounds, GoesBefore, Ahead, AllVideos, Sooner;
    var groups, turns := ChannelGroups(s), InTurn(ChannelGroups(s), |s|);
    var slots := Rounds(Sizes(groups), |s|);
    TurnsPermute(s);
    assert |turns| == |multiset(turns)| == |s|;
    at := [];
    for x := 0 to |s|
      invariant |at| == x
      invariant forall y :: 0 <= y < x ==> at[y] < |s| && s[at[y]] == turns[y] && FromSlot(s, slots[y], at[y])
    {
      var a := TakenFrom(groups, |s|, x);
      var i := SlotCandidate(s, a);
      at := at + [i];
    }
    forall x, y | 0 <= x < y < |at| ensures GoesBefore(s, at[x], at[y]) {
      SlotsInOrder(Sizes(groups), |s|, x, y);
      SoonerGoesBefore(s, slots[x], slots[y], at[x], at[y]);
    }
  }

  ghost predicate FromSlot(s: seq<Candidate>, a: Slot, i: nat) {
    && i < |s| && a.group < |ChannelGroups(s)|
    && ChannelKey(s[i]) == Some(KeyOfGroup(ChannelGroups(s)[a.group]))
    && Ahead(s, i, s[i].video) == a.place
  }

  // ----- the whole selection -----

  /** The candidates of the ids in `order` that the catalog does not have. */
  function Unseen(hits: seq<Hit>, order: seq<string>, known: set<string>): seq<Candidate> {
    if order == [] then []
    else
      var last := order[|order| - 1];
      Unseen(hits, order[..|order| - 1], known) + if last in known then [] else [CandidateOf(hits, last)]
  }

  /** What a request finds, as a function of its answers. */
  ghost function Selected(hits: seq<Hit>, known: set<string>, limit: nat): seq<Candidate> {
    var unseen := Unseen(hits, KeysOf(hits, HitId), known);
    FirstFew(limit, InTurn(ChannelGroups(unseen), |unseen|))
  }

  lemma LimitIsPositive(queries: seq<string>, limit: int, normalize: string -> string)
    requires Acceptable(queries, limit, normalize)
    ensures limit > 0
  {
  }

  lemma TableHolds(hits: seq<Hit>, order: seq<string>, byId: map<string, Candidate>, id: string)
    requires Table(hits, order, byId) && id in order
    ensures id in byId && byId[id] == CandidateOf(hits, id)
  {
  }

  lemma TableOrder(hits: seq<Hit>, order: seq<string>, byId: map<string, Candidate>)
    requires Table(hits, order, byId)
    ensures order == KeysOf(hits, HitId)
  {
  }

  lemma {:induction false} NoErrorsReported(codes: seq<Code>)
    ensures KeysOf(codes, Itself) == [] <==> codes == []
  {
    if codes != [] {
      NoErrorsReported(codes[..|codes| - 1]);
    }
  }

  // ----- what a discovery promises -----

  lemma {:induction false} KeysComeFromHits<T, K>(s: seq<T>, key: T -> Option<K>, k: K)
    ensures k in KeysOf(s, key) <==> exists i :: 0 <= i < |s| && key(s[i]) == Some(k)
  {
    if s != [] {
      var before := s[..|s| - 1];
      KeysComeFromHits(before, key, k);
      if i :| 0 <= i < |s| && key(s[i]) == Some(k) {
        assert i < |before| ==> key(before[i]) == Some(k);
      }
      if i :| 0 <= i < |before| && key(before[i]) == Some(k) {
        assert key(s[i]) == Some(k);
      }
    }
  }

  lemma {:induction false} SelectedHits(hits: seq<Hit>, id: string, h: Hit)
    ensures h in Select(hits, HitId, id) <==> h in hits && HitId(h) == Some(id)
  {
    SelectCount(hits, HitId, id, h);
    assert h in multiset(Select(hits, HitId, id)) <==> h in Select(hits, HitId, id);
    assert h in multiset(hits) <==> h in hits;
  }

  /** A found id's candidate: its own record, and exactly the queries that listed it, without repeats. */
  lemma CandidateMeaning(hits: seq<Hit>, id: string)
    requires id in KeysOf(hits, HitId)
    ensures var c := CandidateOf(hits, id);
            && c.video.Video? && c.video.id == id && NoRepeats(c.matched)
            && forall q :: q in c.matched <==> exists h :: h in hits && HitId(h) == Some(id) && h.query == q
  {
    var own := Select(hits, HitId, id);
    SelectSize(hits, HitId, id);
    forall h ensures h in own <==> h in hits && HitId(h) == Some(id) { SelectedHits(hits, id, h); }
    assert own[0] in own;
    KeysCover(own, HitQuery);
    forall q ensures q in KeysOf(own, HitQuery) <==> exists h :: h in hits && HitId(h) == Some(id) && h.query == q {
      KeysComeFromHits(own, HitQuery, q);
      if h :| h in hits && HitId(h) == Some(id) && h.query == q {
        var i :| 0 <= i < |own| && own[i] == h;
        assert HitQuery(own[i]) == Some(q);
      }
    }
  }

  /** The rank and record are those of the earliest listing that has the video. */
  lemma {:induction false} FirstHitWins(hits: seq<Hit>, id: string) returns (i: nat)
    requires id in KeysOf(hits, HitId)
    ensures i < |hits| && HitId(hits[i]) == Some(id)
    ensures forall j :: 0 <= j < i ==> HitId(hits[j]) != Some(id)
    ensures CandidateOf(hits, id).video == hits[i].video && CandidateOf(hits, id).rank == hits[i].rank
  {
    hide CandidateOf, KeysOf;
    NoKeys();
    var before, last := hits[..|hits| - 1], hits[|hits| - 1];
    assert hits == before + [last];
    KeysAppend(before, HitId, last);
    if id in KeysOf(before, HitId) {
      i := FirstHitWins(before, id);
      if HitId(last) == Some(id) {
        KnownCandidate(before, last);
      } else {
        OtherCandidate(before, last, id);
      }
    } else {
      i := |before|;
      KeysCover(before, HitId);
      forall j | 0 <= j < i ensures HitId(hits[j]) != Some(id) { assert hits[j] in before; }
      NewCandidate(before, last);
    }
  }

  lemma NoKeys()
    ensures KeysOf([], HitId) == []
  {
  }

  lemma {:induction false} UnseenIds(hits: seq<Hit>, order: seq<string>, known: set<string>, c: Candidate)
    ensures c in Unseen(hits, order, known) <==> exists id :: id in order && id !in known && c == CandidateOf(hits, id)
  {
    if order != [] {
      var before, last := order[..|order| - 1], order[|order| - 1];
      UnseenIds(hits, before, known, c);
      assert order == before + [last];
    }
  }

  function CandidateId(c: Candidate): Option<string> { if c.video.Video? then Some(c.video.id) else None }

  lemma {:induction false} UnseenDistinct(hits: seq<Hit>, order: seq<string>, known: set<string>)
    requires NoRepeats(order) && forall i :: 0 <= i < |order| ==> CandidateId(CandidateOf(hits, order[i])) == Some(order[i])
    ensures NoRepeats(Unseen(hits, order, known))
  {
    hide CandidateOf;
    if order != [] {
      var before, last := order[..|order| - 1], order[|order| - 1];
      UnseenDistinct(hits, before, known);
      UnseenIds(hits, before, known, CandidateOf(hits, last));
      AppendDistinct(Unseen(hits, before, known), CandidateOf(hits, last));
    }
  }

  lemma AppendDistinct(s: seq<Candidate>, c: Candidate)
    requires NoRepeats(s)
    ensures c !in s ==> NoRepeats(s + [c])
  {
  }

  /** The ids found are distinct, and each one's candidate carries it. */
  lemma FoundIds(hits: seq<Hit>)
    ensures var order := KeysOf(hits, HitId);
            NoRepeats(order) &&
            forall i :: 0 <= i < |order| ==> CandidateId(CandidateOf(hits, order[i])) == Some(order[i])
  {
    hide CandidateOf, KeysOf, NoRepeats;
    KeysCover(hits, HitId);
    forall id | id in KeysOf(hits, HitId) ensures CandidateId(CandidateOf(hits, id)) == Some(id) {
      CandidateMeaning(hits, id);
    }
  }

  lemma EveryCandidateFiled(s: seq<Candidate>)
    ensures forall c :: c in s ==> ChannelKey(c).Some?
  {
  }

  /** With no limit in the way, taking turns rearranges the unseen candidates and loses none. */
  lemma TurnsPermute(s: seq<Candidate>)
    ensures multiset(InTurn(ChannelGroups(s), |s|)) == multiset(s)
  {
    hide InTurn, ChannelGroups, Partition, ChannelKey;
    ChannelsPartition(s);
    EveryCandidateFiled(s);
    var r := InTurn(ChannelGroups(s), |s|);
    forall c ensures multiset(r)[c] == multiset(s)[c] {
      TurnsTakeFiled(s, ChannelKey, GroupNames(ChannelGroups(s)), ChannelGroups(s), |s|, c);
      assert c in multiset(s) <==> c in s;
    }
  }

  /** As many as asked for or as there are, all different, all found and none of them known to the catalog. */
  lemma SelectedMeaning(hits: seq<Hit>, known: set<string>, limit: nat)
    ensures var unseen := Unseen(hits, KeysOf(hits, HitId), known);
            |Selected(hits, known, limit)| == Min(limit, |unseen|)
    ensures NoRepeats(Selected(hits, known, limit))
    ensures forall c :: c in Selected(hits, known, limit) ==>
              exists id :: id in KeysOf(hits, HitId) && id !in known && c == CandidateOf(hits, id)
  {
    hide KeysOf, CandidateOf, InTurn, ChannelGroups, Unseen, NoRepeats;
    var order := KeysOf(hits, HitId);
    var unseen := Unseen(hits, order, known);
    var turns := InTurn(ChannelGroups(unseen), |unseen|);
    FoundIds(hits);
    UnseenDistinct(hits, order, known);
    TurnsPermute(unseen);
    PermutedNoRepeats(unseen, turns);
    PrefixNoRepeats(turns, Min(limit, |turns|));
    assert |multiset(turns)| == |multiset(unseen)|;
    forall c | c in Selected(hits, known, limit)
      ensures exists id :: id in order && id !in known && c == CandidateOf(hits, id)
    {
      assert c in multiset(turns);
      UnseenIds(hits, order, known, c);
    }
  }

  lemma PrefixNoRepeats(s: seq<Candidate>, n: nat)
    requires NoRepeats(s) && n <= |s|
    ensures NoRepeats(s[..n])
  {
  }

  /** No two selected candidates are the same video. */
  lemma SelectedVideosDiffer(hits: seq<Hit>, known: set<string>, limit: nat, i: nat, j: nat)
    requires i < j < |Selected(hits, known, limit)|
    ensures CandidateId(Selected(hits, known, limit)[i]) != CandidateId(Selected(hits, known, limit)[j])
  {
    hide KeysOf, CandidateOf, Selected, Unseen;
    SelectedMeaning(hits, known, limit);
    FoundIds(hits);
    var s := Selected(hits, known, limit);
    assert s[i] in s && s[j] in s;
    var a :| a in KeysOf(hits, HitId) && s[i] == CandidateOf(hits, a);
    var b :| b in KeysOf(hits, HitId) && s[j] == CandidateOf(hits, b);
  }

  /** The hits are the valid records among the first ten of each listing, under their query and 1-based rank. */
  lemma {:induction false} HitsInMeaning(query: string, items: seq<Item>, n: nat, h: Hit)
    requires n <= |items|
    ensures h in HitsIn(query, items, n) <==>
            exists i :: 0 <= i < n && ValidVideo(items[i]) && h == Hit(items[i], i + 1, query)
  {
    if n > 0 {
      HitsInMeaning(query, items, n - 1, h);
    }
  }

  ghost predicate Listed(queries: seq<string>, fetches: seq<Fetch>, h: Hit, q: nat)
    requires |queries| == |fetches|
  {
    q < |queries| && fetches[q].Listing? &&
    exists i :: 0 <= i < Seen(fetches[q].items) && ValidVideo(fetches[q].items[i]) &&
                h == Hit(fetches[q].items[i], i + 1, queries[q])
  }

  lemma {:induction false} HitsMeaning(queries: seq<string>, fetches: seq<Fetch>, n: nat, h: Hit)
    requires n <= |queries| == |fetches|
    ensures h in Hits(queries, fetches, n) <==> exists q: nat :: q < n && Listed(queries, fetches, h, q)
  {
    if n > 0 {
      hide ValidVideo;
      HitsMeaning(queries, fetches, n - 1, h);
      if fetches[n - 1].Listing? {
        HitsInMeaning(queries[n - 1], fetches[n - 1].items, Seen(fetches[n - 1].items), h);
      }
      assert h in HitsOf(queries[n - 1], fetches[n - 1]) <==> Listed(queries, fetches, h, n - 1);
    }
  }

  // ----- what arrives, told from the listings -----

  /** Record `place` of the listing of query `query`. */
  datatype Spot = Spot(query: nat, place: nat)

  predicate SpotBefore(a: Spot, b: Spot) { a.query < b.query || (a.query == b.query && a.place < b.place) }

  /** A valid record among the first ten of a listing. */
  predicate Offers(fetches: seq<Fetch>, a: Spot) {
    && a.query < |fetches| && fetches[a.query].Listing?
    && a.place < |fetches[a.query].items| && a.place < 10 && ValidVideo(fetches[a.query].items[a.place])
  }

  function RecordAt(fetches: seq<Fetch>, a: Spot): (v: Item)
    requires Offers(fetches, a)
    ensures v.Video?
  {
    fetches[a.query].items[a.place]
  }

  /** The first record with its id. */
  ghost predicate Opens(fetches: seq<Fetch>, a: Spot): (opens: bool)
    ensures opens ==> Offers(fetches, a)
  {
    && Offers(fetches, a)
    && forall b :: Offers(fetches, b) && SpotBefore(b, a) ==> RecordAt(fetches, b).id != RecordAt(fetches, a).id
  }

  ghost predicate ListedBy(queries: seq<string>, fetches: seq<Fetch>, id: string, query: string)
    requires |queries| == |fetches|
  {
    exists a :: Offers(fetches, a) && RecordAt(fetches, a).id == id && queries[a.query] == query
  }

  ghost predicate EarlierQuery(queries: seq<string>, q: string, r: string) {
    exists i, j :: 0 <= i < j < |queries| && queries[i] == q && queries[j] == r
  }

  /** The queries that list `id`, once each and in the order they were asked. */
  ghost predicate Matches(queries: seq<string>, fetches: seq<Fetch>, id: string, matched: seq<string>)
    requires |queries| == |fetches|
  {
    && NoRepeats(matched) && (forall q :: q in matched <==> ListedBy(queries, fetches, id, q))
    && forall x, y :: 0 <= x < y < |matched| ==> EarlierQuery(queries, matched[x], matched[y])
  }

  /** The candidate shows the record at `a`, its 1-based rank and every query that lists its id. */
  ghost predicate ShowsRecord(queries: seq<string>, fetches: seq<Fetch>, a: Spot, c: Candidate)
    requires |queries| == |fetches|
  {
    && Opens(fetches, a) && c.video == RecordAt(fetches, a) && c.rank == a.place + 1
    && Matches(queries, fetches, c.video.id, c.matched)
  }

  /** The candidates the catalog does not have, in the order of their first records. */
  ghost predicate Arrives(queries: seq<string>, fetches: seq<Fetch>, known: set<string>, s: seq<Candidate>, from: seq<Spot>)
    requires |queries| == |fetches|
  {
    && |from| == |s|
    && (forall x :: 0 <= x < |s| ==> ShowsRecord(queries, fetches, from[x], s[x]) && s[x].video.id !in known)
    && (forall x, y :: 0 <= x < y < |from| ==> SpotBefore(from[x], from[y]))
    && forall a :: Opens(fetches, a) && RecordAt(fetches, a).id !in known ==> a in from
  }

  /** Where the hits of one listing come from. */
  ghost function SpotsIn(query: nat, items: seq<Item>, n: nat): seq<Spot>
    requires n <= |items|
  {
    if n == 0 then []
    else SpotsIn(query, items, n - 1) + if ValidVideo(items[n - 1]) then [Spot(query, n - 1)] else []
  }

  /** Where the hits of the first `n` queries come from. */
  ghost function Spots(fetches: seq<Fetch>, n: nat): seq<Spot>
    requires n <= |fetches|
  {
    if n == 0 then []
    else
      Spots(fetches, n - 1) +
      if fetches[n - 1].Listing? then SpotsIn(n - 1, fetches[n - 1].items, Seen(fetches[n - 1].items)) else []
  }

  /** Hit `x` is the record at spot `x`, and the spots are in order. */
  ghost predicate Taken(queries: seq<string>, fetches: seq<Fetch>, hits: seq<Hit>, spots: seq<Spot>)
    requires |queries| == |fetches|
  {
    && |hits| == |spots|
    && (forall x :: 0 <= x < |spots| ==> Offers(fetches, spots[x]) && hits[x] == HitAt(queries, fetches, spots[x]))
    && forall x, y :: 0 <= x < y < |spots| ==> SpotBefore(spots[x], spots[y])
  }

  function HitAt(queries: seq<string>, fetches: seq<Fetch>, a: Spot): Hit
    requires |queries| == |fetches| && Offers(fetches, a)
  {
    Hit(RecordAt(fetches, a), a.place + 1, queries[a.query])
  }

  lemma TakenMore(queries: seq<string>, fetches: seq<Fetch>, hits: seq<Hit>, spots: seq<Spot>, a: Spot)
    requires |queries| == |fetches| && Taken(queries, fetches, hits, spots) && Offers(fetches, a)
    requires forall x :: 0 <= x < |spots| ==> SpotBefore(spots[x], a)
    ensures Taken(queries, fetches, hits + [HitAt(queries, fetches, a)], spots + [a])
  {
    hide Offers, SpotBefore, HitAt;
  }

  lemma TakenBoth(queries: seq<string>, fetches: seq<Fetch>, h0: seq<Hit>, s0: seq<Spot>, h1: seq<Hit>, s1: seq<Spot>)
    requires |queries| == |fetches| && Taken(queries, fetches, h0, s0) && Taken(queries, fetches, h1, s1)
    requires forall x, y :: 0 <= x < |s0| && 0 <= y < |s1| ==> SpotBefore(s0[x], s1[y])
    ensures Taken(queries, fetches, h0 + h1, s0 + s1)
  {
    hide Offers, SpotBefore, HitAt;
  }

  lemma {:induction false} ListingTaken(queries: seq<string>, fetches: seq<Fetch>, q: nat, n: nat)
    requires q < |queries| == |fetches| && fetches[q].Listing? && n <= Seen(fetches[q].items)
    ensures Taken(queries, fetches, HitsIn(queries[q], fetches[q].items, n), SpotsIn(q, fetches[q].items, n))
    ensures forall x :: 0 <= x < |SpotsIn(q, fetches[q].items, n)| ==>
              SpotsIn(q, fetches[q].items, n)[x].query == q && SpotsIn(q, fetches[q].items, n)[x].place < n
  {
    hide Taken, ValidVideo;
    if n == 0 {
      NothingTaken(queries, fetches);
    } else {
      ListingTaken(queries, fetches, q, n - 1);
      if ValidVideo(fetches[q].items[n - 1]) {
        TakenMore(queries, fetches, HitsIn(queries[q], fetches[q].items, n - 1), SpotsIn(q, fetches[q].items, n - 1),
                  Spot(q, n - 1));
        assert HitAt(queries, fetches, Spot(q, n - 1)) == Hit(fetches[q].items[n - 1], n, queries[q]);
      } else {
        assert HitsIn(queries[q], fetches[q].items, n) == HitsIn(queries[q], fetches[q].items, n - 1);
        assert SpotsIn(q, fetches[q].items, n) == SpotsIn(q, fetches[q].items, n - 1);
      }
    }
  }

  lemma NothingTaken(queries: seq<string>, fetches: seq<Fetch>)
    requires |queries| == |fetches|
    ensures Taken(queries, fetches, [], [])
  {
  }

  lemma {:induction false} AllTaken(queries: seq<string>, fetches: seq<Fetch>, n: nat)
    requires n <= |queries| == |fetches|
    ensures Taken(queries, fetches, Hits(queries, fetches, n), Spots(fetches, n))
    ensures forall x :: 0 <= x < |Spots(fetches, n)| ==> Spots(fetches, n)[x].query < n
  {
    hide Taken, HitsIn, SpotsIn;
    NothingTaken(queries, fetches);
    if n > 0 {
      AllTaken(queries, fetches, n - 1);
      var fetch := fetches[n - 1];
      if fetch.Listing? {
        ListingTaken(queries, fetches, n - 1, Seen(fetch.items));
        TakenBoth(queries, fetches, Hits(queries, fetches, n - 1), Spots(fetches, n - 1),
                  HitsIn(queries[n - 1], fetch.items, Seen(fetch.items)), SpotsIn(n - 1, fetch.items, Seen(fetch.items)));
      } else {
        assert Hits(queries, fetches, n) == Hits(queries, fetches, n - 1);
        assert Spots(fetches, n) == Spots(fetches, n - 1);
      }
    }
  }

  lemma {:induction false} SpotsInCover(query: nat, items: seq<Item>, n: nat, place: nat)
    requires place < n <= |items| && ValidVideo(items[place])
    ensures Spot(query, place) in SpotsIn(query, items, n)
  {
    hide ValidVideo;
    if place < n - 1 {
      SpotsInCover(query, items, n - 1, place);
    }
  }

  lemma {:induction false} SpotsCover(fetches: seq<Fetch>, n: nat, a: Spot)
    requires a.query < n <= |fetches| && Offers(fetches, a)
    ensures a in Spots(fetches, n)
  {
    hide ValidVideo;
    if a.query < n - 1 {
      SpotsCover(fetches, n - 1, a);
    } else {
      SpotsInCover(a.query, fetches[a.query].items, Seen(fetches[a.query].items), a.place);
    }
  }

  /** The spot of the first hit with an id is the first to offer it. */
  lemma FirstHitOpens(queries: seq<string>, fetches: seq<Fetch>, i: nat)
    requires |queries| == |fetches|
    requires var hits := Hits(queries, fetches, |queries|);
             i < |hits| && HitId(hits[i]).Some? && i == FirstAt(hits, HitId, HitId(hits[i]).value)
    ensures i < |Spots(fetches, |fetches|)| && Opens(fetches, Spots(fetches, |fetches|)[i])
  {
    hide Hits, Spots, FirstAt, Offers;
    var hits, spots := Hits(queries, fetches, |queries|), Spots(fetches, |fetches|);
    AllTaken(queries, fetches, |queries|);
    FirstAtIsFirst(hits, HitId, HitId(hits[i]).value);
    forall b | Offers(fetches, b) && SpotBefore(b, spots[i])
      ensures RecordAt(fetches, b).id != RecordAt(fetches, spots[i]).id
    {
      SpotIsInside(fetches, b);
      SpotsCover(fetches, |fetches|, b);
      var j :| 0 <= j < |spots| && spots[j] == b;
      assert i < j ==> SpotBefore(spots[i], spots[j]);
      assert j < i;
      assert HitId(hits[j]) != HitId(hits[i]);
    }
  }

  lemma SpotIsInside(fetches: seq<Fetch>, a: Spot)
    requires Offers(fetches, a)
    ensures a.query < |fetches|
  {
  }

  /** The converse: a spot that opens an id is that of the first hit with it. */
  lemma OpensIsFirst(queries: seq<string>, fetches: seq<Fetch>, a: Spot)
    requires |queries| == |fetches| && Opens(fetches, a)
    ensures var hits, spots := Hits(queries, fetches, |queries|), Spots(fetches, |fetches|);
            var i := FirstAt(hits, HitId, RecordAt(fetches, a).id);
            i < |hits| == |spots| && spots[i] == a
  {
    hide Hits, Spots, FirstAt, Offers;
    var hits, spots := Hits(queries, fetches, |queries|), Spots(fetches, |fetches|);
    AllTaken(queries, fetches, |queries|);
    SpotIsInside(fetches, a);
    SpotsCover(fetches, |fetches|, a);
    var j :| 0 <= j < |spots| && spots[j] == a;
    var id := RecordAt(fetches, a).id;
    FirstAtIsFirst(hits, HitId, id);
    assert HitId(hits[j]) == Some(id);
  }

  lemma ListedIsHit(queries: seq<string>, fetches: seq<Fetch>, id: string, q: string)
    requires |queries| == |fetches| && ListedBy(queries, fetches, id, q)
    ensures exists h :: h in Hits(queries, fetches, |queries|) && HitId(h) == Some(id) && h.query == q
  {
    hide Hits, Spots, ValidVideo;
    var hits, spots := Hits(queries, fetches, |queries|), Spots(fetches, |fetches|);
    AllTaken(queries, fetches, |queries|);
    var a :| Offers(fetches, a) && RecordAt(fetches, a).id == id && queries[a.query] == q;
    SpotsCover(fetches, |fetches|, a);
    var j :| 0 <= j < |spots| && spots[j] == a;
    assert hits[j] in hits;
  }

  lemma HitIsListed(queries: seq<string>, fetches: seq<Fetch>, h: Hit)
    requires |queries| == |fetches| && h in Hits(queries, fetches, |queries|) && h.video.Video?
    ensures ListedBy(queries, fetches, h.video.id, h.query)
  {
    hide Hits, Spots, ValidVideo;
    var hits, spots := Hits(queries, fetches, |queries|), Spots(fetches, |fetches|);
    AllTaken(queries, fetches, |queries|);
    var j :| 0 <= j < |hits| && hits[j] == h;
    assert Offers(fetches, spots[j]);
  }

  lemma QueriesInOrder(queries: seq<string>, fetches: seq<Fetch>, i: nat, j: nat)
    requires |queries| == |fetches| && i < j < |Hits(queries, fetches, |queries|)|
    ensures var hits := Hits(queries, fetches, |queries|);
            hits[i].query != hits[j].query ==> EarlierQuery(queries, hits[i].query, hits[j].query)
  {
    hide Hits, Spots, ValidVideo;
    AllTaken(queries, fetches, |queries|);
    var spots := Spots(fetches, |fetches|);
    assert SpotBefore(spots[i], spots[j]);
    assert Offers(fetches, spots[i]) && Offers(fetches, spots[j]);
  }

  lemma MatchedInOrder(queries: seq<string>, fetches: seq<Fetch>, id: string, x: nat, y: nat)
    requires |queries| == |fetches|
    requires var own := Select(Hits(queries, fetches, |queries|), HitId, id);
             x < y < |KeysOf(own, HitQuery)|
    ensures var matched := KeysOf(Select(Hits(queries, fetches, |queries|), HitId, id), HitQuery);
            EarlierQuery(queries, matched[x], matched[y])
  {
    hide Hits, Select, KeysOf, FirstAt, EarlierQuery, NoRepeats;
    var own := Select(Hits(queries, fetches, |queries|), HitId, id);
    var matched := KeysOf(own, HitQuery);
    KeysInOrder(own, HitQuery, x, y);
    KeysHaveFirst(own, HitQuery, matched[x]);
    KeysHaveFirst(own, HitQuery, matched[y]);
    FirstAtIsFirst(own, HitQuery, matched[x]);
    FirstAtIsFirst(own, HitQuery, matched[y]);
    KeysCover(own, HitQuery);
    DifferAt(matched, x, y);
    var i, j := MembersInOrder(Hits(queries, fetches, |queries|), HitId, id, FirstAt(own, HitQuery, matched[x]),
                               FirstAt(own, HitQuery, matched[y]));
    QueriesInOrder(queries, fetches, i, j);
  }

  lemma DifferAt(s: seq<string>, x: nat, y: nat)
    requires NoRepeats(s) && x < y < |s|
    ensures s[x] != s[y]
  {
  }

  lemma CandidateMatches(queries: seq<string>, fetches: seq<Fetch>, id: string)
    requires |queries| == |fetches| && id in KeysOf(Hits(queries, fetches, |queries|), HitId)
    ensures Matches(queries, fetches, id, CandidateOf(Hits(queries, fetches, |queries|), id).matched)
  {
    hide Hits, Select, KeysOf, EarlierQuery, NoRepeats, ListedBy;
    var hits := Hits(queries, fetches, |queries|);
    var matched := CandidateOf(hits, id).matched;
    CandidateMeaning(hits, id);
    forall q ensures q in matched <==> ListedBy(queries, fetches, id, q) {
      if ListedBy(queries, fetches, id, q) {
        ListedIsHit(queries, fetches, id, q);
      }
      if h :| h in hits && HitId(h) == Some(id) && h.query == q {
        HitIsListed(queries, fetches, h);
      }
    }
    SelectSize(hits, HitId, id);
    forall x, y | 0 <= x < y < |matched| ensures EarlierQuery(queries, matched[x], matched[y]) {
      MatchedInOrder(queries, fetches, id, x, y);
    }
  }

  /** A found id's candidate shows the first record with that id. */
  lemma CandidateShows(queries: seq<string>, fetches: seq<Fetch>, id: string)
    requires |queries| == |fetches| && id in KeysOf(Hits(queries, fetches, |queries|), HitId)
    ensures var hits, spots := Hits(queries, fetches, |queries|), Spots(fetches, |fetches|);
            var i := FirstAt(hits, HitId, id);
            && i < |spots| && CandidateOf(hits, id).video.Video? && CandidateOf(hits, id).video.id == id
            && ShowsRecord(queries, fetches, spots[i], CandidateOf(hits, id))
  {
    hide Hits, Spots, KeysOf, FirstAt, CandidateOf, Offers, Opens, Matches;
    var hits, spots := Hits(queries, fetches, |queries|), Spots(fetches, |fetches|);
    var i := FirstHitWins(hits, id);
    FirstAtIsFirst(hits, HitId, id);
    FirstHitOpens(queries, fetches, i);
    AllTaken(queries, fetches, |queries|);
    CandidateMatches(queries, fetches, id);
    CandidateMeaning(hits, id);
    assert hits[i] == HitAt(queries, fetches, spots[i]);
  }

  /** The ids of the unseen candidates, in the order of their first hits. */
  lemma {:induction false} UnseenInOrder(hits: seq<Hit>, n: nat, known: set<string>) returns (ids: seq<string>)
    requires n <= |KeysOf(hits, HitId)|
    ensures var order, s := KeysOf(hits, HitId), Unseen(hits, KeysOf(hits, HitId)[..n], known);
            && |ids| == |s|
            && (forall x :: 0 <= x < |ids| ==> ids[x] in order[..n] && ids[x] !in known && s[x] == CandidateOf(hits, ids[x]))
            && (forall id :: id in order[..n] && id !in known ==> id in ids)
            && forall x, y :: 0 <= x < y < |ids| ==> FirstAt(hits, HitId, ids[x]) < FirstAt(hits, HitId, ids[y])
  {
    hide KeysOf, FirstAt, CandidateOf;
    if n == 0 {
      ids := [];
    } else {
      var order := KeysOf(hits, HitId);
      ids := UnseenInOrder(hits, n - 1, known);
      assert order[..n] == order[..n - 1] + [order[n - 1]] && order[..n][..n - 1] == order[..n - 1];
      if order[n - 1] !in known {
        forall x | 0 <= x < |ids| ensures FirstAt(hits, HitId, ids[x]) < FirstAt(hits, HitId, order[n - 1]) {
          var w :| 0 <= w < n - 1 && order[w] == ids[x];
          KeysInOrder(hits, HitId, w, n - 1);
        }
        ids := ids + [order[n - 1]];
      }
    }
  }

  /** The candidates that take turns, told from the listings and the catalog's answer. */
  lemma ArrivalsMeaning(queries: seq<string>, fetches: seq<Fetch>, known: set<string>) returns (from: seq<Spot>)
    requires |queries| == |fetches|
    ensures var hits := Hits(queries, fetches, |queries|);
            var s := Unseen(hits, KeysOf(hits, HitId), known);
            AllVideos(s) && Arrives(queries, fetches, known, s, from)
  {
    hide Hits, Spots, KeysOf, FirstAt, CandidateOf, ShowsRecord, Unseen, SpotBefore, Opens;
    var hits, spots := Hits(queries, fetches, |queries|), Spots(fetches, |fetches|);
    var order := KeysOf(hits, HitId);
    var ids := UnseenInOrder(hits, |order|, known);
    assert order[..|order|] == order;
    var s := Unseen(hits, order, known);
    forall x | 0 <= x < |ids|
      ensures FirstAt(hits, HitId, ids[x]) < |spots| && s[x].video.Video? && s[x].video.id == ids[x]
      ensures ShowsRecord(queries, fetches, spots[FirstAt(hits, HitId, ids[x])], s[x])
    {
      CandidateShows(queries, fetches, ids[x]);
    }
    from := seq(|ids|, x requires 0 <= x < |ids| => spots[FirstAt(hits, HitId, ids[x])]);
    forall x, y | 0 <= x < y < |from| ensures SpotBefore(from[x], from[y]) { AllTaken(queries, fetches, |queries|); }
    forall a | Opens(fetches, a) && RecordAt(fetches, a).id !in known ensures a in from {
      OpensIsFirst(queries, fetches, a);
      KeysHaveFirst(hits, HitId, RecordAt(fetches, a).id);
      var x :| 0 <= x < |ids| && ids[x] == RecordAt(fetches, a).id;
      assert from[x] == a;
    }
  }

  // ----- what the errors say -----

  /** The provider failed on a query: it raised, or it listed and returned an error code. */
  predicate ProviderFails(fetch: Fetch) { fetch.Raises? || (fetch.Listing? && fetch.failed) }

  /** What came back is no listing, or one of its first ten records is not valid. */
  predicate HasInvalid(fetch: Fetch) {
    || fetch.NotAListing?
    || (fetch.Listing? && exists i :: 0 <= i < |fetch.items| && i < 10 && !ValidVideo(fetch.items[i]))
  }

  predicate IsPartial(fetch: Fetch) { fetch.Listing? && fetch.partial }

  predicate Blames(fetch: Fetch, code: Code) {
    match code
    case ProviderExitNonzero => ProviderFails(fetch)
    case InvalidMetadataRecord => HasInvalid(fetch)
    case PartialMetadata => IsPartial(fetch)
    case _ => false
  }

  /** Each code is reported once, and exactly if a query or the outcome is to blame. */
  ghost predicate ReportsFaults(fetches: seq<Fetch>, membership: Membership, candidates: seq<Candidate>, errors: seq<Code>) {
    && NoRepeats(errors)
    && (forall code :: code in [ProviderExitNonzero, InvalidMetadataRecord, PartialMetadata] ==>
          (code in errors <==> exists q :: 0 <= q < |fetches| && Blames(fetches[q], code)))
    && (CatalogMembershipFailed in errors <==> membership.Unavailable?)
    && (NoCandidates in errors <==> membership.Known? && candidates == [])
  }

  lemma {:induction false} InvalidReported(items: seq<Item>, n: nat, code: Code)
    requires n <= |items|
    ensures code in InvalidIn(items, n) <==>
            code == InvalidMetadataRecord && exists i :: 0 <= i < n && !ValidVideo(items[i])
  {
    hide ValidVideo;
    if n > 0 {
      InvalidReported(items, n - 1, code);
    }
  }

  lemma FetchReported(fetch: Fetch, code: Code)
    ensures code in CodesOf(fetch) <==> Blames(fetch, code)
  {
    hide ValidVideo, InvalidIn;
    if fetch.Listing? {
      InvalidReported(fetch.items, Seen(fetch.items), code);
    }
  }

  lemma {:induction false} AllReported(fetches: seq<Fetch>, n: nat, code: Code)
    requires n <= |fetches|
    ensures code in Codes(fetches, n) <==> exists q :: 0 <= q < n && Blames(fetches[q], code)
  {
    hide CodesOf, Blames;
    if n > 0 {
      AllReported(fetches, n - 1, code);
      FetchReported(fetches[n - 1], code);
    }
  }

  lemma {:induction false} ItselfKept(codes: seq<Code>, code: Code)
    ensures code in KeysOf(codes, Itself) <==> code in codes
  {
    if codes != [] {
      ItselfKept(codes[..|codes| - 1], code);
      assert codes == codes[..|codes| - 1] + [codes[|codes| - 1]];
    }
  }

  /** What the catalog's answer and the selection add to the codes of the queries. */
  function Complaints(membership: Membership, candidates: seq<Candidate>): seq<Code> {
    if membership.Unavailable? then [CatalogMembershipFailed] else if candidates == [] then [NoCandidates] else []
  }

  lemma ReportsMeaning(fetches: seq<Fetch>, membership: Membership, candidates: seq<Candidate>)
    ensures ReportsFaults(fetches, membership, candidates,
                          KeysOf(Codes(fetches, |fetches|) + Complaints(membership, candidates), Itself))
  {
    hide Codes, KeysOf, NoRepeats, ProviderFails, HasInvalid, IsPartial;
    var codes := Codes(fetches, |fetches|) + Complaints(membership, candidates);
    KeysCover(codes, Itself);
    forall code ensures code in KeysOf(codes, Itself) <==>
                          || code in Complaints(membership, candidates)
                          || exists q :: 0 <= q < |fetches| && Blames(fetches[q], code)
    {
      ItselfKept(codes, code);
      AllReported(fetches, |fetches|, code);
    }
  }

  // ----- the operation -----

  method Discover(queries: seq<string>, limit: int, normalize: string -> string, fetches: seq<Fetch>, membership: Membership)
    returns (result: Result, ghost arrived: seq<Candidate>, ghost from: seq<Spot>, ghost turns: seq<nat>)
    requires |fetches| == |queries|
    ensures result.Refused? <==> !Acceptable(queries, limit, normalize)
    ensures result.Found? ==> ReportsFaults(fetches, membership, result.candidates, result.errors)
    ensures result.Found? && membership.Unavailable? ==> result.candidates == [] && !result.completed
    ensures result.Found? && membership.Known? ==>
              && Arrives(queries, fetches, membership.ids, arrived, from)
              && PutsInTurn(arrived, turns) && TakesFirst(arrived, turns, limit, result.candidates)
              && (result.completed <==> result.candidates != [] && result.errors == [])
    ensures result.Found? ==>
              var hits := Hits(queries, fetches, |queries|);
              var reported := Codes(fetches, |queries|);
              match membership
              case Unavailable =>
                && result.candidates == [] && !result.completed
                && result.errors == KeysOf(reported + [CatalogMembershipFailed], Itself)
              case Known(ids) =>
                && result.candidates == Selected(hits, ids, limit)
                && result.errors ==
                     KeysOf(reported + if result.candidates == [] then [NoCandidates] else [], Itself)
                && (result.completed <==> result.candidates != [] && reported == [])
  {
    hide KeysOf, Table, CandidateOf, InTurn, ChannelGroups, Hits, Codes, Acceptable;
    hide ReportsFaults, Arrives, PutsInTurn, TakesFirst, AllVideos;
    arrived, from, turns := [], [], [];
    if !Acceptable(queries, limit, normalize) { return Refused, [], [], []; }
    LimitIsPositive(queries, limit, normalize);
    var order, byId, errors := Collect(queries, fetches);
    ghost var hits, codes := Hits(queries, fetches, |queries|), Codes(fetches, |queries|);
    match membership {
      case Unavailable =>
        errors := AppendError(errors, codes, CatalogMembershipFailed);
        ReportsMeaning(fetches, membership, []);
        return Found([], errors, false), [], [], [];
      case Known(ids) =>
        var unseen := [];
        for n := 0 to |order|
          invariant unseen == Unseen(hits, order[..n], ids)
        {
          assert order[..n + 1][..n] == order[..n];
          TableHolds(hits, order, byId, order[n]);
          if order[n] !in ids {
            unseen := unseen + [byId[order[n]]];
          }
        }
        TableOrder(hits, order, byId);
        assert order[..|order|] == order;
        var candidates := RoundRobinChannels(unseen, limit);
        errors := AppendErrorIf(errors, codes, NoCandidates, candidates == []);
        NoErrorsReported(codes);
        assert codes + [] == codes;
        ReportsMeaning(fetches, membership, candidates);
        arrived := unseen;
        from := ArrivalsMeaning(queries, fetches, ids);
        turns := TurnsMeaning(unseen, limit);
        result := Found(candidates, errors, candidates != [] && errors == []);
    }
  }
}
