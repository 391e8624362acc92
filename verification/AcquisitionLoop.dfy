/** `acquisition.py`: choosing the videos of a plan, and the download loop with its circuit breaker. */
module AcquisitionLoop {
  import opened Basics
  import opened Grouping

  // ----- the plan -----

  /** A discovered video; `year` is None when the upload date is not eight digits. */
  datatype Video = Video(id: string, validId: bool, year: Option<int>)

  datatype Exclusion = InvalidVideoId | DuplicateVideo | MissingUploadDate | YearNotSelected

  /** One of the first `n` discovered videos has this id, and the id is valid. */
  predicate SeenBefore(videos: seq<Video>, n: nat, id: string)
    requires n <= |videos|
  {
    exists j :: 0 <= j < n && videos[j].validId && videos[j].id == id
  }

  lemma SeenStep(videos: seq<Video>, n: nat, id: string)
    requires n < |videos|
    ensures SeenBefore(videos, n + 1, id) <==> SeenBefore(videos, n, id) || (videos[n].validId && videos[n].id == id)
  {
  }

  lemma NothingSeen(videos: seq<Video>, id: string)
    ensures !SeenBefore(videos, 0, id)
  {
  }

  /** Why the `i`-th discovered video is left out, if it is. An earlier copy counts even when it was itself left out. */
  function Reason(videos: seq<Video>, i: nat, years: set<int>): Option<Exclusion>
    requires i < |videos|
  {
    var v := videos[i];
    if !v.validId then Some(InvalidVideoId)
    else if SeenBefore(videos, i, v.id) then Some(DuplicateVideo)
    else if years != {} && v.year.None? then Some(MissingUploadDate)
    else if years != {} && v.year.value !in years then Some(YearNotSelected)
    else None
  }

  function Chosen(videos: seq<Video>, n: nat, years: set<int>): seq<Video>
    requires n <= |videos|
  {
    if n == 0 then []
    else Chosen(videos, n - 1, years) + if Reason(videos, n - 1, years).None? then [videos[n - 1]] else []
  }

  function Excluded(videos: seq<Video>, n: nat, years: set<int>): seq<(string, Exclusion)>
    requires n <= |videos|
  {
    if n == 0 then []
    else Excluded(videos, n - 1, years) +
         match Reason(videos, n - 1, years) case None => [] case Some(why) => [(videos[n - 1].id, why)]
  }

  /** Discovered video `i` belongs in the plan: its id is valid and the first of its kind, and its year is asked for. */
  ghost predicate Belongs(videos: seq<Video>, i: nat, years: set<int>)
    requires i < |videos|
  {
    && videos[i].validId
    && (forall j :: 0 <= j < i && videos[j].validId ==> videos[j].id != videos[i].id)
    && (years == {} || (videos[i].year.Some? && videos[i].year.value in years))
  }

  /** Why a video does not: the first of these that applies. */
  ghost predicate LeftOutFor(videos: seq<Video>, i: nat, years: set<int>, why: Exclusion)
    requires i < |videos|
  {
    var v := videos[i];
    var again := exists j :: 0 <= j < i && videos[j].validId && videos[j].id == v.id;
    && !Belongs(videos, i, years)
    && (why == InvalidVideoId <==> !v.validId)
    && (why == DuplicateVideo <==> v.validId && again)
    && (why == MissingUploadDate <==> v.validId && !again && v.year.None?)
    && (why == YearNotSelected <==> v.validId && !again && v.year.Some? && v.year.value !in years)
  }

  /** `at` lists, in order, the videos among the first `n` that belong, and `out` the others. */
  ghost predicate Sorted(videos: seq<Video>, n: nat, years: set<int>, at: seq<nat>, out: seq<nat>)
    requires n <= |videos|
  {
    && (forall k :: 0 <= k < |at| ==> at[k] < n && Belongs(videos, at[k], years))
    && (forall k :: 0 <= k < |out| ==> out[k] < n && !Belongs(videos, out[k], years))
    && (forall j, k :: 0 <= j < k < |at| ==> at[j] < at[k]) && (forall j, k :: 0 <= j < k < |out| ==> out[j] < out[k])
    && forall i: nat :: i < n ==> if Belongs(videos, i, years) then i in at else i in out
  }

  lemma SortedStep(videos: seq<Video>, n: nat, years: set<int>, at: seq<nat>, out: seq<nat>)
    requires n < |videos| && Sorted(videos, n, years, at, out)
    ensures if Belongs(videos, n, years) then Sorted(videos, n + 1, years, at + [n], out)
            else Sorted(videos, n + 1, years, at, out + [n])
  {
    hide Belongs;
    assert n in at + [n] && n in out + [n];
  }

  lemma ReasonMeaning(videos: seq<Video>, i: nat, years: set<int>)
    requires i < |videos|
    ensures Reason(videos, i, years).None? <==> Belongs(videos, i, years)
    ensures Reason(videos, i, years).Some? ==> LeftOutFor(videos, i, years, Reason(videos, i, years).value)
  {
  }

  /** The selection loop of `build_acquisition_plan`. */
  method SelectVideos(videos: seq<Video>, years: set<int>)
    returns (selected: seq<Video>, exclusions: seq<(string, Exclusion)>, ghost at: seq<nat>, ghost out: seq<nat>)
    ensures selected == Chosen(videos, |videos|, years)
    ensures exclusions == Excluded(videos, |videos|, years)
    ensures |selected| + |exclusions| == |videos|
    ensures Sorted(videos, |videos|, years, at, out) && |selected| == |at| && |exclusions| == |out|
    ensures forall k :: 0 <= k < |at| ==> selected[k] == videos[at[k]]
    ensures forall k :: 0 <= k < |out| ==>
              exclusions[k].0 == videos[out[k]].id && LeftOutFor(videos, out[k], years, exclusions[k].1)
  {
    hide SeenBefore, Belongs, LeftOutFor, Sorted;
    selected, exclusions := [], [];
    at, out := [], [];
    NothingSorted(videos, years);
    var seen: set<string> := {};
    forall id ensures !SeenBefore(videos, 0, id) { NothingSeen(videos, id); }
    for n := 0 to |videos|
      invariant forall id :: id in seen <==> SeenBefore(videos, n, id)
      invariant selected == Chosen(videos, n, years)
      invariant exclusions == Excluded(videos, n, years)
      invariant |selected| + |exclusions| == n
      invariant Sorted(videos, n, years, at, out) && |selected| == |at| && |exclusions| == |out|
      invariant forall k :: 0 <= k < |at| ==> at[k] < n && selected[k] == videos[at[k]]
      invariant forall k :: 0 <= k < |out| ==>
                  out[k] < n && exclusions[k].0 == videos[out[k]].id && LeftOutFor(videos, out[k], years, exclusions[k].1)
    {
      var v := videos[n];
      forall id { SeenStep(videos, n, id); }
      ReasonMeaning(videos, n, years);
      SortedStep(videos, n, years, at, out);
      if Reason(videos, n, years).None? {
        at := at + [n];
      } else {
        out := out + [n];
      }
      if !v.validId {
        exclusions := exclusions + [(v.id, InvalidVideoId)];
      } else if v.id in seen {
        exclusions := exclusions + [(v.id, DuplicateVideo)];
      } else {
        seen := seen + {v.id};
        if years != {} && v.year.None? {
          exclusions := exclusions + [(v.id, MissingUploadDate)];
        } else if years != {} && v.year.value !in years {
          exclusions := exclusions + [(v.id, YearNotSelected)];
        } else {
          selected := selected + [v];
        }
      }
    }
  }

  lemma NothingSorted(videos: seq<Video>, years: set<int>)
    ensures Sorted(videos, 0, years, [], [])
  {
  }

  lemma {:induction false} ChosenComeFrom(videos: seq<Video>, n: nat, years: set<int>, v: Video)
    requires n <= |videos| && v in Chosen(videos, n, years)
    ensures v.validId && exists j :: 0 <= j < n && videos[j] == v
  {
    if n > 0 && v in Chosen(videos, n - 1, years) {
      ChosenComeFrom(videos, n - 1, years, v);
    }
  }

  function Ids(videos: seq<Video>): (ids: seq<string>)
    ensures |ids| == |videos| && forall i :: 0 <= i < |ids| ==> ids[i] == videos[i].id
  {
    seq(|videos|, i requires 0 <= i < |videos| => videos[i].id)
  }

  /** A plan never names a video twice. */
  lemma {:induction false} ChosenDistinct(videos: seq<Video>, n: nat, years: set<int>)
    requires n <= |videos|
    ensures NoRepeats(Ids(Chosen(videos, n, years)))
  {
    if n > 0 {
      ChosenDistinct(videos, n - 1, years);
      var before := Chosen(videos, n - 1, years);
      if Reason(videos, n - 1, years).None? {
        forall v | v in before ensures v.id != videos[n - 1].id { ChosenComeFrom(videos, n - 1, years, v); }
        forall i | 0 <= i < |before| ensures Ids(before)[i] != videos[n - 1].id { assert before[i] in before; }
        assert Ids(Chosen(videos, n, years)) == Ids(before) + [videos[n - 1].id];
      }
    }
  }

  // ----- one video's turn -----

  /** A message of the downloader, by the block texts it contains and whether it reports an exit status. */
  datatype Message = Message(tooMany: bool, reload: bool, exited: bool)

  datatype ErrorCode = CacheReadFailed | YoutubeCircuitOpen | YoutubeRateLimited | YoutubeReloadRequired
                     | DownloadFailed | NoTranscriptCode

  function BlockCode(messages: seq<Message>): Option<ErrorCode> {
    if exists m :: m in messages && m.tooMany then Some(YoutubeRateLimited)
    else if exists m :: m in messages && m.reload then Some(YoutubeReloadRequired)
    else None
  }

  /** Reading the cached transcripts of a video: their digests, or a ValueError. */
  datatype Lookup = Unreadable | Found(digests: seq<int>)

  datatype Download = Raises(message: Message) | Returns(returncode: int, errors: seq<Message>)

  /** What the world answers during one video's turn. */
  datatype Answers = Answers(before: Lookup, download: Download, after: Lookup)

  function Returncode(d: Download): int { if d.Raises? then 1 else d.returncode }

  function Errors(d: Download): seq<Message> { if d.Raises? then [d.message] else d.errors }

  function Diagnostics(d: Download): seq<Message> {
    Errors(d) +
    if Returncode(d) != 0 && !(exists m :: m in Errors(d) && m.exited) then [Message(false, false, true)] else []
  }

  datatype Status = Acquired | AlreadyPresent | NoTranscript | FailedRetryable

  datatype Item = Item(videoId: string, status: Status, errorCode: Option<ErrorCode>, digest: Option<int>)

  predicate Uncached(a: Answers) { a.before == Found([]) }

  /** The downloader reports that YouTube is blocking. */
  predicate Blocks(a: Answers) { BlockCode(Errors(a.download)).Some? }

  /** Whether the circuit is open when the turn of video `n` begins. */
  predicate CircuitOpen(discovery: seq<Message>, world: seq<Answers>, n: nat)
    requires n <= |world|
  {
    if n == 0 then BlockCode(discovery).Some?
    else
      var open, a := CircuitOpen(discovery, world, n - 1), world[n - 1];
      open || (Uncached(a) && a.after.Found? && Blocks(a))
  }

  /** `download` is called in the turn of video `n`. */
  predicate Called(discovery: seq<Message>, world: seq<Answers>, n: nat)
    requires n < |world|
  {
    Uncached(world[n]) && !CircuitOpen(discovery, world, n)
  }

  /** The turn leaves nothing to complain about. */
  predicate Clean(open: bool, a: Answers) {
    && a.before.Found? && a.after.Found? && a.after.digests != []
    && (Uncached(a) ==> !open && Returncode(a.download) == 0 && Errors(a.download) == [])
  }

  // ----- the loop -----

  datatype Report = Report(selected: nat, ready: map<string, seq<int>>, failures: nat, items: seq<Item>) {
    function ExitCode(): int {
      if selected > 0 && |ready| == 0 then 1
      else if failures > 0 || |ready| < selected then if |ready| > 0 then 4 else 1
      else 0
    }
  }

  function Listing(open: bool, id: string, a: Answers): Item {
    if a.before.Unreadable? then Item(id, FailedRetryable, Some(CacheReadFailed), None)
    else if Uncached(a) && open then Item(id, FailedRetryable, Some(YoutubeCircuitOpen), None)
    else if a.after.Unreadable? then Item(id, FailedRetryable, Some(CacheReadFailed), None)
    else
      var digest := if a.after.digests == [] then None else Some(a.after.digests[0]);
      if !Uncached(a) then Item(id, AlreadyPresent, None, digest)
      else if Returncode(a.download) != 0 || Errors(a.download) != [] then
        Item(id, FailedRetryable,
             if Blocks(a) then BlockCode(Errors(a.download)) else Some(DownloadFailed), digest)
      else if a.after.digests != [] then Item(id, Acquired, None, digest)
      else Item(id, NoTranscript, Some(NoTranscriptCode), None)
  }

  lemma DiagnosticsMeaning(d: Download)
    ensures Diagnostics(d) == [] <==> Returncode(d) == 0 && Errors(d) == []
    ensures BlockCode(Diagnostics(d)) == BlockCode(Errors(d))
  {
    var all, errors := Diagnostics(d), Errors(d);
    forall m ensures m in all && (m.tooMany || m.reload) <==> m in errors && (m.tooMany || m.reload) {
      assert m in all ==> m in errors || m == Message(false, false, true);
    }
  }

  /** One turn of the loop. `called` tells whether `download` was called, `failed` whether a failure line was added. */
  method Turn(id: string, a: Answers, open0: bool)
    returns (item: Item, ready: seq<int>, open: bool, called: bool, failed: bool)
    ensures item == Listing(open0, id, a)
    ensures called == (Uncached(a) && !open0)
    ensures open == (open0 || (called && a.after.Found? && Blocks(a)))
    ensures !failed <==> Clean(open0, a)
    ensures ready != [] ==> a.after == Found(ready)
    ensures !failed ==> ready != []
    ensures ready != [] <==> Ready(open0, a)
    ensures Tells(open0, id, a, item)
  {
    hide BlockCode, Tells;
    ListingTells(open0, id, a);
    ready, open, called, failed := [], open0, false, true;
    if a.before.Unreadable? {
      item := Item(id, FailedRetryable, Some(CacheReadFailed), None);
      return;
    }
    var cached := a.before.digests;
    var result := Returns(0, []);
    if cached == [] {
      if open {
        item := Item(id, FailedRetryable, Some(YoutubeCircuitOpen), None);
        return;
      }
      called := true;
      result := a.download;
    }
    if a.after.Unreadable? {
      item := Item(id, FailedRetryable, Some(CacheReadFailed), None);
      return;
    }
    ready := a.after.digests;
    DiagnosticsMeaning(result);
    failed := Diagnostics(result) != [] || ready == [];
    var digest := if ready == [] then None else Some(ready[0]);
    if cached != [] {
      item := Item(id, AlreadyPresent, None, digest);
    } else if Returncode(result) != 0 || Errors(result) != [] {
      var block := BlockCode(Diagnostics(result));
      if block.Some? {
        open := true;
      }
      item := Item(id, FailedRetryable, if block.Some? then block else Some(DownloadFailed), digest);
    } else if ready != [] {
      NoBlockWithoutErrors();
      item := Item(id, Acquired, None, digest);
    } else {
      NoBlockWithoutErrors();
      item := Item(id, NoTranscript, Some(NoTranscriptCode), None);
    }
  }

  lemma NoBlockWithoutErrors()
    ensures BlockCode([]).None?
  {
  }

  /** A message tells of too many requests; or, failing that, asks for a reload. */
  ghost predicate SaysTooMany(messages: seq<Message>) { exists i :: 0 <= i < |messages| && messages[i].tooMany }

  ghost predicate SaysReload(messages: seq<Message>) { exists i :: 0 <= i < |messages| && messages[i].reload }

  /** What the downloader says: what it raises, or its errors. */
  function Said(d: Download): seq<Message> { match d case Raises(message) => [message] case Returns(_, errors) => errors }

  /** The report on a video, by what was in the cache before and after and how the download went. */
  ghost predicate Tells(open: bool, id: string, a: Answers, item: Item) {
    var putOff := a.before == Found([]) && open;
    var unread := !putOff && (a.before.Unreadable? || a.after.Unreadable?);
    var went := a.download.Returns? && a.download.returncode == 0 && a.download.errors == [];
    && item.videoId == id
    && (putOff ==> item.status == FailedRetryable && item.errorCode == Some(YoutubeCircuitOpen))
    && (unread ==> item.status == FailedRetryable && item.errorCode == Some(CacheReadFailed))
    && (putOff || unread ==> item.digest.None?)
    && (!putOff && !unread ==>
          && item.digest == (if a.after.digests == [] then None else Some(a.after.digests[0]))
          && (a.before.digests != [] ==> item.status == AlreadyPresent && item.errorCode == None)
          && (a.before.digests == [] && went && a.after.digests != [] ==> item.status == Acquired && item.errorCode == None)
          && (a.before.digests == [] && went && a.after.digests == [] ==>
                item.status == NoTranscript && item.errorCode == Some(NoTranscriptCode))
          && (a.before.digests == [] && !went ==>
                && item.status == FailedRetryable
                && item.errorCode == Some(if SaysTooMany(Said(a.download)) then YoutubeRateLimited
                                          else if SaysReload(Said(a.download)) then YoutubeReloadRequired
                                          else DownloadFailed)))
  }

  lemma BlockCodeMeaning(messages: seq<Message>)
    ensures BlockCode(messages) == if SaysTooMany(messages) then Some(YoutubeRateLimited)
                                   else if SaysReload(messages) then Some(YoutubeReloadRequired) else None
  {
    assert (exists m :: m in messages && m.tooMany) <==> SaysTooMany(messages) by {
      if m :| m in messages && m.tooMany {
        var i :| 0 <= i < |messages| && messages[i] == m;
      }
    }
    assert (exists m :: m in messages && m.reload) <==> SaysReload(messages) by {
      if m :| m in messages && m.reload {
        var i :| 0 <= i < |messages| && messages[i] == m;
      }
    }
  }

  lemma ListingTells(open: bool, id: string, a: Answers)
    ensures Tells(open, id, a, Listing(open, id, a))
  {
    hide BlockCode;
    BlockCodeMeaning(Errors(a.download));
    BlockCodeMeaning(Said(a.download));
  }

  /** The circuit is open once discovery, or a download after which the cache could be read, has told of a block. */
  lemma {:induction false} CircuitMeaning(discovery: seq<Message>, world: seq<Answers>, n: nat)
    requires n <= |world|
    ensures CircuitOpen(discovery, world, n) <==>
            || SaysTooMany(discovery) || SaysReload(discovery)
            || exists k :: 0 <= k < n && TellsOfBlock(world[k])
  {
    hide BlockCode, SaysTooMany, SaysReload;
    BlockCodeMeaning(discovery);
    if n > 0 {
      CircuitMeaning(discovery, world, n - 1);
      BlockCodeMeaning(Errors(world[n - 1].download));
    }
  }

  ghost predicate TellsOfBlock(a: Answers) {
    a.before == Found([]) && a.after.Found? && (SaysTooMany(Said(a.download)) || SaysReload(Said(a.download)))
  }

  /** The transcripts of a video are ready after its turn. */
  predicate Ready(open: bool, a: Answers) {
    a.before.Found? && !(a.before.digests == [] && open) && a.after.Found? && a.after.digests != []
  }

  /** The first `n` turns were all clean. */
  predicate AllClean(discovery: seq<Message>, world: seq<Answers>, n: nat)
    requires n <= |world|
  {
    forall i :: 0 <= i < n ==> Clean(CircuitOpen(discovery, world, i), world[i])
  }

  /** The items of the first turns, each as the circuit stood at its turn. */
  ghost predicate ItemsFit(videos: seq<Video>, discovery: seq<Message>, world: seq<Answers>, items: seq<Item>)
    requires |items| <= |world| == |videos|
  {
    forall i :: 0 <= i < |items| ==> items[i] == Listing(CircuitOpen(discovery, world, i), videos[i].id, world[i])
  }

  /** The ready videos are those with transcripts after some turn, and each has those of its last such turn. */
  ghost predicate ReadyFits(videos: seq<Video>, discovery: seq<Message>, world: seq<Answers>,
                            ready: map<string, seq<int>>, n: nat)
    requires n <= |world| == |videos|
  {
    && (forall i :: 0 <= i < n && Ready(CircuitOpen(discovery, world, i), world[i]) ==> videos[i].id in ready)
    && forall id :: id in ready ==> exists i :: 0 <= i < n && ReadyFrom(videos, discovery, world, n, i, id, ready[id])
  }

  /** Turn `i` left these transcripts of the video, and no later one left any. */
  ghost predicate ReadyFrom(videos: seq<Video>, discovery: seq<Message>, world: seq<Answers>, n: nat, i: nat,
                            id: string, digests: seq<int>)
    requires n <= |world| == |videos|
  {
    && i < n && videos[i].id == id && Ready(CircuitOpen(discovery, world, i), world[i]) && world[i].after == Found(digests)
    && forall j :: i < j < n && videos[j].id == id ==> !Ready(CircuitOpen(discovery, world, j), world[j])
  }

  /** What an earlier turn left ready stays so when the next turn is of another video or leaves nothing. */
  lemma StillReady(videos: seq<Video>, discovery: seq<Message>, world: seq<Answers>, n: nat, i: nat, id: string,
                   digests: seq<int>)
    requires n < |world| == |videos| && ReadyFrom(videos, discovery, world, n, i, id, digests)
    requires videos[n].id == id ==> !Ready(CircuitOpen(discovery, world, n), world[n])
    ensures ReadyFrom(videos, discovery, world, n + 1, i, id, digests)
  {
    hide CircuitOpen, Ready;
  }

  lemma NewlyReady(videos: seq<Video>, discovery: seq<Message>, world: seq<Answers>, n: nat, digests: seq<int>)
    requires n < |world| == |videos|
    requires Ready(CircuitOpen(discovery, world, n), world[n]) && world[n].after == Found(digests)
    ensures ReadyFrom(videos, discovery, world, n + 1, n, videos[n].id, digests)
  {
    hide CircuitOpen, Ready;
  }

  lemma ReadyStep(videos: seq<Video>, discovery: seq<Message>, world: seq<Answers>, ready: map<string, seq<int>>, n: nat,
                  found: seq<int>)
    requires n < |world| == |videos| && ReadyFits(videos, discovery, world, ready, n)
    requires found != [] <==> Ready(CircuitOpen(discovery, world, n), world[n])
    requires found != [] ==> world[n].after == Found(found)
    ensures ReadyFits(videos, discovery, world, if found != [] then ready[videos[n].id := found] else ready, n + 1)
  {
    hide CircuitOpen, Ready, ReadyFrom;
    var m: nat := n + 1;
    var more := if found != [] then ready[videos[n].id := found] else ready;
    forall id | id in more ensures exists i :: 0 <= i < m && ReadyFrom(videos, discovery, world, m, i, id, more[id]) {
      if found != [] && id == videos[n].id {
        NewlyReady(videos, discovery, world, n, found);
        assert ReadyFrom(videos, discovery, world, m, n, id, more[id]);
      } else {
        var i: nat :| i < n && ReadyFrom(videos, discovery, world, n, i, id, ready[id]);
        StillReady(videos, discovery, world, n, i, id, ready[id]);
        assert ReadyFrom(videos, discovery, world, m, i, id, more[id]);
      }
    }
  }

  /** How many of the first `n` turns left something to complain about. */
  function Complaints(discovery: seq<Message>, world: seq<Answers>, n: nat): nat
    requires n <= |world|
  {
    if n == 0 then 0
    else Complaints(discovery, world, n - 1) + if Clean(CircuitOpen(discovery, world, n - 1), world[n - 1]) then 0 else 1
  }

  /** `calls` lists, in order, the turns among the first `n` that called `download`. */
  ghost predicate CallsFit(discovery: seq<Message>, world: seq<Answers>, calls: seq<nat>, n: nat)
    requires n <= |world|
  {
    && (forall k :: k in calls <==> 0 <= k < n && Called(discovery, world, k))
    && forall i, j :: 0 <= i < j < |calls| ==> calls[i] < calls[j]
  }

  /** The download loop; `later` counts the failures of analysis and indexing, which come after it. */
  method Execute(videos: seq<Video>, discovery: seq<Message>, world: seq<Answers>, later: nat)
    returns (report: Report, calls: seq<nat>)
    requires |world| == |videos|
    ensures report.selected == |report.items| == |videos|
    ensures ItemsFit(videos, discovery, world, report.items)
    ensures CallsFit(discovery, world, calls, |videos|)
    ensures NoRepeats(Ids(videos)) ==>
              (report.ExitCode() == 0 <==> discovery == [] && later == 0 && AllClean(discovery, world, |videos|))
    ensures report.ExitCode() == 0 ==> |report.ready| == report.selected
    ensures forall i :: 0 <= i < |videos| ==>
              Tells(CircuitOpen(discovery, world, i), videos[i].id, world[i], report.items[i])
    ensures ReadyFits(videos, discovery, world, report.ready, |videos|)
    ensures report.failures == |discovery| + Complaints(discovery, world, |videos|) + later
    ensures report.ExitCode() == 4 <==>
            report.ready != map[] && (report.failures > 0 || |report.ready| < |videos|)
    ensures report.ExitCode() == 1 <==> report.ready == map[] && (report.failures > 0 || videos != [])
  {
    hide Tells, ReadyFits, Ready, Complaints;
    hide Clean, Listing, Blocks, BlockCode, NoRepeats, ItemsFit, CallsFit, AllClean, CircuitOpen, Keyed;
    var items, ready, failures := [], map[], |discovery|;
    var open := BlockCode(discovery).Some?;
    calls := [];
    LoopStarts(videos, discovery, world);
    NothingReady(videos, discovery, world);
    for n := 0 to |videos|
      invariant |items| == n && open == CircuitOpen(discovery, world, n)
      invariant ItemsFit(videos, discovery, world, items) && CallsFit(discovery, world, calls, n)
      invariant |discovery| <= failures && (failures == |discovery| <==> AllClean(discovery, world, n))
      invariant Keyed(videos, ready, n, AllClean(discovery, world, n))
      invariant forall i :: 0 <= i < n ==> Tells(CircuitOpen(discovery, world, i), videos[i].id, world[i], items[i])
      invariant ReadyFits(videos, discovery, world, ready, n)
      invariant failures == |discovery| + Complaints(discovery, world, n)
    {
      var item, found, nowOpen, called, failed := Turn(videos[n].id, world[n], open);
      LoopStep(videos, discovery, world, items, calls, n);
      ReadyStep(videos, discovery, world, ready, n, found);
      ComplaintsStep(discovery, world, n);
      KeyedStep(videos, ready, n, AllClean(discovery, world, n), found, !failed);
      if called {
        calls := calls + [n];
      }
      if found != [] {
        ready := ready[videos[n].id := found];
      }
      if failed {
        failures := failures + 1;
      }
      items := items + [item];
      open := nowOpen;
    }
    KeyedCount(videos, ready, |videos|, AllClean(discovery, world, |videos|));
    report := Report(|videos|, ready, failures + later, items);
  }

  lemma NothingReady(videos: seq<Video>, discovery: seq<Message>, world: seq<Answers>)
    requires |world| == |videos|
    ensures ReadyFits(videos, discovery, world, map[], 0) && Complaints(discovery, world, 0) == 0
  {
  }

  lemma ComplaintsStep(discovery: seq<Message>, world: seq<Answers>, n: nat)
    requires n < |world|
    ensures Complaints(discovery, world, n + 1) ==
            Complaints(discovery, world, n) + if Clean(CircuitOpen(discovery, world, n), world[n]) then 0 else 1
  {
  }

  lemma LoopStarts(videos: seq<Video>, discovery: seq<Message>, world: seq<Answers>)
    requires |world| == |videos|
    ensures CircuitOpen(discovery, world, 0) == BlockCode(discovery).Some?
    ensures ItemsFit(videos, discovery, world, []) && CallsFit(discovery, world, [], 0) && AllClean(discovery, world, 0)
    ensures Keyed(videos, map[], 0, true)
  {
  }

  lemma LoopStep(videos: seq<Video>, discovery: seq<Message>, world: seq<Answers>, items: seq<Item>, calls: seq<nat>, n: nat)
    requires n < |videos| == |world| && |items| == n
    requires ItemsFit(videos, discovery, world, items) && CallsFit(discovery, world, calls, n)
    ensures CircuitOpen(discovery, world, n + 1) ==
            (CircuitOpen(discovery, world, n) ||
             (Called(discovery, world, n) && world[n].after.Found? && Blocks(world[n])))
    ensures ItemsFit(videos, discovery, world,
                     items + [Listing(CircuitOpen(discovery, world, n), videos[n].id, world[n])])
    ensures CallsFit(discovery, world, if Called(discovery, world, n) then calls + [n] else calls, n + 1)
    ensures AllClean(discovery, world, n + 1) <==>
            AllClean(discovery, world, n) && Clean(CircuitOpen(discovery, world, n), world[n])
  {
    hide Clean, Listing, Blocks, BlockCode, CallsFit;
    CallsStep(discovery, world, calls, n);
  }

  lemma CallsStep(discovery: seq<Message>, world: seq<Answers>, calls: seq<nat>, n: nat)
    requires n < |world| && CallsFit(discovery, world, calls, n)
    ensures CallsFit(discovery, world, if Called(discovery, world, n) then calls + [n] else calls, n + 1)
  {
    hide CircuitOpen, Called;
    forall i | 0 <= i < |calls| ensures calls[i] < n { assert calls[i] in calls; }
    assert n in calls + [n];
  }

  function IdSet(videos: seq<Video>, n: nat): set<string>
    requires n <= |videos|
  {
    if n == 0 then {} else IdSet(videos, n - 1) + {videos[n - 1].id}
  }

  /** The ready videos are among the first `n`, and are all of those when every turn was clean. */
  ghost predicate Keyed(videos: seq<Video>, ready: map<string, seq<int>>, n: nat, all: bool)
    requires n <= |videos|
  {
    ready.Keys <= IdSet(videos, n) && |ready| <= n && (all ==> ready.Keys == IdSet(videos, n))
  }

  lemma KeyedStep(videos: seq<Video>, ready: map<string, seq<int>>, n: nat, all: bool, found: seq<int>, clean: bool)
    requires n < |videos| && Keyed(videos, ready, n, all) && (clean ==> found != [])
    ensures Keyed(videos, if found != [] then ready[videos[n].id := found] else ready, n + 1, all && clean)
  {
    var more := ready[videos[n].id := found];
    assert more.Keys == ready.Keys + {videos[n].id};
    assert |more| == |more.Keys| && |ready| == |ready.Keys|;
  }

  lemma KeyedCount(videos: seq<Video>, ready: map<string, seq<int>>, n: nat, all: bool)
    requires n <= |videos| && Keyed(videos, ready, n, all)
    ensures |ready| <= n
    ensures all && NoRepeats(Ids(videos)) ==> |ready| == n
  {
    if all && NoRepeats(Ids(videos)) {
      DistinctCount(videos, n);
      assert |ready| == |ready.Keys|;
    }
  }

  lemma {:induction false} IdSetMembers(videos: seq<Video>, n: nat, id: string)
    requires n <= |videos|
    ensures id in IdSet(videos, n) <==> exists j :: 0 <= j < n && Ids(videos)[j] == id
  {
    if n > 0 {
      IdSetMembers(videos, n - 1, id);
      assert Ids(videos)[n - 1] == videos[n - 1].id;
    }
  }

  lemma {:induction false} DistinctCount(videos: seq<Video>, n: nat)
    requires n <= |videos| && NoRepeats(Ids(videos))
    ensures |IdSet(videos, n)| == n
  {
    if n > 0 {
      DistinctCount(videos, n - 1);
      IdSetMembers(videos, n - 1, Ids(videos)[n - 1]);
    }
  }

  // ----- the circuit breaker -----

  lemma {:induction false} StaysOpen(discovery: seq<Message>, world: seq<Answers>, i: nat, j: nat)
    requires i <= j <= |world| && CircuitOpen(discovery, world, i)
    ensures CircuitOpen(discovery, world, j)
    decreases j
  {
    if i < j {
      StaysOpen(discovery, world, i, j - 1);
    }
  }

  /** YouTube has said, in discovery or in a download before video `n`, that it is blocking. */
  ghost predicate Blocked(discovery: seq<Message>, world: seq<Answers>, n: nat)
    requires n <= |world|
  {
    BlockCode(discovery).Some? || exists k :: 0 <= k < n && Called(discovery, world, k) && Blocks(world[k])
  }

  /** What the circuit breaker is for: once YouTube blocks, no more downloads. */
  ghost predicate NeverCallsWhenBlocked(discovery: seq<Message>, world: seq<Answers>) {
    forall n :: 0 <= n < |world| && Blocked(discovery, world, n) ==> !Called(discovery, world, n)
  }

  /** The first video that needs a download and is answered with a block. */
  ghost predicate FirstBlock(world: seq<Answers>, s: nat) {
    && s < |world| && Uncached(world[s]) && Blocks(world[s])
    && forall k :: 0 <= k < s ==> !(Uncached(world[k]) && Blocks(world[k]))
  }

  /** The cache can be read after the first block, or no later video needs a download. */
  ghost predicate BlockIsNoticed(world: seq<Answers>) {
    forall s: nat :: FirstBlock(world, s) ==> Noticed(world, s)
  }

  ghost predicate Noticed(world: seq<Answers>, s: nat) {
    s < |world| ==> world[s].after.Found? || forall j :: s < j < |world| ==> !Uncached(world[j])
  }

  lemma {:induction false} ClosedUntilBlock(discovery: seq<Message>, world: seq<Answers>, n: nat)
    requires n <= |world| && BlockCode(discovery).None?
    requires forall k :: 0 <= k < n ==> !(Uncached(world[k]) && Blocks(world[k]))
    ensures !CircuitOpen(discovery, world, n)
  {
    if n > 0 {
      ClosedUntilBlock(discovery, world, n - 1);
    }
  }

  /** Between an unnoticed block and the next download nothing opens the circuit. */
  lemma {:induction false} ClosedAfterUnnoticedBlock(discovery: seq<Message>, world: seq<Answers>, s: nat, n: nat)
    requires s < n <= |world| && BlockCode(discovery).None? && FirstBlock(world, s) && world[s].after.Unreadable?
    requires forall j :: s < j < n ==> !Uncached(world[j])
    ensures !CircuitOpen(discovery, world, n)
  {
    if n == s + 1 {
      ClosedUntilBlock(discovery, world, s);
    } else {
      ClosedAfterUnnoticedBlock(discovery, world, s, n - 1);
    }
  }

  lemma {:induction false} FirstBlockBefore(world: seq<Answers>, k: nat) returns (s: nat)
    requires k < |world| && Uncached(world[k]) && Blocks(world[k])
    ensures s <= k && FirstBlock(world, s)
  {
    if j: nat :| j < k && Uncached(world[j]) && Blocks(world[j]) {
      s := FirstBlockBefore(world, j);
    } else {
      s := k;
    }
  }

  lemma {:induction false} NextUncached(world: seq<Answers>, s: nat, j: nat) returns (n: nat)
    requires s < j < |world| && Uncached(world[j])
    ensures s < n <= j && Uncached(world[n]) && forall i :: s < i < n ==> !Uncached(world[i])
    decreases j
  {
    if i: nat :| s < i < j && Uncached(world[i]) {
      n := NextUncached(world, s, i);
    } else {
      n := j;
    }
  }

  lemma NoticedBlockOpens(discovery: seq<Message>, world: seq<Answers>, s: nat)
    requires BlockCode(discovery).None? && FirstBlock(world, s) && world[s].after.Found?
    ensures Called(discovery, world, s) && CircuitOpen(discovery, world, s + 1)
  {
    ClosedUntilBlock(discovery, world, s);
  }

  lemma NoticingSuffices(discovery: seq<Message>, world: seq<Answers>, n: nat)
    requires BlockCode(discovery).Some? || BlockIsNoticed(world)
    requires n < |world| && Blocked(discovery, world, n)
    ensures !Called(discovery, world, n)
  {
    if BlockCode(discovery).Some? {
      StaysOpen(discovery, world, 0, n);
    } else {
      var k :| 0 <= k < n && Called(discovery, world, k) && Blocks(world[k]);
      var s := FirstBlockBefore(world, k);
      if world[s].after.Found? {
        NoticedBlockOpens(discovery, world, s);
        StaysOpen(discovery, world, s + 1, n);
      }
    }
  }

  lemma UnnoticedBlockIsIgnored(discovery: seq<Message>, world: seq<Answers>, s: nat, j: nat) returns (n: nat)
    requires BlockCode(discovery).None? && FirstBlock(world, s) && world[s].after.Unreadable?
    requires s < j < |world| && Uncached(world[j])
    ensures n < |world| && Blocked(discovery, world, n) && Called(discovery, world, n)
  {
    n := NextUncached(world, s, j);
    ClosedUntilBlock(discovery, world, s);
    ClosedAfterUnnoticedBlock(discovery, world, s, n);
    assert Called(discovery, world, s) && Blocks(world[s]);
  }

  lemma FirstBlockBounded(world: seq<Answers>, s: nat)
    requires FirstBlock(world, s)
    ensures s < |world|
  {
  }

  /** Exactly when the breaker does its job: the block is already known from discovery, or it is noticed. */
  lemma BreakerWorksWhenNoticed(discovery: seq<Message>, world: seq<Answers>)
    ensures NeverCallsWhenBlocked(discovery, world) <==> BlockCode(discovery).Some? || BlockIsNoticed(world)
  {
    hide Called, Blocked, CircuitOpen, BlockCode, FirstBlock, Blocks;
    if BlockCode(discovery).Some? || BlockIsNoticed(world) {
      forall n | 0 <= n < |world| && Blocked(discovery, world, n) ensures !Called(discovery, world, n) {
        NoticingSuffices(discovery, world, n);
      }
    } else {
      var s: nat :| FirstBlock(world, s) && !Noticed(world, s);
      FirstBlockBounded(world, s);
      var j: nat :| s < j < |world| && Uncached(world[j]);
      var n := UnnoticedBlockIsIgnored(discovery, world, s, j);
    }
  }

  /** The breaker can fail: a blocked download whose cache then cannot be read is followed by another download. */
  lemma BreakerCanFail()
    ensures var blocked := Answers(Found([]), Raises(Message(true, false, false)), Unreadable);
            var next := Answers(Found([]), Returns(0, []), Found([1]));
            !NeverCallsWhenBlocked([], [blocked, next])
  {
    var blocked := Answers(Found([]), Raises(Message(true, false, false)), Unreadable);
    var next := Answers(Found([]), Returns(0, []), Found([1]));
    var world := [blocked, next];
    assert Message(true, false, false) in Errors(blocked.download);
    assert FirstBlock(world, 0) && Uncached(world[1]);
    var n := UnnoticedBlockIsIgnored([], world, 0, 1);
  }

  /** After the circuit opens, a video without a transcript is put off and a readable cached one is still handled. */
  lemma AfterOpening(videos: seq<Video>, discovery: seq<Message>, world: seq<Answers>, items: seq<Item>, i: nat, j: nat)
    requires |items| == |videos| == |world| && ItemsFit(videos, discovery, world, items)
    requires i <= j < |world| && CircuitOpen(discovery, world, i)
    ensures Uncached(world[j]) ==> items[j] == Item(videos[j].id, FailedRetryable, Some(YoutubeCircuitOpen), None)
    ensures !Uncached(world[j]) && world[j].before.Found? && world[j].after.Found? && world[j].after.digests != [] ==>
              items[j] == Item(videos[j].id, AlreadyPresent, None, Some(world[j].after.digests[0]))
  {
    StaysOpen(discovery, world, i, j);
  }

  /** Exit code 0 leaves every video acquired or already present, with a transcript. */
  lemma SuccessMeans(videos: seq<Video>, discovery: seq<Message>, world: seq<Answers>, items: seq<Item>, i: nat)
    requires |items| == |videos| == |world| && ItemsFit(videos, discovery, world, items)
    requires AllClean(discovery, world, |world|) && i < |items|
    ensures items[i].status == Acquired || items[i].status == AlreadyPresent
    ensures items[i].videoId == videos[i].id && items[i].errorCode.None? && items[i].digest.Some?
  {
    assert Clean(CircuitOpen(discovery, world, i), world[i]);
  }
}
