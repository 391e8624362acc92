/** `research/workflow.py`: acquiring, crashing, retrying and replaying one acquisition attempt of one session.
    The store is its contract: atomic writes checked against stage, revision and attempt status. */
module Workflow {
  import opened Basics

  /** The outcome recorded for one video of the attempt. */
  datatype Status = Acquired | AlreadyPresent | NoTranscript | FailedRetryable

  datatype Stage = Acquiring | Reindexing | Assessing | AwaitingSufficiency | Elsewhere
                 | FailedAcquiring | FailedReindexing | FailedAssessing

  datatype Attempt = NotStarted | Running | Retryable | Completed

  /** A call of the download service, with what was recorded for the video when it was made. */
  datatype Call = Call(video: string, recorded: Option<Status>)

  /** `refreshes` tells for each refresh of the indexes whether a source was ready; `partialFlag` is the flag the
      first pass computed when it completed the attempt. */
  datatype State = State(videos: seq<string>, stage: Stage, revision: nat, attempt: Attempt,
                         outcomes: map<string, Status>, candidates: set<string>,
                         calls: seq<Call>, refreshes: seq<bool>, partialFlag: Option<bool>)

  predicate IsReady(status: Status) { status == Acquired || status == AlreadyPresent }

  predicate AnyReady(outcomes: map<string, Status>) { exists v :: v in outcomes && IsReady(outcomes[v]) }

  predicate AnyRetryable(outcomes: map<string, Status>) { exists v :: v in outcomes && outcomes[v] == FailedRetryable }

  /** `_partial_attempt_id` is not None. */
  predicate Partial(outcomes: map<string, Status>) { AnyRetryable(outcomes) && AnyReady(outcomes) }

  function Finished(outcomes: map<string, Status>): set<string> {
    set v | v in outcomes && outcomes[v] != FailedRetryable
  }

  // ----- the store's contract -----

  predicate Active(s: State, revision: nat) {
    s.stage == Acquiring && s.revision == revision && s.attempt == Running
  }

  /** `start_acquisition_attempt`. */
  function Start(s: State, revision: nat): Option<State> {
    if s.attempt == NotStarted && s.stage == Acquiring && s.revision == revision then Some(s.(attempt := Running))
    else None
  }

  /** `record_acquisition_progress` for one video: only a retryable outcome may be overwritten. */
  function Record(s: State, revision: nat, video: string, status: Status): Option<State> {
    if Active(s, revision) && video in s.videos && video in s.candidates &&
       (video in s.outcomes ==> s.outcomes[video] == FailedRetryable)
    then Some(s.(outcomes := s.outcomes[video := status])) else None
  }

  /** `complete_acquisition_attempt`: the outcomes must cover exactly the videos of the attempt. */
  function Complete(s: State, revision: nat): Option<State> {
    if Active(s, revision) && s.outcomes.Keys == (set v | v in s.videos) then
      Some(s.(stage := Reindexing, revision := s.revision + 1, attempt := Completed))
    else None
  }

  /** `record_acquisition_failure`. */
  function Fail(s: State, revision: nat): Option<State> {
    if Active(s, revision) then Some(s.(stage := FailedAcquiring, revision := s.revision + 1, attempt := Retryable)) else None
  }

  function Move(s: State, from: Stage, to: Stage, revision: nat): Option<State> {
    if s.stage == from && s.revision == revision then Some(s.(stage := to, revision := s.revision + 1)) else None
  }

  /** `record_partial_acquisition_assessment`. */
  function RecordPartial(s: State, revision: nat): Option<State> {
    if s.stage == Assessing && s.revision == revision && s.attempt == Completed &&
       s.outcomes.Keys == (set v | v in s.videos) && Partial(s.outcomes)
    then Some(s.(stage := AwaitingSufficiency, revision := s.revision + 1, attempt := Retryable)) else None
  }

  /** How a retry finds the attempt: a fresh key claims at its expected revision, a stored one takes up where it was,
      unless the failure it was about is already final. */
  datatype Key = Fresh(revision: nat) | Stored(finalizes: bool)

  /** `claim_retry` under the attempt's lock: the session as resumed, or None when there is nothing to resume. */
  function Claim(s: State, key: Key): Option<State> {
    match s.stage
    case Acquiring => if s.attempt == Running then Claimed(s, key, Acquiring, Running) else None
    case Reindexing => if s.attempt == Completed then Claimed(s, key, Reindexing, Completed) else None
    case Assessing => if s.attempt == Completed then Claimed(s, key, Assessing, Completed) else None
    case AwaitingSufficiency =>
      if s.attempt == Retryable && key.Fresh? then Claimed(s, key, Acquiring, Running) else None
    case FailedAcquiring =>
      if s.attempt != Retryable then None
      else if key.Fresh? then Claimed(s, key, Acquiring, Running)
      else if key.finalizes then None
      else Some(s.(stage := Acquiring, revision := s.revision + 1, attempt := Running))
    case FailedReindexing =>
      if s.attempt == Completed && key.Fresh? then Claimed(s, key, Reindexing, Completed) else None
    case FailedAssessing =>
      if s.attempt == Completed && key.Fresh? then Claimed(s, key, Assessing, Completed) else None
    case Elsewhere => None
  }

  function Claimed(s: State, key: Key, stage: Stage, attempt: Attempt): Option<State> {
    match key
    case Stored(_) => Some(s.(stage := stage, attempt := attempt))
    case Fresh(revision) =>
      if s.revision == revision then Some(s.(stage := stage, attempt := attempt, revision := s.revision + 1)) else None
  }

  // ----- passes -----

  /** What the world answers during one pass: the service for each video, the index refresh, the assessment. */
  datatype World = World(service: string -> Status, refreshes: bool, assesses: bool)

  /** How a pass ends: the process dies, the store refuses a write, it stops at a video that is no longer a
      candidate, or it runs to its end. */
  datatype End = Crashed | Refused | Stopped | Done

  /** The state a pass leaves, how many more steps the process lives, and how it ended. */
  datatype Pass = Pass(s: State, life: nat, end: End)

  function CallService(s: State, video: string): State {
    s.(calls := s.calls + [Call(video, if video in s.outcomes then Some(s.outcomes[video]) else None)])
  }

  /** One write, if the process still lives. */
  function Write(s: State, written: Option<State>, life: nat): Pass {
    if life == 0 then Pass(s, 0, Crashed)
    else if written.None? then Pass(s, life - 1, Refused)
    else Pass(written.value, life - 1, Done)
  }

  /** The download loop over the videos from `i` on; `done` is what was finished when the pass began. */
  function Loop(s: State, revision: nat, done: set<string>, i: nat, w: World, life: nat): Pass
    requires i <= |s.videos|
    decreases |s.videos| - i
  {
    if i == |s.videos| then Pass(s, life, Done)
    else
      var video := s.videos[i];
      if video in done then Loop(s, revision, done, i + 1, w, life)
      else if video !in s.candidates then
        var p := Write(s, Fail(s, revision), life);
        if p.end == Done then p.(end := Stopped) else p
      else if life == 0 then Pass(s, 0, Crashed)
      else
        var called := CallService(s, video);
        var p := Write(called, Record(called, revision, video, w.service(video)), life - 1);
        if p.end != Done then p else Loop(p.s, revision, done, i + 1, w, p.life)
  }

  /** `_assess_session`. */
  function Assess(s: State, partial: bool, w: World, life: nat): Pass {
    if !w.assesses then Write(s, Move(s, Assessing, FailedAssessing, s.revision), life)
    else if partial then Write(s, RecordPartial(s, s.revision), life)
    else Write(s, Move(s, Assessing, AwaitingSufficiency, s.revision), life)
  }

  /** `_finish_reindexing`. */
  function FinishReindexing(s: State, refresh: bool, partial: bool, w: World, life: nat): Pass {
    if refresh && life == 0 then Pass(s, 0, Crashed)
    else
      var t := if refresh then s.(refreshes := s.refreshes + [AnyReady(s.outcomes)]) else s;
      var rest := if refresh then life - 1 else life;
      if refresh && !w.refreshes then Write(t, Move(t, Reindexing, FailedReindexing, t.revision), rest)
      else
        var p := Write(t, Move(t, Reindexing, Assessing, t.revision), rest);
        if p.end != Done then p else Assess(p.s, partial, w, p.life)
  }

  /** The end of `_continue_acquisition`, once every video has its outcome. */
  function Conclude(s: State, revision: nat, w: World, life: nat): Pass {
    var ready, retryable := AnyReady(s.outcomes), AnyRetryable(s.outcomes);
    if !ready && retryable then Write(s, Fail(s, revision), life)
    else
      var p := Write(s, Complete(s, revision), life);
      if p.end != Done then p
      else FinishReindexing(p.s.(partialFlag := Some(retryable)), ready, retryable, w, p.life)
  }

  /** `_continue_acquisition`, by a process that holds the attempt's lock. */
  function Continue(s: State, w: World, life: nat): Pass {
    var p := Loop(s, s.revision, Finished(s.outcomes), 0, w, life);
    if p.end != Done then p else Conclude(p.s, s.revision, w, p.life)
  }

  /** `retry` and `_resume_retry`. */
  function Retry(s: State, key: Key, w: World, life: nat): Pass {
    var p := Write(s, Claim(s, key), life);
    if p.end != Done then p
    else match p.s.stage
      case Reindexing => FinishReindexing(p.s, true, Partial(p.s.outcomes), w, p.life)
      case Assessing => Assess(p.s, Partial(p.s.outcomes), w, p.life)
      case _ => Continue(p.s, w, p.life)
  }

  // ----- runs -----

  /** What may happen between two moments at which nobody holds the attempt's lock. A process that started the
      attempt may continue it at any later time; the user may move on; the candidate list may change. */
  datatype Event =
    | StartAttempt(revision: nat)
    | ContinueAttempt(w: World, life: nat)
    | RetryAttempt(key: Key, w: World, life: nat)
    | MoveOn
    | SetCandidates(candidates: set<string>)

  function Next(s: State, e: Event): State {
    match e
    case StartAttempt(revision) => (match Start(s, revision) case None => s case Some(t) => t)
    case ContinueAttempt(w, life) => if s.attempt == NotStarted then s else Continue(s, w, life).s
    case RetryAttempt(key, w, life) => Retry(s, key, w, life).s
    case MoveOn => if s.stage == AwaitingSufficiency then s.(stage := Elsewhere, revision := s.revision + 1) else s
    case SetCandidates(candidates) => s.(candidates := candidates)
  }

  function Run(s: State, events: seq<Event>): State
    decreases |events|
  {
    if events == [] then s else Run(Next(s, events[0]), events[1..])
  }

  // ----- invariants -----

  /** No call was made for a video with a recorded outcome that was not retryable. */
  ghost predicate CallsJustified(calls: seq<Call>) {
    forall i :: 0 <= i < |calls| ==> calls[i].recorded.None? || calls[i].recorded == Some(FailedRetryable)
  }

  predicate StageFits(s: State) {
    match s.stage
    case Acquiring => s.attempt == NotStarted || s.attempt == Running
    case FailedAcquiring => s.attempt == Retryable
    case AwaitingSufficiency => s.attempt == Completed || s.attempt == Retryable
    case Elsewhere => s.attempt == Completed || s.attempt == Retryable
    case _ => s.attempt == Completed
  }

  predicate CompletedFits(s: State) {
    s.attempt == Completed ==>
      && s.outcomes.Keys == (set v | v in s.videos)
      && (AnyReady(s.outcomes) || !AnyRetryable(s.outcomes))
      && s.partialFlag == Some(Partial(s.outcomes))
  }

  ghost predicate Inv(s: State) {
    && NoRepeats(s.videos) && (forall v :: v in s.outcomes ==> v in s.videos)
    && CallsJustified(s.calls) && StageFits(s) && CompletedFits(s)
  }

  /** Outcomes that are not retryable stay as they are. */
  ghost predicate Keeps(s: State, t: State) {
    t.videos == s.videos &&
    forall v :: v in s.outcomes && s.outcomes[v] != FailedRetryable ==> v in t.outcomes && t.outcomes[v] == s.outcomes[v]
  }

  /** What was not finished when the pass began can have been finished only by the pass itself. */
  ghost predicate OwnWork(s: State, done: set<string>, i: nat)
    requires i <= |s.videos|
  {
    && (forall v :: v in s.outcomes && s.outcomes[v] != FailedRetryable ==> v in done || v in s.videos[..i])
    && (forall v :: v in done ==> v in s.outcomes)
    && (forall j :: 0 <= j < i ==> s.videos[j] in s.outcomes)
  }

  lemma CallIsJustified(s: State, done: set<string>, i: nat)
    requires Inv(s) && i < |s.videos| && OwnWork(s, done, i) && s.videos[i] !in done
    ensures Inv(CallService(s, s.videos[i]))
    ensures s.videos[i] in s.outcomes ==> s.outcomes[s.videos[i]] == FailedRetryable
  {
    assert s.videos[i] !in s.videos[..i];
  }

  lemma RecordKeeps(s: State, done: set<string>, i: nat, status: Status)
    requires Inv(s) && i < |s.videos| && OwnWork(s, done, i) && Record(s, s.revision, s.videos[i], status).Some?
    ensures var t := Record(s, s.revision, s.videos[i], status).value;
            Inv(t) && Keeps(s, t) && t.videos == s.videos && OwnWork(t, done, i + 1)
  {
    hide CallsJustified;
    var t := Record(s, s.revision, s.videos[i], status).value;
    assert s.videos[..i + 1] == s.videos[..i] + [s.videos[i]];
  }

  lemma SkipKeeps(s: State, done: set<string>, i: nat)
    requires i < |s.videos| && OwnWork(s, done, i) && s.videos[i] in done
    ensures OwnWork(s, done, i + 1)
  {
    assert s.videos[..i + 1] == s.videos[..i] + [s.videos[i]];
  }

  lemma KeepsChain(s: State, t: State, u: State)
    requires Keeps(s, t) && Keeps(t, u)
    ensures Keeps(s, u)
  {
  }

  /** The loop calls only for videos without a final outcome, and when it ends every video has one. */
  lemma {:induction false} LoopKeeps(s: State, done: set<string>, i: nat, w: World, life: nat)
    requires Inv(s) && i <= |s.videos| && OwnWork(s, done, i)
    ensures var p := Loop(s, s.revision, done, i, w, life);
            && Inv(p.s) && Keeps(s, p.s)
            && (p.end == Done ==> p.s == s.(outcomes := p.s.outcomes, calls := p.s.calls)
                                  && forall v :: v in s.videos ==> v in p.s.outcomes)
    decreases |s.videos| - i
  {
    hide Inv, Keeps, OwnWork, CallsJustified, Record, Fail;
    if i == |s.videos| {
      AllRecorded(s, done);
    } else if s.videos[i] in done {
      SkipKeeps(s, done, i);
      LoopKeeps(s, done, i + 1, w, life);
    } else if s.videos[i] !in s.candidates {
      FailKeeps(s, s.revision);
      KeepsItself(s);
    } else if life == 0 {
      KeepsItself(s);
    } else {
      var video := s.videos[i];
      var called := CallService(s, video);
      CallIsJustified(s, done, i);
      CalledKeeps(s, done, i, video);
      var recorded := Record(called, s.revision, video, w.service(video));
      if life > 1 && recorded.Some? {
        var t := recorded.value;
        RecordKeeps(called, done, i, w.service(video));
        RecordLeaves(called, video, w.service(video));
        KeepsChain(s, called, t);
        LoopKeeps(t, done, i + 1, w, life - 2);
        KeepsChain(s, t, Loop(t, s.revision, done, i + 1, w, life - 2).s);
      }
    }
  }

  lemma RecordLeaves(s: State, video: string, status: Status)
    requires Record(s, s.revision, video, status).Some?
    ensures var t := Record(s, s.revision, video, status).value;
            t == s.(outcomes := s.outcomes[video := status])
  {
  }

  lemma AllRecorded(s: State, done: set<string>)
    requires OwnWork(s, done, |s.videos|)
    ensures Keeps(s, s) && forall v :: v in s.videos ==> v in s.outcomes
  {
  }

  lemma KeepsItself(s: State)
    ensures Keeps(s, s)
  {
  }

  lemma CalledKeeps(s: State, done: set<string>, i: nat, video: string)
    requires i <= |s.videos| && OwnWork(s, done, i)
    ensures OwnWork(CallService(s, video), done, i) && Keeps(s, CallService(s, video))
  {
  }

  lemma FailKeeps(s: State, revision: nat)
    requires Inv(s)
    ensures Fail(s, revision).Some? ==> Inv(Fail(s, revision).value) && Keeps(s, Fail(s, revision).value)
  {
    hide CallsJustified;
  }

  lemma MoveKeeps(s: State, from: Stage, to: Stage, revision: nat)
    requires Inv(s) && s.attempt == Completed && to !in {Acquiring, FailedAcquiring}
    ensures Move(s, from, to, revision).Some? ==>
              var t := Move(s, from, to, revision).value;
              Inv(t) && Keeps(s, t) && t.attempt == Completed && t.outcomes == s.outcomes && t.partialFlag == s.partialFlag
  {
    hide CallsJustified;
  }

  lemma PartialKeeps(s: State, revision: nat)
    requires Inv(s)
    ensures RecordPartial(s, revision).Some? ==>
              Inv(RecordPartial(s, revision).value) && Keeps(s, RecordPartial(s, revision).value)
  {
    hide CallsJustified;
  }

  lemma AssessKeeps(s: State, partial: bool, w: World, life: nat)
    requires Inv(s) && s.attempt == Completed
    ensures Inv(Assess(s, partial, w, life).s) && Keeps(s, Assess(s, partial, w, life).s)
  {
    hide Inv, Keeps, RecordPartial, Move;
    KeepsItself(s);
    MoveKeeps(s, Assessing, FailedAssessing, s.revision);
    MoveKeeps(s, Assessing, AwaitingSufficiency, s.revision);
    PartialKeeps(s, s.revision);
  }

  lemma RefreshKeeps(s: State, ready: bool)
    requires Inv(s)
    ensures Inv(s.(refreshes := s.refreshes + [ready])) && Keeps(s, s.(refreshes := s.refreshes + [ready]))
  {
    hide CallsJustified;
  }

  lemma FinishKeeps(s: State, refresh: bool, partial: bool, w: World, life: nat)
    requires Inv(s) && s.attempt == Completed
    ensures Inv(FinishReindexing(s, refresh, partial, w, life).s)
    ensures Keeps(s, FinishReindexing(s, refresh, partial, w, life).s)
  {
    hide Inv, Keeps, Move, Assess;
    KeepsItself(s);
    RefreshKeeps(s, AnyReady(s.outcomes));
    var t := if refresh then s.(refreshes := s.refreshes + [AnyReady(s.outcomes)]) else s;
    MoveKeeps(t, Reindexing, FailedReindexing, t.revision);
    MoveKeeps(t, Reindexing, Assessing, t.revision);
    var moved := Move(t, Reindexing, Assessing, t.revision);
    if moved.Some? {
      var rest := if refresh then (if life == 0 then 0 else life - 1) else life;
      AssessKeeps(moved.value, partial, w, if rest == 0 then 0 else rest - 1);
      KeepsChain(s, t, moved.value);
      KeepsChain(s, moved.value, Assess(moved.value, partial, w, if rest == 0 then 0 else rest - 1).s);
    }
    var failed := Move(t, Reindexing, FailedReindexing, t.revision);
    if failed.Some? {
      KeepsChain(s, t, failed.value);
    }
  }

  /** Completing: every video has an outcome, and a source is ready or nothing failed retryably. */
  lemma CompleteKeeps(s: State, revision: nat)
    requires Inv(s) && (AnyReady(s.outcomes) || !AnyRetryable(s.outcomes))
    ensures Complete(s, revision).Some? ==>
              var t := Complete(s, revision).value.(partialFlag := Some(AnyRetryable(s.outcomes)));
              Inv(t) && Keeps(s, t) && t.attempt == Completed && t.outcomes == s.outcomes
  {
    hide CallsJustified, AnyReady, AnyRetryable;
  }

  /** The store completes an attempt only when its outcomes are complete; between that write and the first pass's
      own bookkeeping nothing else is observable, so the flag is recorded with it. */
  lemma ConcludeKeeps(s: State, revision: nat, w: World, life: nat)
    requires Inv(s)
    ensures Inv(Conclude(s, revision, w, life).s) && Keeps(s, Conclude(s, revision, w, life).s)
  {
    hide Inv, Keeps, Fail, Complete, FinishReindexing;
    KeepsItself(s);
    FailKeeps(s, revision);
    var ready, retryable := AnyReady(s.outcomes), AnyRetryable(s.outcomes);
    if (ready || !retryable) && life > 0 {
      CompleteKeeps(s, revision);
      if Complete(s, revision).Some? {
        var t := Complete(s, revision).value.(partialFlag := Some(retryable));
        FinishKeeps(t, ready, retryable, w, life - 1);
        KeepsChain(s, t, FinishReindexing(t, ready, retryable, w, life - 1).s);
      }
    }
  }

  lemma BeginsOwnWork(s: State)
    ensures OwnWork(s, Finished(s.outcomes), 0)
  {
  }

  lemma ContinueKeeps(s: State, w: World, life: nat)
    requires Inv(s)
    ensures Inv(Continue(s, w, life).s) && Keeps(s, Continue(s, w, life).s)
  {
    hide Inv, Keeps, Loop, Conclude, OwnWork;
    BeginsOwnWork(s);
    LoopKeeps(s, Finished(s.outcomes), 0, w, life);
    var p := Loop(s, s.revision, Finished(s.outcomes), 0, w, life);
    if p.end == Done {
      ConcludeKeeps(p.s, s.revision, w, p.life);
      KeepsChain(s, p.s, Conclude(p.s, s.revision, w, p.life).s);
    }
  }

  lemma ClaimResumes(s: State, key: Key)
    requires Claim(s, key).Some?
    ensures var t := Claim(s, key).value;
            && t == s.(stage := t.stage, revision := t.revision, attempt := t.attempt) && StageFits(t)
            && (t.stage == Acquiring || t.attempt == Completed) && (t.attempt == Completed ==> s.attempt == Completed)
  {
  }

  lemma ResumedKeeps(s: State, t: State)
    requires Inv(s) && t == s.(stage := t.stage, revision := t.revision, attempt := t.attempt)
    requires StageFits(t) && (t.attempt == Completed ==> s.attempt == Completed)
    ensures Inv(t) && Keeps(s, t)
  {
    hide CallsJustified, AnyReady, AnyRetryable, Partial, StageFits;
  }

  /** Claiming a retry changes no outcome and resumes acquiring or a completed attempt. */
  lemma ClaimKeeps(s: State, key: Key)
    requires Inv(s) && Claim(s, key).Some?
    ensures var t := Claim(s, key).value;
            && Inv(t) && Keeps(s, t) && t.outcomes == s.outcomes && t.partialFlag == s.partialFlag
            && (t.stage == Acquiring || t.attempt == Completed)
  {
    hide Inv, Keeps, Claim, StageFits;
    ClaimResumes(s, key);
    ResumedKeeps(s, Claim(s, key).value);
  }

  lemma RetryKeeps(s: State, key: Key, w: World, life: nat)
    requires Inv(s)
    ensures Inv(Retry(s, key, w, life).s) && Keeps(s, Retry(s, key, w, life).s)
  {
    hide Inv, Keeps, Claim, FinishReindexing, Assess, Continue;
    KeepsItself(s);
    if life > 0 && Claim(s, key).Some? {
      ClaimKeeps(s, key);
      var t := Claim(s, key).value;
      match t.stage {
        case Reindexing => FinishKeeps(t, true, Partial(t.outcomes), w, life - 1);
        case Assessing => AssessKeeps(t, Partial(t.outcomes), w, life - 1);
        case _ => ContinueKeeps(t, w, life - 1);
      }
      KeepsChain(s, t, Retry(s, key, w, life).s);
    }
  }

  lemma NextKeeps(s: State, e: Event)
    requires Inv(s)
    ensures Inv(Next(s, e)) && Keeps(s, Next(s, e))
  {
    hide CallsJustified, Continue, Retry;
    KeepsItself(s);
    match e
    case StartAttempt(revision) =>
    case ContinueAttempt(w, life) => ContinueKeeps(s, w, life);
    case RetryAttempt(key, w, life) => RetryKeeps(s, key, w, life);
    case MoveOn =>
    case SetCandidates(_) =>
  }

  /** Over any run of acquire, crash and retry of one attempt: the service is never called for a video that already
      has a recorded outcome that is not retryable, and such an outcome never changes. */
  lemma {:induction false} EveryRun(s: State, events: seq<Event>)
    requires Inv(s)
    ensures Inv(Run(s, events)) && Keeps(s, Run(s, events))
    decreases |events|
  {
    hide Inv, Keeps, Next;
    if events == [] {
      KeepsItself(s);
    } else {
      NextKeeps(s, events[0]);
      EveryRun(Next(s, events[0]), events[1..]);
      KeepsChain(s, Next(s, events[0]), Run(s, events));
    }
  }

  /** The state in which a session waits for its acquisition. */
  function Approved(videos: seq<string>, revision: nat): State {
    State(videos, Acquiring, revision, NotStarted, map[], set v | v in videos, [], [], None)
  }

  lemma ApprovedIsGood(videos: seq<string>, revision: nat)
    requires NoRepeats(videos)
    ensures Inv(Approved(videos, revision)) && AllApproved(Approved(videos, revision))
    ensures Start(Approved(videos, revision), revision).Some?
  {
  }

  // ----- what a pass achieves -----

  ghost predicate AllApproved(s: State) { forall v :: v in s.videos ==> v in s.candidates }

  /** With every video still a candidate, a pass over an active attempt ends its loop or dies in it. */
  lemma {:induction false} LoopGoesOn(s: State, done: set<string>, i: nat, w: World, life: nat)
    requires Inv(s) && i <= |s.videos| && OwnWork(s, done, i) && AllApproved(s) && Active(s, s.revision)
    ensures var p := Loop(s, s.revision, done, i, w, life); p.end == Done || p.end == Crashed
    ensures Loop(s, s.revision, done, i, w, life).s.refreshes == s.refreshes
    decreases |s.videos| - i
  {
    hide Inv, OwnWork, CallsJustified;
    if i < |s.videos| {
      var video := s.videos[i];
      if video in done {
        SkipKeeps(s, done, i);
        LoopGoesOn(s, done, i + 1, w, life);
      } else if life > 1 {
        var called := CallService(s, video);
        CallIsJustified(s, done, i);
        CalledKeeps(s, done, i, video);
        RecordKeeps(called, done, i, w.service(video));
        LoopGoesOn(Record(called, s.revision, video, w.service(video)).value, done, i + 1, w, life - 2);
      }
    }
  }

  lemma {:induction false} LoopNeverRefreshes(s: State, revision: nat, done: set<string>, i: nat, w: World, life: nat)
    requires i <= |s.videos|
    ensures Loop(s, revision, done, i, w, life).s.refreshes == s.refreshes
    decreases |s.videos| - i
  {
    if i < |s.videos| {
      var video := s.videos[i];
      if video in done {
        LoopNeverRefreshes(s, revision, done, i + 1, w, life);
      } else if video in s.candidates && life > 1 {
        var recorded := Record(CallService(s, video), revision, video, w.service(video));
        if recorded.Some? {
          LoopNeverRefreshes(recorded.value, revision, done, i + 1, w, life - 2);
        }
      }
    }
  }

  lemma AssessLeaves(s: State, partial: bool, w: World, life: nat)
    ensures var p := Assess(s, partial, w, life);
            p.s.refreshes == s.refreshes && p.s.outcomes == s.outcomes && p.s.videos == s.videos
    ensures s.stage == Assessing && s.attempt == Completed && Inv(s) && partial == Partial(s.outcomes) ==>
              Assess(s, partial, w, life).end != Refused && Assess(s, partial, w, life).end != Stopped
    ensures Assess(s, partial, w, life).s.stage == s.stage
            || Assess(s, partial, w, life).s.stage == FailedAssessing
            || Assess(s, partial, w, life).s.stage == AwaitingSufficiency
  {
    hide CallsJustified, AnyReady, AnyRetryable, Partial;
  }

  /** A pass from reindexing on refreshes once if it is told to, and is never refused by the store. */
  lemma FinishLeaves(s: State, refresh: bool, partial: bool, w: World, life: nat)
    requires Inv(s) && s.stage == Reindexing && s.attempt == Completed && partial == Partial(s.outcomes)
    ensures var p := FinishReindexing(s, refresh, partial, w, life);
            && p.end != Refused && p.end != Stopped && p.s.outcomes == s.outcomes && p.s.videos == s.videos
            && p.s.stage != FailedAcquiring
            && p.s.refreshes == s.refreshes + if refresh && life > 0 then [AnyReady(s.outcomes)] else []
  {
    hide Inv, Assess, AnyReady, AnyRetryable, Partial;
    RefreshKeeps(s, AnyReady(s.outcomes));
    var t := if refresh then s.(refreshes := s.refreshes + [AnyReady(s.outcomes)]) else s;
    var rest := if refresh then (if life == 0 then 0 else life - 1) else life;
    MoveKeeps(t, Reindexing, Assessing, t.revision);
    AssessLeaves(Move(t, Reindexing, Assessing, t.revision).value, partial, w, if rest == 0 then 0 else rest - 1);
  }

  /** A pass that runs to its end has an outcome for every video of the attempt. It goes on to reindexing exactly
      when a source is ready or nothing failed retryably, and refreshes the indexes exactly when a source is ready. */
  lemma PassCompletes(s: State, w: World, life: nat)
    requires Inv(s) && Active(s, s.revision) && AllApproved(s)
    ensures var p := Continue(s, w, life);
            && (p.end == Done || p.end == Crashed)
            && (p.end == Done ==>
                  && p.s.outcomes.Keys == (set v | v in s.videos)
                  && (p.s.stage != FailedAcquiring <==> AnyReady(p.s.outcomes) || !AnyRetryable(p.s.outcomes))
                  && p.s.refreshes == s.refreshes + if AnyReady(p.s.outcomes) then [true] else [])
  {
    hide Loop, FinishReindexing, AnyReady, AnyRetryable, OwnWork, CallsJustified;
    BeginsOwnWork(s);
    var done := Finished(s.outcomes);
    LoopKeeps(s, done, 0, w, life);
    LoopGoesOn(s, done, 0, w, life);
    var p := Loop(s, s.revision, done, 0, w, life);
    if p.end == Done && p.life > 0 {
      var ready, retryable := AnyReady(p.s.outcomes), AnyRetryable(p.s.outcomes);
      if ready || !retryable {
        CompleteKeeps(p.s, s.revision);
        var t := Complete(p.s, s.revision).value.(partialFlag := Some(retryable));
        FinishLeaves(t, ready, retryable, w, p.life - 1);
        FinishDoneRefreshed(t, ready, retryable, w, p.life - 1);
      }
    }
  }

  lemma FinishDoneRefreshed(s: State, refresh: bool, partial: bool, w: World, life: nat)
    ensures refresh && life == 0 ==> FinishReindexing(s, refresh, partial, w, life).end == Crashed
  {
  }

  /** The partial-failure flag recomputed on retry is the one the first pass computed. */
  lemma FlagIsRecomputed(s: State, key: Key)
    requires Inv(s) && Claim(s, key).Some? && Claim(s, key).value.stage != Acquiring
    ensures s.partialFlag == Some(Partial(Claim(s, key).value.outcomes))
  {
    hide CallsJustified, Partial;
  }

  // ----- what the service answered -----

  predicate IsFinal(outcomes: map<string, Status>, video: string) {
    video in outcomes && outcomes[video] != FailedRetryable
  }

  /** The calls still to be made: one for each video without a final outcome, in order. */
  function Due(videos: seq<string>, outcomes: map<string, Status>): seq<Call> {
    if videos == [] then []
    else
      var before, video := videos[..|videos| - 1], videos[|videos| - 1];
      Due(before, outcomes) +
      if IsFinal(outcomes, video) then []
      else [Call(video, if video in outcomes then Some(outcomes[video]) else None)]
  }

  /** From `s` to `t`: due calls were made in order, every new or changed outcome is what the service answered, and
      every call but perhaps the last has its answer recorded. */
  ghost predicate Heard(s: State, t: State, w: World) {
    && s.calls <= t.calls && t.calls[|s.calls|..] <= Due(s.videos, s.outcomes)
    && (forall v :: v in s.outcomes ==> v in t.outcomes)
    && (forall v :: v in t.outcomes ==> (v in s.outcomes && t.outcomes[v] == s.outcomes[v]) || t.outcomes[v] == w.service(v))
    && forall k :: |s.calls| <= k < |t.calls| - 1 ==>
         t.calls[k].video in t.outcomes && t.outcomes[t.calls[k].video] == w.service(t.calls[k].video)
  }

  /** Every due call was made, once and in order, and every video that was not finished has the service's answer. */
  ghost predicate HeardAll(s: State, t: State, w: World) {
    && t.calls == s.calls + Due(s.videos, s.outcomes)
    && forall v :: v in s.videos ==>
         v in t.outcomes && t.outcomes[v] == if IsFinal(s.outcomes, v) then s.outcomes[v] else w.service(v)
  }

  /** The loop has dealt with the first `i` videos. */
  ghost predicate Answered(s: State, t: State, w: World, i: nat)
    requires i <= |s.videos|
  {
    && t.videos == s.videos && t.calls == s.calls + Due(s.videos[..i], s.outcomes)
    && (forall v :: v in t.outcomes <==> v in s.outcomes || v in s.videos[..i])
    && forall v :: v in t.outcomes ==>
         t.outcomes[v] == if v in s.videos[..i] && !IsFinal(s.outcomes, v) then w.service(v) else AnswerBefore(s, w, v)
  }

  function AnswerBefore(s: State, w: World, v: string): Status { if v in s.outcomes then s.outcomes[v] else w.service(v) }

  lemma DueStep(videos: seq<string>, outcomes: map<string, Status>, i: nat)
    requires i < |videos|
    ensures videos[..i + 1] == videos[..i] + [videos[i]]
    ensures Due(videos[..i + 1], outcomes) ==
            Due(videos[..i], outcomes) +
            if IsFinal(outcomes, videos[i]) then []
            else [Call(videos[i], if videos[i] in outcomes then Some(outcomes[videos[i]]) else None)]
  {
    assert videos[..i + 1][..i] == videos[..i];
  }

  lemma {:induction false} DuePrefix(videos: seq<string>, outcomes: map<string, Status>, i: nat, j: nat)
    requires i <= j <= |videos|
    ensures Due(videos[..i], outcomes) <= Due(videos[..j], outcomes)
    decreases j
  {
    if i < j {
      DuePrefix(videos, outcomes, i, j - 1);
      DueStep(videos, outcomes, j - 1);
    }
  }

  lemma {:induction false} DueVideos(videos: seq<string>, outcomes: map<string, Status>, i: nat, k: nat)
    requires i <= |videos| && k < |Due(videos[..i], outcomes)|
    ensures var v := Due(videos[..i], outcomes)[k].video; v in videos[..i] && !IsFinal(outcomes, v)
  {
    if i > 0 {
      DueStep(videos, outcomes, i - 1);
      if k < |Due(videos[..i - 1], outcomes)| {
        DueVideos(videos, outcomes, i - 1, k);
      }
    }
  }

  lemma AnsweredHeard(s: State, t: State, w: World, i: nat)
    requires i <= |s.videos| && Answered(s, t, w, i)
    ensures Heard(s, t, w) && (i == |s.videos| ==> HeardAll(s, t, w))
  {
    hide Due;
    assert s.videos[..|s.videos|] == s.videos;
    DuePrefix(s.videos, s.outcomes, i, |s.videos|);
    forall k | |s.calls| <= k < |t.calls|
      ensures t.calls[k].video in t.outcomes && t.outcomes[t.calls[k].video] == w.service(t.calls[k].video)
    {
      DueVideos(s.videos, s.outcomes, i, k - |s.calls|);
    }
  }

  lemma AnsweredSkip(s: State, t: State, w: World, i: nat)
    requires i < |s.videos| && Answered(s, t, w, i) && IsFinal(s.outcomes, s.videos[i])
    ensures Answered(s, t, w, i + 1)
  {
    hide Due;
    DueStep(s.videos, s.outcomes, i);
  }

  lemma AnsweredCall(s: State, t: State, w: World, i: nat)
    requires NoRepeats(s.videos) && i < |s.videos| && Answered(s, t, w, i) && !IsFinal(s.outcomes, s.videos[i])
    ensures var called := CallService(t, s.videos[i]);
            && Heard(s, called, w)
            && Answered(s, called.(outcomes := called.outcomes[s.videos[i] := w.service(s.videos[i])]), w, i + 1)
  {
    hide Due;
    var video := s.videos[i];
    DueStep(s.videos, s.outcomes, i);
    DuePrefix(s.videos, s.outcomes, i + 1, |s.videos|);
    assert s.videos[..|s.videos|] == s.videos;
    AnsweredHeard(s, t, w, i);
    assert video !in s.videos[..i];
    CalledHeard(s, t, CallService(t, video), w, i);
  }

  lemma CalledHeard(s: State, t: State, called: State, w: World, i: nat)
    requires i < |s.videos| && Answered(s, t, w, i)
    requires called.outcomes == t.outcomes && |called.calls| == |t.calls| + 1 && t.calls <= called.calls
    requires called.calls[|s.calls|..] <= Due(s.videos, s.outcomes)
    ensures Heard(s, called, w)
  {
    hide Due, IsFinal;
    forall k | |s.calls| <= k < |called.calls| - 1
      ensures called.calls[k].video in t.outcomes && t.outcomes[called.calls[k].video] == w.service(called.calls[k].video)
    {
      DueVideos(s.videos, s.outcomes, i, k - |s.calls|);
    }
  }

  lemma {:induction false} LoopAnswers(s: State, t: State, revision: nat, i: nat, w: World, life: nat)
    requires NoRepeats(s.videos) && i <= |s.videos| && Answered(s, t, w, i)
    ensures i <= |t.videos|
    ensures var p := Loop(t, revision, Finished(s.outcomes), i, w, life);
            Heard(s, p.s, w) && (p.end == Done ==> HeardAll(s, p.s, w))
    decreases |s.videos| - i
  {
    hide Answered, Heard, HeardAll, Fail, Record;
    AnsweredVideos(s, t, w, i);
    AnsweredHeard(s, t, w, i);
    if i < |s.videos| {
      var video := s.videos[i];
      FinishedAreFinal(s.outcomes, video);
      if video in Finished(s.outcomes) {
        AnsweredSkip(s, t, w, i);
        LoopAnswers(s, t, revision, i + 1, w, life);
      } else {
        AnsweredCall(s, t, w, i);
        if video !in t.candidates {
          FailedHeard(s, t, w, revision);
        } else if life > 1 {
          var called := CallService(t, video);
          var recorded := Record(called, revision, video, w.service(video));
          if recorded.Some? {
            RecordWrites(called, revision, video, w.service(video));
            LoopAnswers(s, recorded.value, revision, i + 1, w, life - 2);
          }
        }
      }
    }
  }

  lemma AnsweredVideos(s: State, t: State, w: World, i: nat)
    requires i <= |s.videos| && Answered(s, t, w, i)
    ensures t.videos == s.videos
  {
  }

  lemma FinishedAreFinal(outcomes: map<string, Status>, video: string)
    ensures video in Finished(outcomes) <==> IsFinal(outcomes, video)
  {
  }

  lemma FailedHeard(s: State, t: State, w: World, revision: nat)
    requires Heard(s, t, w)
    ensures Fail(t, revision).Some? ==> Heard(s, Fail(t, revision).value, w)
  {
    hide Due;
  }

  lemma RecordWrites(s: State, revision: nat, video: string, status: Status)
    requires Record(s, revision, video, status).Some?
    ensures Record(s, revision, video, status).value == s.(outcomes := s.outcomes[video := status])
  {
  }

  lemma NothingAnswered(s: State, w: World)
    ensures Answered(s, s, w, 0)
  {
    assert s.calls + [] == s.calls;
  }

  /** Nothing after the loop touches an outcome or a call. */
  lemma ConcludeSays(s: State, revision: nat, w: World, life: nat)
    ensures var t := Conclude(s, revision, w, life).s; t.outcomes == s.outcomes && t.calls == s.calls
  {
    hide AnyReady, AnyRetryable, Partial;
  }

  lemma FinishSays(s: State, refresh: bool, partial: bool, w: World, life: nat)
    ensures var t := FinishReindexing(s, refresh, partial, w, life).s; t.outcomes == s.outcomes && t.calls == s.calls
  {
    hide AnyReady, AnyRetryable, Partial;
  }

  lemma AssessSays(s: State, partial: bool, w: World, life: nat)
    ensures var t := Assess(s, partial, w, life).s; t.outcomes == s.outcomes && t.calls == s.calls
  {
    hide AnyReady, AnyRetryable, Partial;
  }

  lemma HeardSame(s: State, t: State, u: State, w: World)
    requires t.outcomes == u.outcomes && t.calls == u.calls
    ensures Heard(s, t, w) ==> Heard(s, u, w)
    ensures HeardAll(s, t, w) ==> HeardAll(s, u, w)
  {
    hide Due;
  }

  lemma HeardFrom(s: State, t: State, u: State, w: World)
    requires t.videos == s.videos && t.outcomes == s.outcomes && t.calls == s.calls
    ensures Heard(t, u, w) ==> Heard(s, u, w)
    ensures HeardAll(t, u, w) ==> HeardAll(s, u, w)
  {
    hide Due;
  }

  /** A pass records what the service answers and nothing else, and one that ends has every answer. */
  lemma ContinueAnswers(s: State, w: World, life: nat)
    requires NoRepeats(s.videos)
    ensures var p := Continue(s, w, life); Heard(s, p.s, w) && (p.end == Done ==> HeardAll(s, p.s, w))
  {
    hide Loop, Conclude, Answered, Heard, HeardAll, NoRepeats;
    NothingAnswered(s, w);
    LoopAnswers(s, s, s.revision, 0, w, life);
    var p := Loop(s, s.revision, Finished(s.outcomes), 0, w, life);
    ConcludeSays(p.s, s.revision, w, p.life);
    HeardSame(s, p.s, Conclude(p.s, s.revision, w, p.life).s, w);
  }

  lemma NothingHeard(s: State, t: State, w: World)
    requires t.videos == s.videos && t.outcomes == s.outcomes && t.calls == s.calls
    ensures Heard(s, t, w)
  {
    assert t.calls[|s.calls|..] == [];
  }

  lemma RetryAnswers(s: State, key: Key, w: World, life: nat)
    requires NoRepeats(s.videos)
    ensures Heard(s, Retry(s, key, w, life).s, w)
    ensures Retry(s, key, w, life).end == Done && Claim(s, key).value.stage == Acquiring ==>
              HeardAll(s, Retry(s, key, w, life).s, w)
  {
    hide Claim, FinishReindexing, Assess, Continue, Heard, HeardAll, NoRepeats;
    NothingHeard(s, s, w);
    if life > 0 && Claim(s, key).Some? {
      var t, rest := Claim(s, key).value, life - 1;
      ClaimResumes(s, key);
      if t.stage == Reindexing {
        FinishSays(t, true, Partial(t.outcomes), w, rest);
        NothingHeardAfter(s, t, FinishReindexing(t, true, Partial(t.outcomes), w, rest).s, w);
      } else if t.stage == Assessing {
        AssessSays(t, Partial(t.outcomes), w, rest);
        NothingHeardAfter(s, t, Assess(t, Partial(t.outcomes), w, rest).s, w);
      } else {
        ContinueAnswers(t, w, rest);
        HeardFrom(s, t, Continue(t, w, rest).s, w);
      }
    }
  }

  lemma NothingHeardAfter(s: State, t: State, u: State, w: World)
    requires t.outcomes == s.outcomes && t.calls == s.calls && u.outcomes == t.outcomes && u.calls == t.calls
    ensures Heard(s, u, w)
  {
    hide Due;
    assert u.calls[|s.calls|..] == [];
  }

  /** Some pass of the run was answered so for the video. */
  ghost predicate AnsweredIn(events: seq<Event>, video: string, status: Status) {
    exists k :: 0 <= k < |events| && AnswersSo(events[k], video, status)
  }

  predicate AnswersSo(e: Event, video: string, status: Status) {
    (e.ContinueAttempt? || e.RetryAttempt?) && e.w.service(video) == status
  }

  lemma NextAnswers(s: State, e: Event, video: string)
    requires Inv(s) && video in Next(s, e).outcomes
    ensures (video in s.outcomes && Next(s, e).outcomes[video] == s.outcomes[video])
            || AnswersSo(e, video, Next(s, e).outcomes[video])
  {
    hide Continue, Retry, Due;
    InvVideos(s);
    match e
    case ContinueAttempt(w, life) => ContinueAnswers(s, w, life);
    case RetryAttempt(key, w, life) => RetryAnswers(s, key, w, life);
    case _ =>
  }

  /** Over any run every recorded outcome was there at first or is what the service answered in some pass. */
  lemma {:induction false} EveryOutcomeAnswered(s: State, events: seq<Event>, video: string)
    requires Inv(s) && video in Run(s, events).outcomes
    ensures (video in s.outcomes && Run(s, events).outcomes[video] == s.outcomes[video])
            || AnsweredIn(events, video, Run(s, events).outcomes[video])
    decreases |events|
  {
    hide Inv, Next, AnswersSo;
    if events != [] {
      var next, rest := Next(s, events[0]), events[1..];
      NextKeeps(s, events[0]);
      EveryOutcomeAnswered(next, rest, video);
      if AnsweredIn(rest, video, Run(s, events).outcomes[video]) {
        var k :| 0 <= k < |rest| && AnswersSo(rest[k], video, Run(s, events).outcomes[video]);
        assert events[k + 1] == rest[k];
      } else {
        NextAnswers(s, events[0], video);
      }
    }
  }

  // ----- how a pass ends -----

  /** Some video was acquired or was there already. */
  ghost predicate HasSource(outcomes: map<string, Status>) {
    exists v :: v in outcomes && (outcomes[v].Acquired? || outcomes[v].AlreadyPresent?)
  }

  /** Some video failed in a way that can be retried. */
  ghost predicate HasFailure(outcomes: map<string, Status>) { exists v :: v in outcomes && outcomes[v].FailedRetryable? }

  /** Where the session is after a pass that ended, and how often it has moved on since its revision was `before`. */
  ghost predicate EndsAt(before: nat, t: State, w: World) {
    if !HasSource(t.outcomes) && HasFailure(t.outcomes) then
      t.stage == FailedAcquiring && t.attempt == Retryable && t.revision == before + 1
    else if HasSource(t.outcomes) && !w.refreshes then
      t.stage == FailedReindexing && t.attempt == Completed && t.revision == before + 2
    else if !w.assesses then t.stage == FailedAssessing && t.attempt == Completed && t.revision == before + 3
    else
      && t.stage == AwaitingSufficiency && t.revision == before + 3
      && t.attempt == if HasFailure(t.outcomes) then Retryable else Completed
  }

  lemma OutcomesSay(outcomes: map<string, Status>)
    ensures AnyReady(outcomes) <==> HasSource(outcomes)
    ensures AnyRetryable(outcomes) <==> HasFailure(outcomes)
  {
    assert forall v :: v in outcomes ==> (IsReady(outcomes[v]) <==> outcomes[v].Acquired? || outcomes[v].AlreadyPresent?);
  }

  lemma ConcludeEnds(s: State, revision: nat, w: World, life: nat)
    ensures var p := Conclude(s, revision, w, life);
            && (p.end == Done ==> EndsAt(s.revision, p.s, w))
            && (p.end == Crashed ==> life < 4)
  {
    hide AnyReady, AnyRetryable, HasSource, HasFailure;
    OutcomesSay(s.outcomes);
  }

  lemma {:induction false} LoopLives(s: State, revision: nat, done: set<string>, i: nat, w: World, life: nat)
    requires i <= |s.videos|
    ensures var p := Loop(s, revision, done, i, w, life);
            && (p.end == Crashed ==> life < 2 * (|s.videos| - i))
            && (p.end == Done ==> p.life >= life - 2 * (|s.videos| - i) && p.s.revision == s.revision)
    decreases |s.videos| - i
  {
    hide Fail;
    if i < |s.videos| {
      var video := s.videos[i];
      if video in done {
        LoopLives(s, revision, done, i + 1, w, life);
      } else if video in s.candidates && life > 1 {
        var recorded := Record(CallService(s, video), revision, video, w.service(video));
        if recorded.Some? {
          LoopLives(recorded.value, revision, done, i + 1, w, life - 2);
        }
      }
    }
  }

  /** A pass that ends leaves the session where the answers say, and one that lives long enough does not die. */
  lemma ContinueEnds(s: State, w: World, life: nat)
    ensures var p := Continue(s, w, life);
            && (p.end == Done ==> EndsAt(s.revision, p.s, w))
            && (p.end == Crashed ==> life < 2 * |s.videos| + 4)
  {
    hide Loop, Conclude, EndsAt;
    LoopLives(s, s.revision, Finished(s.outcomes), 0, w, life);
    var p := Loop(s, s.revision, Finished(s.outcomes), 0, w, life);
    ConcludeEnds(p.s, s.revision, w, p.life);
  }

  /** Where reindexing and assessing end. */
  predicate FinishedAt(s: State, t: State, refresh: bool, partial: bool, w: World) {
    if refresh && !w.refreshes then
      t.stage == FailedReindexing && t.attempt == s.attempt && t.revision == s.revision + 1
    else AssessedAt(s.(revision := s.revision + 1), t, partial, w)
  }

  predicate AssessedAt(s: State, t: State, partial: bool, w: World) {
    && t.revision == s.revision + 1
    && if !w.assesses then t.stage == FailedAssessing && t.attempt == s.attempt
       else t.stage == AwaitingSufficiency && t.attempt == if partial then Retryable else s.attempt
  }

  lemma AssessEnds(s: State, partial: bool, w: World, life: nat)
    ensures var p := Assess(s, partial, w, life); p.end == Done ==> AssessedAt(s, p.s, partial, w)
  {
    hide AnyReady, AnyRetryable, Partial;
  }

  lemma FinishEnds(s: State, refresh: bool, partial: bool, w: World, life: nat)
    ensures var p := FinishReindexing(s, refresh, partial, w, life); p.end == Done ==> FinishedAt(s, p.s, refresh, partial, w)
  {
    hide AnyReady, Assess;
    if life > 0 {
      var t := if refresh then s.(refreshes := s.refreshes + [AnyReady(s.outcomes)]) else s;
      var rest := if refresh then life - 1 else life;
      if rest > 0 && Move(t, Reindexing, Assessing, t.revision).Some? {
        AssessEnds(Move(t, Reindexing, Assessing, t.revision).value, partial, w, rest - 1);
      }
    }
  }

  /** Where a retry that ends leaves the session, by what it took up. */
  lemma RetryEnds(s: State, key: Key, w: World, life: nat)
    requires Inv(s) && Retry(s, key, w, life).end == Done
    ensures Claim(s, key).Some?
    ensures var stage, t := Claim(s, key).value.stage, Retry(s, key, w, life).s;
            if stage == Reindexing then t.stage == if !w.refreshes then FailedReindexing
                                                   else if !w.assesses then FailedAssessing else AwaitingSufficiency
            else if stage == Assessing then t.stage == if !w.assesses then FailedAssessing else AwaitingSufficiency
            else EndsAt(Claim(s, key).value.revision, t, w)
  {
    hide Inv, Claim, FinishReindexing, Assess, Continue, EndsAt, Partial;
    var t := Claim(s, key).value;
    FinishEnds(t, true, Partial(t.outcomes), w, life - 1);
    AssessEnds(t, Partial(t.outcomes), w, life - 1);
    ContinueEnds(t, w, life - 1);
  }

  /** What a retry takes up. With a fresh key and the session's revision it is everything that is not new, not with
      the user and not finished; with a stored key it is what is under way, or a failure that is not final. */
  lemma RetryTakesUp(s: State, key: Key)
    requires Inv(s)
    ensures Claim(s, key).Some? <==>
              match key
              case Fresh(revision) =>
                && revision == s.revision && s.attempt != NotStarted && s.stage != Elsewhere
                && !(s.stage == AwaitingSufficiency && s.attempt == Completed)
              case Stored(finalizes) =>
                || s.stage == Reindexing || s.stage == Assessing || (s.stage == Acquiring && s.attempt != NotStarted)
                || (s.stage == FailedAcquiring && !finalizes)
    ensures Claim(s, key).Some? ==>
              var t := Claim(s, key).value;
              && t.stage == (if s.stage == Reindexing || s.stage == FailedReindexing then Reindexing
                             else if s.stage == Assessing || s.stage == FailedAssessing then Assessing else Acquiring)
              && t.attempt == (if t.stage == Acquiring then Running else Completed)
              && t.revision == s.revision + if key.Fresh? || s.stage == FailedAcquiring then 1 else 0
  {
    hide CallsJustified, CompletedFits;
  }

  // ----- refreshes that nothing warrants -----

  ghost predicate Warranted(refreshes: seq<bool>) { forall i :: 0 <= i < |refreshes| ==> refreshes[i] }

  /** A retry takes up reindexing, lives long enough to refresh, and no source is ready. */
  predicate RefreshesForNothing(s: State, e: Event) {
    && e.RetryAttempt? && e.life > 1
    && Claim(s, e.key).Some? && Claim(s, e.key).value.stage == Reindexing
    && !AnyReady(s.outcomes)
  }

  lemma ContinueRefreshes(s: State, w: World, life: nat)
    requires Inv(s) && Warranted(s.refreshes)
    ensures Warranted(Continue(s, w, life).s.refreshes)
  {
    hide Loop, FinishReindexing, AnyReady, AnyRetryable, OwnWork, Inv;
    var done := Finished(s.outcomes);
    LoopNeverRefreshes(s, s.revision, done, 0, w, life);
    BeginsOwnWork(s);
    LoopKeeps(s, done, 0, w, life);
    var p := Loop(s, s.revision, done, 0, w, life);
    if p.end == Done && p.life > 0 && Complete(p.s, s.revision).Some? {
      var ready, retryable := AnyReady(p.s.outcomes), AnyRetryable(p.s.outcomes);
      if ready || !retryable {
        CompleteKeeps(p.s, s.revision);
        FinishLeaves(Complete(p.s, s.revision).value.(partialFlag := Some(retryable)), ready, retryable, w, p.life - 1);
      }
    }
  }

  /** Exactly when an event refreshes the indexes without a ready source: a retry resumes an attempt that was
      completed with no source at all, its process having died before reindexing was recorded. */
  lemma WarrantedExactly(s: State, e: Event)
    requires Inv(s) && Warranted(s.refreshes)
    ensures Warranted(Next(s, e).refreshes) <==> !RefreshesForNothing(s, e)
  {
    hide Inv, Continue, FinishReindexing, Assess, Claim, AnyReady, AnyRetryable;
    match e
    case ContinueAttempt(w, life) => ContinueRefreshes(s, w, life);
    case RetryAttempt(key, w, life) =>
      if life > 0 && Claim(s, key).Some? {
        ClaimKeeps(s, key);
        ClaimRefreshes(s, key);
        var t := Claim(s, key).value;
        match t.stage {
          case Reindexing =>
            FinishLeaves(t, true, Partial(t.outcomes), w, life - 1);
            LastOf(s.refreshes, AnyReady(s.outcomes));
          case Assessing => AssessLeaves(t, Partial(t.outcomes), w, life - 1);
          case _ => ContinueRefreshes(t, w, life - 1);
        }
      }
    case _ =>
  }

  lemma ClaimRefreshes(s: State, key: Key)
    ensures Claim(s, key).Some? ==> Claim(s, key).value.refreshes == s.refreshes
    ensures Claim(s, key).Some? && Claim(s, key).value.stage == Reindexing && Inv(s) ==> Claim(s, key).value.attempt == Completed
  {
  }

  lemma LastOf(refreshes: seq<bool>, last: bool)
    requires Warranted(refreshes)
    ensures Warranted(refreshes + [last]) <==> last
  {
    assert (refreshes + [last])[|refreshes|] == last;
  }

  /** It happens: one video without a transcript, a crash right after the attempt is completed, and a retry. */
  lemma RefreshForNothingHappens()
    ensures var w := World((v: string) => NoTranscript, true, true);
            Run(Approved(["a"], 0), [StartAttempt(0), ContinueAttempt(w, 3), RetryAttempt(Fresh(1), w, 2)]).refreshes == [false]
  {
    var w := World((v: string) => NoTranscript, true, true);
    var s0 := Approved(["a"], 0);
    var s1 := s0.(attempt := Running);
    FirstPassDies(w);
    RetryRefreshes(w);
    RunThree(s0, StartAttempt(0), ContinueAttempt(w, 3), RetryAttempt(Fresh(1), w, 2)) by {
      assert Next(s0, StartAttempt(0)) == s1;
    }
  }

  /** One video, no transcript for it, and a process that dies when the attempt is completed. */
  function AfterFirstPass(): State {
    State(["a"], Reindexing, 1, Completed, map["a" := NoTranscript], {"a"}, [Call("a", None)], [], Some(false))
  }

  lemma FirstPassDies(w: World)
    requires w.service("a") == NoTranscript
    ensures Next(Approved(["a"], 0).(attempt := Running), ContinueAttempt(w, 3)) == AfterFirstPass()
  {
    var s1 := Approved(["a"], 0).(attempt := Running);
    var s2 := s1.(calls := [Call("a", None)], outcomes := map["a" := NoTranscript]);
    assert CallService(s1, "a") == s1.(calls := [Call("a", None)]);
    assert Loop(s2, 0, {}, 1, w, 1) == Pass(s2, 1, Done);
    assert Loop(s1, 0, {}, 0, w, 3) == Pass(s2, 1, Done);
    assert Finished(s1.outcomes) == {};
    assert s1.candidates == {"a"} by { assert s1.videos[0] == "a"; }
    Concludes(s2, w);
  }

  lemma Concludes(s: State, w: World)
    requires s == State(["a"], Acquiring, 0, Running, map["a" := NoTranscript], {"a"}, [Call("a", None)], [], None)
    ensures Conclude(s, 0, w, 1).s == AfterFirstPass()
  {
    hide Assess;
    assert s.outcomes.Keys == (set v | v in s.videos) by { assert s.videos[0] == "a"; }
  }

  lemma RetryRefreshes(w: World)
    requires w.refreshes
    ensures Next(AfterFirstPass(), RetryAttempt(Fresh(1), w, 2)).refreshes == [false]
  {
    hide Continue;
    AssessLeaves(AfterFirstPass().(stage := Assessing, revision := 3, refreshes := [false]), false, w, 0);
  }

  lemma RunThree(s: State, a: Event, b: Event, c: Event)
    ensures Run(s, [a, b, c]) == Next(Next(Next(s, a), b), c)
  {
    hide Next;
    assert [a, b, c][1..] == [b, c] && [b, c][1..] == [c] && [c][1..] == [];
    assert Run(s, [a, b, c]) == Run(Next(s, a), [b, c]);
    assert Run(Next(s, a), [b, c]) == Run(Next(Next(s, a), b), [c]);
  }

  // ----- the workflow driving the store -----

  /** A workflow process over a durable store. It dies when its life is used up; the store stays. */
  class ResearchWorkflow {
    var store: State
    var life: nat

    constructor (s: State, life: nat)
      ensures store == s && this.life == life
    {
      store, this.life := s, life;
    }

    /** One transaction of the store. */
    method Transact(written: Option<State>) returns (end: End)
      modifies this
      ensures Pass(store, life, end) == Write(old(store), written, old(life))
    {
      if life == 0 {
        return Crashed;
      }
      life := life - 1;
      if written.None? {
        return Refused;
      }
      store := written.value;
      return Done;
    }

    /** The loop over the videos of the attempt. */
    method AcquireVideos(w: World, revision: nat, done: set<string>) returns (end: End)
      requires Inv(store) && OwnWork(store, done, 0) && revision == store.revision
      modifies this
      ensures Pass(store, life, end) == Loop(old(store), revision, done, 0, w, old(life))
      ensures Inv(store) && Keeps(old(store), store)
      ensures end == Done ==> (forall v :: v in store.videos ==> v in store.outcomes)
                              && store == old(store).(outcomes := store.outcomes, calls := store.calls)
      ensures done == Finished(old(store).outcomes) ==>
                Heard(old(store), store, w) && (end == Done ==> HeardAll(old(store), store, w))
    {
      hide Record, Fail, Inv, Keeps, OwnWork, Heard, HeardAll, Answered;
      LoopKeeps(store, done, 0, w, life);
      InvVideos(store);
      NothingAnswered(store, w);
      LoopAnswers(store, store, revision, 0, w, life);
      var i := 0;
      while i < |store.videos|
        invariant i <= |store.videos| && store.videos == old(store).videos
        invariant Loop(old(store), revision, done, 0, w, old(life)) == Loop(store, revision, done, i, w, life)
        decreases |old(store).videos| - i
      {
        var video := store.videos[i];
        if video !in done {
          if video !in store.candidates {
            FailLeaves(store, revision);
            end := Transact(Fail(store, revision));
            return if end == Done then Stopped else end;
          }
          if life == 0 {
            return Crashed;
          }
          life := life - 1;
          store := CallService(store, video);
          RecordLeavesVideos(store, revision, video, w.service(video));
          end := Transact(Record(store, revision, video, w.service(video)));
          if end != Done {
            return;
          }
        }
        i := i + 1;
      }
      return Done;
    }

    /** `_continue_acquisition`: the service is called only for videos without a final outcome, final outcomes stay;
        and with every video still a candidate the pass dies or ends with an outcome for each. */
    method ContinueAcquisition(w: World) returns (end: End)
      requires Inv(store)
      modifies this
      ensures Pass(store, life, end) == Continue(old(store), w, old(life))
      ensures Inv(store) && Keeps(old(store), store)
      ensures Heard(old(store), store, w)
      ensures end == Done ==> HeardAll(old(store), store, w) && EndsAt(old(store).revision, store, w)
      ensures Active(old(store), old(store).revision) && AllApproved(old(store)) ==>
                && (end == Done || (end == Crashed && old(life) < 2 * |old(store).videos| + 4))
                && (end == Done ==>
                      && store.outcomes.Keys == (set v | v in store.videos)
                      && (store.stage != FailedAcquiring <==> AnyReady(store.outcomes) || !AnyRetryable(store.outcomes))
                      && store.refreshes == old(store).refreshes + if AnyReady(store.outcomes) then [true] else [])
    {
      hide Loop, FinishReindexing, Complete, Fail, AnyReady, AnyRetryable, Inv, Keeps, OwnWork, Heard, HeardAll, EndsAt;
      InvVideos(store);
      BeginsOwnWork(store);
      ContinueKeeps(store, w, life);
      ContinueAnswers(store, w, life);
      ContinueEnds(store, w, life);
      if Active(store, store.revision) && AllApproved(store) {
        PassCompletes(store, w, life);
        KeepsVideos(store, Continue(store, w, life).s);
      }
      var revision := store.revision;
      end := AcquireVideos(w, revision, Finished(store.outcomes));
      if end != Done {
        return;
      }
      var ready, retryable := AnyReady(store.outcomes), AnyRetryable(store.outcomes);
      if !ready && retryable {
        end := Transact(Fail(store, revision));
        return;
      }
      CompleteKeeps(store, revision);
      end := Transact(Complete(store, revision));
      if end != Done {
        return;
      }
      store := store.(partialFlag := Some(retryable));
      end := RefreshAndAssess(ready, retryable, w);
    }

    /** `_finish_reindexing`: one refresh if told to; the store never refuses it and no outcome changes. */
    method RefreshAndAssess(refresh: bool, partial: bool, w: World) returns (end: End)
      requires Inv(store) && store.attempt == Completed
      modifies this
      ensures Pass(store, life, end) == FinishReindexing(old(store), refresh, partial, w, old(life))
      ensures Inv(store) && Keeps(old(store), store)
      ensures end == Done ==> FinishedAt(old(store), store, refresh, partial, w)
      ensures old(store).stage == Reindexing && partial == Partial(old(store).outcomes) ==>
                && (end == Done || end == Crashed) && store.outcomes == old(store).outcomes
                && store.refreshes ==
                   old(store).refreshes + if refresh && old(life) > 0 then [AnyReady(store.outcomes)] else []
    {
      hide Assess, Inv, Keeps, AnyReady, Partial, FinishedAt;
      FinishKeeps(store, refresh, partial, w, life);
      FinishEnds(store, refresh, partial, w, life);
      RefreshKeeps(store, AnyReady(store.outcomes));
      if store.stage == Reindexing && partial == Partial(store.outcomes) {
        FinishLeaves(store, refresh, partial, w, life);
      }
      if refresh {
        if life == 0 {
          return Crashed;
        }
        life := life - 1;
        store := store.(refreshes := store.refreshes + [AnyReady(store.outcomes)]);
        if !w.refreshes {
          end := Transact(Move(store, Reindexing, FailedReindexing, store.revision));
          return;
        }
      }
      MoveKeeps(store, Reindexing, Assessing, store.revision);
      end := Transact(Move(store, Reindexing, Assessing, store.revision));
      if end == Done {
        end := AssessSession(partial, w);
      }
    }

    /** `_assess_session`: the session waits for its user or the assessment has failed, and no outcome changes. */
    method AssessSession(partial: bool, w: World) returns (end: End)
      requires Inv(store) && store.attempt == Completed
      modifies this
      ensures Pass(store, life, end) == Assess(old(store), partial, w, old(life))
      ensures Inv(store) && Keeps(old(store), store) && store.outcomes == old(store).outcomes
      ensures end == Done ==> AssessedAt(old(store), store, partial, w)
      ensures end != Done ==> store == old(store)
      ensures old(store).stage == Assessing && partial == Partial(old(store).outcomes) ==> end == Done || end == Crashed
    {
      hide Inv, Keeps, Partial;
      AssessKeeps(store, partial, w, life);
      AssessLeaves(store, partial, w, life);
      if !w.assesses {
        end := Transact(Move(store, Assessing, FailedAssessing, store.revision));
      } else if partial {
        end := Transact(RecordPartial(store, store.revision));
      } else {
        end := Transact(Move(store, Assessing, AwaitingSufficiency, store.revision));
      }
    }

    /** `retry` and `_resume_retry`, with the attempt's lock held: final outcomes stay, and the indexes are refreshed
        without need exactly when reindexing is taken up with no source ready. */
    method RetryAcquisition(key: Key, w: World) returns (end: End)
      requires Inv(store)
      modifies this
      ensures Pass(store, life, end) == Retry(old(store), key, w, old(life))
      ensures Inv(store) && Keeps(old(store), store) && Heard(old(store), store, w)
      ensures end == Done && Claim(old(store), key).value.stage == Acquiring ==>
                HeardAll(old(store), store, w) && EndsAt(Claim(old(store), key).value.revision, store, w)
      ensures Warranted(old(store).refreshes) ==>
                (Warranted(store.refreshes) <==> !RefreshesForNothing(old(store), RetryAttempt(key, w, old(life))))
    {
      hide Claim, FinishReindexing, Assess, Continue, Partial, Inv, Keeps, Warranted, RefreshesForNothing;
      hide Heard, HeardAll, EndsAt;
      InvVideos(store);
      RetryKeeps(store, key, w, life);
      RetryAnswers(store, key, w, life);
      if Retry(store, key, w, life).end == Done {
        RetryEnds(store, key, w, life);
      }
      if Warranted(store.refreshes) {
        WarrantedExactly(store, RetryAttempt(key, w, life));
      }
      if Claim(store, key).Some? {
        ClaimKeeps(store, key);
      }
      end := Transact(Claim(store, key));
      if end != Done {
        return;
      }
      var partial := Partial(store.outcomes);
      match store.stage {
        case Reindexing => end := RefreshAndAssess(true, partial, w);
        case Assessing => end := AssessSession(partial, w);
        case _ => end := ContinueAcquisition(w);
      }
    }
  }

  lemma InvVideos(s: State)
    requires Inv(s)
    ensures NoRepeats(s.videos)
  {
  }

  lemma KeepsVideos(s: State, t: State)
    requires Keeps(s, t)
    ensures t.videos == s.videos
  {
  }

  lemma FailLeaves(s: State, revision: nat)
    ensures Fail(s, revision).Some? ==> Fail(s, revision).value.videos == s.videos
  {
  }

  lemma RecordLeavesVideos(s: State, revision: nat, video: string, status: Status)
    ensures Record(s, revision, video, status).Some? ==> Record(s, revision, video, status).value.videos == s.videos
  {
  }
}
