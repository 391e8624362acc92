/** `web/jobs.py`: a bounded registry of jobs run one at a time, as atomic lock-protected steps. */
module Jobs {
  import opened Basics

  const MAX_RESULT_BYTES := 24 * 1024
  const OPERATION_FAILED := "operation_failed"

  datatype Status = Queued | Running | Succeeded | Failed

  predicate Terminal(s: Status) { s.Succeeded? || s.Failed? }

  /** A JSON object result, or the marker that replaces one that is too large. */
  datatype Public = Truncated | Mapping(value: int)

  datatype Record = Record(kind: string, status: Status, result: Option<Public>, errorCode: Option<string>)

  /** A scheduled call of `_run`. */
  datatype Work = Work(id: string, operation: int)

  /** What calling an operation does. */
  datatype Outcome = Raises | NotAMapping | NotEncodable | Returns(value: int, encodedBytes: nat)

  /** What the id factory and the thread pool do when asked. */
  datatype IdChoice = FactoryRaises | NotAString | Id(id: string)
  datatype Pool = Accepts | Refuses

  datatype SubmitResult = Accepted(id: string, record: Record) | ValueError | Closed | QueueFull | FactoryError | PoolError

  datatype Limits = Limits(maxQueued: nat, maxRecords: nat)

  /** Everything the lock protects, the pool's queue and the job its one worker is running. */
  datatype State = State(
    records: map<string, Record>,
    terminal: seq<string>,
    used: nat,
    closed: bool,
    queue: seq<Work>,
    current: Option<Work>)

  const Initial := State(map[], [], 0, false, [], None)

  function Ids(q: seq<Work>): (ids: seq<string>)
    ensures |ids| == |q|
  {
    if q == [] then [] else [q[0].id] + Ids(q[1..])
  }

  function Worker(s: State): seq<Work> { if s.current.Some? then [s.current.value] else [] }

  /** Every job of the registry: finished ones in completion order, the running one, the queued ones. */
  function Line(s: State): seq<string> { s.terminal + Ids(Worker(s)) + Ids(s.queue) }

  /** The line names every record exactly once. */
  ghost predicate Named(s: State) { multiset(Line(s)) == multiset(s.records.Keys) }

  ghost predicate AllHave(records: map<string, Record>, ids: seq<string>, status: Status -> bool) {
    forall i :: 0 <= i < |ids| ==> ids[i] in records && status(records[ids[i]].status)
  }

  /** Each record has the status of its place in the line. */
  ghost predicate Placed(s: State) {
    && AllHave(s.records, s.terminal, Terminal)
    && AllHave(s.records, Ids(Worker(s)), IsRunning)
    && AllHave(s.records, Ids(s.queue), IsQueued)
  }

  predicate IsRunning(s: Status) { s == Running }
  predicate IsQueued(s: Status) { s == Queued }

  /** Holds whenever the lock is free. */
  ghost predicate Inv(l: Limits, s: State) {
    && Named(s)
    && Placed(s)
    && s.used == Live(s) <= l.maxQueued + 1
    && |s.terminal| + Live(s) <= l.maxRecords
  }

  function Live(s: State): nat { |Worker(s)| + |s.queue| }

  /** How many of the oldest finished jobs must go for at most `bound` records to stay, if that many are finished. */
  function Surplus(s: State, bound: int): nat {
    var over := |s.records| - bound;
    if over <= 0 then 0 else if over <= |s.terminal| then over else |s.terminal|
  }

  function Without(records: map<string, Record>, ids: seq<string>): map<string, Record> {
    map id | id in records && id !in ids :: records[id]
  }

  /** `_evict_terminal_records_locked`: the `n` oldest finished jobs leave the registry. */
  function Drop(s: State, n: nat): State
    requires n <= |s.terminal|
  {
    s.(terminal := s.terminal[n..], records := Without(s.records, s.terminal[..n]))
  }

  function Evict(s: State, bound: int): State { Drop(s, Surplus(s, bound)) }

  function Submitted(l: Limits, s: State, kind: string, operation: int, id: IdChoice, pool: Pool): (State, SubmitResult) {
    if kind == "" then (s, ValueError)
    else if s.closed then (s, Closed)
    else if s.used >= l.maxQueued + 1 then (s, QueueFull)
    else
      var e := Evict(s, l.maxRecords - 1);
      if |e.records| >= l.maxRecords then (e, QueueFull)
      else if id.FactoryRaises? then (e, FactoryError)
      else if id.NotAString? || id.id == "" || id.id in e.records then (e, ValueError)
      else if pool.Refuses? then (e, PoolError)
      else
        var record := Record(kind, Queued, None, None);
        (e.(records := e.records[id.id := record], used := e.used + 1, queue := e.queue + [Work(id.id, operation)]),
         Accepted(id.id, record))
  }

  function Begun(s: State): State {
    if s.current.Some? || s.queue == [] then s
    else
      var w := s.queue[0];
      s.(queue := s.queue[1..], current := Some(w),
         records := if w.id in s.records then s.records[w.id := s.records[w.id].(status := Running)] else s.records)
  }

  function Published(r: Record, o: Outcome): Record {
    match o
    case Returns(value, bytes) =>
      r.(status := Succeeded, errorCode := None,
         result := Some(if bytes > MAX_RESULT_BYTES then Truncated else Mapping(value)))
    case _ => r.(status := Failed, result := None, errorCode := Some(OPERATION_FAILED))
  }

  function Finished(l: Limits, s: State, o: Outcome): State {
    if s.current.None? then s
    else
      var id := s.current.value.id;
      var free := s.(current := None, used := if s.used == 0 then 0 else s.used - 1);
      if id in s.records then
        Evict(free.(records := s.records[id := Published(s.records[id], o)], terminal := s.terminal + [id]),
              l.maxRecords)
      else free
  }

  /** One lock-protected region, or one move of the worker. */
  datatype Step =
    | Submit(kind: string, operation: int, choice: IdChoice, pool: Pool)
    | Begin
    | Finish(outcome: Outcome)
    | Get(id: string)
    | Close

  function Next(l: Limits, s: State, step: Step): State {
    match step
    case Submit(kind, operation, id, pool) => Submitted(l, s, kind, operation, id, pool).0
    case Begin => Begun(s)
    case Finish(outcome) => Finished(l, s, outcome)
    case Get(_) => s
    case Close => s.(closed := true)
  }

  // ----- invariants -----

  lemma {:induction false} IdsAppend(q: seq<Work>, r: seq<Work>)
    ensures Ids(q + r) == Ids(q) + Ids(r)
  {
    if q == [] {
      assert q + r == r;
    } else {
      assert (q + r)[1..] == q[1..] + r;
      IdsAppend(q[1..], r);
    }
  }

  lemma RecordCount(s: State)
    requires Named(s)
    ensures |s.records| == |s.terminal| + Live(s)
  {
    assert |multiset(Line(s))| == |Line(s)|;
    assert |multiset(s.records.Keys)| == |s.records.Keys| == |s.records|;
  }

  /** Cutting a line of distinct names: no name of one part is in the other. */
  lemma CutLine(records: map<string, Record>, a: seq<string>, b: seq<string>)
    requires multiset(a + b) == multiset(records.Keys)
    ensures forall i :: 0 <= i < |b| ==> b[i] in records && b[i] !in a
    ensures multiset(b) == multiset(Without(records, a).Keys)
  {
    assert multiset(a + b) == multiset(a) + multiset(b);
    forall i | 0 <= i < |b| ensures b[i] in records && b[i] !in a {
      assert b[i] in multiset(b);
      assert multiset(records.Keys)[b[i]] <= 1;
      assert b[i] !in multiset(a);
    }
    forall id ensures multiset(b)[id] == multiset(Without(records, a).Keys)[id] {
      assert multiset(records.Keys)[id] <= 1;
      assert id in multiset(a) <==> id in a;
      assert id in records <==> id in multiset(a + b);
    }
  }

  lemma DropHas(s: State, n: nat, ids: seq<string>)
    requires n <= |s.terminal| && forall i :: 0 <= i < |ids| ==> ids[i] in s.records && ids[i] !in s.terminal[..n]
    ensures forall i :: 0 <= i < |ids| ==> ids[i] in Drop(s, n).records
  {
  }

  lemma DropNamed(s: State, n: nat)
    requires Named(s) && n <= |s.terminal|
    ensures Named(Drop(s, n))
    ensures forall i :: 0 <= i < |Line(Drop(s, n))| ==> Line(Drop(s, n))[i] in Drop(s, n).records
  {
    hide Ids, Without;
    var a, t := s.terminal[..n], Drop(s, n);
    assert s.terminal == a + t.terminal;
    assert Line(s) == a + Line(t);
    CutLine(s.records, a, Line(t));
    DropHas(s, n, Line(t));
  }

  lemma AllHaveWithout(records: map<string, Record>, ids: seq<string>, status: Status -> bool, gone: seq<string>)
    requires AllHave(records, ids, status) && forall i :: 0 <= i < |ids| ==> ids[i] !in gone
    ensures AllHave(Without(records, gone), ids, status)
  {
  }

  lemma DisjointParts(a: seq<string>, x: seq<string>, y: seq<string>, z: seq<string>)
    requires forall i :: 0 <= i < |x + y + z| ==> (x + y + z)[i] !in a
    ensures forall i :: 0 <= i < |x| ==> x[i] !in a
    ensures forall i :: 0 <= i < |y| ==> y[i] !in a
    ensures forall i :: 0 <= i < |z| ==> z[i] !in a
  {
    assert forall i :: 0 <= i < |x| ==> x[i] == (x + y + z)[i];
    assert forall i :: 0 <= i < |y| ==> y[i] == (x + y + z)[|x| + i];
    assert forall i :: 0 <= i < |z| ==> z[i] == (x + y + z)[|x| + |y| + i];
  }

  /** The jobs that go are not named again further down the line. */
  lemma DropDisjoint(s: State, n: nat)
    requires Named(s) && n <= |s.terminal|
    ensures forall i :: 0 <= i < |s.terminal[n..]| ==> s.terminal[n..][i] !in s.terminal[..n]
    ensures forall i :: 0 <= i < |Ids(Worker(s))| ==> Ids(Worker(s))[i] !in s.terminal[..n]
    ensures forall i :: 0 <= i < |Ids(s.queue)| ==> Ids(s.queue)[i] !in s.terminal[..n]
  {
    hide Ids, Worker;
    var a, rest := s.terminal[..n], s.terminal[n..] + Ids(Worker(s)) + Ids(s.queue);
    assert s.terminal == a + s.terminal[n..];
    assert Line(s) == a + rest;
    CutLine(s.records, a, rest);
    DisjointParts(a, s.terminal[n..], Ids(Worker(s)), Ids(s.queue));
  }

  lemma DropPlaced(s: State, n: nat)
    requires Named(s) && Placed(s) && n <= |s.terminal|
    ensures Placed(Drop(s, n))
  {
    DropDisjoint(s, n);
    AllHaveWithout(s.records, s.terminal[n..], Terminal, s.terminal[..n]);
    AllHaveWithout(s.records, Ids(Worker(s)), IsRunning, s.terminal[..n]);
    AllHaveWithout(s.records, Ids(s.queue), IsQueued, s.terminal[..n]);
  }

  /** Dropping the oldest finished jobs keeps the registry in order. */
  lemma DropKeeps(l: Limits, s: State, n: nat)
    requires Inv(l, s) && n <= |s.terminal|
    ensures Inv(l, Drop(s, n))
    ensures |Drop(s, n).records| == |s.records| - n
  {
    DropNamed(s, n);
    DropPlaced(s, n);
    RecordCount(s);
    RecordCount(Drop(s, n));
  }

  lemma EvictKeeps(l: Limits, s: State)
    requires Inv(l, s)
    ensures Inv(l, Evict(s, l.maxRecords - 1))
  {
    DropKeeps(l, s, Surplus(s, l.maxRecords - 1));
  }

  lemma EvictMakesRoom(l: Limits, s: State)
    requires Inv(l, s)
    ensures |Evict(s, l.maxRecords - 1).records| < l.maxRecords <==> Live(s) < l.maxRecords
  {
    RecordCount(s);
    DropKeeps(l, s, Surplus(s, l.maxRecords - 1));
  }

  function Enqueued(s: State, w: Work, kind: string): State {
    s.(records := s.records[w.id := Record(kind, Queued, None, None)], used := s.used + 1, queue := s.queue + [w])
  }

  lemma NamedAppend(line: seq<string>, records: map<string, Record>, id: string, r: Record)
    requires multiset(line) == multiset(records.Keys) && id !in records
    ensures multiset(line + [id]) == multiset(records[id := r].Keys)
  {
    assert records[id := r].Keys == records.Keys + {id};
  }

  lemma QueueAppend(s: State, w: Work, kind: string)
    ensures Ids(Enqueued(s, w, kind).queue) == Ids(s.queue) + [w.id]
    ensures Line(Enqueued(s, w, kind)) == Line(s) + [w.id]
  {
    IdsAppend(s.queue, [w]);
    assert Ids([w]) == [w.id];
  }

  lemma EnqueueNamed(s: State, w: Work, kind: string)
    requires Named(s) && w.id !in s.records
    ensures Named(Enqueued(s, w, kind))
  {
    QueueAppend(s, w, kind);
    NamedAppend(Line(s), s.records, w.id, Record(kind, Queued, None, None));
  }

  lemma AllHaveWith(records: map<string, Record>, ids: seq<string>, status: Status -> bool, id: string, r: Record)
    requires AllHave(records, ids, status) && id !in records
    ensures AllHave(records[id := r], ids, status)
    ensures status(r.status) ==> AllHave(records[id := r], ids + [id], status)
  {
  }

  lemma EnqueuePlaced(s: State, w: Work, kind: string)
    requires Placed(s) && w.id !in s.records
    ensures Placed(Enqueued(s, w, kind))
  {
    QueueAppend(s, w, kind);
    var r := Record(kind, Queued, None, None);
    AllHaveWith(s.records, s.terminal, Terminal, w.id, r);
    AllHaveWith(s.records, Ids(Worker(s)), IsRunning, w.id, r);
    AllHaveWith(s.records, Ids(s.queue), IsQueued, w.id, r);
  }

  lemma EnqueueKeeps(l: Limits, s: State, w: Work, kind: string)
    requires Inv(l, s) && w.id !in s.records
    requires s.used <= l.maxQueued && |s.records| < l.maxRecords
    ensures Inv(l, Enqueued(s, w, kind))
  {
    EnqueueNamed(s, w, kind);
    EnqueuePlaced(s, w, kind);
    RecordCount(s);
  }

  /** A submission leaves the state alone, evicts, or evicts and enqueues. */
  lemma SubmitCases(l: Limits, s: State, kind: string, operation: int, id: IdChoice, pool: Pool)
    ensures var (t, r) := Submitted(l, s, kind, operation, id, pool);
            var e := Evict(s, l.maxRecords - 1);
            if r.Accepted?
            then id == Id(r.id) && r.id !in e.records && s.used <= l.maxQueued && |e.records| < l.maxRecords &&
                 t == Enqueued(e, Work(r.id, operation), kind)
            else t == s || t == e
  {
    hide Evict;
  }

  lemma SubmitKeeps(l: Limits, s: State, kind: string, operation: int, id: IdChoice, pool: Pool)
    requires Inv(l, s)
    ensures Inv(l, Submitted(l, s, kind, operation, id, pool).0)
  {
    EvictKeeps(l, s);
    SubmitCases(l, s, kind, operation, id, pool);
    var e := Evict(s, l.maxRecords - 1);
    var r := Submitted(l, s, kind, operation, id, pool).1;
    if r.Accepted? {
      EnqueueKeeps(l, e, Work(r.id, operation), kind);
    }
  }

  /** Giving one job of the line another record leaves the jobs on both sides of it alone. */
  lemma UpdateMiddle(records: map<string, Record>, a: seq<string>, x: string, b: seq<string>, r: Record)
    requires multiset(a + ([x] + b)) == multiset(records.Keys)
    ensures x in records && records[x := r].Keys == records.Keys
    ensures forall i :: 0 <= i < |a| ==> a[i] in records && records[x := r][a[i]] == records[a[i]]
    ensures forall i :: 0 <= i < |b| ==> b[i] in records && records[x := r][b[i]] == records[b[i]]
  {
    assert multiset(a + ([x] + b)) == multiset(a) + (multiset{x} + multiset(b));
    assert x in multiset(records.Keys);
    assert multiset(records.Keys)[x] == 1;
    assert x !in multiset(a) && x !in multiset(b);
    forall i | 0 <= i < |a| ensures a[i] in records && a[i] != x {
      assert a[i] in multiset(a);
      assert a[i] in multiset(records.Keys);
    }
    forall i | 0 <= i < |b| ensures b[i] in records && b[i] != x {
      assert b[i] in multiset(b);
      assert b[i] in multiset(records.Keys);
    }
  }

  /** The first waiting job goes to the worker: the line of names is the same. */
  lemma BegunLine(s: State)
    requires s.current.None? && s.queue != [] && s.queue[0].id in s.records
    ensures var w, t := s.queue[0], Begun(s);
            && Ids(Worker(s)) == [] && Ids(Worker(t)) == [w.id] && Ids(s.queue) == [w.id] + Ids(t.queue)
            && Line(s) == s.terminal + ([w.id] + Ids(t.queue)) && Line(t) == Line(s)
  {
    var w, t := s.queue[0], Begun(s);
    assert Ids(s.queue) == [w.id] + Ids(t.queue);
    assert Ids(Worker(t)) == [w.id];
  }

  lemma FirstIsNamed(s: State)
    requires Placed(s) && s.queue != []
    ensures s.queue[0].id in s.records
  {
    assert Ids(s.queue)[0] == s.queue[0].id;
  }

  lemma BegunNamed(s: State)
    requires Named(s) && s.current.None? && s.queue != [] && s.queue[0].id in s.records
    ensures Named(Begun(s))
  {
    hide Ids, Worker, Line;
    BegunLine(s);
    assert Begun(s).records.Keys == s.records.Keys;
  }

  lemma BegunPlaced(s: State)
    requires Named(s) && Placed(s) && s.current.None? && s.queue != [] && s.queue[0].id in s.records
    ensures Placed(Begun(s))
  {
    hide Ids, Worker, Line, AllHave;
    BegunLine(s);
    var id, rest := s.queue[0].id, Ids(Begun(s).queue);
    assert Ids(s.queue) == [id] + rest;
    UpdateMiddle(s.records, s.terminal, id, rest, s.records[id].(status := Running));
    AllHaveElsewhere(s.records, s.terminal, Terminal, id, s.records[id].(status := Running));
    TailHas(s.records, id, rest, IsQueued);
    AllHaveElsewhere(s.records, rest, IsQueued, id, s.records[id].(status := Running));
    OneHas(s.records[id := s.records[id].(status := Running)], id, IsRunning);
  }

  lemma AllHaveElsewhere(records: map<string, Record>, ids: seq<string>, status: Status -> bool, id: string, r: Record)
    requires AllHave(records, ids, status)
    requires forall i :: 0 <= i < |ids| ==> ids[i] in records && records[id := r][ids[i]] == records[ids[i]]
    ensures AllHave(records[id := r], ids, status)
  {
  }

  lemma TailHas(records: map<string, Record>, id: string, rest: seq<string>, status: Status -> bool)
    requires AllHave(records, [id] + rest, status)
    ensures AllHave(records, rest, status)
  {
    assert forall i :: 0 <= i < |rest| ==> rest[i] == ([id] + rest)[i + 1];
  }

  lemma OneHas(records: map<string, Record>, id: string, status: Status -> bool)
    requires id in records && status(records[id].status)
    ensures AllHave(records, [id], status)
  {
  }

  lemma BeginKeeps(l: Limits, s: State)
    requires Inv(l, s)
    ensures Inv(l, Begun(s))
  {
    hide Named, Placed, Ids, Line;
    if s.current.None? && s.queue != [] {
      FirstIsNamed(s);
      BegunNamed(s);
      BegunPlaced(s);
    }
  }

  function Completed(s: State, o: Outcome): State
    requires s.current.Some? && s.current.value.id in s.records && s.used > 0
  {
    var id := s.current.value.id;
    s.(current := None, used := s.used - 1, terminal := s.terminal + [id],
       records := s.records[id := Published(s.records[id], o)])
  }

  /** A finishing job changes its own record and takes its place behind the jobs finished before it. */
  lemma CompleteKeeps(l: Limits, s: State, o: Outcome)
    requires Inv(l, s) && s.current.Some?
    ensures s.current.value.id in s.records && s.used > 0 && Inv(l, Completed(s, o))
  {
    var id := s.current.value.id;
    assert Ids(Worker(s)) == [id];
    assert Ids(Worker(s))[0] == id;
    var t := Completed(s, o);
    assert Line(t) == Line(s) == s.terminal + ([id] + Ids(s.queue));
    UpdateMiddle(s.records, s.terminal, id, Ids(s.queue), Published(s.records[id], o));
    assert Named(t);
  }

  /** Eviction on completion never has anything to drop. */
  lemma FinishOnlyAppends(l: Limits, s: State, o: Outcome)
    requires Inv(l, s) && s.current.Some?
    ensures s.current.value.id in s.records && s.used > 0 && Finished(l, s, o) == Completed(s, o)
  {
    CompleteKeeps(l, s, o);
    var t := Completed(s, o);
    RecordCount(t);
    assert Surplus(t, l.maxRecords) == 0;
    assert Without(t.records, []) == t.records;
  }

  lemma NextKeeps(l: Limits, s: State, step: Step)
    requires Inv(l, s)
    ensures Inv(l, Next(l, s, step))
  {
    hide Inv, Submitted, Begun, Finished;
    match step
    case Submit(kind, operation, id, pool) => SubmitKeeps(l, s, kind, operation, id, pool);
    case Begin => BeginKeeps(l, s);
    case Finish(outcome) =>
      if s.current.Some? {
        FinishOnlyAppends(l, s, outcome);
        CompleteKeeps(l, s, outcome);
      } else {
        FinishIdle(l, s, outcome);
      }
    case Get(_) =>
    case Close => CloseKeeps(l, s);
  }

  lemma FinishIdle(l: Limits, s: State, o: Outcome)
    requires s.current.None?
    ensures Finished(l, s, o) == s
  {
  }

  lemma CloseKeeps(l: Limits, s: State)
    requires Inv(l, s)
    ensures Inv(l, s.(closed := true))
  {
    assert Line(s.(closed := true)) == Line(s);
  }

  /** Admission: with a good id and a willing pool, exactly the open, uncrowded executor accepts. */
  lemma AcceptedExactly(l: Limits, s: State, kind: string, operation: int, id: string)
    requires Inv(l, s) && kind != "" && id != "" && id !in s.records
    ensures Submitted(l, s, kind, operation, Id(id), Accepts).1.Accepted? <==>
            !s.closed && Live(s) <= l.maxQueued && Live(s) < l.maxRecords
  {
    EvictMakesRoom(l, s);
    var e := Evict(s, l.maxRecords - 1);
    assert id !in e.records;
  }

  /** A refused submission leaves every unfinished job and every permit alone. */
  lemma RefusedKeepsLive(l: Limits, s: State, kind: string, operation: int, id: IdChoice, pool: Pool)
    requires !Submitted(l, s, kind, operation, id, pool).1.Accepted?
    ensures var t := Submitted(l, s, kind, operation, id, pool).0;
            t.queue == s.queue && t.current == s.current && t.used == s.used && t.closed == s.closed
  {
  }

  /** How many of the oldest finished jobs must go to make room for one more. */
  function Gone(l: Limits, s: State): nat {
    if |s.records| < l.maxRecords then 0
    else if |s.records| - l.maxRecords + 1 <= |s.terminal| then |s.records| - l.maxRecords + 1 else |s.terminal|
  }

  /** The submission gets as far as the registry. */
  predicate Considered(l: Limits, s: State, kind: string) { kind != "" && !s.closed && Live(s) <= l.maxQueued }

  /** A string that names no job that stays. */
  predicate GoodId(l: Limits, s: State, choice: IdChoice) {
    choice.Id? && choice.id != "" && (choice.id in s.records ==> choice.id in s.terminal[..Gone(l, s)])
  }

  /** When a submission is accepted, and each reason for which it is not. */
  ghost predicate Admits(l: Limits, s: State, kind: string, choice: IdChoice, pool: Pool, r: SubmitResult) {
    var considered, room := Considered(l, s, kind), Live(s) < l.maxRecords;
    && (r.Accepted? <==> considered && room && GoodId(l, s, choice) && pool.Accepts?)
    && (r.Closed? <==> kind != "" && s.closed)
    && (r.QueueFull? <==> kind != "" && !s.closed && (Live(s) > l.maxQueued || !room))
    && (r.FactoryError? <==> considered && room && choice.FactoryRaises?)
    && (r.ValueError? <==> kind == "" || (considered && room && !choice.FactoryRaises? && !GoodId(l, s, choice)))
    && (r.PoolError? <==> considered && room && GoodId(l, s, choice) && pool.Refuses?)
  }

  /** What a submission changes: the oldest finished jobs go, as few as needed, when it gets as far as the registry;
      and an accepted job is recorded as queued and waits last in line. */
  ghost predicate Submits(l: Limits, s: State, kind: string, operation: int, r: SubmitResult, t: State) {
    var gone := if Considered(l, s, kind) then Gone(l, s) else 0;
    && t.closed == s.closed && t.current == s.current && t.terminal == s.terminal[gone..]
    && (forall id :: id in s.records && id !in s.terminal[..gone] ==> id in t.records && t.records[id] == s.records[id])
    && (r.Accepted? ==>
          && r.record == Record(kind, Queued, None, None) && r.id in t.records && t.records[r.id] == r.record
          && t.queue == s.queue + [Work(r.id, operation)] && t.used == s.used + 1
          && forall id :: id in t.records && id != r.id ==> id in s.records && id !in s.terminal[..gone])
    && (!r.Accepted? ==>
          && t.queue == s.queue && t.used == s.used
          && forall id :: id in t.records ==> id in s.records && id !in s.terminal[..gone])
  }

  lemma GoneIsSurplus(l: Limits, s: State)
    ensures Gone(l, s) == Surplus(s, l.maxRecords - 1)
  {
  }

  lemma EvictedRecords(l: Limits, s: State)
    ensures var e, gone := Evict(s, l.maxRecords - 1), Gone(l, s);
            && e == s.(terminal := s.terminal[gone..], records := e.records)
            && (forall id :: id in e.records <==> id in s.records && id !in s.terminal[..gone])
            && (forall id :: id in e.records ==> e.records[id] == s.records[id])
  {
    GoneIsSurplus(l, s);
  }

  lemma SubmissionAdmits(l: Limits, s: State, kind: string, operation: int, choice: IdChoice, pool: Pool)
    requires Inv(l, s)
    ensures Admits(l, s, kind, choice, pool, Submitted(l, s, kind, operation, choice, pool).1)
  {
    hide Named, Placed, Evict, Gone, Live;
    EvictMakesRoom(l, s);
    EvictedRecords(l, s);
  }

  lemma SubmissionChanges(l: Limits, s: State, kind: string, operation: int, choice: IdChoice, pool: Pool)
    requires Inv(l, s)
    ensures var (t, r) := Submitted(l, s, kind, operation, choice, pool);
            Submits(l, s, kind, operation, r, t)
  {
    hide Named, Placed, Evict, Gone, Live;
    EvictedRecords(l, s);
    assert s.terminal[0..] == s.terminal && s.terminal[..0] == [];
  }

  lemma SubmissionMeaning(l: Limits, s: State, kind: string, operation: int, choice: IdChoice, pool: Pool)
    requires Inv(l, s)
    ensures var (t, r) := Submitted(l, s, kind, operation, choice, pool);
            Admits(l, s, kind, choice, pool, r) && Submits(l, s, kind, operation, r, t)
  {
    hide Inv, Submitted, Admits, Submits;
    SubmissionAdmits(l, s, kind, operation, choice, pool);
    SubmissionChanges(l, s, kind, operation, choice, pool);
  }

  // ----- one job's life -----

  /** How a run's outcome is published: it succeeds exactly when the operation returns a mapping that can be encoded,
      with the mapping itself up to 24 KiB and a marker above, and fails with one error code and no result otherwise. */
  ghost predicate Concludes(before: Record, o: Outcome, after: Record) {
    && after.kind == before.kind
    && (after.status == Succeeded <==> o.Returns?) && (after.status == Failed <==> !o.Returns?)
    && (o.Returns? ==>
          && after.errorCode == None
          && after.result == Some(if o.encodedBytes <= 24 * 1024 then Mapping(o.value) else Truncated))
    && (!o.Returns? ==> after.errorCode == Some("operation_failed") && after.result == None)
  }

  lemma PublishedConcludes(r: Record, o: Outcome)
    ensures Concludes(r, o, Published(r, o))
  {
  }

  /** The running job's record is published and its id listed; its permit is still held. */
  function Appended(s: State, o: Outcome): State
    requires s.current.Some? && s.current.value.id in s.records
  {
    var id := s.current.value.id;
    s.(current := None, terminal := s.terminal + [id], records := s.records[id := Published(s.records[id], o)])
  }

  /** Finishing a job never evicts one. */
  lemma FinishInSteps(l: Limits, s: State, o: Outcome)
    requires Inv(l, s) && s.current.Some?
    ensures s.current.value.id in s.records && s.used > 0 && Named(Appended(s, o))
    ensures Evict(Appended(s, o), l.maxRecords) == Appended(s, o)
    ensures Finished(l, s, o) == Appended(s, o).(used := s.used - 1)
    ensures Inv(l, Finished(l, s, o)) && OneConcluded(s, o, Finished(l, s, o))
  {
    hide Inv, Named, Finished, Published, OneConcluded, Evict;
    FinishOnlyAppends(l, s, o);
    CompleteKeeps(l, s, o);
    InvNamed(l, Completed(s, o));
    NamedUsed(Completed(s, o), s.used);
    CompletedConcludes(s, o);
    assert Appended(s, o) == Completed(s, o).(used := s.used);
    EvictsNothing(l, Completed(s, o), s.used);
  }

  lemma EvictsNothing(l: Limits, s: State, used: nat)
    requires Inv(l, s)
    ensures Evict(s.(used := used), l.maxRecords) == s.(used := used)
  {
    RecordCount(s);
    assert Without(s.records, []) == s.records;
  }

  /** What finishing the running job leaves: its record concluded and its id last in the finished list, one permit
      returned, and nothing else changed. */
  ghost predicate OneConcluded(s: State, o: Outcome, t: State)
    requires s.current.Some?
  {
    var id := s.current.value.id;
    && t.records.Keys == s.records.Keys && id in s.records && Concludes(s.records[id], o, t.records[id])
    && (forall other :: other in s.records && other != id ==> t.records[other] == s.records[other])
    && t.terminal == s.terminal + [id] && t.used + 1 == s.used
    && t.current == None && t.queue == s.queue && t.closed == s.closed
  }

  lemma CompletedConcludes(s: State, o: Outcome)
    requires s.current.Some? && s.current.value.id in s.records && s.used > 0
    ensures OneConcluded(s, o, Completed(s, o))
  {
    hide Concludes, Published;
    PublishedConcludes(s.records[s.current.value.id], o);
  }

  /** How the record of one job may move in one step. */
  ghost predicate Advances(before: Record, after: Record) {
    || after == before
    || (before.status == Queued && after == before.(status := Running))
    || (before.status == Running && exists o: Outcome :: Concludes(before, o, after))
  }

  /** Unfinished jobs are never evicted and move only from queued to running to finished; a finished
      record stays as it is for as long as the job is listed as finished, and only a submission unlists it. */
  lemma RecordLife(l: Limits, s: State, step: Step, id: string)
    requires Inv(l, s) && id in s.records
    ensures var t := Next(l, s, step);
            if Terminal(s.records[id].status)
            then (id in t.terminal || step.Submit?) &&
                 (id in t.terminal ==> id in t.records && t.records[id] == s.records[id])
            else
              && id in t.records && Advances(s.records[id], t.records[id])
              && (step.Finish? && s.current.Some? && s.current.value.id == id ==>
                    Concludes(s.records[id], step.outcome, t.records[id]))
  {
    hide Inv, Submitted, Begun, Finished, Advances, Concludes;
    FinishedIsListed(l, s, id);
    NoChange(s.records[id]);
    match step
    case Submit(kind, operation, choice, pool) => SubmitLife(l, s, step, id);
    case Begin => BeginLife(l, s, id);
    case Finish(outcome) => FinishLife(l, s, outcome, id);
    case Get(_) =>
    case Close =>
  }

  lemma NoChange(r: Record)
    ensures Advances(r, r)
  {
  }

  lemma BeginLife(l: Limits, s: State, id: string)
    requires Inv(l, s) && id in s.records
    ensures var t := Begun(s);
            && id in t.records && t.terminal == s.terminal
            && if Terminal(s.records[id].status) then t.records[id] == s.records[id]
               else Advances(s.records[id], t.records[id])
  {
    hide Inv;
    if s.current.None? && s.queue != [] {
      QueuedIsRecorded(l, s, 0);
    }
  }

  lemma FinishLife(l: Limits, s: State, o: Outcome, id: string)
    requires Inv(l, s) && id in s.records
    ensures var t := Finished(l, s, o);
            && id in t.records && (id in s.terminal ==> id in t.terminal)
            && if Terminal(s.records[id].status) then t.records[id] == s.records[id]
               else Advances(s.records[id], t.records[id])
    ensures s.current.Some? && s.current.value.id == id ==> Concludes(s.records[id], o, Finished(l, s, o).records[id])
  {
    hide Inv, Finished, Published, Concludes;
    if s.current.Some? {
      FinishOnlyAppends(l, s, o);
      RunningIsRecorded(l, s);
      PublishedConcludes(s.records[s.current.value.id], o);
    } else {
      FinishIdle(l, s, o);
    }
  }

  lemma RunningIsRecorded(l: Limits, s: State)
    requires Inv(l, s) && s.current.Some?
    ensures s.current.value.id in s.records && s.records[s.current.value.id].status == Running
  {
    assert Ids(Worker(s))[0] == s.current.value.id;
  }

  /** The finished records are the ones the terminal list names. */
  lemma FinishedIsListed(l: Limits, s: State, id: string)
    requires Inv(l, s) && id in s.records
    ensures id in s.terminal <==> Terminal(s.records[id].status)
  {
    hide Line, AllHave;
    LineParts(s);
    assert id in multiset(Line(s));
    PartsTell(s.records, s.terminal, Ids(Worker(s)), Ids(s.queue), id);
  }

  lemma LineParts(s: State)
    ensures Line(s) == s.terminal + (Ids(Worker(s)) + Ids(s.queue))
  {
  }

  lemma PartsTell(records: map<string, Record>, done: seq<string>, running: seq<string>, queued: seq<string>, id: string)
    requires id in records && id in multiset(done + (running + queued))
    requires AllHave(records, done, Terminal) && AllHave(records, running, IsRunning) && AllHave(records, queued, IsQueued)
    ensures id in done <==> Terminal(records[id].status)
  {
    if id !in done {
      assert id in running + queued;
      assert id in running || id in queued;
    }
  }

  /** What eviction leaves of one record: an unfinished one stays, and one still listed as finished stays. */
  lemma EvictLife(s: State, bound: int, id: string)
    requires Named(s) && id in s.records
    ensures var e := Evict(s, bound);
            (id !in s.terminal || id in e.terminal) ==> id in e.records && e.records[id] == s.records[id]
    ensures id in Evict(s, bound).terminal ==> id in s.terminal
  {
    hide Named;
    var n := Surplus(s, bound);
    DropDisjoint(s, n);
    assert s.terminal == s.terminal[..n] + s.terminal[n..];
  }

  lemma EnqueueLife(e: State, w: Work, kind: string, id: string)
    requires w.id !in e.records
    ensures var t := Enqueued(e, w, kind);
            t.terminal == e.terminal && (id in e.records ==> id in t.records && t.records[id] == e.records[id])
  {
  }

  lemma SubmitLife(l: Limits, s: State, step: Step, id: string)
    requires Inv(l, s) && id in s.records && step.Submit?
    ensures var t := Next(l, s, step);
            if Terminal(s.records[id].status)
            then id in t.terminal ==> id in t.records && t.records[id] == s.records[id]
            else id in t.records && t.records[id] == s.records[id]
  {
    hide Inv, Named, Submitted, Evict, Enqueued;
    InvNamed(l, s);
    FinishedIsListed(l, s, id);
    EvictLife(s, l.maxRecords - 1, id);
    SubmitCases(l, s, step.kind, step.operation, step.choice, step.pool);
    var r := Submitted(l, s, step.kind, step.operation, step.choice, step.pool).1;
    if r.Accepted? {
      EnqueueLife(Evict(s, l.maxRecords - 1), Work(r.id, step.operation), step.kind, id);
    }
  }

  // ----- whole runs -----

  /** Work accepted, started and finished so far, in order. */
  datatype Log = Log(accepted: seq<Work>, started: seq<Work>, finished: seq<Work>)

  function Logged(l: Limits, s: State, log: Log, step: Step): Log {
    match step
    case Submit(kind, operation, id, pool) =>
      var r := Submitted(l, s, kind, operation, id, pool).1;
      if r.Accepted? then log.(accepted := log.accepted + [Work(r.id, operation)]) else log
    case Begin =>
      if s.current.None? && s.queue != [] then log.(started := log.started + [s.queue[0]]) else log
    case Finish(_) => if s.current.Some? then log.(finished := log.finished + [s.current.value]) else log
    case _ => log
  }

  datatype Config = Config(state: State, log: Log)

  const Start := Config(Initial, Log([], [], []))

  function Move(l: Limits, c: Config, step: Step): Config {
    Config(Next(l, c.state, step), Logged(l, c.state, c.log, step))
  }

  /** Any interleaving of submitters, readers, a closer and the one worker, from `c` on. */
  function Run(l: Limits, c: Config, steps: seq<Step>): Config
    decreases |steps|
  {
    if steps == [] then c else Run(l, Move(l, c, steps[0]), steps[1..])
  }

  /** What was accepted is what started plus what waits; what started is what finished plus what runs;
      the listed finished jobs are the latest ones, in completion order. */
  ghost predicate Agrees(s: State, log: Log) {
    && log.accepted == log.started + s.queue
    && log.started == log.finished + Worker(s)
    && |s.terminal| <= |log.finished|
    && s.terminal == Ids(log.finished)[|log.finished| - |s.terminal|..]
  }

  lemma DropAgrees(s: State, log: Log, n: nat)
    requires Agrees(s, log) && n <= |s.terminal|
    ensures Agrees(Drop(s, n), log)
  {
    hide Ids, Without;
    DropTwice(Ids(log.finished), |log.finished| - |s.terminal|, n);
  }

  lemma DropTwice(a: seq<string>, i: nat, n: nat)
    requires i + n <= |a|
    ensures a[i..][n..] == a[i + n..]
  {
  }

  lemma EvictAgrees(s: State, log: Log, bound: int)
    requires Agrees(s, log)
    ensures Agrees(Evict(s, bound), log)
  {
    DropAgrees(s, log, Surplus(s, bound));
  }

  lemma EnqueueAgrees(s: State, log: Log, w: Work, kind: string)
    requires Agrees(s, log)
    ensures Agrees(Enqueued(s, w, kind), log.(accepted := log.accepted + [w]))
  {
    hide Ids;
    assert log.started + s.queue + [w] == log.started + (s.queue + [w]);
  }

  lemma SubmitAgrees(l: Limits, s: State, log: Log, step: Step)
    requires Agrees(s, log) && step.Submit?
    ensures Agrees(Next(l, s, step), Logged(l, s, log, step))
  {
    hide Agrees, Submitted, Evict, Enqueued;
    SubmitCases(l, s, step.kind, step.operation, step.choice, step.pool);
    var e := Evict(s, l.maxRecords - 1);
    EvictAgrees(s, log, l.maxRecords - 1);
    var r := Submitted(l, s, step.kind, step.operation, step.choice, step.pool).1;
    if r.Accepted? {
      EnqueueAgrees(e, log, Work(r.id, step.operation), step.kind);
    }
  }

  lemma FinishAgrees(l: Limits, s: State, log: Log, o: Outcome)
    requires Inv(l, s) && Agrees(s, log)
    ensures Agrees(Finished(l, s, o), Logged(l, s, log, Finish(o)))
  {
    hide Inv, Agrees, Finished, Published;
    if s.current.Some? {
      FinishOnlyAppends(l, s, o);
      WorkerLeaves(s, log, s.current.value, Completed(s, o));
    } else {
      FinishIdle(l, s, o);
    }
  }

  lemma WorkerLeaves(s: State, log: Log, w: Work, t: State)
    requires Agrees(s, log) && s.current == Some(w)
    requires t.current.None? && t.queue == s.queue && t.terminal == s.terminal + [w.id]
    ensures Agrees(t, log.(finished := log.finished + [w]))
  {
    hide Ids;
    TailGrows(log.finished, s.terminal, w);
    assert log.finished + [w] == log.started;
    assert log.finished + [w] + [] == log.finished + [w];
    TailLength(log.finished, w);
  }

  lemma TailLength(finished: seq<Work>, w: Work)
    ensures |Ids(finished + [w])| == |finished| + 1
  {
  }

  lemma TailGrows(finished: seq<Work>, terminal: seq<string>, w: Work)
    requires |terminal| <= |finished| && terminal == Ids(finished)[|finished| - |terminal|..]
    ensures terminal + [w.id] == Ids(finished + [w])[|finished| - |terminal|..]
  {
    hide Ids;
    var n := |finished| - |terminal|;
    OneId(w);
    IdsAppend(finished, [w]);
    DropAppend(Ids(finished), Ids([w]), n);
  }

  lemma OneId(w: Work)
    ensures Ids([w]) == [w.id]
  {
  }

  lemma DropAppend(a: seq<string>, b: seq<string>, n: nat)
    requires n <= |a|
    ensures (a + b)[n..] == a[n..] + b
  {
  }

  lemma BeginAgrees(s: State, log: Log, l: Limits)
    requires Agrees(s, log)
    ensures Agrees(Begun(s), Logged(l, s, log, Begin))
  {
    if s.current.None? && s.queue != [] {
      assert s.queue == [s.queue[0]] + s.queue[1..];
    }
  }

  lemma LoggedAgrees(l: Limits, s: State, log: Log, step: Step)
    requires Inv(l, s) && Agrees(s, log)
    ensures Agrees(Next(l, s, step), Logged(l, s, log, step))
  {
    match step
    case Submit(_, _, _, _) => SubmitAgrees(l, s, log, step);
    case Begin => BeginAgrees(s, log, l);
    case Finish(o) => FinishAgrees(l, s, log, o);
    case Get(_) =>
    case Close =>
  }

  /** Job accounting and the order of work, at every lock-free point of every interleaving. */
  lemma {:induction false} EveryRun(l: Limits, c: Config, steps: seq<Step>)
    requires Inv(l, c.state) && Agrees(c.state, c.log)
    ensures Inv(l, Run(l, c, steps).state) && Agrees(Run(l, c, steps).state, Run(l, c, steps).log)
    decreases |steps|
  {
    if steps != [] {
      NextKeeps(l, c.state, steps[0]);
      LoggedAgrees(l, c.state, c.log, steps[0]);
      EveryRun(l, Move(l, c, steps[0]), steps[1..]);
    }
  }

  lemma StartIsGood(l: Limits)
    requires l.maxRecords > 0
    ensures Inv(l, Start.state) && Agrees(Start.state, Start.log)
  {
    assert Line(Initial) == [];
  }

  /** The accounting invariant, read off: permits, record bound and the list of finished jobs. */
  lemma Accounting(l: Limits, s: State)
    requires Inv(l, s)
    ensures s.used == |set id | id in s.records && !Terminal(s.records[id].status)| <= l.maxQueued + 1
    ensures |s.records| <= l.maxRecords
    ensures multiset(s.terminal) == multiset(set id | id in s.records && Terminal(s.records[id].status))
  {
    var done := set id | id in s.records && Terminal(s.records[id].status);
    var live := set id | id in s.records && !Terminal(s.records[id].status);
    RecordCount(s);
    assert s.records.Keys == done + live;
    ListsFinished(l, s, done);
    assert |s.terminal| == |multiset(s.terminal)| == |multiset(done)| == |done|;
    assert |s.records| == |s.records.Keys|;
  }

  lemma ListsFinished(l: Limits, s: State, done: set<string>)
    requires Inv(l, s) && done == set id | id in s.records && Terminal(s.records[id].status)
    ensures multiset(s.terminal) == multiset(done)
  {
    forall id ensures multiset(s.terminal)[id] == multiset(done)[id] {
      ListedOnce(l, s, id);
    }
  }

  lemma ListedOnce(l: Limits, s: State, id: string)
    requires Inv(l, s)
    ensures multiset(s.terminal)[id] == if id in s.records && Terminal(s.records[id].status) then 1 else 0
  {
    hide Line, Placed;
    LineParts(s);
    PartOnce(s.terminal, Ids(Worker(s)) + Ids(s.queue), s.records.Keys, id);
    if id in s.records {
      FinishedIsListed(l, s, id);
    }
  }

  lemma PartOnce(a: seq<string>, b: seq<string>, names: set<string>, id: string)
    requires multiset(a + b) == multiset(names)
    ensures multiset(a)[id] == if id in a then 1 else 0
    ensures id in a ==> id in names
  {
    assert multiset(a + b) == multiset(a) + multiset(b);
    assert multiset(names)[id] <= 1;
    assert id in multiset(a) <==> id in a;
  }

  function Remaining(s: State): nat { 2 * |s.queue| + |Worker(s)| }

  /** One move of the worker: it finishes what it runs, or else begins the oldest queued job. */
  lemma WorkerMove(l: Limits, s: State, log: Log) returns (move: Step)
    requires Inv(l, s) && Agrees(s, log) && Live(s) > 0
    ensures move.Begin? || move.Finish?
    ensures Remaining(Next(l, s, move)) < Remaining(s)
    ensures Next(l, s, move).closed == s.closed && Logged(l, s, log, move).accepted == log.accepted
  {
    if s.current.Some? {
      move := Finish(Raises);
      FinishOnlyAppends(l, s, Raises);
    } else {
      move := Begin;
    }
  }

  /** One move of the worker on a run, which leads to `d`. */
  lemma WorkerProgress(l: Limits, c: Config) returns (move: Step, d: Config)
    requires Inv(l, c.state) && Agrees(c.state, c.log) && Live(c.state) > 0
    ensures move.Begin? || move.Finish?
    ensures Inv(l, d.state) && Agrees(d.state, d.log)
    ensures Remaining(d.state) < Remaining(c.state)
    ensures d.state.closed == c.state.closed && d.log.accepted == c.log.accepted
    ensures forall more :: Run(l, c, [move] + more) == Run(l, d, more)
  {
    move := WorkerMove(l, c.state, c.log);
    d := Move(l, c, move);
    NextKeeps(l, c.state, move);
    LoggedAgrees(l, c.state, c.log, move);
    forall more ensures Run(l, c, [move] + more) == Run(l, d, more) {
      assert ([move] + more)[1..] == more;
    }
  }

  /** From any reachable state, open or closed, the worker can finish everything that was accepted, and when
      it has, every accepted operation ran exactly once, in acceptance order. */
  lemma {:induction false} AcceptedWorkDrains(l: Limits, c: Config) returns (rest: seq<Step>)
    requires Inv(l, c.state) && Agrees(c.state, c.log)
    ensures forall i :: 0 <= i < |rest| ==> rest[i].Begin? || rest[i].Finish?
    ensures Run(l, c, rest).state.closed == c.state.closed
    ensures Run(l, c, rest).log.accepted == c.log.accepted == Run(l, c, rest).log.finished
    decreases Remaining(c.state)
  {
    hide Inv, Agrees;
    if Live(c.state) == 0 {
      rest := [];
      AllDone(c.state, c.log);
    } else {
      var move, d := WorkerProgress(l, c);
      var more := AcceptedWorkDrains(l, d);
      rest := [move] + more;
      assert Run(l, c, rest) == Run(l, d, more);
    }
  }

  lemma AllDone(s: State, log: Log)
    requires Agrees(s, log) && Live(s) == 0
    ensures log.accepted == log.finished
  {
  }

  // ----- the executor -----

  class JobExecutor {
    const limits: Limits
    var records: map<string, Record>
    var terminalIds: seq<string>
    /** Free permits of the semaphore. */
    var capacity: nat
    var closed: bool
    /** The pool: its queue, and what its single thread is running. */
    var queue: seq<Work>
    var current: Option<Work>

    ghost function View(): State
      reads this
    {
      State(records, terminalIds, if capacity <= limits.maxQueued + 1 then limits.maxQueued + 1 - capacity else 0,
            closed, queue, current)
    }

    ghost predicate Valid()
      reads this
    {
      capacity <= limits.maxQueued + 1 && Inv(limits, View())
    }

    constructor (maxQueued: nat, maxRecords: nat)
      requires maxRecords >= 1
      ensures Valid() && View() == Initial && limits == Limits(maxQueued, maxRecords)
    {
      limits := Limits(maxQueued, maxRecords);
      records, terminalIds := map[], [];
      capacity := maxQueued + 1;
      closed := false;
      queue, current := [], None;
      new;
      hide Inv, Agrees;
      StartIsGood(limits);
    }

    method EvictTerminalRecords(reserveSlots: nat)
      requires Named(View())
      modifies this`records, this`terminalIds
      ensures View() == Evict(old(View()), limits.maxRecords - reserveSlots)
    {
      hide Named, Without;
      ghost var n := 0;
      ghost var s := View();
      DropNothing(s);
      while |records| + reserveSlots > limits.maxRecords && terminalIds != []
        invariant n <= Surplus(s, limits.maxRecords - reserveSlots)
        invariant View() == Drop(s, n)
        invariant |records| == |s.records| - n
        decreases |terminalIds|
      {
        DropOneMore(s, n);
        var id := terminalIds[0];
        terminalIds := terminalIds[1..];
        records := records - {id};
        n := n + 1;
      }
    }

    /** The guarded body of `submit`, with the permit already taken. */
    method Admit(kind: string, operation: int, choice: IdChoice, pool: Pool) returns (r: SubmitResult)
      requires Named(View())
      modifies this`records, this`terminalIds, this`queue
      ensures var s := Evict(old(View()), limits.maxRecords - 1);
              if |s.records| >= limits.maxRecords then r == QueueFull && View() == s
              else if choice.FactoryRaises? then r == FactoryError && View() == s
              else if choice.NotAString? || choice.id == "" || choice.id in s.records
              then r == ValueError && View() == s
              else if pool.Refuses? then r == PoolError && View() == s
              else r == Accepted(choice.id, Record(kind, Queued, None, None)) &&
                   View() == s.(records := s.records[choice.id := r.record], queue := s.queue + [Work(choice.id, operation)])
    {
      hide Named, Evict;
      EvictTerminalRecords(1);
      if |records| >= limits.maxRecords {
        return QueueFull;
      }
      if choice.FactoryRaises? {
        return FactoryError;
      }
      if choice.NotAString? || choice.id == "" || choice.id in records {
        return ValueError;
      }
      var record := Record(kind, Queued, None, None);
      ghost var before := records;
      records := records[choice.id := record];
      if pool.Refuses? {
        records := records - {choice.id};
        assert records == before;
        return PoolError;
      }
      queue := queue + [Work(choice.id, operation)];
      return Accepted(choice.id, record);
    }

    method Submit(kind: string, operation: int, choice: IdChoice, pool: Pool) returns (r: SubmitResult)
      requires Valid()
      modifies this
      ensures Valid()
      ensures (View(), r) == Submitted(limits, old(View()), kind, operation, choice, pool)
      ensures Admits(limits, old(View()), kind, choice, pool, r)
      ensures Submits(limits, old(View()), kind, operation, r, View())
    {
      hide Inv, Named, Evict, Admits, Submits;
      InvNamed(limits, View());
      SubmissionMeaning(limits, View(), kind, operation, choice, pool);
      SubmitKeeps(limits, View(), kind, operation, choice, pool);
      if kind == "" {
        return ValueError;
      }
      if closed {
        return Closed;
      }
      if capacity == 0 {
        return QueueFull;
      }
      NamedUsed(View(), View().used + 1);
      EvictIgnoresUsed(View(), View().used + 1, limits.maxRecords - 1);
      capacity := capacity - 1;
      r := Admit(kind, operation, choice, pool);
      if !r.Accepted? {
        capacity := capacity + 1;
      }
    }

    /** The worker takes the oldest queued job and enters `_run`. */
    method BeginRun()
      requires Valid() && current == None && queue != []
      modifies this
      ensures Valid() && View() == Begun(old(View()))
      ensures current == Some(old(queue)[0]) && queue == old(queue)[1..]
      ensures records.Keys == old(records).Keys && current.value.id in records
      ensures records[current.value.id] == old(records)[current.value.id].(status := Running)
      ensures forall id :: id in records && id != current.value.id ==> records[id] == old(records)[id]
    {
      hide Inv;
      QueuedIsRecorded(limits, View(), 0);
      BeginKeeps(limits, View());
      current, queue := Some(queue[0]), queue[1..];
      records := records[current.value.id := records[current.value.id].(status := Running)];
    }

    /** The `finally` block of `_run`. */
    method FinishRun(o: Outcome)
      requires Valid() && current.Some?
      modifies this
      ensures Valid() && View() == Finished(limits, old(View()), o)
      ensures OneConcluded(old(View()), o, View())
    {
      hide Inv, Named, OneConcluded, Finished, Evict, Completed;
      ghost var s := View();
      FinishInSteps(limits, s, o);
      var id := current.value.id;
      current := None;
      if id in records {
        records := records[id := Published(records[id], o)];
        terminalIds := terminalIds + [id];
        assert View() == Appended(s, o);
        EvictTerminalRecords(0);
      }
      capacity := capacity + 1;
    }

    method Lookup(id: string) returns (r: Option<Record>)
      requires Valid()
      ensures r.Some? <==> id in View().records
      ensures r.Some? ==> r.value == View().records[id]
    {
      return if id in records then Some(records[id]) else None;
    }

    method Shutdown()
      requires Valid()
      modifies this`closed
      ensures Valid() && View() == old(View()).(closed := true)
    {
      hide Inv;
      NextKeeps(limits, View(), Close);
      closed := true;
    }
  }

  lemma NamedUsed(s: State, used: nat)
    requires Named(s)
    ensures Named(s.(used := used))
  {
    assert Line(s.(used := used)) == Line(s);
  }

  lemma EvictIgnoresUsed(s: State, used: nat, bound: int)
    ensures Evict(s.(used := used), bound) == Evict(s, bound).(used := used)
    ensures Evict(s, bound).used == s.used && Evict(s, bound).closed == s.closed
    ensures Evict(s, bound).queue == s.queue && Evict(s, bound).current == s.current
  {
  }

  lemma InvNamed(l: Limits, s: State)
    requires Inv(l, s)
    ensures Named(s)
  {
  }

  lemma QueuedIsRecorded(l: Limits, s: State, i: nat)
    requires Inv(l, s) && i < |s.queue|
    ensures s.queue[i].id in s.records && s.records[s.queue[i].id].status == Queued
  {
    IdsAt(s.queue, i);
  }

  lemma {:induction false} IdsAt(q: seq<Work>, i: nat)
    requires i < |q|
    ensures Ids(q)[i] == q[i].id
  {
    if i > 0 {
      IdsAt(q[1..], i - 1);
    }
  }

  lemma DropNothing(s: State)
    ensures Drop(s, 0) == s
  {
    assert Without(s.records, []) == s.records;
  }

  /** One more finished job leaves: one record fewer. */
  lemma DropOneMore(s: State, n: nat)
    requires Named(s) && n < |s.terminal|
    ensures Drop(s, n).terminal[0] == s.terminal[n]
    ensures Drop(s, n + 1) == Drop(s, n).(terminal := Drop(s, n).terminal[1..],
                                          records := Drop(s, n).records - {s.terminal[n]})
    ensures |Drop(s, n + 1).records| == |s.records| - (n + 1)
  {
    hide Without, Named;
    assert s.terminal[..n + 1] == s.terminal[..n] + [s.terminal[n]];
    WithoutOneMore(s.records, s.terminal[..n], s.terminal[n]);
    DropNamed(s, n + 1);
    RecordCount(s);
    RecordCount(Drop(s, n + 1));
  }

  lemma WithoutOneMore(records: map<string, Record>, gone: seq<string>, id: string)
    ensures Without(records, gone + [id]) == Without(records, gone) - {id}
  {
  }
}
