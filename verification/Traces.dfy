/** What happened to a directory: the operations of the installer and, between them, those of other processes. */
module Traces {
  import opened Basics
  import opened Disks

  datatype Entries = Entries(names: map<Loc, nat>, data: map<nat, Content>)

  datatype Did =
    | Began
    | Others
    | Renamed(src: Loc, dst: Loc)
    | Linked(src: Loc, dst: Loc)
    | Made(loc: Loc, file: Snapshot)

  /** One step and the entries it left. */
  datatype Step = Step(did: Did, now: Entries)

  /** What an operation finds: what other processes have left by then, or what was there. */
  function Seen(others: seq<Entries>, clock: nat, now: Entries): Entries {
    if clock < |others| then others[clock] else now
  }

  /** The inode of a new file, which no file has. */
  function Unused(data: map<nat, Content>, from: nat): (i: nat)
    ensures i >= from && i !in data && (from !in data ==> i == from)
    decreases |data|
  {
    if from in data then Unused(data - {from}, from + 1) else from
  }

  /** What `did` leaves of what it found. */
  function After(found: Entries, did: Did): Entries {
    match did
    case Renamed(src, dst) =>
      if src in found.names then found.(names := found.names[dst := found.names[src]] - {src}) else found
    case Linked(src, dst) => if src in found.names then found.(names := found.names[dst := found.names[src]]) else found
    case Made(loc, file) => Entries(found.names[loc := file.inode], found.data[file.inode := file.content])
    case _ => found
  }

  /** Each operation of the installer needs its new name free; none overwrites or removes the last name of a file. */
  ghost predicate Leads(others: seq<Entries>, clock: nat, before: Entries, step: Step) {
    match step.did
    case Began => false
    case Others => step.now == Seen(others, clock, before)
    case Renamed(src, dst) => src in before.names && dst !in before.names && step.now == After(before, step.did)
    case Linked(src, dst) => src in before.names && dst !in before.names && step.now == After(before, step.did)
    case Made(loc, file) => loc !in before.names && file.inode !in before.data && step.now == After(before, step.did)
  }

  /** An operation finds what others left, does its work if it can, and both are in the trace. */
  ghost predicate Adds(before: seq<Step>, found: Entries, did: Did, ok: bool, after: seq<Step>, now: Entries) {
    if ok then after == before + [Step(Others, found)] + [Step(did, now)] && now == After(found, did)
    else after == before + [Step(Others, found)] && now == found
  }

  /** The steps lead from the beginning to `now`, one after the other and with nothing between them. */
  ghost predicate Traced(others: seq<Entries>, steps: seq<Step>, now: Entries) {
    && steps != [] && steps[0].did.Began? && steps[|steps| - 1].now == now
    && forall i :: 0 < i < |steps| ==> Leads(others, i - 1, steps[i - 1].now, steps[i])
  }

  lemma TraceGrows(others: seq<Entries>, steps: seq<Step>, now: Entries, step: Step)
    requires Traced(others, steps, now) && Leads(others, |steps| - 1, now, step)
    ensures Traced(others, steps + [step], step.now)
  {
    hide Leads;
    var all := steps + [step];
    forall i | 0 < i < |all| ensures Leads(others, i - 1, all[i - 1].now, all[i]) {
      assert i < |steps| ==> all[i] == steps[i];
    }
  }

  lemma TraceEnd(others: seq<Entries>, steps: seq<Step>, now: Entries)
    requires Traced(others, steps, now)
    ensures steps != [] && steps[|steps| - 1].now == now
  {
  }

  // ----- no file object loses its last name to the installer -----

  lemma OwnStepKeeps(others: seq<Entries>, clock: nat, before: Entries, step: Step)
    requires Leads(others, clock, before, step) && !step.did.Others?
    ensures Kept(before.names, step.now.names)
    ensures forall i :: i in before.data ==> i in step.now.data && step.now.data[i] == before.data[i]
  {
    match step.did {
      case Renamed(src, dst) => RenameKeepsNames(before.names, src, dst);
      case Linked(src, dst) => AddKeepsNames(before.names, dst, before.names[src]);
      case Made(loc, file) => AddKeepsNames(before.names, loc, file.inode);
    }
  }

  /** Other processes took the last name of the file object at some step from `from` on. */
  ghost predicate LostToOthers(steps: seq<Step>, from: nat, i: nat) {
    exists k :: from <= k < |steps| && TakenByOthers(steps, k, i)
  }

  predicate TakenByOthers(steps: seq<Step>, k: nat, i: nat) {
    0 < k < |steps| && steps[k].did.Others? && i in steps[k - 1].now.names.Values && i !in steps[k].now.names.Values
  }

  /** A file object that had a name at some moment and has none now lost it to another process. */
  lemma {:induction false} OnlyOthersTakeNames(others: seq<Entries>, steps: seq<Step>, now: Entries, from: nat, i: nat)
    requires Traced(others, steps, now) && 0 < from <= |steps|
    requires i in steps[from - 1].now.names.Values
    ensures i in now.names.Values || LostToOthers(steps, from, i)
    decreases |steps|
  {
    hide Leads;
    var k := |steps| - 1;
    if from < |steps| {
      var fewer := steps[..k];
      assert Traced(others, fewer, steps[k - 1].now);
      OnlyOthersTakeNames(others, fewer, steps[k - 1].now, from, i);
      assert Leads(others, k - 1, steps[k - 1].now, steps[k]);
      if LostToOthers(fewer, from, i) {
        var j :| from <= j < |fewer| && TakenByOthers(fewer, j, i);
        assert TakenByOthers(steps, j, i);
      } else if steps[k].did.Others? {
        assert i !in now.names.Values ==> TakenByOthers(steps, k, i);
      } else {
        OwnStepKeeps(others, k - 1, steps[k - 1].now, steps[k]);
      }
    }
  }

  // ----- what was moved aside -----

  /** A file moved from a managed name to a backup name: what was there when it was last looked at, and what was moved. */
  datatype Taken = Taken(target: Loc, seen: Option<Snapshot>, moved: Option<Snapshot>)

  /** What a name leads to. */
  function Look(e: Entries, loc: Loc): Option<Snapshot> {
    if loc in e.names && e.names[loc] in e.data then Some(Snapshot(e.names[loc], e.data[e.names[loc]])) else None
  }

  /** What can be opened and read as a regular file. */
  function Readable(e: Entries, loc: Loc): Option<Snapshot> {
    var found := Look(e, loc);
    if found.Some? && found.value.content == Special then None else found
  }

  predicate Aside(did: Did) {
    did.Renamed? && did.src.name.Plain? && did.dst.name.Temp? && did.dst.name.purpose == ForBackup
  }

  /** The file that step `k` moved aside; it was looked at before the step in which other processes could come between. */
  function TakenAt(steps: seq<Step>, k: nat): Taken
    requires 2 <= k < |steps| && Aside(steps[k].did)
  {
    var target := steps[k].did.src;
    Taken(target, if steps[k - 1].did.Others? then Look(steps[k - 2].now, target) else None, Look(steps[k - 1].now, target))
  }

  /** The file moved aside is the one that was looked at exactly when the other processes, at the moment in between,
      left the target's name on it and its content alone. */
  lemma MovedAsSeenExactly(others: seq<Entries>, steps: seq<Step>, now: Entries, k: nat)
    requires Traced(others, steps, now) && 2 <= k < |steps| && Aside(steps[k].did) && TakenAt(steps, k).seen.Some?
    ensures var target := steps[k].did.src;
            TakenAt(steps, k).moved == TakenAt(steps, k).seen <==>
              Look(Seen(others, k - 2, steps[k - 2].now), target) == Look(steps[k - 2].now, target)
  {
    hide Look;
    assert Leads(others, k - 2, steps[k - 2].now, steps[k - 1]);
  }

  /** Everything moved aside, in order. */
  function Asides(steps: seq<Step>): seq<Taken> {
    if |steps| < 3 then []
    else
      var k := |steps| - 1;
      Asides(steps[..k]) + if Aside(steps[k].did) then [TakenAt(steps, k)] else []
  }

  lemma {:induction false} NoAside(steps: seq<Step>, step: Step)
    requires !Aside(step.did)
    ensures Asides(steps + [step]) == Asides(steps)
  {
    assert (steps + [step])[..|steps|] == steps;
  }

  /** An aside move, right after a step of the other processes. */
  lemma {:induction false} OneAside(steps: seq<Step>, now: Entries, seen: Entries, did: Did, after: Entries)
    requires steps != [] && steps[|steps| - 1].now == now && Aside(did)
    ensures Asides(steps + [Step(Others, seen)] + [Step(did, after)]) ==
            Asides(steps) + [Taken(did.src, Look(now, did.src), Look(seen, did.src))]
  {
    var more := steps + [Step(Others, seen)];
    var all := more + [Step(did, after)];
    NoAside(steps, Step(Others, seen));
    assert all[..|more|] == more;
    assert all[|more| - 2] == steps[|steps| - 1];
  }

  // ----- from one moment to another -----

  datatype Moment = Moment(steps: seq<Step>, names: map<Loc, nat>, calm: bool)

  /** The trace goes on, and in a calm world every file object keeps a name. */
  ghost predicate Goes(a: Moment, b: Moment) {
    a.steps <= b.steps && a.calm == b.calm && (a.calm ==> Kept(a.names, b.names))
  }

  /** Nothing is moved aside either. */
  ghost predicate Quietly(a: Moment, b: Moment) {
    Goes(a, b) && Asides(b.steps) == Asides(a.steps)
  }

  /** Exactly these files are moved aside. */
  ghost predicate Moving(a: Moment, b: Moment, moves: seq<Taken>) {
    Goes(a, b) && Asides(b.steps) == Asides(a.steps) + moves
  }

  lemma QuietChain()
    ensures forall a: Moment :: Quietly(a, a)
    ensures forall a: Moment, b: Moment, c: Moment ::
              Quietly(a, b) && Quietly(b, c) ==> Quietly(a, c)
  {
  }

  lemma StandStill()
    ensures forall a: Moment :: Moving(a, a, [])
  {
  }

  lemma MovingChain()
    ensures forall a: Moment, b: Moment :: Quietly(a, b) ==> Moving(a, b, [])
    ensures forall a: Moment, b: Moment, c: Moment, moves: seq<Taken> ::
              Quietly(a, b) && Moving(b, c, moves) ==> Moving(a, c, moves)
    ensures forall a: Moment, b: Moment, c: Moment, moves: seq<Taken> ::
              Moving(a, b, moves) && Quietly(b, c) ==> Moving(a, c, moves)
  {
  }

  lemma MovesChain(a: Moment, b: Moment, c: Moment, moves: seq<Taken>, more: seq<Taken>)
    requires Moving(a, b, moves) && Moving(b, c, more)
    ensures Moving(a, c, moves + more)
  {
    assert Asides(c.steps) == Asides(a.steps) + (moves + more);
  }

  /** A step that moves nothing aside. */
  lemma QuietStep(others: seq<Entries>, a: Moment, was: Entries, step: Step)
    requires Traced(others, a.steps, was) && a.names == was.names && a.calm == (others == [])
    requires Leads(others, |a.steps| - 1, was, step) && !Aside(step.did)
    ensures Traced(others, a.steps + [step], step.now)
    ensures Quietly(a, Moment(a.steps + [step], step.now.names, a.calm))
  {
    hide Traced, Asides, Leads, Kept;
    TraceGrows(others, a.steps, was, step);
    NoAside(a.steps, step);
    TraceEnd(others, a.steps, was);
    StepKeeps(others, |a.steps| - 1, was, step);
  }

  /** In a calm world no step takes a last name. */
  lemma StepKeeps(others: seq<Entries>, clock: nat, before: Entries, step: Step)
    requires Leads(others, clock, before, step)
    ensures others == [] ==> Kept(before.names, step.now.names)
  {
    hide Kept;
    if step.did.Others? {
      KeptSame(before.names);
    } else {
      OwnStepKeeps(others, clock, before, step);
    }
  }

  lemma KeptSame(names: map<Loc, nat>)
    ensures Kept(names, names)
  {
  }

  /** A move aside, after the step in which other processes could come between. */
  lemma AsideStep(others: seq<Entries>, a: Moment, was: Entries, seen: Entries, step: Step)
    requires Traced(others, a.steps, was) && a.calm == (others == []) && a.names == was.names
    requires var more := a.steps + [Step(Others, seen)];
             && Traced(others, more, seen) && Quietly(a, Moment(more, seen.names, a.calm))
             && Leads(others, |more| - 1, seen, step) && Aside(step.did)
    ensures Traced(others, a.steps + [Step(Others, seen)] + [step], step.now)
    ensures Moving(a, Moment(a.steps + [Step(Others, seen)] + [step], step.now.names, a.calm),
                   [Taken(step.did.src, Look(was, step.did.src), Look(seen, step.did.src))])
  {
    hide Traced, Asides, Leads;
    var more := a.steps + [Step(Others, seen)];
    TraceGrows(others, more, seen, step);
    TraceEnd(others, a.steps, was);
    OneAside(a.steps, was, seen, step.did, step.now);
    StepKeeps(others, |more| - 1, seen, step);
  }

  /** No file object loses its last name but to another process, so none at all in a calm world. */
  lemma NamesAccounted(others: seq<Entries>, a: Moment, was: Entries, b: Moment, now: Entries, moves: seq<Taken>)
    requires Traced(others, a.steps, was) && a.names == was.names && Traced(others, b.steps, now) && b.names == now.names
    requires Moving(a, b, moves)
    ensures a.calm ==> Kept(a.names, b.names)
    ensures forall i :: i in a.names.Values ==> i in b.names.Values || LostToOthers(b.steps, |a.steps|, i)
  {
    hide Leads, LostToOthers, Asides;
    forall i | i in a.names.Values ensures i in b.names.Values || LostToOthers(b.steps, |a.steps|, i) {
      OnlyOthersTakeNames(others, b.steps, now, |a.steps|, i);
    }
  }
}
