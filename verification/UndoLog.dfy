/** The log of an asset transaction: what was changed, and what undoing it needs. */
module UndoLog {
  import opened Disks

  predicate Keepable(log: Log, nonce: nat) {
    Recorded(log.replaced, nonce) && forall i :: 0 <= i < |log.created| ==> log.created[i].target.name.Plain?
  }

  lemma LogStays(d: Disk, e: Disk, f: Disk, log: Log)
    requires Logged(d, e, log) && Grows(e, f, {})
    ensures Logged(d, f, log)
  {
    hide Grows, Holds, CreatedFits, ReplacedFits;
    GrowsChain(d, e, f, Targets(log), {}, Targets(log));
    forall i | 0 <= i < |log.created| ensures CreatedFits(d, f, log.created[i]) {
      CreatedFitsOn(d, e, f, {}, log.created[i]);
    }
    forall i | 0 <= i < |log.replaced| ensures ReplacedFits(d, f, log.replaced[i]) {
      ReplacedFitsOn(d, e, f, {}, log.replaced[i]);
    }
  }

  /** What is already logged is not disturbed by a change of a target that is not. */
  lemma LogOthers(d: Disk, e: Disk, f: Disk, log: Log, target: Loc)
    requires Logged(d, e, log) && Grows(e, f, {target}) && target !in Targets(log) && target.name.Plain?
    ensures AllCreatedFit(d, f, log.created) && AllReplacedFit(d, f, log.replaced)
    ensures Grows(d, f, Targets(log) + {target})
  {
    hide Grows, Holds;
    GrowsChain(d, e, f, Targets(log), {target}, Targets(log) + {target});
    forall i | 0 <= i < |log.created| ensures CreatedFits(d, f, log.created[i]) {
      CreatedFitsOn(d, e, f, {target}, log.created[i]);
    }
    forall i | 0 <= i < |log.replaced| ensures ReplacedFits(d, f, log.replaced[i]) {
      ReplacedFitsOn(d, e, f, {target}, log.replaced[i]);
    }
  }

  lemma TargetsCreated(log: Log, c: Created)
    ensures Targets(log.(created := log.created + [c])) == Targets(log) + {c.target}
  {
    assert (log.created + [c])[..|log.created|] == log.created;
  }

  lemma TargetsReplaced(log: Log, r: Replaced)
    ensures Targets(log.(replaced := log.replaced + [r])) == Targets(log) + {r.target}
  {
    assert (log.replaced + [r])[..|log.replaced|] == log.replaced;
  }

  lemma AppendCreated(d: Disk, f: Disk, created: seq<Created>, c: Created)
    requires AllCreatedFit(d, f, created) && CreatedFits(d, f, c) && CreatedApart(created)
    requires forall i :: 0 <= i < |created| ==> created[i].target != c.target
    ensures AllCreatedFit(d, f, created + [c]) && CreatedApart(created + [c])
  {
    hide CreatedFits;
  }

  lemma AppendReplaced(d: Disk, f: Disk, replaced: seq<Replaced>, r: Replaced)
    requires AllReplacedFit(d, f, replaced) && ReplacedFits(d, f, r) && ReplacedApart(replaced)
    requires forall i :: 0 <= i < |replaced| ==> replaced[i].target != r.target && replaced[i].backupLoc != r.backupLoc
    ensures AllReplacedFit(d, f, replaced + [r]) && ReplacedApart(replaced + [r])
  {
    hide ReplacedFits;
  }

  lemma LogCreated(d: Disk, e: Disk, f: Disk, log: Log, target: Loc, installed: Snapshot)
    requires Logged(d, e, log) && target !in Targets(log) && target.name.Plain? && target !in d.names
    requires Grows(e, f, {target}) && Holds(f, target, installed) && installed.content != Special
    ensures Logged(d, f, log.(created := log.created + [Created(target, installed)]))
    ensures Targets(log.(created := log.created + [Created(target, installed)])) == Targets(log) + {target}
  {
    hide Grows, Holds, Targets, AllCreatedFit, AllReplacedFit, CreatedApart, ReplacedApart;
    LogOthers(d, e, f, log, target);
    TargetsOnce(log, target);
    TargetsCreated(log, Created(target, installed));
    AppendCreated(d, f, log.created, Created(target, installed));
  }

  lemma TargetsOnce(log: Log, target: Loc)
    requires target !in Targets(log)
    ensures forall i :: 0 <= i < |log.created| ==> log.created[i].target != target
    ensures forall i :: 0 <= i < |log.replaced| ==> log.replaced[i].target != target
  {
  }

  lemma LogReplaced(d: Disk, e: Disk, f: Disk, log: Log, target: Loc, installed: Snapshot, backupLoc: Loc, backup: Snapshot)
    requires Tidy(d) && Logged(d, e, log) && target !in Targets(log) && target.name.Plain?
    requires Holds(d, target, backup) && backup.content != Special
    requires Grows(e, f, {target}) && Holds(f, target, installed) && installed.content != Special
    requires Holds(f, backupLoc, backup) && backupLoc !in e.names && Fresh(e, backupLoc) && backupLoc.name.Temp?
    ensures var r := Replaced(target, installed, backupLoc, backup);
            && Logged(d, f, log.(replaced := log.replaced + [r]))
            && Targets(log.(replaced := log.replaced + [r])) == Targets(log) + {target}
  {
    hide Grows, Holds, Tidy, Targets, AllCreatedFit, CreatedApart, ReplacedApart;
    var r := Replaced(target, installed, backupLoc, backup);
    LogOthers(d, e, f, log, target);
    TargetsOnce(log, target);
    TargetsReplaced(log, r);
    NonceOf(d, e, Targets(log));
    FreshPrivate(d, backupLoc);
    forall i | 0 <= i < |log.replaced| ensures log.replaced[i].backupLoc != backupLoc {
      assert ReplacedFits(d, e, log.replaced[i]);
      HoldsNamed(e, log.replaced[i].backupLoc, log.replaced[i].backup);
    }
    AppendReplaced(d, f, log.replaced, r);
  }

  lemma KeptRecords(log: Log, nonce: nat)
    requires Keepable(log, nonce)
    ensures Recorded(log.replaced, nonce) && forall loc :: loc in BackupNames(log.replaced) ==> !loc.name.Plain?
  {
  }

  lemma BackupsAreHeld(d: Disk, e: Disk, log: Log)
    requires Logged(d, e, log)
    ensures BackupsHeld(e, log.replaced)
  {
    hide Grows, Holds;
    forall i | 0 <= i < |log.replaced|
      ensures Holds(e, log.replaced[i].backupLoc, log.replaced[i].backup) && log.replaced[i].backup.content != Special
    {
      assert ReplacedFits(d, e, log.replaced[i]);
    }
  }

  datatype Created = Created(target: Loc, installed: Snapshot)

  datatype Replaced = Replaced(target: Loc, installed: Snapshot, backupLoc: Loc, backup: Snapshot)

  /** `AssetTransaction`. */
  datatype Log = Log(created: seq<Created>, replaced: seq<Replaced>)

  function CreatedTargets(created: seq<Created>): (r: set<Loc>)
    ensures forall i :: 0 <= i < |created| ==> created[i].target in r
    ensures forall loc :: loc in r ==> exists i :: 0 <= i < |created| && created[i].target == loc
  {
    if created == [] then {} else CreatedTargets(created[..|created| - 1]) + {created[|created| - 1].target}
  }

  function ReplacedTargets(replaced: seq<Replaced>): (r: set<Loc>)
    ensures forall i :: 0 <= i < |replaced| ==> replaced[i].target in r
    ensures forall loc :: loc in r ==> exists i :: 0 <= i < |replaced| && replaced[i].target == loc
  {
    if replaced == [] then {} else ReplacedTargets(replaced[..|replaced| - 1]) + {replaced[|replaced| - 1].target}
  }

  /** The managed names the transaction has changed. */
  function Targets(log: Log): set<Loc> { CreatedTargets(log.created) + ReplacedTargets(log.replaced) }

  function BackupNames(replaced: seq<Replaced>): (r: set<Loc>)
    ensures forall i :: 0 <= i < |replaced| ==> replaced[i].backupLoc in r
    ensures forall loc :: loc in r ==> exists i :: 0 <= i < |replaced| && replaced[i].backupLoc == loc
  {
    if replaced == [] then {} else BackupNames(replaced[..|replaced| - 1]) + {replaced[|replaced| - 1].backupLoc}
  }

  ghost predicate CreatedFits(d: Disk, e: Disk, c: Created) {
    c.target.name.Plain? && c.target !in d.names && Holds(e, c.target, c.installed) && c.installed.content != Special
  }

  ghost predicate ReplacedFits(d: Disk, e: Disk, r: Replaced) {
    && r.target.name.Plain? && Holds(d, r.target, r.backup) && Holds(e, r.target, r.installed)
    && r.backupLoc.name.Temp? && r.backupLoc !in d.names && Fresh(d, r.backupLoc) && Holds(e, r.backupLoc, r.backup)
    && r.installed.content != Special && r.backup.content != Special
  }

  /** `e` is `d` with exactly the logged changes made, and everything needed to undo them still there. */
  ghost predicate Logged(d: Disk, e: Disk, log: Log) {
    && Grows(d, e, Targets(log))
    && AllCreatedFit(d, e, log.created) && AllReplacedFit(d, e, log.replaced)
    && CreatedApart(log.created) && ReplacedApart(log.replaced)
  }

  ghost predicate CreatedApart(created: seq<Created>) {
    forall i, j :: 0 <= i < j < |created| ==> created[i].target != created[j].target
  }

  ghost predicate ReplacedApart(replaced: seq<Replaced>) {
    forall i, j :: 0 <= i < j < |replaced| ==>
      replaced[i].target != replaced[j].target && replaced[i].backupLoc != replaced[j].backupLoc
  }

  ghost predicate AllCreatedFit(d: Disk, e: Disk, created: seq<Created>) {
    forall i :: 0 <= i < |created| ==> CreatedFits(d, e, created[i])
  }

  ghost predicate AllReplacedFit(d: Disk, e: Disk, replaced: seq<Replaced>) {
    forall i :: 0 <= i < |replaced| ==> ReplacedFits(d, e, replaced[i])
  }

  predicate Recorded(replaced: seq<Replaced>, nonce: nat) {
    forall i :: 0 <= i < |replaced| ==>
      replaced[i].target.name.Plain? && replaced[i].backupLoc.name.Temp? && replaced[i].backupLoc.name.nonce < nonce
  }

  /** Nothing is logged that the change of `except` would disturb. */
  lemma CreatedFitsOn(d: Disk, e: Disk, f: Disk, a: set<Loc>, c: Created)
    requires CreatedFits(d, e, c) && Grows(e, f, a) && c.target !in a
    ensures CreatedFits(d, f, c)
  {
    HoldsKept(e, f, a, c.target, c.installed);
  }

  lemma ReplacedFitsOn(d: Disk, e: Disk, f: Disk, a: set<Loc>, r: Replaced)
    requires ReplacedFits(d, e, r) && Grows(e, f, a) && r.target !in a && r.backupLoc !in a
    ensures ReplacedFits(d, f, r)
  {
    HoldsKept(e, f, a, r.target, r.installed);
    HoldsKept(e, f, a, r.backupLoc, r.backup);
  }

  lemma LastReplaced(d: Disk, e: Disk, created: seq<Created>, replaced: seq<Replaced>)
    requires Logged(d, e, Log(created, replaced)) && replaced != []
    ensures var r := replaced[|replaced| - 1];
            && Holds(e, r.target, r.installed) && r.installed.content != Special
            && Holds(e, r.backupLoc, r.backup) && r.backup.content != Special && r.target != r.backupLoc
  {
    hide Grows, Holds;
    assert ReplacedFits(d, e, replaced[|replaced| - 1]);
  }

  lemma LastCreated(d: Disk, e: Disk, created: seq<Created>)
    requires Logged(d, e, Log(created, [])) && created != []
    ensures var c := created[|created| - 1]; Holds(e, c.target, c.installed) && c.installed.content != Special
  {
    hide Grows, Holds;
    assert CreatedFits(d, e, created[|created| - 1]);
  }

  /** A created target and a replaced one differ: the first was free before, the second was not. */
  lemma CreatedIsNotReplaced(d: Disk, e: Disk, c: Created, r: Replaced)
    requires CreatedFits(d, e, c) && ReplacedFits(d, e, r)
    ensures c.target != r.target && c.target != r.backupLoc && r.target != r.backupLoc
  {
  }

  /** Undoing the last replacement: the installed file has left the name and the backup takes it back. */
  lemma UndoneReplaced(d: Disk, e: Disk, f: Disk, created: seq<Created>, replaced: seq<Replaced>)
    requires Tidy(d) && replaced != [] && Logged(d, e, Log(created, replaced))
    requires var r := replaced[|replaced| - 1];
             Grows(e, f, {r.target}) && r.target !in f.names && Holds(f, r.backupLoc, r.backup)
    ensures var r := replaced[|replaced| - 1];
            r.backupLoc in f.names && Logged(d, RenameTo(f, r.backupLoc, r.target), Log(created, replaced[..|replaced| - 1]))
  {
    hide Grows, Holds, Tidy, Fresh, CreatedFits, ReplacedFits;
    var k := |replaced| - 1;
    var r := replaced[k];
    HoldsNamed(f, r.backupLoc, r.backup);
    var g := RenameTo(f, r.backupLoc, r.target);
    UndoneGrows(d, e, f, Targets(Log(created, replaced[..k])), r) by {
      assert Targets(Log(created, replaced)) == Targets(Log(created, replaced[..k])) + {r.target};
    }
    forall i | 0 <= i < |created| ensures CreatedFits(d, g, created[i]) {
      CreatedIsNotReplaced(d, e, created[i], r);
      CreatedFitsOn(d, e, g, {r.target, r.backupLoc}, created[i]);
    }
    forall i | 0 <= i < k ensures ReplacedFits(d, g, replaced[i]) {
      TargetsAreNotBackups(d, e, replaced[i], r);
      ReplacedFitsOn(d, e, g, {r.target, r.backupLoc}, replaced[i]);
    }
  }

  lemma TargetsAreNotBackups(d: Disk, e: Disk, r: Replaced, q: Replaced)
    requires ReplacedFits(d, e, r) && ReplacedFits(d, e, q)
    ensures r.target != q.backupLoc && q.target != r.backupLoc
  {
  }

  lemma UndoneGrows(d: Disk, e: Disk, f: Disk, others: set<Loc>, r: Replaced)
    requires Tidy(d) && Grows(d, e, others + {r.target}) && ReplacedFits(d, e, r)
    requires Grows(e, f, {r.target}) && r.target !in f.names && Holds(f, r.backupLoc, r.backup)
    ensures r.backupLoc in f.names
    ensures var g := RenameTo(f, r.backupLoc, r.target);
            Grows(e, g, {r.target, r.backupLoc}) && Grows(d, g, others)
  {
    hide Grows;
    var g := RenameTo(f, r.backupLoc, r.target);
    GrowsTidy(e, f, {r.target});
    PublishCalm(f, r.backupLoc, r.backup, r.target);
    GrowsChain(e, f, g, {r.target}, {r.backupLoc, r.target}, {r.target, r.backupLoc});
    GrowsChain(d, e, g, others + {r.target}, {r.target, r.backupLoc}, others + {r.target});
    Regain(d, g, others, r.target);
  }

  /** Undoing the last creation. */
  lemma UndoneCreated(d: Disk, e: Disk, f: Disk, created: seq<Created>)
    requires Tidy(d) && created != [] && Logged(d, e, Log(created, []))
    requires var c := created[|created| - 1]; Grows(e, f, {c.target}) && c.target !in f.names
    ensures Logged(d, f, Log(created[..|created| - 1], []))
  {
    hide Grows, Holds, Tidy, Fresh, CreatedFits;
    var k := |created| - 1;
    var c := created[k];
    var others := Targets(Log(created[..k], []));
    assert Targets(Log(created, [])) == others + {c.target};
    GrowsChain(d, e, f, others + {c.target}, {c.target}, others + {c.target});
    assert CreatedFits(d, e, c);
    CreatedWasFree(d, e, c);
    Forget(d, f, others, c.target);
    forall i | 0 <= i < k ensures CreatedFits(d, f, created[i]) {
      CreatedFitsOn(d, e, f, {c.target}, created[i]);
    }
  }

  lemma CreatedWasFree(d: Disk, e: Disk, c: Created)
    requires CreatedFits(d, e, c)
    ensures c.target !in d.names
  {
  }

  ghost predicate BackupsHeld(e: Disk, replaced: seq<Replaced>) {
    && ReplacedApart(replaced)
    && forall i :: 0 <= i < |replaced| ==> Holds(e, replaced[i].backupLoc, replaced[i].backup) && replaced[i].backup.content != Special
  }

  lemma FirstBackup(e: Disk, replaced: seq<Replaced>)
    requires BackupsHeld(e, replaced) && replaced != []
    ensures Holds(e, replaced[0].backupLoc, replaced[0].backup) && replaced[0].backup.content != Special
  {
  }

  lemma LaterBackups(e: Disk, f: Disk, replaced: seq<Replaced>)
    requires BackupsHeld(e, replaced) && replaced != [] && Grows(e, f, {replaced[0].backupLoc})
    ensures BackupsHeld(f, replaced[1..])
  {
    hide Grows, Holds;
    forall i | 0 <= i < |replaced[1..]| ensures Holds(f, replaced[1..][i].backupLoc, replaced[1..][i].backup) {
      HoldsKept(e, f, {replaced[0].backupLoc}, replaced[i + 1].backupLoc, replaced[i + 1].backup);
    }
  }
}
