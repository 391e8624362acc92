/** Directories as maps from names to file objects, and what an installer may do to them. */
module Disks {
  import opened Basics

  // ----- directories -----

  /** What a private name of the transaction is for. */
  datatype Purpose = ForStage | ForBackup | ForQuarantine | ForStray

  /** Managed and user names, the transaction's private names, and names inside a recovery directory. */
  datatype Name = Plain(text: string) | Temp(purpose: Purpose, nonce: nat) | Recovered(nonce: nat)

  datatype Loc = Loc(dir: string, name: Name)

  /** File contents, which stand for their own digest: any bytes, an ownership manifest with the layout of its text,
      or something that is not a regular file. */
  datatype Content = Blob(id: int) | Record(assets: map<Loc, Content>, layout: nat) | Special

  /** What identifies a file object: its inode and what it holds (size and times follow the content). */
  datatype Snapshot = Snapshot(inode: nat, content: Content)

  datatype Disk = Disk(names: map<Loc, nat>, data: map<nat, Content>, nextInode: nat, nonce: nat)

  ghost predicate Tidy(d: Disk) {
    && (forall loc :: loc in d.names ==> d.names[loc] in d.data)
    && (forall i :: i in d.data ==> i < d.nextInode)
    && (forall loc :: loc in d.names && loc.name.Temp? ==> loc.name.nonce < d.nonce)
    && (forall loc :: loc in d.names && loc.name.Recovered? ==> loc.name.nonce < d.nonce)
  }

  predicate Holds(d: Disk, loc: Loc, s: Snapshot) {
    loc in d.names && d.names[loc] == s.inode && s.inode in d.data && d.data[s.inode] == s.content
  }

  /** A private name the transaction has not used yet. */
  predicate Fresh(d: Disk, loc: Loc) {
    match loc.name
    case Plain(_) => false
    case Temp(_, n) => d.nonce <= n
    case Recovered(n) => d.nonce <= n
  }

  /** The private name the transaction gives out next. */
  predicate Next(d: Disk, loc: Loc) { !loc.name.Plain? && loc.name.nonce == d.nonce }

  /** From `d` to `e` every name outside `except` stays on its file, only private names appear, no file's content
      changes and no file object is forgotten. */
  ghost predicate Grows(d: Disk, e: Disk, except: set<Loc>) {
    && Tidy(e)
    && (forall loc :: loc in d.names && loc !in except ==> loc in e.names && e.names[loc] == d.names[loc])
    && (forall loc :: loc in e.names && loc !in d.names ==> loc in except || Fresh(d, loc))
    && (forall i :: i in d.data ==> i in e.data && e.data[i] == d.data[i])
    && d.nextInode <= e.nextInode && d.nonce <= e.nonce
  }

  lemma GrowsRefl(d: Disk)
    requires Tidy(d)
    ensures Grows(d, d, {})
  {
  }

  lemma GrowsChain(d: Disk, e: Disk, f: Disk, a: set<Loc>, b: set<Loc>, c: set<Loc>)
    requires Grows(d, e, a) && Grows(e, f, b) && a <= c
    requires forall loc :: loc in b ==> loc in c || (loc !in d.names && Fresh(d, loc))
    ensures Grows(d, f, c)
  {
  }

  /** A name that was free before and is free again. */
  lemma Forget(d: Disk, e: Disk, a: set<Loc>, loc: Loc)
    requires Grows(d, e, a + {loc}) && loc !in d.names && loc !in e.names
    ensures Grows(d, e, a)
  {
  }

  /** A name that is back on the file it was on. */
  lemma Regain(d: Disk, e: Disk, a: set<Loc>, loc: Loc)
    requires Grows(d, e, a + {loc}) && loc in d.names && loc in e.names && e.names[loc] == d.names[loc]
    ensures Grows(d, e, a)
  {
  }

  lemma HoldsKept(d: Disk, e: Disk, a: set<Loc>, loc: Loc, s: Snapshot)
    requires Grows(d, e, a) && Holds(d, loc, s) && loc !in a
    ensures Holds(e, loc, s)
  {
  }

  lemma GrowsTidy(d: Disk, e: Disk, a: set<Loc>)
    requires Grows(d, e, a)
    ensures Tidy(e) && d.nonce <= e.nonce
  {
  }

  lemma NextInode(d: Disk)
    requires Tidy(d)
    ensures d.nextInode !in d.data
  {
  }

  // ----- the file system's operations -----

  function RenameTo(d: Disk, src: Loc, dst: Loc): Disk
    requires src in d.names
  {
    d.(names := d.names[dst := d.names[src]] - {src})
  }

  function CreateAt(d: Disk, loc: Loc, content: Content): Disk {
    d.(names := d.names[loc := d.nextInode], data := d.data[d.nextInode := content], nextInode := d.nextInode + 1)
  }

  lemma RenameGrows(d: Disk, src: Loc, dst: Loc)
    requires Tidy(d) && src in d.names && dst !in d.names && src != dst && !Fresh(d, dst)
    ensures Grows(d, RenameTo(d, src, dst), {src, dst}) && src !in RenameTo(d, src, dst).names
  {
  }

  lemma RenameHolds(d: Disk, src: Loc, dst: Loc, s: Snapshot)
    requires Holds(d, src, s) && src != dst
    ensures Holds(RenameTo(d, src, dst), dst, s)
  {
  }

  lemma CreateGrows(d: Disk, loc: Loc, content: Content)
    requires Tidy(d) && loc !in d.names && !Fresh(d, loc)
    ensures Grows(d, CreateAt(d, loc, content), {loc})
    ensures Holds(CreateAt(d, loc, content), loc, Snapshot(d.nextInode, content))
  {
  }

  lemma FreshNonce(d: Disk, loc: Loc)
    requires Tidy(d) && Next(d, loc)
    ensures loc !in d.names && Fresh(d, loc) && !Fresh(d.(nonce := d.nonce + 1), loc)
    ensures Grows(d, d.(nonce := d.nonce + 1), {})
  {
  }

  /** Moving an entry to a fresh private name. */
  lemma AsideCalm(d: Disk, loc: Loc, private: Loc, s: Snapshot)
    requires Tidy(d) && Holds(d, loc, s) && Next(d, private)
    ensures var e := d.(nonce := d.nonce + 1);
            var f := RenameTo(e, loc, private);
            && private !in d.names && Fresh(d, private) && !Fresh(e, private) && loc != private
            && Tidy(e) && Grows(d, e, {}) && Holds(e, loc, s) && private !in e.names
            && Tidy(f) && Grows(d, f, {loc}) && loc !in f.names && Holds(f, private, s)
  {
    var e := d.(nonce := d.nonce + 1);
    FreshNonce(d, private);
    RenameGrows(e, loc, private);
    RenameHolds(e, loc, private, s);
    GrowsChain(d, e, RenameTo(e, loc, private), {}, {loc, private}, {loc});
  }

  lemma HoldsNamed(d: Disk, loc: Loc, s: Snapshot)
    requires Holds(d, loc, s)
    ensures loc in d.names
  {
  }

  lemma HoldsOne(d: Disk, loc: Loc, s: Snapshot, t: Snapshot)
    requires Holds(d, loc, s) && Holds(d, loc, t)
    ensures s == t
  {
  }

  /** What was free and not fresh stays free unless it is excepted. */
  lemma StaysFree(d: Disk, e: Disk, a: set<Loc>, loc: Loc)
    requires Grows(d, e, a) && loc !in d.names && loc !in a && !Fresh(d, loc)
    ensures loc !in e.names
  {
  }

  /** Every file object with a name still has one. */
  predicate Kept(before: map<Loc, nat>, after: map<Loc, nat>) { before.Values <= after.Values }

  /** In a calm world only the one planned fault makes a step fail; once it has struck nothing else fails. */
  predicate Blames(calm: bool, before: Option<nat>, after: Option<nat>, ok: bool) {
    (before.None? ==> after.None?) && (calm && !ok ==> before.Some? && after.None?)
  }

  /** The managed names, and what they hold, are as they were. */
  ghost predicate PlainSame(d: Disk, e: Disk) {
    && (forall loc: Loc :: loc.name.Plain? ==> (loc in d.names <==> loc in e.names))
    && (forall loc: Loc :: loc.name.Plain? && loc in d.names && loc in e.names ==> d.names[loc] == e.names[loc])
    && (forall i :: i in d.data ==> i in e.data && e.data[i] == d.data[i])
  }

  lemma PlainAfter(d: Disk, e: Disk, a: set<Loc>)
    requires Grows(d, e, a) && forall loc :: loc in a ==> !loc.name.Plain?
    ensures PlainSame(d, e)
  {
  }

  /** Whether the target has moved to the backup name or everything is still in place. */
  ghost predicate AsideOrNot(d: Disk, e: Disk, target: Loc, backupLoc: Loc, moved: bool, expected: Snapshot) {
    if moved then Grows(d, e, {target}) && target !in e.names && Holds(e, backupLoc, expected)
    else Grows(d, e, {}) && backupLoc !in e.names
  }

  /** Before and after the move aside of a target that is as expected. */
  lemma AsideCases(d: Disk, target: Loc, backupLoc: Loc, expected: Snapshot)
    requires Tidy(d) && Holds(d, target, expected) && backupLoc.name.Temp? && Next(d, backupLoc)
    ensures var e := d.(nonce := d.nonce + 1);
            && Tidy(e) && Holds(e, target, expected) && backupLoc !in e.names
            && AsideOrNot(d, e, target, backupLoc, false, expected)
            && Tidy(RenameTo(e, target, backupLoc)) && Holds(RenameTo(e, target, backupLoc), backupLoc, expected)
            && AsideOrNot(d, RenameTo(e, target, backupLoc), target, backupLoc, true, expected)
  {
    hide Grows, Tidy, Fresh, Holds;
    AsideCalm(d, target, backupLoc, expected);
  }

  lemma NonceOf(d: Disk, e: Disk, a: set<Loc>)
    requires Grows(d, e, a)
    ensures d.nonce <= e.nonce
  {
  }

  lemma RestoreCalm(d: Disk, e: Disk, target: Loc, backupLoc: Loc, expected: Snapshot, stage: Loc, staged: Snapshot)
    requires Tidy(d) && Holds(d, target, expected) && target.name.Plain? && backupLoc.name.Temp?
    requires AsideOrNot(d, e, target, backupLoc, true, expected)
    requires backupLoc !in d.names && Fresh(d, backupLoc)
    ensures var f := RenameTo(e, backupLoc, target);
            && backupLoc in e.names && Grows(d, f, {})
            && (Holds(e, stage, staged) && stage != backupLoc && stage != target ==> Holds(f, stage, staged))
  {
    var f := RenameTo(e, backupLoc, target);
    PublishCalm(e, backupLoc, expected, target);
    GrowsChain(d, e, f, {target}, {backupLoc, target}, {target});
    assert {target} == {} + {target};
    Regain(d, f, {}, target);
  }

  lemma AsideChain(d: Disk, e: Disk, f: Disk, target: Loc, backupLoc: Loc, moved: bool, expected: Snapshot,
                   stage: Loc, staged: Snapshot)
    requires Tidy(d) && Grows(d, e, {}) && AsideOrNot(e, f, target, backupLoc, moved, expected)
    requires Holds(e, stage, staged) && stage.name.Temp? && target.name.Plain? && backupLoc.name.Temp? && Next(e, backupLoc)
    ensures AsideOrNot(d, f, target, backupLoc, moved, expected) && Holds(f, stage, staged)
    ensures stage != backupLoc && Fresh(d, backupLoc) && backupLoc !in d.names
  {
    if moved {
      GrowsChain(d, e, f, {}, {target}, {target});
      HoldsKept(e, f, {target}, stage, staged);
    } else {
      GrowsChain(d, e, f, {}, {}, {});
      HoldsKept(e, f, {}, stage, staged);
    }
  }

  lemma PublishedOver(d: Disk, f: Disk, g: Disk, target: Loc, backupLoc: Loc, expected: Snapshot, stage: Loc, ok: bool)
    requires AsideOrNot(d, f, target, backupLoc, true, expected) && target.name.Plain?
    requires Grows(f, g, if ok then {stage, target} else {stage})
    requires stage !in d.names && Fresh(d, stage) && stage != backupLoc && target != backupLoc
    ensures ok ==> Grows(d, g, {target}) && Holds(g, backupLoc, expected)
    ensures !ok ==> AsideOrNot(d, g, target, backupLoc, true, expected)
  {
    var a := if ok then {stage, target} else {stage};
    GrowsChain(d, f, g, {target}, a, {target});
    HoldsKept(f, g, a, backupLoc, expected);
    if !ok {
      StaysFree(f, g, {stage}, target);
    }
  }

  lemma StageCalm(d: Disk, stage: Loc)
    requires Tidy(d) && stage.name.Temp? && Next(d, stage)
    ensures var e := d.(nonce := d.nonce + 1); Tidy(e) && stage !in e.names && Grows(d, e, {})
  {
  }

  lemma CreatedCalm(d: Disk, stage: Loc, content: Content)
    requires Tidy(d) && stage.name.Temp? && Next(d, stage)
    ensures var f := CreateAt(d.(nonce := d.nonce + 1), stage, content);
            && Tidy(f) && Grows(d, f, {}) && stage !in d.names && Fresh(d, stage)
            && Holds(f, stage, Snapshot(d.nextInode, content))
  {
    var e := d.(nonce := d.nonce + 1);
    FreshNonce(d, stage);
    CreateGrows(e, stage, content);
    GrowsChain(d, e, CreateAt(e, stage, content), {}, {stage}, {});
  }

  lemma PublishCalm(d: Disk, stage: Loc, staged: Snapshot, target: Loc)
    requires Tidy(d) && Holds(d, stage, staged) && target !in d.names && target.name.Plain? && stage.name.Temp?
    ensures var e := RenameTo(d, stage, target);
            && stage in d.names && stage != target && Tidy(e)
            && Grows(d, e, {stage, target}) && Holds(e, target, staged)
  {
    RenameGrows(d, stage, target);
    RenameHolds(d, stage, target, staged);
  }

  lemma FreshPrivate(d: Disk, loc: Loc)
    requires Tidy(d) && loc.name.Temp? && loc.name.nonce >= d.nonce
    ensures loc !in d.names && Fresh(d, loc)
  {
  }

  lemma PlainStaysFree(d: Disk, e: Disk, a: set<Loc>, loc: Loc)
    requires Grows(d, e, a) && loc !in d.names && loc !in a && loc.name.Plain?
    ensures loc !in e.names
  {
  }

  lemma FreshQuarantine(d: Disk, quarantine: Loc)
    requires Tidy(d) && quarantine.name.Temp? && Next(d, quarantine)
    ensures quarantine !in d.names && Fresh(d, quarantine)
  {
  }

  lemma RenameKeepsNames(names: map<Loc, nat>, src: Loc, dst: Loc)
    requires src in names && dst !in names
    ensures Kept(names, names[dst := names[src]] - {src})
  {
    var after := names[dst := names[src]] - {src};
    forall i | i in names.Values ensures i in after.Values {
      var loc :| loc in names && names[loc] == i;
      assert after[if loc == src then dst else loc] == i;
    }
  }

  lemma AddKeepsNames(names: map<Loc, nat>, loc: Loc, i: nat)
    requires loc !in names
    ensures Kept(names, names[loc := i])
  {
    forall j | j in names.Values ensures j in names[loc := i].Values {
      var at :| at in names && names[at] == j;
      assert names[loc := i][at] == j;
    }
  }
}
