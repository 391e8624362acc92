/** `research/dossier.py`: publishing a two-file dossier directory by staging, backing up and swapping. */
module Dossier {
  import opened Basics

  /** A manifest: whether its keys and types are the required ones, and the document hash it records. */
  datatype Manifest = Manifest(wellShaped: bool, documentHash: int)

  /** A directory object with the two dossier files and the names of any others. */
  datatype Directory = Directory(identity: int, document: Option<int>, manifest: Option<Manifest>, others: set<string>)

  datatype Name = Destination | Staging(nonce: nat) | Backup(nonce: nat) | Tombstone(nonce: nat) | Other(text: string)

  type Entries = map<Name, Directory>

  /** The hash of a document; documents are named so that it is injective. */
  function Hash(document: int): int { document }

  /** Both files are there and the manifest records the document. */
  predicate Consistent(d: Directory) {
    d.document.Some? && d.manifest.Some? ==> d.manifest.value.documentHash == Hash(d.document.value)
  }

  /** What `_validate_prior_dossier` accepts. */
  predicate ValidPrior(d: Directory) {
    && d.others == {} && d.document.Some? && d.manifest.Some? && d.manifest.value.wellShaped
    && d.manifest.value.documentHash == Hash(d.document.value)
  }

  /** One publication: what it writes, under which fresh names, and whether it may replace. */
  datatype Job = Job(document: int, manifest: Manifest, force: bool, nonce: nat, identity: int)

  function NewDossier(j: Job): Directory { Directory(j.identity, Some(j.document), Some(j.manifest), {}) }

  /** The forward steps that may raise; a step that raises has changed nothing. */
  datatype Step = MakeStage | WriteDocument | WriteManifest | CheckStage | CheckParent | RenameToBackup | CheckBackup
                | RenameToDestination | CheckPublished | RenameToTombstone | EmptyTombstone

  datatype Outcome = Refused | Failed | Stranded | Published

  predicate FreshNames(e: Entries, n: nat) { Staging(n) !in e && Backup(n) !in e && Tombstone(n) !in e }

  predicate Private(name: Name, n: nat) { name == Staging(n) || name == Backup(n) || name == Tombstone(n) }

  /** A reader of the destination sees the old directory, nothing, the complete new dossier, or one being taken down. */
  predicate Readable(e0: Entries, j: Job, e: Entries) {
    Destination in e ==>
      || (Destination in e0 && e[Destination] == e0[Destination])
      || (e[Destination].identity == j.identity && Consistent(e[Destination]))
  }

  /** The dossier being replaced is at the destination or the backup name, or the complete new one is in place. */
  predicate PriorSafe(e0: Entries, j: Job, e: Entries) {
    Destination in e0 ==>
      || (Destination in e && e[Destination] == e0[Destination])
      || (Backup(j.nonce) in e && e[Backup(j.nonce)] == e0[Destination])
      || (Destination in e && e[Destination] == NewDossier(j))
  }

  /** Nothing but the destination and the private names of the job is touched. */
  ghost predicate OthersKept(e0: Entries, j: Job, e: Entries) {
    forall name :: name != Destination && !Private(name, j.nonce) ==>
      (name in e <==> name in e0) && (name in e ==> e[name] == e0[name])
  }

  ghost predicate Safe(e0: Entries, j: Job, e: Entries) {
    Readable(e0, j, e) && PriorSafe(e0, j, e) && OthersKept(e0, j, e)
  }

  class ParentDirectory {
    var entries: Entries
    /** Every content the directory has had. */
    ghost var history: seq<Entries>

    /** Every content since `start` is safe for the job that began on `e0`. */
    ghost predicate Followed(start: nat, e0: Entries, j: Job)
      reads this
    {
      && Safe(e0, j, entries)
      && start <= |history|
      && forall i :: start <= i < |history| ==> Safe(e0, j, history[i])
    }

    constructor ()
      ensures entries == map[]
    {
      entries, history := map[], [];
    }

    /** One atomic change: a rename, a creation, a removal or a file appearing or going. */
    method Change(e: Entries, ghost start: nat, ghost e0: Entries, ghost j: Job)
      requires Followed(start, e0, j) && Safe(e0, j, e)
      modifies this
      ensures entries == e && history == old(history) + [e] && Followed(start, e0, j)
    {
      entries := e;
      history := history + [e];
    }

    lemma FollowedNow(start: nat, e0: Entries, j: Job)
      requires Followed(start, e0, j)
      ensures Safe(e0, j, entries)
    {
    }

    /** Unlinks the two files, in either order, then removes the directory. */
    method TakeDown(name: Name, documentFirst: bool, ghost start: nat, ghost e0: Entries, ghost j: Job)
      requires Followed(start, e0, j) && MayGo(e0, j, entries, name)
      modifies this
      ensures entries == old(entries) - {name}
      ensures Followed(start, e0, j) && old(history) <= history
    {
      hide Followed, Safe, MayGo;
      FollowedNow(start, e0, j);
      GoingIsSafe(e0, j, entries, name);
      var d := entries[name];
      var first := if documentFirst then d.(document := None) else d.(manifest := None);
      Change(entries[name := first], start, e0, j);
      var none := d.(document := None, manifest := None);
      assert entries[name := none] == old(entries)[name := none];
      Change(entries[name := none], start, e0, j);
      assert entries - {name} == old(entries) - {name};
      Change(entries - {name}, start, e0, j);
    }

    /** `_remove_private_stage`. */
    method RemoveStage(documentFirst: bool, ghost start: nat, ghost e0: Entries, j: Job)
      requires Followed(start, e0, j) && Staging(j.nonce) in entries
      modifies this
      ensures entries == old(entries) - {Staging(j.nonce)}
      ensures Followed(start, e0, j) && old(history) <= history
    {
      TakeDown(Staging(j.nonce), documentFirst, start, e0, j);
    }

    /** Creates the stage and writes the two files; says how far it got. */
    method Fill(j: Job, fault: Option<Step>, ghost start: nat, ghost e0: Entries) returns (made: bool, filled: bool)
      requires Followed(start, e0, j) && entries == e0 && FreshNames(e0, j.nonce)
      modifies this
      ensures Followed(start, e0, j) && old(history) <= history
      ensures made <==> fault != Some(MakeStage)
      ensures filled <==> fault.None? || fault.value !in {MakeStage, WriteDocument, WriteManifest}
      ensures if made then Staging(j.nonce) in entries && entries - {Staging(j.nonce)} == e0 else entries == e0
      ensures filled ==> entries == e0[Staging(j.nonce) := NewDossier(j)]
    {
      hide Followed, Safe;
      made, filled := false, false;
      StagingIsSafe(e0, j, Directory(j.identity, None, None, {}));
      StagingIsSafe(e0, j, Directory(j.identity, Some(j.document), None, {}));
      StagingIsSafe(e0, j, NewDossier(j));
      if fault == Some(MakeStage) {
        return;
      }
      made := true;
      Change(entries[Staging(j.nonce) := Directory(j.identity, None, None, {})], start, e0, j);
      if fault == Some(WriteDocument) {
        return;
      }
      Change(entries[Staging(j.nonce) := Directory(j.identity, Some(j.document), None, {})], start, e0, j);
      assert entries == e0[Staging(j.nonce) := Directory(j.identity, Some(j.document), None, {})];
      if fault == Some(WriteManifest) {
        return;
      }
      Change(entries[Staging(j.nonce) := NewDossier(j)], start, e0, j);
      assert entries == e0[Staging(j.nonce) := NewDossier(j)];
      filled := true;
    }

    /** Makes the stage, fills it and checks it. On failure the stage is taken down again. */
    method Stage(j: Job, fault: Option<Step>, documentFirst: bool, ghost start: nat, ghost e0: Entries) returns (ok: bool)
      requires Followed(start, e0, j) && entries == e0 && FreshNames(e0, j.nonce)
      modifies this
      ensures Followed(start, e0, j) && old(history) <= history
      ensures ok <==> StageHolds(j) && (fault.Some? ==> !InStaging(fault.value))
      ensures entries == if ok then e0[Staging(j.nonce) := NewDossier(j)] else e0
    {
      hide Followed;
      var made, filled := Fill(j, fault, start, e0);
      ok := filled && fault != Some(CheckStage) && j.manifest.documentHash == Hash(j.document);
      if made && !ok {
        RemoveStage(documentFirst, start, e0, j);
      }
    }

    /** `_remove_published_dossier`: it takes down only what it would accept as a prior dossier. */
    method RemovePublished(j: Job, documentFirst: bool, ghost start: nat, ghost e0: Entries) returns (removed: bool)
      requires Followed(start, e0, j) && StageHolds(j)
      requires Destination in entries && entries[Destination] == NewDossier(j)
      requires Destination in e0 ==> Backup(j.nonce) in entries && entries[Backup(j.nonce)] == e0[Destination]
      modifies this
      ensures Followed(start, e0, j) && old(history) <= history
      ensures removed <==> j.manifest.wellShaped
      ensures entries == if removed then old(entries) - {Destination} else old(entries)
    {
      if !ValidPrior(entries[Destination]) {
        return false;
      }
      TakeDown(Destination, documentFirst, start, e0, j);
      return true;
    }

    /** `_publish_stage` without `force`: the stage becomes the destination. */
    method PublishFresh(j: Job, fault: Option<Step>, documentFirst: bool, ghost start: nat, ghost e0: Entries)
      returns (outcome: Outcome)
      requires Followed(start, e0, j) && StageHolds(j) && FreshNames(e0, j.nonce) && Destination !in e0
      requires entries == e0[Staging(j.nonce) := NewDossier(j)]
      modifies this
      ensures Followed(start, e0, j) && old(history) <= history
      ensures outcome == if fault == Some(CheckParent) || fault == Some(RenameToDestination) then Failed
                         else if fault == Some(CheckPublished) then if j.manifest.wellShaped then Failed else Stranded
                         else Published
      ensures entries == if outcome == Failed then e0 else e0[Destination := NewDossier(j)]
    {
      hide Followed;
      if fault == Some(CheckParent) || fault == Some(RenameToDestination) {
        RemoveStage(documentFirst, start, e0, j);
        assert entries == e0;
        return Failed;
      }
      var published := entries[Destination := entries[Staging(j.nonce)]] - {Staging(j.nonce)};
      assert published == e0[Destination := NewDossier(j)];
      Change(published, start, e0, j);
      if fault == Some(CheckPublished) {
        var removed := RemovePublished(j, documentFirst, start, e0);
        assert entries == if removed then e0 else published;
        return if removed then Failed else Stranded;
      }
      return Published;
    }

    /** The swap: prior to the backup name, stage to the destination; undone on failure. */
    method Swap(j: Job, fault: Option<Step>, documentFirst: bool, ghost start: nat, ghost e0: Entries) returns (outcome: Outcome)
      requires Followed(start, e0, j) && StageHolds(j) && FreshNames(e0, j.nonce) && Destination in e0
      requires entries == e0[Staging(j.nonce) := NewDossier(j)]
      modifies this
      ensures Followed(start, e0, j) && old(history) <= history
      ensures outcome == if fault.Some? && fault.value in {CheckParent, RenameToBackup, CheckBackup, RenameToDestination} then Failed
                         else if fault == Some(CheckPublished) then if j.manifest.wellShaped then Failed else Stranded
                         else Published
      ensures entries == if outcome == Failed then e0
                         else e0[Backup(j.nonce) := e0[Destination]][Destination := NewDossier(j)]
    {
      hide Followed, Safe, NewDossier;
      FollowedNow(start, e0, j);
      SwappingIsSafe(e0, j);
      if fault == Some(CheckParent) || fault == Some(RenameToBackup) {
        RemoveStage(documentFirst, start, e0, j);
        assert entries == e0;
        return Failed;
      }
      var prior := entries[Destination];
      var moved := entries[Backup(j.nonce) := prior] - {Destination};
      assert moved == MovedAway(e0, j);
      Change(moved, start, e0, j);
      if fault == Some(CheckBackup) || fault == Some(RenameToDestination) {
        Restore(j, start, e0);
        RemoveStage(documentFirst, start, e0, j);
        assert entries == e0;
        return Failed;
      }
      var published := entries[Destination := entries[Staging(j.nonce)]] - {Staging(j.nonce)};
      assert published == e0[Backup(j.nonce) := e0[Destination]][Destination := NewDossier(j)];
      Change(published, start, e0, j);
      if fault == Some(CheckPublished) {
        var removed := RemovePublished(j, documentFirst, start, e0);
        if !removed {
          return Stranded;
        }
        Restore(j, start, e0);
        assert entries == e0;
        return Failed;
      }
      return Published;
    }

    /** `_restore_prior_dossier`. */
    method Restore(j: Job, ghost start: nat, ghost e0: Entries)
      requires Followed(start, e0, j) && Destination in e0
      requires Destination !in entries && Backup(j.nonce) in entries && entries[Backup(j.nonce)] == e0[Destination]
      modifies this
      ensures Followed(start, e0, j) && old(history) <= history
      ensures entries == old(entries)[Destination := e0[Destination]] - {Backup(j.nonce)}
    {
      hide Followed, Safe;
      FollowedNow(start, e0, j);
      RestoringIsSafe(e0, j, entries);
      Change(entries[Destination := entries[Backup(j.nonce)]] - {Backup(j.nonce)}, start, e0, j);
    }

    /** `_retire_prior_dossier`: failures here are swallowed. */
    method Retire(j: Job, fault: Option<Step>, documentFirst: bool, ghost start: nat, ghost e0: Entries)
      requires Followed(start, e0, j) && FreshNames(e0, j.nonce) && Destination in e0
      requires entries == e0[Backup(j.nonce) := e0[Destination]][Destination := NewDossier(j)]
      requires ValidPrior(e0[Destination])
      modifies this
      ensures Followed(start, e0, j) && old(history) <= history
      ensures entries == if fault == Some(RenameToTombstone) then old(entries)
                         else if fault == Some(EmptyTombstone)
                         then e0[Tombstone(j.nonce) := e0[Destination]][Destination := NewDossier(j)]
                         else e0[Destination := NewDossier(j)]
    {
      hide Followed, Safe, NewDossier, ValidPrior;
      FollowedNow(start, e0, j);
      RetiringIsSafe(e0, j);
      if fault == Some(RenameToTombstone) {
        return;
      }
      var moved := entries[Tombstone(j.nonce) := entries[Backup(j.nonce)]] - {Backup(j.nonce)};
      assert moved == e0[Tombstone(j.nonce) := e0[Destination]][Destination := NewDossier(j)];
      Change(moved, start, e0, j);
      if fault == Some(EmptyTombstone) {
        return;
      }
      TakeDown(Tombstone(j.nonce), documentFirst, start, e0, j);
      assert entries == e0[Destination := NewDossier(j)];
    }

    /** `_publish`. */
    method Publish(j: Job, fault: Option<Step>, documentFirst: bool) returns (outcome: Outcome)
      requires FreshNames(entries, j.nonce)
      modifies this
      ensures (entries, outcome) == Result(old(entries), j, fault)
      ensures OutcomeFits(old(entries), j, fault, outcome)
      ensures (outcome == Published || outcome == Stranded) && j.force ==> Destination in old(entries)
      ensures LeavesFits(old(entries), j, fault, outcome, entries)
      ensures old(history) <= history
      ensures forall i :: |old(history)| <= i < |history| ==> Safe(old(entries), j, history[i])
    {
      hide Safe, NewDossier, ValidPrior, StageHolds, FreshNames, OutcomeFits, LeavesFits;
      ghost var e0, start := entries, |history|;
      ResultFits(e0, j, fault);
      NothingChanged(e0, j);
      if Destination in entries && (!j.force || !ValidPrior(entries[Destination])) {
        return Refused;
      }
      var replacing := Destination in entries;
      var ok := Stage(j, fault, documentFirst, start, e0);
      if !ok {
        return Failed;
      }
      if !j.force {
        outcome := PublishFresh(j, fault, documentFirst, start, e0);
        return;
      }
      if !replacing {
        RemoveStage(documentFirst, start, e0, j);
        StageGone(e0, j, entries);
        return if fault == Some(CheckParent) then Failed else Refused;
      }
      outcome := Swap(j, fault, documentFirst, start, e0);
      if outcome == Published {
        Retire(j, fault, documentFirst, start, e0);
      }
    }
  }

  /** How a publication ends, and what it leaves in the directory. */
  function Result(e0: Entries, j: Job, fault: Option<Step>): (Entries, Outcome) {
    var published := e0[Destination := NewDossier(j)];
    if Destination in e0 && (!j.force || !ValidPrior(e0[Destination])) then (e0, Refused)
    else if !StageHolds(j) || (fault.Some? && InStaging(fault.value)) || fault == Some(CheckParent) then (e0, Failed)
    else if j.force && Destination !in e0 then (e0, Refused)
    else if fault == Some(RenameToDestination) then (e0, Failed)
    else if j.force && (fault == Some(RenameToBackup) || fault == Some(CheckBackup)) then (e0, Failed)
    else if fault == Some(CheckPublished) && j.manifest.wellShaped then (e0, Failed)
    else if fault == Some(CheckPublished) then
      (if j.force then e0[Backup(j.nonce) := e0[Destination]][Destination := NewDossier(j)] else published, Stranded)
    else if j.force && fault == Some(RenameToTombstone) then
      (e0[Backup(j.nonce) := e0[Destination]][Destination := NewDossier(j)], Published)
    else if j.force && fault == Some(EmptyTombstone) then
      (e0[Tombstone(j.nonce) := e0[Destination]][Destination := NewDossier(j)], Published)
    else (published, Published)
  }

  function MovedAway(e0: Entries, j: Job): Entries
    requires Destination in e0
  {
    e0[Staging(j.nonce) := NewDossier(j)][Backup(j.nonce) := e0[Destination]] - {Destination}
  }

  lemma NothingChanged(e0: Entries, j: Job)
    ensures Safe(e0, j, e0)
  {
  }

  lemma StagingIsSafe(e0: Entries, j: Job, d: Directory)
    ensures Safe(e0, j, e0[Staging(j.nonce) := d])
  {
  }

  lemma SwappingIsSafe(e0: Entries, j: Job)
    requires Destination in e0 && StageHolds(j)
    ensures Safe(e0, j, MovedAway(e0, j))
    ensures Safe(e0, j, e0[Backup(j.nonce) := e0[Destination]][Destination := NewDossier(j)])
  {
  }

  lemma RestoringIsSafe(e0: Entries, j: Job, e: Entries)
    requires Safe(e0, j, e) && Destination in e0
    ensures Safe(e0, j, e[Destination := e0[Destination]] - {Backup(j.nonce)})
  {
  }

  lemma RetiringIsSafe(e0: Entries, j: Job)
    requires Destination in e0 && Safe(e0, j, e0[Backup(j.nonce) := e0[Destination]][Destination := NewDossier(j)])
    ensures Safe(e0, j, e0[Tombstone(j.nonce) := e0[Destination]][Destination := NewDossier(j)])
  {
  }

  lemma StageGone(e0: Entries, j: Job, e: Entries)
    requires FreshNames(e0, j.nonce) && e == e0[Staging(j.nonce) := NewDossier(j)] - {Staging(j.nonce)}
    ensures e == e0
  {
  }

  predicate InStaging(step: Step) { step in {MakeStage, WriteDocument, WriteManifest, CheckStage} }

  /** The staged manifest records the staged document. */
  predicate StageHolds(j: Job) { j.manifest.documentHash == Hash(j.document) }

  /** Directories that may be taken down: private ones other than the backup, or the new dossier while the prior
      one is kept. */
  ghost predicate MayGo(e0: Entries, j: Job, e: Entries, name: Name) {
    && name in e
    && (|| name == Staging(j.nonce) || name == Tombstone(j.nonce)
        || (name == Destination && e[name].identity == j.identity && Consistent(e[name]) &&
            (Destination in e0 ==> Backup(j.nonce) in e && e[Backup(j.nonce)] == e0[Destination])))
  }

  lemma GoingIsSafe(e0: Entries, j: Job, e: Entries, name: Name)
    requires Safe(e0, j, e) && MayGo(e0, j, e, name)
    ensures name in e
    ensures Safe(e0, j, e[name := e[name].(document := None)])
    ensures Safe(e0, j, e[name := e[name].(manifest := None)])
    ensures Safe(e0, j, e[name := e[name].(document := None, manifest := None)])
    ensures Safe(e0, j, e - {name})
  {
  }

  // ----- what publication promises -----

  /** A complete dossier and nothing else: both files, a well-shaped manifest, and the document it records. */
  predicate IsDossier(d: Directory, document: int, manifest: Manifest) {
    && d.document == Some(document) && d.manifest == Some(manifest) && d.others == {}
    && manifest.wellShaped && manifest.documentHash == Hash(document)
  }

  /** The destination is taken by something that may not be replaced. */
  predicate Taken(e0: Entries, j: Job) {
    && Destination in e0
    && !(j.force && e0[Destination].document.Some? && e0[Destination].manifest.Some?
         && IsDossier(e0[Destination], e0[Destination].document.value, e0[Destination].manifest.value))
  }

  /** A step before the swap raises, or the manifest does not record the document. */
  predicate FailsBefore(j: Job, fault: Option<Step>) {
    || fault == Some(MakeStage) || fault == Some(WriteDocument) || fault == Some(WriteManifest)
    || fault == Some(CheckStage) || fault == Some(CheckParent) || j.manifest.documentHash != Hash(j.document)
  }

  /** A step of the swap raises; without force there is no backup to make or to check. */
  predicate FailsInSwap(j: Job, fault: Option<Step>) {
    || fault == Some(RenameToDestination) || (j.force && (fault == Some(RenameToBackup) || fault == Some(CheckBackup)))
  }

  /** Which outcome a publication has. It publishes exactly when the destination is free and force is not asked for, or
      it holds a dossier and force is, and no step before retiring the old one raises. */
  ghost predicate OutcomeFits(e0: Entries, j: Job, fault: Option<Step>, outcome: Outcome) {
    var tries := !Taken(e0, j) && !FailsBefore(j, fault);
    var swaps := tries && (j.force ==> Destination in e0);
    && (outcome == Refused <==> Taken(e0, j) || (tries && j.force && Destination !in e0))
    && (outcome == Published <==> swaps && !FailsInSwap(j, fault) && fault != Some(CheckPublished))
    && (outcome == Stranded <==> swaps && fault == Some(CheckPublished) && !j.manifest.wellShaped)
    && (outcome == Failed <==>
          || (!Taken(e0, j) && FailsBefore(j, fault))
          || (swaps && (FailsInSwap(j, fault) || (fault == Some(CheckPublished) && j.manifest.wellShaped))))
  }

  /** What each outcome leaves: nothing changes, or the new dossier is in place, with the old directory gone or at a
      private name. */
  ghost predicate LeavesFits(e0: Entries, j: Job, fault: Option<Step>, outcome: Outcome, e: Entries)
    requires (outcome == Published || outcome == Stranded) && j.force ==> Destination in e0
  {
    var done := e0[Destination := Directory(j.identity, Some(j.document), Some(j.manifest), {})];
    match outcome
    case Refused => e == e0
    case Failed => e == e0
    case Published =>
      if j.force && fault == Some(RenameToTombstone) then e == done[Backup(j.nonce) := e0[Destination]]
      else if j.force && fault == Some(EmptyTombstone) then e == done[Tombstone(j.nonce) := e0[Destination]]
      else e == done
    case Stranded => e == if j.force then done[Backup(j.nonce) := e0[Destination]] else done
  }

  /** When each outcome comes, and what it leaves. */
  lemma ResultFits(e0: Entries, j: Job, fault: Option<Step>)
    ensures OutcomeFits(e0, j, fault, Result(e0, j, fault).1)
    ensures var (e, outcome) := Result(e0, j, fault);
            (outcome == Published || outcome == Stranded) && j.force ==> Destination in e0
    ensures LeavesFits(e0, j, fault, Result(e0, j, fault).1, Result(e0, j, fault).0)
  {
  }

  /** Any dossier a reader finds at the destination, at any step, has a manifest that records its document. */
  lemma VisibleIsConsistent(e0: Entries, j: Job, e: Entries)
    requires Safe(e0, j, e) && (Destination in e0 ==> Consistent(e0[Destination]))
    ensures Destination in e ==> Consistent(e[Destination])
  {
  }

  /** On return the new dossier, complete and consistent, is at the destination and nothing else has changed but
      the job's private names; and a prior dossier was replaced only by force and only if it was valid. */
  lemma PublishedIsNew(e0: Entries, j: Job, fault: Option<Step>)
    requires Result(e0, j, fault).1.Published?
    ensures var e := Result(e0, j, fault).0;
            && Destination in e && e[Destination] == NewDossier(j) && Consistent(e[Destination]) && OthersKept(e0, j, e)
            && (Destination in e0 ==> j.force && ValidPrior(e0[Destination]))
  {
  }

  /** Exactly when a failed forced replacement leaves the prior dossier in place: the failure came before the swap
      was complete, or the new manifest has the required shape. Taking the new dossier down checks that shape. */
  lemma PriorRestoredExactly(e0: Entries, j: Job, fault: Option<Step>)
    requires Destination in e0 && FreshNames(e0, j.nonce) && NewDossier(j) != e0[Destination]
    requires !Result(e0, j, fault).1.Published?
    ensures Result(e0, j, fault).0 == e0 <==>
            !(j.force && ValidPrior(e0[Destination]) && StageHolds(j) && fault == Some(CheckPublished) && !j.manifest.wellShaped)
  {
    if Result(e0, j, fault).1 == Stranded {
      assert Result(e0, j, fault).0[Destination] == NewDossier(j);
    }
  }

  /** `_publish` by itself would strand a badly shaped manifest: the new dossier stays and the prior one is left at the
      backup name. `export_dossier` never hands it one. */
  lemma BadShapeIsStranded()
    ensures var prior := Directory(1, Some(10), Some(Manifest(true, 10)), {});
            var j := Job(20, Manifest(false, 20), true, 0, 2);
            Result(map[Destination := prior], j, Some(CheckPublished)) ==
            (map[Destination := NewDossier(j), Backup(0) := prior], Stranded)
  {
    var prior := Directory(1, Some(10), Some(Manifest(true, 10)), {});
    var j := Job(20, Manifest(false, 20), true, 0, 2);
    assert map[Destination := prior][Backup(0) := prior][Destination := NewDossier(j)] ==
           map[Destination := NewDossier(j), Backup(0) := prior];
  }

  // ----- exports -----

  datatype Export = Export(document: int, force: bool, nonce: nat, identity: int, fault: Option<Step>)

  /** What `export_dossier` publishes: a manifest of the required shape, with the hash of the document it goes with. */
  function JobOf(x: Export): Job { Job(x.document, Manifest(true, Hash(x.document)), x.force, x.nonce, x.identity) }

  function Exporting(e: Entries, x: Export): (Entries, Outcome) { Result(e, JobOf(x), x.fault) }

  /** An export is all or nothing: it publishes, or the directory is as it was, whatever fails and with or without
      force. */
  lemma ExportIsAllOrNothing(e: Entries, x: Export)
    ensures var (after, outcome) := Exporting(e, x);
            if outcome == Published
            then Destination in after && after[Destination] == NewDossier(JobOf(x)) && ValidPrior(after[Destination])
            else after == e
  {
  }

  function Run(e: Entries, exports: seq<Export>): Entries {
    if exports == [] then e else Exporting(Run(e, exports[..|exports| - 1]), exports[|exports| - 1]).0
  }

  /** The `i`th export of the run returned normally. */
  predicate PublishedAt(e: Entries, exports: seq<Export>, i: nat)
    requires i < |exports|
  {
    Exporting(Run(e, exports[..i]), exports[i]).1 == Published
  }

  /** Over any sequence of exports, whatever fails, the destination holds the dossier of the last export that returned
      normally. */
  lemma {:induction false} EveryRunKeepsTheLast(e: Entries, exports: seq<Export>, i: nat)
    requires i < |exports| && PublishedAt(e, exports, i)
    requires forall k :: i < k < |exports| ==> !PublishedAt(e, exports, k)
    ensures Destination in Run(e, exports) && Run(e, exports)[Destination] == NewDossier(JobOf(exports[i]))
    decreases |exports|
  {
    hide Exporting, JobOf, NewDossier;
    var last := |exports| - 1;
    var fewer := exports[..last];
    ExportIsAllOrNothing(Run(e, fewer), exports[last]);
    if i < last {
      assert !PublishedAt(e, exports, last);
      forall k | 0 <= k < last ensures PublishedAt(e, fewer, k) == PublishedAt(e, exports, k) {
        assert fewer[..k] == exports[..k];
      }
      EveryRunKeepsTheLast(e, fewer, i);
    }
  }

  /** While none has, the directory is as it was at first. */
  lemma {:induction false} EveryRunKeepsTheFirst(e: Entries, exports: seq<Export>)
    requires forall k :: 0 <= k < |exports| ==> !PublishedAt(e, exports, k)
    ensures Run(e, exports) == e
    decreases |exports|
  {
    hide Exporting, JobOf, NewDossier;
    if exports != [] {
      var last := |exports| - 1;
      var fewer := exports[..last];
      ExportIsAllOrNothing(Run(e, fewer), exports[last]);
      assert !PublishedAt(e, exports, last);
      forall k | 0 <= k < last ensures !PublishedAt(e, fewer, k) {
        assert !PublishedAt(e, exports, k) && fewer[..k] == exports[..k];
      }
      EveryRunKeepsTheFirst(e, fewer);
    }
  }

  /** A dossier at the destination stays one: both files, a manifest of the required shape that records the document. */
  lemma {:induction false} EveryRunKeepsADossier(e: Entries, exports: seq<Export>)
    requires Destination in e && ValidPrior(e[Destination])
    ensures Destination in Run(e, exports) && ValidPrior(Run(e, exports)[Destination])
  {
    hide Exporting;
    if exports != [] {
      var k := |exports| - 1;
      EveryRunKeepsADossier(e, exports[..k]);
      ExportIsAllOrNothing(Run(e, exports[..k]), exports[k]);
    }
  }
}
