/** `assistant_setup.py`: installing and upgrading managed files with an ownership manifest and an undo log. */
module Assets {
  import opened Basics
  import opened Disks
  import opened Traces
  import opened UndoLog

  // ----- planning -----

  /** A shipped file and where it goes. */
  datatype Asset = Asset(target: Loc, source: Content)

  /** The assets of the chosen clients, the ownership manifest, and the targets a manifest may name. */
  datatype Setup = Setup(assets: seq<Asset>, manifest: Loc, allowed: set<Loc>)

  predicate Proper(s: Setup) {
    && s.manifest.name.Plain? && s.manifest !in s.allowed
    && (forall i :: 0 <= i < |s.assets| ==>
          s.assets[i].target.name.Plain? && s.assets[i].target in s.allowed && s.assets[i].source.Blob?)
    && forall i, j :: 0 <= i < j < |s.assets| ==> s.assets[i].target != s.assets[j].target
  }

  datatype Ownership = OwnConflict | OwnMissing | OwnValid(assets: map<Loc, Content>, snapshot: Snapshot)

  /** `_ownership_manifest`. */
  function ReadOwnership(d: Disk, s: Setup): Ownership {
    if s.manifest !in d.names then OwnMissing
    else if d.names[s.manifest] !in d.data then OwnConflict
    else
      var content := d.data[d.names[s.manifest]];
      if content.Record? && content.assets.Keys <= s.allowed
      then OwnValid(content.assets, Snapshot(d.names[s.manifest], content))
      else OwnConflict
  }

  /** `AssetState` of a target that is not in conflict carries the file that is there. */
  datatype State = Missing | Identical(live: Snapshot) | Upgrade(live: Snapshot) | Conflict

  predicate RecordedAs(own: Ownership, target: Loc, content: Content) {
    own.OwnValid? && target in own.assets && own.assets[target] == content
  }

  /** `_asset_state`. */
  function StateOf(d: Disk, asset: Asset, own: Ownership): State {
    if asset.target !in d.names then Missing
    else if d.names[asset.target] !in d.data then Conflict
    else
      var live := Snapshot(d.names[asset.target], d.data[d.names[asset.target]]);
      if live.content == Special then Conflict
      else if live.content == asset.source then Identical(live)
      else if RecordedAs(own, asset.target, live.content) then Upgrade(live)
      else Conflict
  }

  /** The disk is as the state says. */
  predicate StateHolds(d: Disk, target: Loc, state: State) {
    match state
    case Missing => target !in d.names
    case Identical(live) => Holds(d, target, live) && live.content != Special
    case Upgrade(live) => Holds(d, target, live) && live.content != Special
    case Conflict => false
  }

  /** A plan without conflicts: what is right holds the source, and what is to be upgraded is what the manifest recorded. */
  predicate Planned(s: Setup, states: seq<State>, own: Ownership) {
    && |states| == |s.assets|
    && forall i :: 0 <= i < |states| ==>
         && !states[i].Conflict?
         && (states[i].Identical? ==> states[i].live.content == s.assets[i].source)
         && (states[i].Upgrade? ==> RecordedAs(own, s.assets[i].target, states[i].live.content))
  }

  ghost predicate StatesHold(d: Disk, s: Setup, states: seq<State>) {
    |states| == |s.assets| && forall i :: 0 <= i < |states| ==> StateHolds(d, s.assets[i].target, states[i])
  }

  function AssetTargets(s: Setup, n: nat): (r: set<Loc>)
    requires n <= |s.assets|
    ensures forall loc :: loc in r <==> exists i :: 0 <= i < n && s.assets[i].target == loc
  {
    if n == 0 then {} else AssetTargets(s, n - 1) + {s.assets[n - 1].target}
  }

  ghost predicate Placed(e: Disk, s: Setup, placed: seq<Snapshot>) {
    |placed| <= |s.assets| && forall i :: 0 <= i < |placed| ==> Holds(e, s.assets[i].target, placed[i])
  }

  /** What was placed so far has the contents of the sources. */
  predicate Contents(s: Setup, placed: seq<Snapshot>) {
    |placed| <= |s.assets| && forall i :: 0 <= i < |placed| ==> placed[i].content == s.assets[i].source
  }

  predicate AllIdentical(states: seq<State>) { forall i :: 0 <= i < |states| ==> states[i].Identical? }

  lemma NothingContained(s: Setup)
    ensures Contents(s, [])
  {
  }

  lemma ContentsStep(s: Setup, placed: seq<Snapshot>, installed: Snapshot)
    requires Contents(s, placed) && |placed| < |s.assets| && installed.content == s.assets[|placed|].source
    ensures Contents(s, placed + [installed])
  {
  }

  lemma IdenticalAt(states: seq<State>, n: nat)
    requires n < |states|
    ensures AllIdentical(states) ==> states[n].Identical?
  {
  }

  /** Every file moved aside was recorded in the manifest under its target. */
  predicate MovesRecorded(replaced: seq<Replaced>, own: Ownership) {
    forall i :: 0 <= i < |replaced| ==> RecordedAs(own, replaced[i].target, replaced[i].backup.content)
  }

  lemma NextTarget(s: Setup, n: nat)
    requires Proper(s) && n < |s.assets|
    ensures s.assets[n].target !in AssetTargets(s, n)
    ensures AssetTargets(s, n) + {s.assets[n].target} == AssetTargets(s, n + 1)
  {
  }

  lemma TargetsGrow(s: Setup, n: nat, m: nat)
    requires n < m <= |s.assets|
    ensures AssetTargets(s, n) + {s.assets[n].target} <= AssetTargets(s, m)
  {
  }

  lemma PlanAt(s: Setup, states: seq<State>, own: Ownership, n: nat)
    requires Proper(s) && Planned(s, states, own) && n < |s.assets|
    ensures s.assets[n].target.name.Plain? && s.assets[n].source != Special && |states| == |s.assets|
    ensures !states[n].Conflict?
    ensures states[n].Identical? ==> states[n].live.content == s.assets[n].source
    ensures states[n].Upgrade? ==> RecordedAs(own, s.assets[n].target, states[n].live.content)
  {
  }

  lemma StateAt(d: Disk, s: Setup, states: seq<State>, n: nat)
    requires StatesHold(d, s, states) && n < |s.assets|
    ensures |states| == |s.assets| && StateHolds(d, s.assets[n].target, states[n])
  {
  }

  /** At most the one target is moved aside, and only as its state says. */
  predicate MovesAtMost(before: seq<Replaced>, after: seq<Replaced>, target: Loc, state: State) {
    || after == before
    || (state.Upgrade? && |after| == |before| + 1 && after[..|before|] == before
        && after[|before|].target == target && after[|before|].backup == state.live)
  }

  lemma RecordedStep(before: seq<Replaced>, after: seq<Replaced>, target: Loc, state: State, own: Ownership)
    requires MovesRecorded(before, own) && MovesAtMost(before, after, target, state)
    requires state.Upgrade? ==> RecordedAs(own, target, state.live.content)
    ensures MovesRecorded(after, own)
  {
    if after != before {
      forall i | 0 <= i < |before| ensures after[i] == before[i] { assert after[i] == after[..|before|][i]; }
    }
  }

  /** The one file moved aside, if any: when last looked at it was the expected one, and in a calm world it still was. */
  predicate OnlyTakes(moves: seq<Taken>, target: Loc, expected: Snapshot, calm: bool) {
    moves == [] || (|moves| == 1 && moves[0].target == target && moves[0].seen == Some(expected)
                    && (calm ==> moves[0].moved == Some(expected)))
  }

  /** Every file moved aside was, when last looked at, the manifest or recorded in it under its target. */
  ghost predicate Justified(moves: seq<Taken>, own: Ownership, manifest: Loc) {
    forall i :: 0 <= i < |moves| ==>
      && moves[i].seen.Some?
      && (moves[i].target == manifest || RecordedAs(own, moves[i].target, moves[i].seen.value.content))
  }

  /** Every file moved aside was the one looked at, and it had the target's name from the beginning. */
  ghost predicate Exactly(d: Disk, moves: seq<Taken>) {
    forall i :: 0 <= i < |moves| ==>
      moves[i].seen.Some? && moves[i].moved == moves[i].seen && Holds(d, moves[i].target, moves[i].seen.value)
  }

  lemma NothingMoved(d: Disk, own: Ownership, manifest: Loc)
    ensures Justified([], own, manifest) && Exactly(d, [])
  {
  }

  lemma JustifiedStep(moves: seq<Taken>, more: seq<Taken>, own: Ownership, manifest: Loc, target: Loc, state: State,
                      calm: bool)
    requires Justified(moves, own, manifest)
    requires more == [] || (state.Upgrade? && OnlyTakes(more, target, state.live, calm))
    requires state.Upgrade? ==> target == manifest || RecordedAs(own, target, state.live.content)
    ensures Justified(moves + more, own, manifest)
  {
    hide RecordedAs;
  }

  lemma ExactlyStep(d: Disk, moves: seq<Taken>, more: seq<Taken>, target: Loc, state: State)
    requires Exactly(d, moves) && StateHolds(d, target, state)
    requires more == [] || (state.Upgrade? && OnlyTakes(more, target, state.live, true))
    ensures Exactly(d, moves + more)
  {
    hide Holds;
  }

  lemma NothingPlaced(s: Setup, own: Ownership, nonce: nat)
    ensures MovesRecorded([], own) && Keepable(Log([], []), nonce)
  {
  }

  lemma PlacedStep(e: Disk, f: Disk, s: Setup, placed: seq<Snapshot>, installed: Snapshot)
    requires Proper(s) && |placed| < |s.assets| && Placed(e, s, placed)
    requires var target := s.assets[|placed|].target; Grows(e, f, {target}) && Holds(f, target, installed)
    ensures Placed(f, s, placed + [installed])
  {
    hide Grows, Holds;
    forall i | 0 <= i < |placed| ensures Holds(f, s.assets[i].target, placed[i]) {
      HoldsKept(e, f, {s.assets[|placed|].target}, s.assets[i].target, placed[i]);
    }
  }

  lemma NothingLogged(d: Disk, s: Setup)
    requires Tidy(d)
    ensures Logged(d, d, Log([], [])) && Placed(d, s, []) && Targets(Log([], [])) <= AssetTargets(s, 0)
  {
    GrowsRefl(d);
  }

  /** A target the log does not mention is as it was. */
  lemma UntouchedTarget(d: Disk, e: Disk, log: Log, target: Loc, state: State)
    requires Logged(d, e, log) && target !in Targets(log) && target.name.Plain? && StateHolds(d, target, state)
    ensures StateHolds(e, target, state) && Tidy(e)
  {
    hide AllCreatedFit, AllReplacedFit, CreatedApart, ReplacedApart;
  }

  ghost predicate OwnershipHolds(d: Disk, s: Setup, own: Ownership) {
    match own
    case OwnConflict => false
    case OwnMissing => s.manifest !in d.names
    case OwnValid(_, snapshot) => Holds(d, s.manifest, snapshot) && snapshot.content.Record?
  }

  function Sources(assets: seq<Asset>): (r: map<Loc, Content>)
    ensures forall i :: 0 <= i < |assets| ==> assets[i].target in r
    ensures forall loc :: loc in r ==> exists i :: 0 <= i < |assets| && assets[i].target == loc && assets[i].source == r[loc]
  {
    if assets == [] then map[]
    else
      var last := assets[|assets| - 1];
      Sources(assets[..|assets| - 1])[last.target := last.source]
  }

  /** What the manifest is to record: what it recorded, with the shipped files over it. */
  function Desired(own: Ownership, s: Setup): map<Loc, Content> {
    (if own.OwnValid? then own.assets else map[]) + Sources(s.assets)
  }

  /** The manifest is written when missing, replaced when its bytes differ, and kept otherwise. */
  function ManifestState(own: Ownership, desired: Content): State {
    match own
    case OwnConflict => Conflict
    case OwnMissing => Missing
    case OwnValid(_, snapshot) => if snapshot.content == desired then Identical(snapshot) else Upgrade(snapshot)
  }

  /** Every target is its source. */
  predicate Installed(d: Disk, s: Setup) {
    forall i :: 0 <= i < |s.assets| ==>
      var target := s.assets[i].target;
      target in d.names && d.names[target] in d.data && d.data[d.names[target]] == s.assets[i].source
  }

  /** Every target is its source and the manifest records exactly `assets`. */
  predicate Settled(d: Disk, s: Setup, assets: map<Loc, Content>) {
    && Installed(d, s)
    && s.manifest in d.names && d.names[s.manifest] in d.data && d.data[d.names[s.manifest]] == Record(assets, 0)
  }

  /** There is nothing to do. */
  predicate AllRight(s: Setup, states: seq<State>, own: Ownership) {
    && AllIdentical(states)
    && ManifestState(own, Record(Desired(own, s), 0)).Identical?
  }

  /** Every file moved aside is the manifest or was recorded in it under its target. */
  predicate MovesManaged(replaced: seq<Replaced>, own: Ownership, manifest: Loc) {
    forall i :: 0 <= i < |replaced| ==>
      replaced[i].target == manifest || RecordedAs(own, replaced[i].target, replaced[i].backup.content)
  }

  lemma PlanLength(s: Setup, states: seq<State>, own: Ownership)
    requires Planned(s, states, own)
    ensures |states| == |s.assets|
  {
  }

  lemma NothingManaged(own: Ownership, manifest: Loc)
    ensures MovesManaged([], own, manifest)
  {
  }

  lemma MovesManagedFrom(replaced: seq<Replaced>, own: Ownership, manifest: Loc)
    requires MovesRecorded(replaced, own)
    ensures MovesManaged(replaced, own, manifest)
  {
  }

  lemma ManagedStep(before: seq<Replaced>, after: seq<Replaced>, own: Ownership, manifest: Loc, state: State)
    requires MovesManaged(before, own, manifest) && MovesAtMost(before, after, manifest, state)
    ensures MovesManaged(after, own, manifest)
  {
    hide RecordedAs;
    if after != before {
      forall i | 0 <= i < |before| ensures after[i] == before[i] { assert after[i] == after[..|before|][i]; }
    }
  }

  lemma NoneSpecial(s: Setup, placed: seq<Snapshot>)
    requires Proper(s) && |placed| == |s.assets|
    requires Contents(s, placed)
    ensures forall i :: 0 <= i < |placed| ==> placed[i].content != Special
  {
  }

  lemma ManifestIsPlain(s: Setup)
    requires Proper(s)
    ensures s.manifest.name.Plain?
  {
  }

  lemma ManifestUntouched(d: Disk, s: Setup, own: Ownership, desired: Content, log: Log)
    requires Proper(s) && OwnershipHolds(d, s, own) && Targets(log) <= AssetTargets(s, |s.assets|)
    ensures s.manifest !in Targets(log) && StateHolds(d, s.manifest, ManifestState(own, desired))
  {
  }

  lemma NowSettled(e: Disk, f: Disk, s: Setup, placed: seq<Snapshot>, installed: Snapshot, assets: map<Loc, Content>)
    requires Proper(s) && Placed(e, s, placed) && |placed| == |s.assets|
    requires Contents(s, placed)
    requires Grows(e, f, {s.manifest}) && Holds(f, s.manifest, installed) && installed.content == Record(assets, 0)
    ensures Settled(f, s, assets)
  {
    hide Grows;
    forall i | 0 <= i < |s.assets| ensures Holds(f, s.assets[i].target, placed[i]) {
      HoldsKept(e, f, {s.manifest}, s.assets[i].target, placed[i]);
    }
  }

  // ----- reports -----

  datatype Mode = DryRun | Verify | ApplyMode

  datatype Result = ReportPlanned | ReportBlocked | ReportVerified | ReportInvalid | ReportInstalled | ReportRolledBack

  /** What a state read off some disk says, whatever happens to the disk afterwards. */
  predicate StateFits(asset: Asset, state: State, own: Ownership) {
    match state
    case Identical(live) => live.content == asset.source
    case Upgrade(live) => RecordedAs(own, asset.target, live.content)
    case _ => true
  }

  lemma StateOfFits(d: Disk, asset: Asset, own: Ownership)
    ensures StateFits(asset, StateOf(d, asset, own), own)
  {
  }

  /** The check of verify mode. */
  predicate VerifiesBy(s: Setup, states: seq<State>, own: Ownership) {
    && AllIdentical(states) && own.OwnValid?
    && forall i :: 0 <= i < |s.assets| ==> RecordedAs(own, s.assets[i].target, s.assets[i].source)
  }

  function StatesOf(d: Disk, s: Setup): (states: seq<State>)
    ensures |states| == |s.assets|
    ensures forall i :: 0 <= i < |states| ==> states[i] == StateOf(d, s.assets[i], ReadOwnership(d, s))
  {
    seq(|s.assets|, i requires 0 <= i < |s.assets| => StateOf(d, s.assets[i], ReadOwnership(d, s)))
  }

  predicate Verifies(d: Disk, s: Setup) { VerifiesBy(s, StatesOf(d, s), ReadOwnership(d, s)) }

  predicate InConflict(d: Disk, s: Setup) {
    ReadOwnership(d, s).OwnConflict? || exists i :: 0 <= i < |s.assets| && StatesOf(d, s)[i].Conflict?
  }

  /** What a run from `d` to `e` reports. Verifying and dry runs change nothing. An apply is blocked exactly by a
      conflict; it installs everything, or rolls back and every managed name is on the file it was on. */
  ghost predicate Reports(d: Disk, e: Disk, s: Setup, mode: Mode, status: Result, log: Log, moves: seq<Taken>) {
    match mode
    case DryRun => e == d && moves == [] && (status == if InConflict(d, s) then ReportBlocked else ReportPlanned)
    case Verify => e == d && moves == [] && (status == if Verifies(d, s) then ReportVerified else ReportInvalid)
    case ApplyMode =>
      if InConflict(d, s) then status == ReportBlocked && e == d && moves == []
      else
        && (status == ReportInstalled || status == ReportRolledBack)
        && Justified(moves, ReadOwnership(d, s), s.manifest) && Exactly(d, moves)
        && (status == ReportRolledBack ==> PlainSame(d, e))
        && (status == ReportInstalled ==> Settled(e, s, Desired(ReadOwnership(d, s), s)))
        && (status == ReportInstalled && Settled(d, s, Desired(ReadOwnership(d, s), s)) ==>
              log == Log([], []) && moves == [] && e == d)
  }

  lemma ReportsAreRight(d: Disk, s: Setup, own: Ownership, states: seq<State>)
    requires own == ReadOwnership(d, s) && |states| == |s.assets|
    requires forall i :: 0 <= i < |states| ==> states[i] == StateOf(d, s.assets[i], own)
    ensures states == StatesOf(d, s)
    ensures Verifies(d, s) == VerifiesBy(s, states, own)
    ensures InConflict(d, s) == (own.OwnConflict? || exists i :: 0 <= i < |states| && states[i].Conflict?)
    ensures Reports(d, d, s, DryRun, if InConflict(d, s) then ReportBlocked else ReportPlanned, Log([], []), [])
    ensures Reports(d, d, s, Verify, if VerifiesBy(s, states, own) then ReportVerified else ReportInvalid, Log([], []), [])
    ensures InConflict(d, s) ==> Reports(d, d, s, ApplyMode, ReportBlocked, Log([], []), [])
  {
    hide StateOf, ReadOwnership, VerifiesBy, Settled, Desired;
    assert states == StatesOf(d, s);
  }

  lemma PlanIsPlanned(s: Setup, states: seq<State>, own: Ownership)
    requires |states| == |s.assets| && forall i :: 0 <= i < |states| ==> StateFits(s.assets[i], states[i], own)
    requires !exists i :: 0 <= i < |states| && states[i].Conflict?
    ensures Planned(s, states, own)
  {
    hide RecordedAs;
  }

  lemma PlanHolds(d: Disk, s: Setup, own: Ownership, states: seq<State>)
    requires own == ReadOwnership(d, s) && |states| == |s.assets| && !own.OwnConflict?
    requires forall i :: 0 <= i < |states| ==> states[i] == StateOf(d, s.assets[i], own)
    requires !exists i :: 0 <= i < |states| && states[i].Conflict?
    ensures StatesHold(d, s, states) && OwnershipHolds(d, s, own)
  {
    forall i | 0 <= i < |states| ensures StateHolds(d, s.assets[i].target, states[i]) {
      assert !states[i].Conflict?;
    }
  }

  lemma ReportRollback(d: Disk, e: Disk, s: Setup, own: Ownership, states: seq<State>,
                       moves: seq<Taken>)
    requires Grows(d, e, {}) && own == ReadOwnership(d, s) && !InConflict(d, s)
    requires Justified(moves, own, s.manifest) && Exactly(d, moves)
    ensures Reports(d, e, s, ApplyMode, ReportRolledBack, Log([], []), moves)
  {
    hide Justified, Exactly, Grows, InConflict, Settled, Desired, ReadOwnership;
    PlainAfter(d, e, {});
  }

  lemma PlainSettled(e: Disk, f: Disk, s: Setup, assets: map<Loc, Content>)
    requires Proper(s) && PlainSame(e, f) && Settled(e, s, assets)
    ensures Settled(f, s, assets)
  {
  }

  /** A settled disk needs nothing. */
  lemma SettledIsAllRight(d: Disk, s: Setup)
    requires Proper(s) && Settled(d, s, Desired(ReadOwnership(d, s), s)) && !ReadOwnership(d, s).OwnConflict?
    ensures AllRight(s, StatesOf(d, s), ReadOwnership(d, s))
  {
    hide Desired;
  }

  lemma ReportInstall(d: Disk, e: Disk, f: Disk, s: Setup, own: Ownership, states: seq<State>, log: Log,
                      moves: seq<Taken>)
    requires Justified(moves, own, s.manifest) && Exactly(d, moves)
    requires Proper(s) && own == ReadOwnership(d, s) && states == StatesOf(d, s) && !InConflict(d, s)
    requires Settled(e, s, Desired(own, s)) && (AllRight(s, states, own) ==> log == Log([], []) && moves == [] && e == d)
    requires Grows(e, f, BackupNames(log.replaced)) && forall loc :: loc in BackupNames(log.replaced) ==> !loc.name.Plain?
    requires log.replaced == [] ==> f == e
    ensures Reports(d, f, s, ApplyMode, ReportInstalled, log, moves)
  {
    hide Justified, Exactly, Grows, Settled, Desired, AllRight, StatesOf, ReadOwnership;
    PlainAfter(e, f, BackupNames(log.replaced));
    PlainSettled(e, f, s, Desired(own, s));
    NoConflictOwned(d, s);
    if Settled(d, s, Desired(own, s)) {
      SettledIsAllRight(d, s);
    }
  }

  lemma NoConflictOwned(d: Disk, s: Setup)
    requires !InConflict(d, s)
    ensures !ReadOwnership(d, s).OwnConflict?
  {
  }

  // ----- what the reports say of names and contents -----

  /** The name leads to a file with this content. */
  predicate LeadsTo(d: Disk, loc: Loc, content: Content) {
    loc in d.names && d.names[loc] in d.data && d.data[d.names[loc]] == content
  }

  /** The manifest's name leads to a record that names only allowed targets. */
  predicate ValidRecord(d: Disk, s: Setup) {
    && s.manifest in d.names && d.names[s.manifest] in d.data
    && d.data[d.names[s.manifest]].Record? && d.data[d.names[s.manifest]].assets.Keys <= s.allowed
  }

  /** What is recorded; nothing when there is no valid record. */
  function Records(d: Disk, s: Setup): map<Loc, Content> {
    if ValidRecord(d, s) then d.data[d.names[s.manifest]].assets else map[]
  }

  /** The target's name leads to something that is neither the source nor a regular file recorded under the target.
      A free name obstructs nothing. */
  predicate Obstructed(d: Disk, s: Setup, asset: Asset) {
    && asset.target in d.names && !LeadsTo(d, asset.target, asset.source)
    && !(asset.target in Records(d, s) && Records(d, s)[asset.target] != Special
         && LeadsTo(d, asset.target, Records(d, s)[asset.target]))
  }

  /** Something stands in the way: the manifest's name is taken by something that is no valid record, or a target is. */
  ghost predicate Blocks(d: Disk, s: Setup) {
    || (s.manifest in d.names && !ValidRecord(d, s))
    || exists i :: 0 <= i < |s.assets| && Obstructed(d, s, s.assets[i])
  }

  /** The manifest records each source at its target, and at every other place exactly what was recorded before. */
  ghost predicate RecordsOver(before: map<Loc, Content>, after: map<Loc, Content>, s: Setup) {
    && (forall i :: 0 <= i < |s.assets| ==>
          s.assets[i].target in after && after[s.assets[i].target] == s.assets[i].source)
    && forall loc :: (forall i :: 0 <= i < |s.assets| ==> s.assets[i].target != loc) ==>
         (loc in after <==> loc in before) && (loc in after ==> after[loc] == before[loc])
  }

  /** Every target is its source and the manifest records them over what it recorded before. */
  ghost predicate InPlace(before: map<Loc, Content>, e: Disk, s: Setup) {
    && (forall i :: 0 <= i < |s.assets| ==> LeadsTo(e, s.assets[i].target, s.assets[i].source))
    && ValidRecord(e, s) && RecordsOver(before, Records(e, s), s)
  }

  /** What verify mode asks for. */
  ghost predicate Sits(d: Disk, s: Setup) {
    && ValidRecord(d, s)
    && forall i :: 0 <= i < |s.assets| ==>
         && LeadsTo(d, s.assets[i].target, s.assets[i].source)
         && s.assets[i].target in Records(d, s) && Records(d, s)[s.assets[i].target] == s.assets[i].source
  }

  /** What a run says, told from names and contents alone. */
  ghost predicate Tells(d: Disk, e: Disk, s: Setup, mode: Mode, status: Result) {
    match mode
    case DryRun => status == if Blocks(d, s) then ReportBlocked else ReportPlanned
    case Verify => status == if Sits(d, s) then ReportVerified else ReportInvalid
    case ApplyMode =>
      && (status == ReportBlocked <==> Blocks(d, s))
      && (status == ReportInstalled ==> InPlace(Records(d, s), e, s))
      && (status == ReportBlocked || status == ReportInstalled || status == ReportRolledBack)
  }

  lemma OwnershipReads(d: Disk, s: Setup)
    ensures ReadOwnership(d, s).OwnMissing? <==> s.manifest !in d.names
    ensures ReadOwnership(d, s).OwnValid? <==> ValidRecord(d, s)
    ensures ValidRecord(d, s) ==>
              ReadOwnership(d, s).assets == Records(d, s) && Holds(d, s.manifest, ReadOwnership(d, s).snapshot)
  {
  }

  /** What planning finds at a target. */
  ghost predicate Finds(d: Disk, s: Setup, asset: Asset, state: State) {
    && (state.Missing? <==> asset.target !in d.names)
    && (state.Conflict? <==> Obstructed(d, s, asset))
    && (state.Identical? <==> LeadsTo(d, asset.target, asset.source))
    && (state.Identical? || state.Upgrade? ==> Holds(d, asset.target, state.live))
  }

  lemma StateFinds(d: Disk, s: Setup, asset: Asset)
    requires asset.source != Special
    ensures Finds(d, s, asset, StateOf(d, asset, ReadOwnership(d, s)))
  {
    hide ReadOwnership;
    OwnershipReads(d, s);
  }

  lemma PlanFinds(d: Disk, s: Setup, own: Ownership, states: seq<State>)
    requires own == ReadOwnership(d, s) && |states| == |s.assets|
    requires forall i :: 0 <= i < |states| ==> states[i] == StateOf(d, s.assets[i], own)
    ensures (own.OwnMissing? <==> s.manifest !in d.names) && (own.OwnValid? <==> ValidRecord(d, s))
            && (own.OwnValid? ==> own.assets == Records(d, s))
    ensures Proper(s) ==> forall i :: 0 <= i < |states| ==> Finds(d, s, s.assets[i], states[i])
  {
    hide ReadOwnership, StateOf, ValidRecord, Records, Finds;
    OwnershipReads(d, s);
    if Proper(s) {
      forall i | 0 <= i < |states| ensures Finds(d, s, s.assets[i], states[i]) {
        StateFinds(d, s, s.assets[i]);
      }
    }
  }

  /** A run is blocked by nothing but what stands in the way. */
  lemma ConflictBlocks(d: Disk, s: Setup)
    requires Proper(s)
    ensures InConflict(d, s) <==> Blocks(d, s)
  {
    hide ReadOwnership, StateOf, Obstructed, ValidRecord;
    OwnershipReads(d, s);
    forall i | 0 <= i < |s.assets| ensures StatesOf(d, s)[i].Conflict? <==> Obstructed(d, s, s.assets[i]) {
      StateFinds(d, s, s.assets[i]);
    }
  }

  lemma VerifiesSits(d: Disk, s: Setup)
    requires Proper(s)
    ensures Verifies(d, s) <==> Sits(d, s)
  {
    hide ReadOwnership, StateOf, LeadsTo, ValidRecord, Records;
    OwnershipReads(d, s);
    forall i | 0 <= i < |s.assets|
      ensures StatesOf(d, s)[i].Identical? <==> LeadsTo(d, s.assets[i].target, s.assets[i].source)
    {
      StateFinds(d, s, s.assets[i]);
    }
  }

  lemma SourcesOnlyAtTargets(own: Ownership, s: Setup, loc: Loc)
    requires forall i :: 0 <= i < |s.assets| ==> s.assets[i].target != loc
    ensures var before := if own.OwnValid? then own.assets else map[];
            (loc in Desired(own, s) <==> loc in before) && (loc in before ==> Desired(own, s)[loc] == before[loc])
  {
    hide Sources;
    assert loc !in Sources(s.assets);
  }

  lemma SourcesAtTargets(own: Ownership, s: Setup, i: nat)
    requires Proper(s) && i < |s.assets|
    ensures s.assets[i].target in Desired(own, s) && Desired(own, s)[s.assets[i].target] == s.assets[i].source
  {
    hide Sources;
    SourceOf(s.assets, i);
  }

  lemma DesiredRecordsOver(own: Ownership, s: Setup)
    requires Proper(s)
    ensures RecordsOver(if own.OwnValid? then own.assets else map[], Desired(own, s), s)
  {
    hide Desired, Proper;
    forall loc | forall i :: 0 <= i < |s.assets| ==> s.assets[i].target != loc
      ensures var before := if own.OwnValid? then own.assets else map[];
              (loc in Desired(own, s) <==> loc in before) && (loc in before ==> Desired(own, s)[loc] == before[loc])
    {
      SourcesOnlyAtTargets(own, s, loc);
    }
    forall i | 0 <= i < |s.assets|
      ensures s.assets[i].target in Desired(own, s) && Desired(own, s)[s.assets[i].target] == s.assets[i].source
    {
      SourcesAtTargets(own, s, i);
    }
  }

  lemma SettledInPlace(own: Ownership, e: Disk, s: Setup)
    requires Proper(s) && Settled(e, s, Desired(own, s)) && (own.OwnValid? ==> own.assets.Keys <= s.allowed)
    ensures InPlace(if own.OwnValid? then own.assets else map[], e, s)
  {
    hide Desired, RecordsOver;
    DesiredRecordsOver(own, s);
    assert Desired(own, s).Keys <= s.allowed by { DesiredKeys(own, s); }
  }

  lemma DesiredKeys(own: Ownership, s: Setup)
    requires Proper(s) && (own.OwnValid? ==> own.assets.Keys <= s.allowed)
    ensures Desired(own, s).Keys <= s.allowed
  {
  }

  /** The reports, told from names and contents alone. */
  lemma ReportsTell(d: Disk, e: Disk, s: Setup, mode: Mode, status: Result, log: Log, moves: seq<Taken>)
    requires Proper(s) && Reports(d, e, s, mode, status, log, moves)
    ensures Tells(d, e, s, mode, status)
  {
    hide Proper, InConflict, Verifies, Blocks, Sits, Settled, Desired, ReadOwnership, ValidRecord, InPlace;
    hide Justified, Exactly;
    ConflictBlocks(d, s);
    VerifiesSits(d, s);
    OwnershipReads(d, s);
    OwnershipAllowed(d, s);
    if mode == ApplyMode && status == ReportInstalled {
      if InConflict(d, s) {
        assert false;
      }
      SettledInPlace(ReadOwnership(d, s), e, s);
    }
  }

  /** The runs that change nothing. */
  lemma ReadingTells(d: Disk, s: Setup, own: Ownership, states: seq<State>)
    requires Proper(s) && own == ReadOwnership(d, s) && |states| == |s.assets|
    requires forall i :: 0 <= i < |states| ==> states[i] == StateOf(d, s.assets[i], own)
    ensures var conflict := own.OwnConflict? || exists i :: 0 <= i < |states| && states[i].Conflict?;
            && Tells(d, d, s, DryRun, if conflict then ReportBlocked else ReportPlanned)
            && Tells(d, d, s, Verify, if VerifiesBy(s, states, own) then ReportVerified else ReportInvalid)
            && (conflict ==> Tells(d, d, s, ApplyMode, ReportBlocked))
  {
    hide Proper, StateOf, ReadOwnership, VerifiesBy, InConflict, Verifies, Blocks, Sits;
    ReportsAreRight(d, s, own, states);
    ConflictBlocks(d, s);
    VerifiesSits(d, s);
  }

  lemma OwnershipAllowed(d: Disk, s: Setup)
    ensures ReadOwnership(d, s).OwnValid? ==> ReadOwnership(d, s).assets.Keys <= s.allowed
  {
  }

  // ----- the installer -----

  class Home {
    var names: map<Loc, nat>
    var data: map<nat, Content>
    var nextInode: nat
    var nonce: nat
    /** How many more operations succeed before the one planned fault; None when no fault is to come. */
    var fuse: Option<nat>
    /** What other processes leave the entries as, at each step that is theirs; none act when this is empty. */
    const others: seq<Entries>
    const foreign: bool := others != []
    /** How many steps were taken, the installer's own included. */
    var clock: nat
    /** Everything that happened, by the installer and by others. */
    ghost var steps: seq<Step>

    ghost function View(): Disk
      reads this`names, this`data, this`nextInode, this`nonce
    {
      Disk(names, data, nextInode, nonce)
    }

    ghost function Now(): Entries
      reads this`names, this`data
    {
      Entries(names, data)
    }

    /** What the next operation will find. */
    ghost function Ahead(): Entries
      reads this`names, this`data, this`clock
    {
      Seen(others, clock, Now())
    }

    /** The trace accounts for every change of the entries. */
    ghost predicate Sound()
      reads this`steps, this`names, this`data, this`clock
    {
      Traced(others, steps, Now()) && |steps| == clock + 1
    }

    ghost predicate Ready()
      reads this`steps, this`names, this`data, this`nextInode, this`nonce, this`clock
    {
      Sound() && (!foreign ==> Tidy(View()))
    }

    ghost function Here(): Moment
      reads this`steps, this`names
    {
      Moment(steps, names, !foreign)
    }

    constructor (d: Disk, fuse: Option<nat>, others: seq<Entries>)
      requires Tidy(d)
      ensures Ready() && View() == d && this.fuse == fuse && this.others == others && clock == 0
      ensures |steps| == 1 && Asides(steps) == []
    {
      names, data, nextInode, nonce := d.names, d.data, d.nextInode, d.nonce;
      this.fuse, this.others, clock, steps := fuse, others, 0, [Step(Began, Entries(d.names, d.data))];
    }

    /** Other processes: entries appear, vanish, are renamed or rewritten. */
    method Interfere()
      requires Ready()
      modifies this`names, this`data, this`clock, this`steps
      ensures Ready() && Quietly(old(Here()), Here()) && (!foreign ==> View() == old(View()))
      ensures Now() == old(Ahead()) && clock == old(clock) + 1 && steps == old(steps) + [Step(Others, Now())]
    {
      hide Traced, Quietly, Asides;
      QuietStep(others, Here(), Now(), Step(Others, Ahead()));
      if clock < |others| {
        names, data := others[clock].names, others[clock].data;
      }
      clock, steps := clock + 1, steps + [Step(Others, Now())];
    }

    /** Any operation may be the one that fails. */
    method Tick() returns (ok: bool)
      modifies this`fuse
      ensures ok == (old(fuse) != Some(0)) && Blames(!foreign, old(fuse), fuse, ok)
    {
      ok := fuse != Some(0);
      fuse := match fuse case None => None case Some(n) => if n == 0 then None else Some(n - 1);
    }

    /** `renameat2` without replacing: it fails on a name that is taken and on one that is missing. */
    method Rename(src: Loc, dst: Loc) returns (ok: bool)
      requires Ready()
      modifies this`names, this`data, this`clock, this`steps, this`fuse
      ensures Sound() && Blames(!foreign && src in old(names) && dst !in old(names), old(fuse), fuse, ok)
      ensures ok == (old(fuse) != Some(0) && src in old(Ahead()).names && dst !in old(Ahead()).names)
      ensures Adds(old(steps), old(Ahead()), Renamed(src, dst), ok, steps, Now())
      ensures if ok && Aside(Renamed(src, dst))
              then Moving(old(Here()), Here(), [Taken(src, Look(old(Now()), src), Look(old(Ahead()), src))])
              else Quietly(old(Here()), Here())
      ensures !foreign ==>
                old(Ahead()) == old(Now()) && View() == if ok then RenameTo(old(View()), src, dst) else old(View())
    {
      hide Traced, Quietly, Moving, Seen, Asides;
      QuietChain();
      Interfere();
      ok := Tick();
      if !ok || src !in names || dst in names {
        return false;
      }
      ghost var step := Step(Renamed(src, dst), Entries(names[dst := names[src]] - {src}, data));
      if Aside(step.did) {
        AsideStep(others, old(Here()), old(Now()), Now(), step);
      } else {
        QuietStep(others, Here(), Now(), step);
      }
      names := names[dst := names[src]] - {src};
      clock, steps := clock + 1, steps + [step];
    }

    /** `link` without replacing. */
    method Link(src: Loc, dst: Loc) returns (ok: bool)
      requires Ready()
      modifies this`names, this`data, this`clock, this`steps, this`fuse
      ensures Sound() && Quietly(old(Here()), Here()) && (old(fuse).None? ==> fuse.None?)
      ensures ok == (old(fuse) != Some(0) && src in old(Ahead()).names && dst !in old(Ahead()).names)
      ensures Adds(old(steps), old(Ahead()), Linked(src, dst), ok, steps, Now())
    {
      hide Traced, Quietly, Asides;
      QuietChain();
      Interfere();
      ok := Tick();
      if !ok || src !in names || dst in names {
        return false;
      }
      ghost var step := Step(Linked(src, dst), Entries(names[dst := names[src]], data));
      QuietStep(others, Here(), Now(), step);
      names := names[dst := names[src]];
      clock, steps := clock + 1, steps + [step];
    }

    /** Creates exclusively and writes; a failed write leaves a partial file. */
    method CreateFile(loc: Loc, content: Content) returns (created: bool, written: bool, s: Snapshot)
      requires Ready()
      modifies this`names, this`data, this`clock, this`steps, this`fuse, this`nextInode
      ensures Sound() && Quietly(old(Here()), Here())
      ensures Blames(!foreign && loc !in old(names), old(fuse), fuse, created && written)
      ensures created == (old(fuse) != Some(0) && loc !in old(Ahead()).names)
      ensures Adds(old(steps), old(Ahead()), Made(loc, s), created, steps, Now())
      ensures !foreign ==>
                View() == (if created then CreateAt(old(View()), loc, s.content) else old(View())) &&
                s.inode == old(nextInode)
      ensures written ==> created && s.content == content
      ensures s.content == content || s.content == Blob(-1)
    {
      hide Traced, Quietly, Asides, Tidy, Unused;
      QuietChain();
      if !foreign {
        NextInode(View());
      }
      Interfere();
      s := Snapshot(Unused(data, nextInode), content);
      created := Tick();
      written := false;
      if !created || loc in names {
        return false, false, s;
      }
      written := Tick();
      if !written {
        s := s.(content := Blob(-1));
      }
      ghost var step := Step(Made(loc, s), Entries(names[loc := s.inode], data[s.inode := s.content]));
      QuietStep(others, Here(), Now(), step);
      names, data, nextInode := names[loc := s.inode], data[s.inode := s.content], s.inode + 1;
      clock, steps := clock + 1, steps + [step];
    }

    /** Opens, reads and checks that the name still leads to the same file. */
    method SnapshotAt(loc: Loc) returns (s: Option<Snapshot>)
      requires Ready()
      modifies this`names, this`data, this`clock, this`steps, this`fuse
      ensures Ready() && Quietly(old(Here()), Here()) && (!foreign ==> View() == old(View()))
      ensures Now() == old(Ahead()) && clock == old(clock) + 1
      ensures Blames(!foreign && Readable(old(Now()), loc).Some?, old(fuse), fuse, s.Some?)
      ensures s == if old(fuse) != Some(0) then Readable(Now(), loc) else None
      ensures s.Some? ==> Holds(View(), loc, s.value)
    {
      hide Traced, Quietly;
      Interfere();
      var ok := Tick();
      if !ok || loc !in names || names[loc] !in data || data[names[loc]] == Special {
        return None;
      }
      return Some(Snapshot(names[loc], data[names[loc]]));
    }

    /** A private name that is not taken. */
    method UniqueName(dir: string, purpose: Purpose) returns (ok: bool, loc: Loc)
      requires Ready()
      modifies this`names, this`data, this`clock, this`steps, this`fuse, this`nonce
      ensures Ready() && Quietly(old(Here()), Here()) && Blames(!foreign, old(fuse), fuse, ok)
      ensures nonce == old(nonce) + 1 && loc == Loc(dir, Temp(purpose, old(nonce)))
      ensures Now() == old(Ahead()) && clock == old(clock) + 1
      ensures ok == (old(fuse) != Some(0) && loc !in names)
      ensures !foreign ==> View() == old(View()).(nonce := nonce)
    {
      hide Traced, Quietly;
      loc := Loc(dir, Temp(purpose, nonce));
      if !foreign {
        FreshNonce(View(), loc);
      }
      Interfere();
      ok := Tick();
      nonce := nonce + 1;
      ok := ok && loc !in names;
    }

    /** A name in the private recovery directory of `dir` that is not taken. */
    method RecoveryName(dir: string) returns (ok: bool, loc: Loc)
      requires Ready()
      modifies this`names, this`data, this`clock, this`steps, this`fuse, this`nonce
      ensures Ready() && Quietly(old(Here()), Here()) && Blames(!foreign, old(fuse), fuse, ok)
      ensures nonce == old(nonce) + 1 && loc == Loc(dir, Recovered(old(nonce)))
      ensures !foreign ==> View() == old(View()).(nonce := nonce)
    {
      hide Traced, Quietly;
      loc := Loc(dir, Recovered(nonce));
      if !foreign {
        FreshNonce(View(), loc);
      }
      Interfere();
      ok := Tick();
      nonce := nonce + 1;
      ok := ok && loc !in names;
    }

    /** Not a private name still to be given out. */
    predicate Used(loc: Loc)
      reads this`nonce
    {
      match loc.name
      case Plain(_) => true
      case Temp(_, n) => n < nonce
      case Recovered(n) => n < nonce
    }

    /** Restores the old name of a stray entry if that is still free; only another process can have brought it. */
    method LinkBack(from: Loc, to: Loc)
      requires Ready() && foreign
      modifies this`names, this`data, this`clock, this`steps, this`fuse
      ensures Sound() && Quietly(old(Here()), Here()) && (old(fuse).None? ==> fuse.None?)
    {
      hide Traced, Quietly;
      var linked := Link(from, to);
    }

    /** `_quarantine_expected_entry`. */
    method Quarantine(loc: Loc, expected: Snapshot) returns (ok: bool, quarantine: Loc)
      requires Ready() && Used(loc)
      requires !foreign ==> Holds(View(), loc, expected) && expected.content != Special
      modifies this
      ensures Ready() && Quietly(old(Here()), Here()) && Blames(!foreign, old(fuse), fuse, ok)
      ensures old(nonce) <= nonce && quarantine == Loc(loc.dir, Temp(ForQuarantine, old(nonce))) && Used(quarantine)
      ensures ok ==> Holds(View(), quarantine, expected)
      ensures !foreign ==> Grows(old(View()), View(), {loc}) && (ok ==> loc !in names)
    {
      hide Traced, Quietly, Moving, Adds, Seen, Grows, Tidy, Fresh;
      QuietChain();
      ghost var d := View();
      if !foreign {
        AsideCalm(d, loc, Loc(loc.dir, Temp(ForQuarantine, d.nonce)), expected);
        GrowsChain(d, d, d.(nonce := d.nonce + 1), {}, {}, {loc}) by { GrowsRefl(d); }
      }
      ok, quarantine := UniqueName(loc.dir, ForQuarantine);
      if !ok {
        return;
      }
      ok := Rename(loc, quarantine);
      if !ok {
        return;
      }
      var found := SnapshotAt(quarantine);
      if found.None? {
        return false, quarantine;
      }
      if found.value == expected {
        return;
      }
      var named, recovery := UniqueName(loc.dir, ForStray);
      if named {
        var moved := Rename(quarantine, recovery);
        if moved {
          LinkBack(recovery, loc);
        }
      }
      return false, quarantine;
    }

    /** `_retain_quarantined_entry`. */
    method Retain(quarantine: Loc, original: Loc, s: Snapshot) returns (ok: bool, recovery: Loc)
      requires Ready() && Used(quarantine)
      requires !foreign ==> Holds(View(), quarantine, s) && s.content != Special
      modifies this
      ensures Ready() && Quietly(old(Here()), Here()) && Blames(!foreign, old(fuse), fuse, ok)
      ensures ok ==> recovery.dir == quarantine.dir && recovery.name.Recovered? && Holds(View(), recovery, s)
      ensures old(nonce) <= nonce
      ensures !foreign ==> Grows(old(View()), View(), {quarantine})
    {
      hide Traced, Quietly, Moving, Adds, Seen, Grows, Tidy, Fresh;
      QuietChain();
      ghost var d := View();
      if !foreign {
        AsideCalm(d, quarantine, Loc(quarantine.dir, Recovered(d.nonce)), s);
        GrowsChain(d, d, d, {}, {}, {quarantine}) by { GrowsRefl(d); }
        GrowsChain(d, d, d.(nonce := d.nonce + 1), {}, {}, {quarantine}) by { GrowsRefl(d); }
      }
      // Opening the recovery directory.
      recovery := quarantine;
      ok := Tick();
      if !ok {
        return;
      }
      ok, recovery := RecoveryName(quarantine.dir);
      if !ok {
        return;
      }
      ok := Rename(quarantine, recovery);
      if !ok {
        return;
      }
      var found := SnapshotAt(recovery);
      if found.None? {
        return false, recovery;
      }
      if found.value != s {
        LinkBack(recovery, original);
        return false, recovery;
      }
      // Flushing the recovery directory.
      ok := Tick();
    }

    /** `_remove_expected_entry`: the entry leaves its name for the recovery directory. */
    method RemoveExpected(loc: Loc, expected: Snapshot) returns (ok: bool, recovery: Loc)
      requires Ready() && Used(loc)
      requires !foreign ==> Holds(View(), loc, expected) && expected.content != Special
      modifies this
      ensures Ready() && Quietly(old(Here()), Here()) && Blames(!foreign, old(fuse), fuse, ok)
      ensures ok ==> recovery.dir == loc.dir && recovery.name.Recovered? && Holds(View(), recovery, expected)
      ensures old(nonce) <= nonce
      ensures !foreign ==> Grows(old(View()), View(), {loc}) && (ok ==> loc !in names)
    {
      hide Traced, Quietly, Moving, Adds, Seen, Grows, Tidy, Holds;
      QuietChain();
      ghost var d := View();
      var quarantine;
      ok, quarantine := Quarantine(loc, expected);
      recovery := quarantine;
      ghost var e := View();
      if !ok {
        return;
      }
      ok, recovery := Retain(quarantine, loc, expected);
      if !foreign {
        FreshQuarantine(d, quarantine);
        GrowsChain(d, e, View(), {loc}, {quarantine}, {loc});
        StaysFree(e, View(), {quarantine}, loc);
      }
    }

    /** `_stage_bytes_at`: a private file with the content, verified by reading it back. */
    method StageBytes(dir: string, content: Content) returns (ok: bool, stage: Loc, staged: Snapshot)
      requires Ready() && content != Special
      modifies this
      ensures Ready() && Quietly(old(Here()), Here()) && Blames(!foreign, old(fuse), fuse, ok)
      ensures old(nonce) <= nonce && Used(stage) && stage.dir == dir && stage.name == Temp(ForStage, old(nonce))
      ensures staged.content == content || !ok
      ensures !foreign ==> Grows(old(View()), View(), {}) && (ok ==> Holds(View(), stage, staged))
    {
      hide Traced, Quietly, Moving, Adds, Seen, Grows, Tidy, Fresh, Holds;
      QuietChain();
      ghost var d := View();
      staged := Snapshot(0, content);
      if !foreign {
        StageCalm(d, Loc(dir, Temp(ForStage, d.nonce)));
      }
      ok, stage := UniqueName(dir, ForStage);
      if !ok {
        return;
      }
      var created;
      created, ok, staged := CreateFile(stage, content);
      if !created {
        return;
      }
      ghost var e := View();
      if !foreign {
        CreatedCalm(d, stage, staged.content);
      }
      if ok {
        var found := SnapshotAt(stage);
        if found == Some(staged) {
          return;
        }
        if !foreign && found.Some? {
          HoldsOne(e, stage, found.value, staged);
        }
      }
      var removed, kept := RemoveExpected(stage, staged);
      if !foreign {
        GrowsChain(d, e, View(), {}, {stage}, {});
      }
      return false, stage, staged;
    }

    /** `_publish_staged_at`: the stage takes the target's name, or goes to recovery. */
    method Publish(stage: Loc, staged: Snapshot, target: Loc) returns (ok: bool)
      requires Ready() && Used(stage) && stage.name.Temp? && target.name.Plain? && staged.content != Special
      requires !foreign ==> Holds(View(), stage, staged) && target !in names
      modifies this
      ensures Ready() && Quietly(old(Here()), Here()) && Blames(!foreign, old(fuse), fuse, ok) && old(nonce) <= nonce
      ensures !foreign && ok ==> Grows(old(View()), View(), {stage, target}) && Holds(View(), target, staged)
      ensures !foreign && !ok ==> Grows(old(View()), View(), {stage})
    {
      hide Traced, Quietly, Moving, Adds, Seen, Grows, Tidy, Fresh, Holds;
      QuietChain();
      ghost var d := View();
      if !foreign {
        PublishCalm(d, stage, staged, target);
      }
      var renamed := Rename(stage, target);
      ghost var e := View();
      if renamed {
        var found := SnapshotAt(target);
        if found == Some(staged) {
          // The parent directory is still the one that was opened.
          ok := Tick();
          if ok {
            return;
          }
        }
        if !foreign && found.Some? {
          HoldsOne(e, target, found.value, staged);
        }
      }
      var removed, kept := RemoveExpected(if renamed then target else stage, staged);
      if !foreign && renamed {
        GrowsChain(d, e, View(), {stage, target}, {target}, {stage, target});
        assert {stage, target} == {stage} + {target};
        Forget(d, View(), {stage}, target);
      }
      return false;
    }

    /** `_write_bytes_exclusive`. */
    method WriteExclusive(target: Loc, content: Content) returns (ok: bool, installed: Snapshot)
      requires Ready() && target.name.Plain? && content != Special
      requires !foreign ==> target !in names
      modifies this
      ensures Ready() && Quietly(old(Here()), Here()) && Blames(!foreign, old(fuse), fuse, ok) && old(nonce) <= nonce
      ensures ok ==> installed.content == content
      ensures !foreign && ok ==> Grows(old(View()), View(), {target}) && Holds(View(), target, installed)
      ensures !foreign && !ok ==> Grows(old(View()), View(), {})
    {
      hide Traced, Quietly, Moving, Adds, Seen, Grows, Tidy, Fresh, Holds;
      QuietChain();
      ghost var d := View();
      installed := Snapshot(0, content);
      if !foreign {
        GrowsRefl(d);
      }
      // Opening the target's directory.
      ok := Tick();
      if !ok {
        return;
      }
      var stage;
      ok, stage, installed := StageBytes(target.dir, content);
      if !ok {
        return;
      }
      ghost var e := View();
      if !foreign {
        FreshPrivate(d, stage);
        PlainStaysFree(d, e, {}, target);
      }
      ok := Publish(stage, installed, target);
      if !foreign {
        if ok {
          GrowsChain(d, e, View(), {}, {stage, target}, {target});
        } else {
          GrowsChain(d, e, View(), {}, {stage}, {});
        }
      }
    }

    /** `_retire_backup_or_restore`, during a rollback: the backup takes the target's name back if that is free. */
    method RetireOrRestore(target: Loc, backupLoc: Loc, backup: Snapshot) returns (ok: bool)
      requires Ready() && Used(backupLoc) && backupLoc.name.Temp? && target.name.Plain?
      requires !foreign ==> Holds(View(), backupLoc, backup) && target !in names && fuse.None?
      modifies this
      ensures Ready() && Quietly(old(Here()), Here()) && old(nonce) <= nonce && (old(fuse).None? ==> fuse.None?)
      ensures !foreign ==> ok && View() == RenameTo(old(View()), backupLoc, target)
    {
      hide Traced, Quietly, Moving, Adds, Seen, Grows, Tidy, Fresh;
      QuietChain();
      if !foreign {
        PublishCalm(View(), backupLoc, backup, target);
      }
      Interfere();
      if target !in names {
        ok := Rename(backupLoc, target);
        if ok {
          return;
        }
        Interfere();
        if target !in names {
          return false;
        }
      }
      var kept;
      ok, kept := RemoveExpected(backupLoc, backup);
    }

    /** What the third operation from here will find. */
    ghost function AtMove(): Entries
      reads this`names, this`data, this`clock
    {
      Seen(others, clock + 2, Seen(others, clock + 1, Ahead()))
    }

    /** The target, still as expected, moves to a fresh backup name and is checked again there. What moves is whatever
        has the target's name at that moment, which other processes may have changed since it was checked. */
    method MoveAside(target: Loc, expected: Snapshot)
      returns (ok: bool, named: bool, backupLoc: Loc, moved: bool, backup: Option<Snapshot>, ghost moves: seq<Taken>)
      requires Ready() && target.name.Plain?
      requires !foreign ==> Holds(View(), target, expected) && expected.content != Special
      modifies this
      ensures Ready() && Moving(old(Here()), Here(), moves) && Blames(!foreign, old(fuse), fuse, ok)
      ensures moves == if moved then [Taken(target, Some(expected), Look(old(AtMove()), target))] else []
      ensures old(fuse).None? ==>
                (moved <==> && backupLoc !in old(Ahead()).names && backupLoc !in old(AtMove()).names
                            && Readable(Seen(others, old(clock) + 1, old(Ahead())), target) == Some(expected)
                            && target in old(AtMove()).names)
      ensures old(nonce) <= nonce && Used(backupLoc) && backupLoc == Loc(target.dir, Temp(ForBackup, old(nonce)))
      ensures ok ==> moved && backup == Some(expected)
      ensures moved || backup.Some? ==> named
      ensures !foreign ==> AsideOrNot(old(View()), View(), target, backupLoc, moved, expected)
      ensures !foreign && moved ==> moves == [Taken(target, Some(expected), Some(expected))]
      ensures !foreign && backup.Some? ==> moved && backup.value == expected
    {
      hide Traced, Quietly, Moving, Adds, Seen, Grows, Tidy, Fresh, AsideOrNot;
      QuietChain();
      MovingChain();
      ghost var d := View();
      moved, backup, moves := false, None, [];
      if !foreign {
        AsideCases(d, target, Loc(target.dir, Temp(ForBackup, d.nonce)), expected);
      }
      named, backupLoc := UniqueName(target.dir, ForBackup);
      if !named {
        return false, named, backupLoc, moved, backup, [];
      }
      var current := SnapshotAt(target);
      if current.None? || current.value != expected {
        return false, named, backupLoc, moved, backup, [];
      }
      moved := Rename(target, backupLoc);
      if !moved {
        return false, named, backupLoc, moved, backup, [];
      }
      moves := [Taken(target, Some(expected), Look(old(AtMove()), target))];
      backup := SnapshotAt(backupLoc);
      ok := backup == Some(expected);
    }

    /** The `except` of `_replace_managed_file`. */
    method UndoReplace(target: Loc, named: bool, backupLoc: Loc, moved0: bool, backup0: Option<Snapshot>, expected: Snapshot,
                       stageLeft: bool, stage: Loc, staged: Snapshot, ghost d: Disk)
      requires Ready() && target.name.Plain? && Used(backupLoc) && backupLoc.name.Temp? && Used(stage)
      requires moved0 ==> named
      requires !foreign ==>
                 && fuse.None? && Tidy(d) && Holds(d, target, expected)
                 && AsideOrNot(d, View(), target, backupLoc, moved0, expected)
                 && backupLoc !in d.names && Fresh(d, backupLoc)
                 && (backup0.Some? ==> moved0 && backup0.value == expected)
                 && (stageLeft ==> Holds(View(), stage, staged) && stage !in d.names && Fresh(d, stage)
                                   && stage != backupLoc && stage.name.Temp? && staged.content != Special)
      modifies this
      ensures Ready() && Quietly(old(Here()), Here()) && old(nonce) <= nonce && (old(fuse).None? ==> fuse.None?)
      ensures !foreign ==> Grows(d, View(), {})
    {
      hide Traced, Quietly, Moving, Adds, Seen, Grows, Tidy, Fresh;
      QuietChain();
      ghost var e := View();
      var backup, moved := backup0, moved0;
      if backup.None? && named {
        Interfere();
        if backupLoc in names && names[backupLoc] in data && Snapshot(names[backupLoc], data[names[backupLoc]]) == expected {
          backup, moved := Some(expected), true;
        }
      }
      if moved && backup.Some? {
        if !foreign {
          RestoreCalm(d, e, target, backupLoc, expected, stage, staged);
        }
        var restored := RetireOrRestore(target, backupLoc, backup.value);
      }
      ghost var f := View();
      if stageLeft {
        var removed, kept := RemoveExpected(stage, staged);
        if !foreign {
          GrowsChain(d, f, View(), {}, {stage}, {});
        }
      }
    }

    /** `_replace_managed_file`. */
    method Replace(target: Loc, content: Content, expected: Snapshot)
      returns (ok: bool, installed: Snapshot, backupLoc: Loc, backup: Snapshot, ghost moves: seq<Taken>)
      requires Ready() && target.name.Plain? && content != Special
      requires !foreign ==> Holds(View(), target, expected) && expected.content != Special
      modifies this
      ensures Ready() && Moving(old(Here()), Here(), moves)
      ensures OnlyTakes(moves, target, expected, !foreign) && Blames(!foreign, old(fuse), fuse, ok) && old(nonce) <= nonce
      ensures ok ==> installed.content == content && backup == expected && backupLoc.name.Temp? && Used(backupLoc)
      ensures !foreign && ok ==>
                && Grows(old(View()), View(), {target}) && Holds(View(), target, installed)
                && Holds(View(), backupLoc, backup) && backupLoc !in old(names) && Fresh(old(View()), backupLoc)
      ensures !foreign && !ok ==> Grows(old(View()), View(), {})
    {
      hide Traced, Quietly, Moving, Adds, Seen, Grows, Tidy, Fresh;
      QuietChain();
      MovingChain();
      ghost var d := View();
      installed, backupLoc, backup, moves := Snapshot(0, content), target, expected, [];
      if !foreign {
        GrowsRefl(d);
      }
      // Opening the target's directory.
      ok := Tick();
      if !ok {
        return;
      }
      var stage, staged;
      ok, stage, staged := StageBytes(target.dir, content);
      if !ok {
        return;
      }
      ghost var e := View();
      if !foreign {
        FreshPrivate(d, stage);
        HoldsKept(d, e, {}, target, expected);
        NonceOf(d, e, {});
      }
      var named, moved, found;
      ok, named, backupLoc, moved, found, moves := MoveAside(target, expected);
      ghost var f := View();
      if !foreign {
        AsideChain(d, e, f, target, backupLoc, moved, expected, stage, staged);
      }
      if !ok {
        UndoReplace(target, named, backupLoc, moved, found, expected, true, stage, staged, d);
        return;
      }
      ok := Publish(stage, staged, target);
      if !foreign {
        PublishedOver(d, f, View(), target, backupLoc, expected, stage, ok);
      }
      if !ok {
        UndoReplace(target, named, backupLoc, moved, found, expected, false, stage, staged, d);
        return;
      }
      installed := staged;
    }

    // ----- rolling back -----

    /** `_rollback_replaced_files`: the latest first. */
    method RollbackReplaced(replaced: seq<Replaced>, ghost created: seq<Created>, ghost d: Disk)
      requires Ready() && Recorded(replaced, nonce)
      requires !foreign ==> fuse.None? && Tidy(d) && Logged(d, View(), Log(created, replaced))
      modifies this
      ensures Ready() && Quietly(old(Here()), Here()) && old(nonce) <= nonce && (old(fuse).None? ==> fuse.None?)
      ensures !foreign ==> Logged(d, View(), Log(created, []))
    {
      hide Traced, Quietly, Moving, Adds, Seen, Grows, Tidy, Fresh, Holds, Logged;
      QuietChain();
      var k := |replaced|;
      assert replaced[..k] == replaced;
      while k > 0
        invariant k <= |replaced| && Ready() && Quietly(old(Here()), Here())
        invariant old(nonce) <= nonce && (old(fuse).None? ==> fuse.None?)
        invariant !foreign ==> fuse.None? && Logged(d, View(), Log(created, replaced[..k]))
      {
        k := k - 1;
        var item := replaced[k];
        ghost var e := View();
        if !foreign {
          LastReplaced(d, e, created, replaced[..k + 1]);
        }
        var removed, kept := RemoveExpected(item.target, item.installed);
        ghost var f := View();
        if !foreign {
          HoldsKept(e, f, {item.target}, item.backupLoc, item.backup);
        }
        var restored := RetireOrRestore(item.target, item.backupLoc, item.backup);
        if !foreign {
          UndoneReplaced(d, e, f, created, replaced[..k + 1]);
          assert replaced[..k + 1][..k] == replaced[..k];
        }
      }
      assert replaced[..0] == [];
    }

    /** `_remove_created_files`: the latest first. */
    method RemoveCreated(created: seq<Created>, ghost d: Disk)
      requires Ready() && forall i :: 0 <= i < |created| ==> created[i].target.name.Plain?
      requires !foreign ==> fuse.None? && Tidy(d) && Logged(d, View(), Log(created, []))
      modifies this
      ensures Ready() && Quietly(old(Here()), Here()) && old(nonce) <= nonce && (old(fuse).None? ==> fuse.None?)
      ensures !foreign ==> Logged(d, View(), Log([], []))
    {
      hide Traced, Quietly, Moving, Adds, Seen, Grows, Tidy, Fresh, Holds, Logged;
      QuietChain();
      var k := |created|;
      assert created[..k] == created;
      while k > 0
        invariant k <= |created| && Ready() && Quietly(old(Here()), Here())
        invariant old(nonce) <= nonce && (old(fuse).None? ==> fuse.None?)
        invariant !foreign ==> fuse.None? && Logged(d, View(), Log(created[..k], []))
      {
        k := k - 1;
        var item := created[k];
        ghost var e := View();
        if !foreign {
          LastCreated(d, e, created[..k + 1]);
        }
        var removed, kept := RemoveExpected(item.target, item.installed);
        if !foreign {
          UndoneCreated(d, e, View(), created[..k + 1]);
          assert created[..k + 1][..k] == created[..k];
        }
      }
      assert created[..0] == [];
    }

    /** `_rollback_asset_transaction`. */
    method Rollback(log: Log, ghost d: Disk)
      requires Ready() && Recorded(log.replaced, nonce) && forall i :: 0 <= i < |log.created| ==> log.created[i].target.name.Plain?
      requires !foreign ==> fuse.None? && Tidy(d) && Logged(d, View(), log)
      modifies this
      ensures Ready() && Quietly(old(Here()), Here()) && old(nonce) <= nonce && (old(fuse).None? ==> fuse.None?)
      ensures !foreign ==> Grows(d, View(), {})
    {
      hide Traced, Quietly, Moving, Adds, Seen, Grows, Tidy, Fresh, Holds;
      QuietChain();
      assert log == Log(log.created, log.replaced);
      RollbackReplaced(log.replaced, log.created, d);
      RemoveCreated(log.created, d);
      assert Targets(Log([], [])) == {};
    }

    /** `_finish_asset_transaction`: the backups go to recovery; a failure here only leaves one behind. */
    method Finish(log: Log)
      requires Ready() && Recorded(log.replaced, nonce)
      requires !foreign ==> BackupsHeld(View(), log.replaced)
      modifies this
      ensures Ready() && Quietly(old(Here()), Here()) && old(nonce) <= nonce && (old(fuse).None? ==> fuse.None?)
      ensures !foreign ==> Grows(old(View()), View(), BackupNames(log.replaced))
      ensures log.replaced == [] && !foreign ==> View() == old(View())
    {
      hide Traced, Quietly, Moving, Adds, Seen, Grows, Tidy, Fresh, Holds;
      QuietChain();
      ghost var d := View();
      ghost var all := BackupNames(log.replaced);
      if !foreign {
        GrowsRefl(d);
        GrowsChain(d, d, d, {}, {}, all);
      }
      for k := 0 to |log.replaced|
        invariant Ready() && Quietly(old(Here()), Here()) && old(nonce) <= nonce && (old(fuse).None? ==> fuse.None?)
        invariant !foreign ==> Grows(d, View(), all) && BackupsHeld(View(), log.replaced[k..])
        invariant k == 0 && !foreign ==> View() == d
      {
        var item := log.replaced[k];
        ghost var e := View();
        assert log.replaced[k..][0] == item && log.replaced[k..][1..] == log.replaced[k + 1..];
        if !foreign {
          FirstBackup(e, log.replaced[k..]);
        }
        var removed, kept := RemoveExpected(item.backupLoc, item.backup);
        if !foreign {
          assert item.backupLoc in all;
          GrowsChain(d, e, View(), all, {item.backupLoc}, all);
          LaterBackups(e, View(), log.replaced[k..]);
        }
      }
    }

    // ----- applying -----

    /** One managed file: written when it is missing, replaced when it is to be upgraded, left when it is right. */
    method PlaceOne(target: Loc, content: Content, state: State, log: Log, ghost d: Disk)
      returns (ok: bool, after: Log, installed: Snapshot, ghost moves: seq<Taken>)
      requires Ready() && target.name.Plain? && content != Special && Keepable(log, nonce) && !state.Conflict?
      requires state.Identical? ==> state.live.content == content
      requires !foreign ==> Tidy(d) && Logged(d, View(), log) && target !in Targets(log) && StateHolds(d, target, state)
      modifies this
      ensures Ready() && Moving(old(Here()), Here(), moves)
      ensures Blames(!foreign, old(fuse), fuse, ok) && old(nonce) <= nonce && Keepable(after, nonce)
      ensures moves == [] || (state.Upgrade? && OnlyTakes(moves, target, state.live, !foreign))
      ensures ok ==> installed.content == content
      ensures MovesAtMost(log.replaced, after.replaced, target, state)
      ensures !foreign ==> Logged(d, View(), after) && Targets(after) <= Targets(log) + {target}
      ensures state.Identical? ==> after == log && (!foreign ==> View() == old(View()))
      ensures !foreign && ok ==>
                Grows(old(View()), View(), {target}) && Holds(View(), target, installed)
    {
      hide Traced, Quietly, Moving, Adds, Seen, Grows, Tidy, Holds, Fresh, Logged;
      QuietChain();
      MovingChain();
      ghost var e := View();
      after, installed, moves := log, Snapshot(0, content), [];
      if !foreign {
        UntouchedTarget(d, e, log, target, state);
        GrowsChain(e, e, e, {}, {}, {target}) by { GrowsRefl(e); }
      }
      match state {
        case Identical(live) =>
          return true, log, live, [];
        case Missing =>
          ok, installed := WriteExclusive(target, content);
          if ok {
            after := log.(created := log.created + [Created(target, installed)]);
          }
          if !foreign {
            if ok { LogCreated(d, e, View(), log, target, installed); } else { LogStays(d, e, View(), log); }
          }
        case Upgrade(live) =>
          var backupLoc, backup;
          ok, installed, backupLoc, backup, moves := Replace(target, content, live);
          if ok {
            after := log.(replaced := log.replaced + [Replaced(target, installed, backupLoc, backup)]);
          }
          if !foreign {
            if ok { LogReplaced(d, e, View(), log, target, installed, backupLoc, backup); } else { LogStays(d, e, View(), log); }
          }
      }
    }

    /** The loop over the assets. */
    method PlaceAssets(s: Setup, states: seq<State>, own: Ownership, ghost d: Disk)
      returns (ok: bool, log: Log, placed: seq<Snapshot>, ghost moves: seq<Taken>)
      requires Ready() && Proper(s) && Planned(s, states, own)
      requires !foreign ==> Tidy(d) && View() == d && StatesHold(d, s, states)
      modifies this
      ensures Ready() && Moving(old(Here()), Here(), moves)
      ensures Blames(!foreign, old(fuse), fuse, ok) && old(nonce) <= nonce && Keepable(log, nonce)
      ensures MovesRecorded(log.replaced, own) && Justified(moves, own, s.manifest) && (!foreign ==> Exactly(d, moves))
      ensures ok ==> |placed| == |s.assets| && Contents(s, placed)
      ensures !foreign ==> Logged(d, View(), log) && Targets(log) <= AssetTargets(s, |s.assets|)
      ensures !foreign && ok ==> Placed(View(), s, placed)
      ensures AllIdentical(states) && !foreign ==>
                log == Log([], []) && moves == [] && View() == d
    {
      hide Traced, Quietly, Moving, Adds, Seen, Grows, Tidy, Holds;
      hide Fresh, Logged, StateHolds, Proper, Planned, StatesHold, Placed, Targets, AssetTargets;
      hide MovesRecorded, Keepable, RecordedAs, MovesAtMost, Justified, Exactly, OnlyTakes, Contents, AllIdentical;
      StandStill();
      log, placed, moves := Log([], []), [], [];
      NothingContained(s);
      NothingPlaced(s, own, nonce);
      NothingMoved(d, own, s.manifest);
      if !foreign {
        NothingLogged(d, s);
      }
      for n := 0 to |s.assets|
        invariant Ready() && Moving(old(Here()), Here(), moves)
        invariant (old(fuse).None? ==> fuse.None?) && old(nonce) <= nonce && Keepable(log, nonce)
        invariant MovesRecorded(log.replaced, own) && Justified(moves, own, s.manifest) && (!foreign ==> Exactly(d, moves))
        invariant |placed| == n && Contents(s, placed)
        invariant !foreign ==> Logged(d, View(), log) && Targets(log) <= AssetTargets(s, n) && Placed(View(), s, placed)
        invariant AllIdentical(states) && !foreign ==>
                    log == Log([], []) && moves == [] && View() == d
      {
        var asset := s.assets[n];
        ghost var e, before := View(), log;
        NextTarget(s, n);
        PlanAt(s, states, own, n);
        IdenticalAt(states, n);
        if !foreign {
          StateAt(d, s, states, n);
        }
        var installed;
        ghost var more;
        ghost var here := Here();
        ok, log, installed, more := PlaceOne(asset.target, asset.source, states[n], log, d);
        MovesChain(old(Here()), here, Here(), moves, more);
        JustifiedStep(moves, more, own, s.manifest, asset.target, states[n], !foreign);
        if !foreign {
          ExactlyStep(d, moves, more, asset.target, states[n]);
        }
        moves := moves + more;
        RecordedStep(before.replaced, log.replaced, asset.target, states[n], own);
        if !ok {
          if !foreign {
            TargetsGrow(s, n, |s.assets|);
          }
          return;
        }
        if !foreign {
          PlacedStep(e, View(), s, placed, installed);
        }
        ContentsStep(s, placed, installed);
        placed := placed + [installed];
      }
      ok := true;
    }

    /** `_recheck_asset_preimages`. */
    method CheckPreimages(s: Setup, states: seq<State>) returns (ok: bool)
      requires Ready() && |states| == |s.assets|
      requires !foreign ==> StatesHold(View(), s, states)
      modifies this`names, this`data, this`clock, this`steps, this`fuse
      ensures Ready() && Quietly(old(Here()), Here())
      ensures Blames(!foreign, old(fuse), fuse, ok) && (!foreign ==> View() == old(View()))
    {
      hide Traced, Quietly, Moving, Adds, Seen, Tidy, Holds, StatesHold;
      QuietChain();
      for n := 0 to |s.assets|
        invariant Ready() && Quietly(old(Here()), Here())
        invariant (old(fuse).None? ==> fuse.None?) && (!foreign ==> View() == old(View()))
      {
        var target := s.assets[n].target;
        if !foreign {
          StateAt(View(), s, states, n);
        }
        match states[n] {
          case Missing =>
            Interfere();
            ok := Tick();
            ok := ok && target !in names;
          case Identical(live) => ok := CheckFile(target, live);
          case Upgrade(live) => ok := CheckFile(target, live);
          case Conflict => ok := false;
        }
        if !ok {
          return;
        }
      }
      ok := true;
    }

    /** The name still leads to the same file, in the same directory. */
    method CheckFile(loc: Loc, expected: Snapshot) returns (ok: bool)
      requires Ready()
      requires !foreign ==> Holds(View(), loc, expected) && expected.content != Special
      modifies this`names, this`data, this`clock, this`steps, this`fuse
      ensures Ready() && Quietly(old(Here()), Here())
      ensures Blames(!foreign, old(fuse), fuse, ok) && (!foreign ==> View() == old(View()))
    {
      hide Traced, Quietly, Moving, Adds, Seen, Tidy;
      QuietChain();
      var found := SnapshotAt(loc);
      if found.None? || found.value != expected {
        return false;
      }
      ok := Tick();
    }

    /** `_recheck_published_assets`. */
    method CheckPlaced(s: Setup, placed: seq<Snapshot>) returns (ok: bool)
      requires Ready() && |placed| == |s.assets|
      requires forall i :: 0 <= i < |placed| ==> placed[i].content != Special
      requires !foreign ==> Placed(View(), s, placed)
      modifies this`names, this`data, this`clock, this`steps, this`fuse
      ensures Ready() && Quietly(old(Here()), Here())
      ensures Blames(!foreign, old(fuse), fuse, ok) && (!foreign ==> View() == old(View()))
    {
      hide Traced, Quietly, Moving, Adds, Seen, Tidy, Holds;
      QuietChain();
      for n := 0 to |s.assets|
        invariant Ready() && Quietly(old(Here()), Here())
        invariant (old(fuse).None? ==> fuse.None?) && (!foreign ==> View() == old(View()))
      {
        ok := CheckFile(s.assets[n].target, placed[n]);
        if !ok {
          return;
        }
      }
      ok := true;
    }

    /** `_recheck_manifest_preimage`. */
    method CheckManifest(s: Setup, own: Ownership) returns (ok: bool)
      requires Ready() && !own.OwnConflict?
      requires !foreign ==> OwnershipHolds(View(), s, own)
      modifies this`names, this`data, this`clock, this`steps, this`fuse
      ensures Ready() && Quietly(old(Here()), Here())
      ensures Blames(!foreign, old(fuse), fuse, ok) && (!foreign ==> View() == old(View()))
    {
      hide Traced, Quietly, Moving, Adds, Seen, Tidy, Holds;
      QuietChain();
      match own {
        case OwnMissing =>
          Interfere();
          ok := Tick();
          ok := ok && s.manifest !in names;
        case OwnValid(_, snapshot) => ok := CheckFile(s.manifest, snapshot);
      }
    }

    /** What is checked before anything is changed. */
    method CheckBefore(s: Setup, states: seq<State>, own: Ownership) returns (ok: bool)
      requires Ready() && |states| == |s.assets| && !own.OwnConflict?
      requires !foreign ==> StatesHold(View(), s, states) && OwnershipHolds(View(), s, own)
      modifies this`names, this`data, this`clock, this`steps, this`fuse
      ensures Ready() && Quietly(old(Here()), Here()) && Blames(!foreign, old(fuse), fuse, ok)
      ensures !foreign ==> View() == old(View())
    {
      hide Traced, Quietly, Tidy, StatesHold, OwnershipHolds;
      QuietChain();
      ok := CheckRoot();
      if !ok { return; }
      ok := CheckPreimages(s, states);
      if !ok { return; }
      ok := CheckManifest(s, own);
    }

    /** What is checked, and flushed, when everything is in place. */
    method CheckAfter(s: Setup, installed: Snapshot) returns (ok: bool)
      requires Ready()
      requires !foreign ==> Holds(View(), s.manifest, installed) && installed.content != Special
      modifies this`names, this`data, this`clock, this`steps, this`fuse
      ensures Ready() && Quietly(old(Here()), Here()) && Blames(!foreign, old(fuse), fuse, ok)
      ensures !foreign ==> View() == old(View())
    {
      hide Traced, Quietly, Tidy, Holds;
      QuietChain();
      ok := CheckFile(s.manifest, installed);
      if !ok { return; }
      ok := CheckRoot();
      if !ok { return; }
      // Flushing every directory of the transaction.
      ok := Tick();
    }

    /** The forward part of `_apply_asset_changes`. */
    method Forward(s: Setup, states: seq<State>, own: Ownership, ghost d: Disk)
      returns (ok: bool, log: Log, ghost moves: seq<Taken>)
      requires Ready() && Proper(s) && Planned(s, states, own) && !own.OwnConflict?
      requires !foreign ==> Tidy(d) && View() == d && StatesHold(d, s, states) && OwnershipHolds(d, s, own)
      modifies this
      ensures Ready() && Moving(old(Here()), Here(), moves)
      ensures Blames(!foreign, old(fuse), fuse, ok) && old(nonce) <= nonce && Keepable(log, nonce)
      ensures MovesManaged(log.replaced, own, s.manifest)
      ensures Justified(moves, own, s.manifest) && (!foreign ==> Exactly(d, moves))
      ensures !foreign ==> Logged(d, View(), log)
      ensures !foreign && ok ==> Settled(View(), s, Desired(own, s))
      ensures !foreign && ok && (own.OwnValid? ==> own.assets.Keys <= s.allowed) ==>
                InPlace(if own.OwnValid? then own.assets else map[], View(), s)
      ensures AllRight(s, states, own) && !foreign ==> log == Log([], []) && moves == [] && View() == d
    {
      hide Traced, Quietly, Moving, Adds, Seen, Grows, Tidy, Holds;
      hide Fresh, Logged, StateHolds, Proper, Planned, StatesHold, Placed, Targets, AssetTargets;
      hide MovesRecorded, Keepable, RecordedAs, MovesAtMost, Settled, Desired;
      hide OwnershipHolds, Justified, Exactly, OnlyTakes, Contents, AllIdentical, InPlace;
      QuietChain();
      MovingChain();
      log, moves := Log([], []), [];
      NothingPlaced(s, own, nonce);
      NothingMoved(d, own, s.manifest);
      NothingManaged(own, s.manifest);
      PlanLength(s, states, own);
      if !foreign {
        NothingLogged(d, s);
      }
      ok := CheckBefore(s, states, own);
      if !ok { return; }
      var placed;
      ok, log, placed, moves := PlaceAssets(s, states, own, d);
      MovesManagedFrom(log.replaced, own, s.manifest);
      if !ok { return; }
      NoneSpecial(s, placed);
      ok := CheckPlaced(s, placed);
      if !ok { return; }
      var desired := Record(Desired(own, s), 0);
      var state := ManifestState(own, desired);
      ghost var e, before := View(), log;
      ManifestIsPlain(s);
      if !foreign {
        ManifestUntouched(d, s, own, desired, log);
      }
      var installed;
      ghost var more;
      ghost var here := Here();
      ok, log, installed, more := PlaceOne(s.manifest, desired, state, log, d);
      MovesChain(old(Here()), here, Here(), moves, more);
      JustifiedStep(moves, more, own, s.manifest, s.manifest, state, !foreign);
      if !foreign {
        ExactlyStep(d, moves, more, s.manifest, state);
      }
      moves := moves + more;
      ManagedStep(before.replaced, log.replaced, own, s.manifest, state);
      if !ok { return; }
      if !foreign {
        NowSettled(e, View(), s, placed, installed, Desired(own, s));
        if own.OwnValid? ==> own.assets.Keys <= s.allowed {
          SettledInPlace(own, View(), s);
        }
      }
      ok := CheckAfter(s, installed);
    }

    /** `_assert_root_current`. */
    method CheckRoot() returns (ok: bool)
      modifies this`fuse
      ensures Blames(!foreign, old(fuse), fuse, ok)
    {
      ok := Tick();
    }

    /** `_apply_asset_changes`: all of it, or nothing. */
    method Apply(s: Setup, states: seq<State>, own: Ownership)
      returns (ok: bool, log: Log, ghost moves: seq<Taken>)
      requires Ready() && Proper(s) && Planned(s, states, own) && !own.OwnConflict?
      requires !foreign ==> StatesHold(View(), s, states) && OwnershipHolds(View(), s, own)
      modifies this
      ensures Ready() && Moving(old(Here()), Here(), moves)
      ensures Blames(!foreign, old(fuse), fuse, ok) && Keepable(log, nonce)
      ensures MovesManaged(log.replaced, own, s.manifest)
      ensures Justified(moves, own, s.manifest) && (!foreign ==> Exactly(old(View()), moves))
      ensures !foreign && !ok ==> Grows(old(View()), View(), {})
      ensures !foreign && ok ==> Logged(old(View()), View(), log) && Settled(View(), s, Desired(own, s))
      ensures !foreign && ok && AllRight(s, states, own) ==> log == Log([], []) && moves == [] && View() == old(View())
    {
      hide Traced, Quietly, Moving, Adds, Seen, Grows, Tidy, Holds;
      hide Fresh, Logged, StateHolds, Proper, Planned, StatesHold, Placed, Targets, AssetTargets;
      hide MovesRecorded, RecordedAs, MovesAtMost, Settled, Desired;
      hide OwnershipHolds, MovesManaged, AllRight, Justified, Exactly;
      QuietChain();
      MovingChain();
      ghost var d := View();
      ok, log, moves := Forward(s, states, own, d);
      if !ok {
        Rollback(log, d);
        log := Log([], []);
        NothingManaged(own, s.manifest);
      }
    }

    // ----- running -----

    /** Reading the manifest and the state of every target. */
    method Plan(s: Setup) returns (own: Ownership, states: seq<State>)
      requires Ready()
      modifies this`names, this`data, this`clock, this`steps
      ensures Ready() && Quietly(old(Here()), Here()) && |states| == |s.assets|
      ensures forall i :: 0 <= i < |states| ==> StateFits(s.assets[i], states[i], own)
      ensures !foreign ==> View() == old(View()) && own == ReadOwnership(View(), s)
      ensures !foreign ==> forall i :: 0 <= i < |states| ==> states[i] == StateOf(View(), s.assets[i], own)
      ensures !foreign ==> (own.OwnMissing? <==> s.manifest !in names) && (own.OwnValid? <==> ValidRecord(View(), s))
                           && (own.OwnValid? ==> own.assets == Records(View(), s))
      ensures !foreign && Proper(s) ==>
                forall i :: 0 <= i < |states| ==> Finds(View(), s, s.assets[i], states[i])
    {
      hide Traced, Quietly, Moving, Adds, Seen, Tidy, ReadOwnership, StateOf, StateFits, ValidRecord, Records, Finds, Proper;
      QuietChain();
      Interfere();
      own := ReadOwnership(Disk(names, data, nextInode, nonce), s);
      states := [];
      for n := 0 to |s.assets|
        invariant Ready() && Quietly(old(Here()), Here()) && |states| == n && (!foreign ==> View() == old(View()))
        invariant forall i :: 0 <= i < n ==> StateFits(s.assets[i], states[i], own)
        invariant !foreign ==> forall i :: 0 <= i < n ==> states[i] == StateOf(View(), s.assets[i], own)
      {
        Interfere();
        var state := StateOf(Disk(names, data, nextInode, nonce), s.assets[n], own);
        StateOfFits(Disk(names, data, nextInode, nonce), s.assets[n], own);
        states := states + [state];
      }
      if !foreign {
        PlanFinds(View(), s, own, states);
      }
    }

    /** `_run_assets_only`. */
    method RunAssetsOnly(s: Setup, mode: Mode)
      returns (status: Result, log: Log, own: Ownership, ghost moves: seq<Taken>)
      requires Ready() && Proper(s)
      modifies this
      ensures Sound() && Moving(old(Here()), Here(), moves) && MovesManaged(log.replaced, own, s.manifest)
      ensures Justified(moves, own, s.manifest)
      ensures !foreign ==> Kept(old(names), names)
      ensures forall i :: i in old(names).Values ==> i in names.Values || LostToOthers(steps, |old(steps)|, i)
      ensures !foreign ==> Reports(old(View()), View(), s, mode, status, log, moves)
      ensures !foreign ==> Tells(old(View()), View(), s, mode, status)
      ensures !foreign && old(fuse).None? ==> status != ReportRolledBack
    {
      hide Traced, Quietly, Moving, Adds, Seen, Grows, Tidy, Holds;
      hide Fresh, Logged, StateHolds, Proper, Planned, StatesHold, Placed, Targets;
      hide Settled, Desired, OwnershipHolds, MovesManaged, AllRight;
      hide ReadOwnership, StateOf, StateFits, Keepable, Reports;
      hide Justified, Exactly, Tells;
      QuietChain();
      MovingChain();
      log, moves := Log([], []), [];
      ghost var d := View();
      var states;
      own, states := Plan(s);
      NothingMoved(d, own, s.manifest);
      NothingManaged(own, s.manifest);
      var conflict := own.OwnConflict? || exists i :: 0 <= i < |states| && states[i].Conflict?;
      NamesAccounted(others, old(Here()), old(Now()), Here(), Now(), []);
      if !foreign {
        ReportsAreRight(d, s, own, states);
        ReadingTells(d, s, own, states);
      }
      match mode {
        case DryRun => return if conflict then ReportBlocked else ReportPlanned, log, own, [];
        case Verify => return if VerifiesBy(s, states, own) then ReportVerified else ReportInvalid, log, own, [];
        case ApplyMode =>
      }
      if conflict {
        return ReportBlocked, log, own, [];
      }
      PlanIsPlanned(s, states, own);
      if !foreign {
        PlanHolds(d, s, own, states);
      }
      var ok;
      ok, log, moves := Apply(s, states, own);
      if !ok {
        NamesAccounted(others, old(Here()), old(Now()), Here(), Now(), moves);
        if !foreign {
          ReportRollback(d, View(), s, own, states, moves);
          ReportsTell(d, View(), s, mode, ReportRolledBack, Log([], []), moves);
        }
        return ReportRolledBack, Log([], []), own, moves;
      }
      ghost var e := View();
      KeptRecords(log, nonce);
      if !foreign {
        BackupsAreHeld(d, e, log);
      }
      Finish(log);
      NamesAccounted(others, old(Here()), old(Now()), Here(), Now(), moves);
      if !foreign {
        ReportInstall(d, e, View(), s, own, states, log, moves);
        ReportsTell(d, View(), s, mode, ReportInstalled, log, moves);
      }
      return ReportInstalled, log, own, moves;
    }
  }

  /** The input for which a file that nobody recorded is moved aside: the recorded file is checked, and before it is
      moved another process gives its name to a file of its own. */
  method ForeignFileMovesAside(target: Loc, recorded: Content, other: Content)
    returns (home: Home, ghost moves: seq<Taken>)
    requires target.name.Plain? && recorded != Special
    ensures moves == [Taken(target, Some(Snapshot(0, recorded)), Some(Snapshot(1, other)))]
    ensures Asides(home.steps) == moves
  {
    hide Traced, Seen, Look, Readable, Asides, Tidy;
    var before := Entries(map[target := 0], map[0 := recorded]);
    var after := Entries(map[target := 1], map[0 := recorded, 1 := other]);
    ManagedFile(before, after, target, recorded, other);
    home := new Home(Disk(before.names, before.data, 2, 0), None, [before, before, after]);
    var ok, named, backupLoc, moved, backup;
    ok, named, backupLoc, moved, backup, moves := home.MoveAside(target, Snapshot(0, recorded));
  }

  lemma ManagedFile(before: Entries, after: Entries, target: Loc, recorded: Content, other: Content)
    requires before == Entries(map[target := 0], map[0 := recorded]) && target.name.Plain? && recorded != Special
    requires after == Entries(map[target := 1], map[0 := recorded, 1 := other])
    ensures Tidy(Disk(before.names, before.data, 2, 0))
    ensures var others := [before, before, after];
            Seen(others, 0, before) == before && Seen(others, 1, before) == before && Seen(others, 2, before) == after
    ensures Readable(before, target) == Some(Snapshot(0, recorded)) && Look(after, target) == Some(Snapshot(1, other))
  {
  }

  // ----- what installing promises -----

  lemma {:induction false} SourceOf(assets: seq<Asset>, i: nat)
    requires i < |assets| && forall a, b :: 0 <= a < b < |assets| ==> assets[a].target != assets[b].target
    ensures assets[i].target in Sources(assets) && Sources(assets)[assets[i].target] == assets[i].source
  {
    if i < |assets| - 1 {
      SourceOf(assets[..|assets| - 1], i);
      assert assets[..|assets| - 1][i] == assets[i];
    }
  }

  lemma DesiredAllowed(d: Disk, s: Setup)
    requires Proper(s)
    ensures Desired(ReadOwnership(d, s), s).Keys <= s.allowed
  {
  }

  lemma SettledReading(e: Disk, s: Setup, assets: map<Loc, Content>)
    requires Settled(e, s, assets) && assets.Keys <= s.allowed
    ensures ReadOwnership(e, s).OwnValid? && ReadOwnership(e, s).assets == assets
  {
    hide Installed;
  }

  lemma DesiredTwice(own: Ownership, next: Ownership, s: Setup)
    requires next.OwnValid? && next.assets == Desired(own, s)
    ensures Desired(next, s) == Desired(own, s)
  {
    hide Sources;
  }

  lemma DesiredRecords(own: Ownership, next: Ownership, s: Setup, i: nat)
    requires Proper(s) && i < |s.assets| && next.OwnValid? && next.assets == Desired(own, s)
    ensures RecordedAs(next, s.assets[i].target, s.assets[i].source)
  {
    hide Sources;
    SourceOf(s.assets, i);
  }

  /** After an installation the manifest is valid and records every shipped file; writing it again changes nothing. */
  lemma DesiredFits(d: Disk, e: Disk, s: Setup)
    requires Proper(s) && !ReadOwnership(d, s).OwnConflict? && Settled(e, s, Desired(ReadOwnership(d, s), s))
    ensures ReadOwnership(e, s).OwnValid? && ReadOwnership(e, s).assets == Desired(ReadOwnership(d, s), s)
    ensures Desired(ReadOwnership(e, s), s) == Desired(ReadOwnership(d, s), s)
    ensures forall i :: 0 <= i < |s.assets| ==> RecordedAs(ReadOwnership(e, s), s.assets[i].target, s.assets[i].source)
  {
    hide Settled, Desired, ReadOwnership, RecordedAs, Proper;
    DesiredAllowed(d, s);
    SettledReading(e, s, Desired(ReadOwnership(d, s), s));
    DesiredTwice(ReadOwnership(d, s), ReadOwnership(e, s), s);
    forall i | 0 <= i < |s.assets| ensures RecordedAs(ReadOwnership(e, s), s.assets[i].target, s.assets[i].source) {
      DesiredRecords(ReadOwnership(d, s), ReadOwnership(e, s), s, i);
    }
  }

  lemma InstalledIsIdentical(d: Disk, s: Setup)
    requires Proper(s) && Installed(d, s)
    ensures AllIdentical(StatesOf(d, s))
  {
    hide ReadOwnership;
  }

  /** After an installation verify mode is content. */
  lemma InstalledVerifies(d: Disk, e: Disk, s: Setup, log: Log, moves: seq<Taken>)
    requires Proper(s) && !InConflict(d, s) && Reports(d, e, s, ApplyMode, ReportInstalled, log, moves)
    ensures Verifies(e, s) && !InConflict(e, s)
  {
    hide RecordedAs, Desired, ReadOwnership, StatesOf, Installed;
    NoConflictOwned(d, s);
    DesiredFits(d, e, s);
    InstalledIsIdentical(e, s);
  }

  /** A second apply creates and replaces nothing. */
  lemma SecondApplyDoesNothing(d: Disk, e: Disk, f: Disk, s: Setup, log: Log, again: Log, moves: seq<Taken>,
                               more: seq<Taken>)
    requires Proper(s) && !InConflict(d, s)
    requires Reports(d, e, s, ApplyMode, ReportInstalled, log, moves)
    requires Reports(e, f, s, ApplyMode, ReportInstalled, again, more)
    ensures again == Log([], []) && more == [] && f == e
  {
    hide Desired, ReadOwnership, StatesOf, Installed, InConflict, Settled, Verifies;
    InstalledVerifies(d, e, s, log, moves);
    NoConflictOwned(d, s);
    DesiredFits(d, e, s);
  }

  // ----- whole histories -----

  /** Between runs the user may do anything to the managed files but not to the manifest; each run is an apply. */
  datatype Act = Edit | Install(setup: Setup, status: Result, log: Log, moves: seq<Taken>)

  ghost predicate SameManifest(d: Disk, e: Disk, manifest: Loc) {
    && (manifest in d.names <==> manifest in e.names)
    && (manifest in d.names && manifest in e.names ==>
          && (d.names[manifest] in d.data <==> e.names[manifest] in e.data)
          && (d.names[manifest] in d.data && e.names[manifest] in e.data ==>
                d.data[d.names[manifest]] == e.data[e.names[manifest]]))
  }

  ghost predicate Follows(d: Disk, act: Act, e: Disk, manifest: Loc, allowed: set<Loc>) {
    match act
    case Edit => SameManifest(d, e, manifest)
    case Install(s, status, log, moves) =>
      && Proper(s) && s.manifest == manifest && s.allowed == allowed && Tidy(d)
      && Reports(d, e, s, ApplyMode, status, log, moves)
  }

  function SourceSet(s: Setup): set<Content> { set i | 0 <= i < |s.assets| :: s.assets[i].source }

  /** The files that an act installed; a run that was blocked or rolled back installed none. */
  function Installs(act: Act): set<Content> {
    if act.Install? && act.status == ReportInstalled then SourceSet(act.setup) else {}
  }

  /** Every file that some act of the history installed. */
  function Shipped(acts: seq<Act>): set<Content> {
    if acts == [] then {} else Shipped(acts[..|acts| - 1]) + Installs(acts[|acts| - 1])
  }

  /** A valid manifest records only files that were shipped. */
  ghost predicate Trusted(d: Disk, s: Setup, shipped: set<Content>) {
    ReadOwnership(d, s).OwnValid? ==>
      forall loc :: loc in ReadOwnership(d, s).assets ==> ReadOwnership(d, s).assets[loc] in shipped
  }

  lemma SameManifestTrusted(d: Disk, e: Disk, s: Setup, shipped: set<Content>)
    requires SameManifest(d, e, s.manifest) && Trusted(d, s, shipped)
    ensures Trusted(e, s, shipped)
  {
  }

  lemma InstalledTrusted(d: Disk, e: Disk, s: Setup, shipped: set<Content>)
    requires Proper(s) && !ReadOwnership(d, s).OwnConflict? && Trusted(d, s, shipped)
    requires Settled(e, s, Desired(ReadOwnership(d, s), s))
    ensures Trusted(e, s, shipped + SourceSet(s))
  {
    hide Installed;
    DesiredFits(d, e, s);
    var own, all := ReadOwnership(d, s), shipped + SourceSet(s);
    forall loc | loc in Desired(own, s) ensures Desired(own, s)[loc] in all {
      if loc in Sources(s.assets) {
        var i :| 0 <= i < |s.assets| && s.assets[i].target == loc && s.assets[i].source == Sources(s.assets)[loc];
      }
    }
  }

  lemma TrustedMore(d: Disk, s: Setup, a: set<Content>, b: set<Content>)
    requires Trusted(d, s, a) && a <= b
    ensures Trusted(d, s, b)
  {
  }

  /** The setup itself matters to reading the manifest only by where it is and what it may name. */
  lemma SameReading(d: Disk, s: Setup, t: Setup)
    requires s.manifest == t.manifest && s.allowed == t.allowed
    ensures ReadOwnership(d, s) == ReadOwnership(d, t)
  {
  }

  lemma PlainSameManifest(d: Disk, e: Disk, manifest: Loc)
    requires PlainSame(d, e) && manifest.name.Plain? && Tidy(d)
    ensures SameManifest(d, e, manifest)
  {
  }

  lemma FollowedTrusted(d: Disk, act: Act, e: Disk, s: Setup, shipped: set<Content>)
    requires Proper(s) && Follows(d, act, e, s.manifest, s.allowed) && Trusted(d, s, shipped)
    ensures Trusted(e, s, shipped + Installs(act))
  {
    hide InConflict, Settled, Desired, ReadOwnership, Tidy, SameManifest, SourceSet, Justified, Exactly;
    match act {
      case Edit =>
        SameManifestTrusted(d, e, s, shipped);
        TrustedMore(e, s, shipped, shipped + Installs(act));
      case Install(setup, status, log, moves) =>
        SameReading(d, s, setup);
        SameReading(e, s, setup);
        if !InConflict(d, setup) && status == ReportInstalled {
          NoConflictOwned(d, setup);
          InstalledTrusted(d, e, setup, shipped);
        } else {
          if InConflict(d, setup) {
            NothingChanges(d, s.manifest);
          } else {
            PlainSameManifest(d, e, s.manifest);
          }
          SameManifestTrusted(d, e, s, shipped);
          TrustedMore(e, s, shipped, shipped + Installs(act));
        }
    }
  }

  lemma NothingChanges(d: Disk, manifest: Loc)
    ensures SameManifest(d, d, manifest)
  {
  }

  ghost predicate History(disks: seq<Disk>, acts: seq<Act>, s: Setup) {
    && |disks| == |acts| + 1 && s.manifest !in disks[0].names
    && forall i :: 0 <= i < |acts| ==> Follows(disks[i], acts[i], disks[i + 1], s.manifest, s.allowed)
  }

  lemma {:induction false} EveryHistoryTrusted(disks: seq<Disk>, acts: seq<Act>, s: Setup)
    requires Proper(s) && History(disks, acts, s)
    ensures Trusted(disks[|acts|], s, Shipped(acts))
    decreases |acts|
  {
    hide Follows, Trusted;
    if acts == [] {
      MissingIsTrusted(disks[0], s);
    } else {
      var k := |acts| - 1;
      assert History(disks[..|acts|], acts[..k], s) by {
        forall i | 0 <= i < k
          ensures Follows(disks[..|acts|][i], acts[..k][i], disks[..|acts|][i + 1], s.manifest, s.allowed)
        {
          assert Follows(disks[i], acts[i], disks[i + 1], s.manifest, s.allowed);
        }
      }
      EveryHistoryTrusted(disks[..|acts|], acts[..k], s);
      assert Follows(disks[k], acts[k], disks[k + 1], s.manifest, s.allowed);
      FollowedTrusted(disks[k], acts[k], disks[|acts|], s, Shipped(acts[..k]));
    }
  }

  lemma MissingIsTrusted(d: Disk, s: Setup)
    requires s.manifest !in d.names
    ensures Trusted(d, s, {})
  {
  }

  /** Over any sequence of applies that began without a manifest, and whatever the user did to the managed files in
      between: a file that a run moves aside, whether the run then installs or rolls back, is the manifest or has
      exactly the content of a file that an earlier run installed, and it had the target's name when the run began. */
  lemma RunsMoveShippedFiles(disks: seq<Disk>, acts: seq<Act>, s: Setup, k: nat, i: nat)
    requires Proper(s) && History(disks, acts, s)
    requires k < |acts| && acts[k].Install? && i < |acts[k].moves| && acts[k].moves[i].target != s.manifest
    ensures |disks| == |acts| + 1
    ensures var move := acts[k].moves[i];
            && move.moved.Some? && move.moved.value.content in Shipped(acts[..k])
            && Holds(disks[k], move.target, move.moved.value)
  {
    hide Shipped, ReadOwnership, Holds, Follows;
    assert History(disks[..k + 1], acts[..k], s) by {
      forall j | 0 <= j < k
        ensures Follows(disks[..k + 1][j], acts[..k][j], disks[..k + 1][j + 1], s.manifest, s.allowed)
      {
        assert Follows(disks[j], acts[j], disks[j + 1], s.manifest, s.allowed);
      }
    }
    EveryHistoryTrusted(disks[..k + 1], acts[..k], s);
    assert Follows(disks[k], acts[k], disks[k + 1], s.manifest, s.allowed);
    FollowedMoves(disks[k], acts[k], disks[k + 1], s, i);
  }

  lemma FollowedMoves(d: Disk, act: Act, e: Disk, s: Setup, i: nat)
    requires Follows(d, act, e, s.manifest, s.allowed)
    requires act.Install? && i < |act.moves| && act.moves[i].target != s.manifest
    ensures var move := act.moves[i];
            && move.moved.Some? && RecordedAs(ReadOwnership(d, s), move.target, move.moved.value.content)
            && Holds(d, move.target, move.moved.value)
  {
    hide InConflict, Settled, Desired, ReadOwnership, Tidy, SameManifest, Holds, RecordedAs;
    SameReading(d, s, act.setup);
  }

  /** What the next run would move aside was installed by an earlier one. */
  lemma UpgradesMoveShippedFiles(disks: seq<Disk>, acts: seq<Act>, s: Setup, i: nat)
    requires Proper(s) && History(disks, acts, s) && i < |s.assets|
    requires StatesOf(disks[|acts|], s)[i].Upgrade?
    ensures StatesOf(disks[|acts|], s)[i].live.content in Shipped(acts)
  {
    hide History, Shipped, ReadOwnership;
    EveryHistoryTrusted(disks, acts, s);
    HistoryLength(disks, acts, s);
    StateOfFits(disks[|acts|], s.assets[i], ReadOwnership(disks[|acts|], s));
  }

  lemma HistoryLength(disks: seq<Disk>, acts: seq<Act>, s: Setup)
    requires History(disks, acts, s)
    ensures |disks| == |acts| + 1
  {
  }
}
