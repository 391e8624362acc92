/** `acquisition.py`: publishing a new catalog and a new search index as one pair, with compensation. */
module PairPublication {
  import opened Basics

  /** A catalog database; `build` names its content. */
  datatype Catalog = Catalog(build: int, valid: bool)

  /** A search database; its receipt is filed under its generation. */
  datatype Index = Index(build: int, generation: string)

  /** What the two directories hold. A receipt certifies one content for its generation. */
  datatype State = State(catalog: Option<Catalog>, search: Option<Index>, receipts: map<string, int>)

  /** The live search database has its own receipt. */
  predicate Certified(s: State) {
    s.search.Some? && s.search.value.generation in s.receipts &&
    s.receipts[s.search.value.generation] == s.search.value.build
  }

  predicate NoUncertified(s: State) { s.search.Some? ==> Certified(s) }

  /** The forward steps that may raise; a step that raises has changed nothing. */
  datatype Step =
    | Staging
    | ReplaceCatalog | WalAfterReplace | CopyCatalog | ValidateCatalog | WalAfterValidate
    | DirectoryCheck
    | PublishReceipt | PinReceipt | SearchDirectoryCheck | RecheckReceipt | ReplaceSearch | ValidatePair

  /** One refresh: the content it builds, the generation of its index, and the step that raises, if one does. */
  datatype Refresh = Refresh(build: int, generation: string, fault: Option<Step>)

  datatype Outcome = Untouched | Published | CatalogRolledBack | DirectoryCheckFailed | PairRolledBack

  function NewCatalog(r: Refresh): Catalog { Catalog(r.build, true) }

  function NewIndex(r: Refresh): Index { Index(r.build, r.generation) }

  /** The existing pair is worth going back to. */
  predicate OldPairIsGood(s: State) { s.catalog.Some? && Certified(s) }

  predicate InFirstTry(step: Step) {
    step in {ReplaceCatalog, WalAfterReplace, CopyCatalog, ValidateCatalog, WalAfterValidate}
  }

  predicate Starts(s: State, r: Refresh) {
    r.fault != Some(Staging) && (s.catalog.Some? ==> s.catalog.value.valid)
  }

  /** How a refresh ends, and what it leaves in the directories. */
  function Result(s: State, r: Refresh): (State, Outcome) {
    if !Starts(s, r) then (s, Untouched)
    else if r.fault.Some? && InFirstTry(r.fault.value) then (s, CatalogRolledBack)
    else if r.fault == Some(DirectoryCheck) then (s.(catalog := Some(NewCatalog(r))), DirectoryCheckFailed)
    else if r.fault.None? && r.generation !in s.receipts then
      (State(Some(NewCatalog(r)), Some(NewIndex(r)), s.receipts[r.generation := r.build]), Published)
    else
      // A receipt that could not be pinned after it was written stays behind.
      var receipts := if r.fault == Some(PinReceipt) && r.generation !in s.receipts then s.receipts[r.generation := r.build]
                      else s.receipts;
      var replaced := r.fault == Some(ValidatePair) && r.generation !in s.receipts;
      if OldPairIsGood(s) then (State(s.catalog, s.search, receipts), PairRolledBack)
      else (State(None, if replaced then None else s.search, receipts), PairRolledBack)
  }

  /** A state that may be seen while `r` runs from `s`: the old index with the old receipts, the new one with
      its receipt, or none. */
  ghost predicate Covered(s: State, r: Refresh, seen: State) {
    && (forall g :: g in s.receipts ==> g in seen.receipts && seen.receipts[g] == s.receipts[g])
    && (seen.search == s.search || seen.search.None? || (seen.search == Some(NewIndex(r)) && Certified(seen)))
  }

  class Directories {
    var catalog: Option<Catalog>
    var search: Option<Index>
    var receipts: map<string, int>
    /** Every state the directories have been in. */
    ghost var history: seq<State>

    ghost function View(): State
      reads this
    {
      State(catalog, search, receipts)
    }

    /** Every state since `start` is one a reader may see while `r` runs from `s`. */
    ghost predicate Followed(start: nat, s: State, r: Refresh)
      reads this
    {
      && Covered(s, r, View())
      && start <= |history|
      && forall i :: start <= i < |history| ==> Covered(s, r, history[i])
    }

    constructor ()
      ensures View() == State(None, None, map[])
    {
      catalog, search, receipts, history := None, None, map[], [];
    }

    method SetCatalog(c: Option<Catalog>, ghost start: nat, ghost s: State, ghost r: Refresh)
      requires Followed(start, s, r)
      modifies this`catalog, this`history
      ensures View() == old(View()).(catalog := c) && Followed(start, s, r) && history == old(history) + [View()]
    {
      catalog := c;
      history := history + [View()];
    }

    method SetSearch(d: Option<Index>, ghost start: nat, ghost s: State, ghost r: Refresh)
      requires Followed(start, s, r) && Covered(s, r, View().(search := d))
      modifies this`search, this`history
      ensures View() == old(View()).(search := d) && Followed(start, s, r) && history == old(history) + [View()]
    {
      search := d;
      history := history + [View()];
    }

    method SetReceipts(all: map<string, int>, ghost start: nat, ghost s: State, ghost r: Refresh)
      requires Followed(start, s, r) && Covered(s, r, View().(receipts := all))
      modifies this`receipts, this`history
      ensures View() == old(View()).(receipts := all) && Followed(start, s, r) && history == old(history) + [View()]
    {
      receipts := all;
      history := history + [View()];
    }

    /** The first `try`: the new catalog goes live and is checked, or the old one is back. */
    method PublishCatalog(r: Refresh, previous: Option<Catalog>, ghost start: nat, ghost s: State) returns (ok: bool)
      requires Followed(start, s, r) && View() == s && previous == catalog
      modifies this`catalog, this`history
      ensures Followed(start, s, r) && old(history) <= history
      ensures ok == !(r.fault.Some? && InFirstTry(r.fault.value))
      ensures View() == if ok then s.(catalog := Some(NewCatalog(r))) else s
    {
      hide Followed, Covered;
      if r.fault != Some(ReplaceCatalog) {
        SetCatalog(Some(NewCatalog(r)), start, s, r);
        if r.fault.None? || !InFirstTry(r.fault.value) {
          return true;
        }
      }
      // Compensation: replace with the snapshot, or remove.
      SetCatalog(previous, start, s, r);
      return false;
    }

    /** The forward part of the second `try`. */
    method PublishSearch(r: Refresh, ghost start: nat, ghost s: State) returns (ok: bool, pinned: bool, replaced: bool)
      requires Followed(start, s, r) && View() == s.(catalog := Some(NewCatalog(r)))
      requires InSecondTry(r)
      modifies this`search, this`receipts, this`history
      ensures Followed(start, s, r) && old(history) <= history
      ensures ok <==> r.fault.None? && r.generation !in s.receipts
      ensures replaced <==> r.generation !in s.receipts && (r.fault.None? || r.fault == Some(ValidatePair))
      ensures replaced ==> pinned
      ensures pinned ==> r.generation !in s.receipts && r.fault != Some(PinReceipt)
      ensures View() == State(Some(NewCatalog(r)),
                              if replaced then Some(NewIndex(r)) else s.search,
                              if pinned || (r.fault == Some(PinReceipt) && r.generation !in s.receipts)
                              then s.receipts[r.generation := r.build] else s.receipts)
    {
      hide Followed;
      ok, pinned, replaced := false, false, false;
      if r.fault == Some(PublishReceipt) || r.generation in receipts {
        return;
      }
      SetReceipts(receipts[r.generation := r.build], start, s, r);
      if r.fault == Some(PinReceipt) {
        return;
      }
      pinned := true;
      if r.fault == Some(SearchDirectoryCheck) || r.fault == Some(RecheckReceipt) || r.fault == Some(ReplaceSearch) {
        return;
      }
      SetSearch(Some(NewIndex(r)), start, s, r);
      replaced := true;
      ok := r.fault.None?;
    }

    /** The `except` and inner `finally` of the second `try`. */
    method RollBack(r: Refresh, oldCatalog: Option<Catalog>, oldSearch: Option<Index>, pinned: bool, replaced: bool,
                    ghost start: nat, ghost s: State)
      requires Followed(start, s, r)
      requires oldCatalog == s.catalog && oldSearch == if Certified(s) then s.search else None
      requires catalog == Some(NewCatalog(r)) && search == (if replaced then Some(NewIndex(r)) else s.search)
      requires (pinned ==> r.generation !in s.receipts) && (replaced ==> pinned)
      requires pinned ==> receipts == s.receipts[r.generation := r.build]
      modifies this
      ensures Followed(start, s, r) && old(history) <= history
      ensures catalog == if OldPairIsGood(s) then s.catalog else None
      ensures search == if replaced && !OldPairIsGood(s) then None else s.search
      ensures receipts == if pinned then s.receipts else old(receipts)
    {
      hide Followed;
      if oldCatalog.Some? && oldSearch.Some? {
        SetCatalog(oldCatalog, start, s, r);
        if replaced {
          SetSearch(oldSearch, start, s, r);
        }
        FollowedNow(start, s, r);
        // The snapshot of the restored pair always validates.
        assert Certified(View());
      } else {
        SetCatalog(None, start, s, r);
        if replaced {
          SetSearch(None, start, s, r);
        }
      }
      if pinned {
        SetReceipts(receipts - {r.generation}, start, s, r);
        assert receipts == s.receipts;
      }
    }

    /** What following a run says of the present state. */
    lemma FollowedNow(start: nat, s: State, r: Refresh)
      requires Followed(start, s, r)
      ensures Covered(s, r, View())
    {
    }

    /** `rebuild_and_publish_indexes` from the staged databases on. */
    method RebuildAndPublish(r: Refresh) returns (outcome: Outcome)
      modifies this
      ensures (View(), outcome) == Result(old(View()), r)
      ensures OutcomeFits(old(View()), r, outcome) && LeavesFits(old(View()), r, outcome, View())
      ensures old(history) <= history
      ensures forall i :: |old(history)| <= i < |history| ==> Covered(old(View()), r, history[i])
    {
      ghost var s, start := View(), |history|;
      ResultFits(s, r);
      var oldCatalog := catalog;
      if r.fault == Some(Staging) || (oldCatalog.Some? && !oldCatalog.value.valid) {
        return Untouched;
      }
      var oldSearch := if search.Some? && search.value.generation in receipts &&
                          receipts[search.value.generation] == search.value.build then search else None;
      var ok := PublishCatalog(r, oldCatalog, start, s);
      if !ok {
        return CatalogRolledBack;
      }
      if r.fault == Some(DirectoryCheck) {
        return DirectoryCheckFailed;
      }
      var pinned, replaced;
      ok, pinned, replaced := PublishSearch(r, start, s);
      if ok {
        return Published;
      }
      RollBack(r, oldCatalog, oldSearch, pinned, replaced, start, s);
      return PairRolledBack;
    }
  }

  predicate InSecondTry(r: Refresh) {
    r.fault.Some? ==> !InFirstTry(r.fault.value) && r.fault.value != Staging && r.fault.value != DirectoryCheck
  }

  // ----- what publication promises -----

  /** The old catalog is worth keeping a snapshot of: there is none, or it is valid. */
  predicate Usable(s: State) { s.catalog.None? || s.catalog.value.valid }

  predicate FirstTryFault(r: Refresh) {
    r.fault == Some(ReplaceCatalog) || r.fault == Some(WalAfterReplace) || r.fault == Some(CopyCatalog)
    || r.fault == Some(ValidateCatalog) || r.fault == Some(WalAfterValidate)
  }

  predicate SecondTryFault(r: Refresh) {
    r.fault == Some(PublishReceipt) || r.fault == Some(PinReceipt) || r.fault == Some(SearchDirectoryCheck)
    || r.fault == Some(RecheckReceipt) || r.fault == Some(ReplaceSearch) || r.fault == Some(ValidatePair)
  }

  /** Which outcome a refresh has: it publishes exactly without a fault, from an absent or valid catalog and with a
      generation that has no receipt yet. */
  ghost predicate OutcomeFits(s: State, r: Refresh, outcome: Outcome) {
    && (outcome.Published? <==> r.fault.None? && Usable(s) && r.generation !in s.receipts)
    && (outcome.Untouched? <==> r.fault == Some(Staging) || !Usable(s))
    && (outcome.CatalogRolledBack? <==> Usable(s) && FirstTryFault(r))
    && (outcome.DirectoryCheckFailed? <==> Usable(s) && r.fault == Some(DirectoryCheck))
    && (outcome.PairRolledBack? <==> Usable(s) && (SecondTryFault(r) || (r.fault.None? && r.generation in s.receipts)))
  }

  /** What each outcome leaves. A receipt that was written and could not be pinned stays behind. */
  ghost predicate LeavesFits(s: State, r: Refresh, outcome: Outcome, t: State) {
    match outcome
    case Untouched => t == s
    case CatalogRolledBack => t == s
    case DirectoryCheckFailed => t == s.(catalog := Some(Catalog(r.build, true)))
    case Published =>
      t == State(Some(Catalog(r.build, true)), Some(Index(r.build, r.generation)), s.receipts[r.generation := r.build])
    case PairRolledBack =>
      && t.receipts == (if r.fault == Some(PinReceipt) && r.generation !in s.receipts
                        then s.receipts[r.generation := r.build] else s.receipts)
      && (s.catalog.Some? && Certified(s) ==> t.catalog == s.catalog && t.search == s.search)
      && (!(s.catalog.Some? && Certified(s)) ==>
            && t.catalog.None?
            && t.search == if r.fault == Some(ValidatePair) && r.generation !in s.receipts then None else s.search)
  }

  /** When each outcome comes, and what it leaves. */
  lemma ResultFits(s: State, r: Refresh)
    ensures OutcomeFits(s, r, Result(s, r).1) && LeavesFits(s, r, Result(s, r).1, Result(s, r).0)
  {
    if r.fault.Some? {
      var step := r.fault.value;
      assert InFirstTry(step) || step.Staging? || step.DirectoryCheck? || step.PublishReceipt? || step.PinReceipt?
             || step.SearchDirectoryCheck? || step.RecheckReceipt? || step.ReplaceSearch? || step.ValidatePair?;
    }
  }

  /** At every step the live search database has its receipt, if it had one to begin with. */
  lemma AlwaysCertified(s: State, r: Refresh, seen: State)
    requires NoUncertified(s) && Covered(s, r, seen)
    ensures NoUncertified(seen)
  {
  }

  /** Both databases of one build, the catalog valid and the index certified; or neither database. */
  predicate Matched(s: State) {
    || (s.catalog.None? && s.search.None?)
    || (s.catalog.Some? && s.catalog.value.valid && Certified(s) && s.catalog.value.build == s.search.value.build)
  }

  /** Exactly when a refresh keeps the pair matched: it does not start, its directory check between the two tries
      does not fail, or the index beside the catalog is of the same build already. */
  lemma MatchedExactly(s: State, r: Refresh)
    requires Matched(s)
    ensures Matched(Result(s, r).0) <==>
            (Starts(s, r) && r.fault == Some(DirectoryCheck) ==> s.search.Some? && s.search.value.build == r.build)
  {
  }

  /** The input for which it does not: the new catalog stays beside the old index. */
  lemma DirectoryCheckUnmatches()
    ensures var s := State(Some(Catalog(1, true)), Some(Index(1, "a")), map["a" := 1]);
            var t := Result(s, Refresh(2, "b", Some(DirectoryCheck))).0;
            Matched(s) && t == s.(catalog := Some(Catalog(2, true))) && !Matched(t)
  {
  }

  /** A normal return means both databases are the new ones, the catalog valid and the index certified, and every
      older receipt is still there. */
  lemma PublishedIsNew(s: State, r: Refresh)
    requires Result(s, r).1.Published?
    ensures var t := Result(s, r).0;
            && t.catalog == Some(Catalog(r.build, true)) && t.search == Some(Index(r.build, r.generation)) && Certified(t)
            && forall g :: g in s.receipts ==> g in t.receipts && t.receipts[g] == s.receipts[g]
  {
  }

  /** A failure inside either `try` leaves neither new database live, and both old ones live if both were valid. */
  lemma FailureInsideTries(s: State, r: Refresh)
    requires Result(s, r).1.CatalogRolledBack? || Result(s, r).1.PairRolledBack?
    ensures var t := Result(s, r).0;
            && (t.catalog == s.catalog || t.catalog.None?) && (t.search == s.search || t.search.None?)
            && (OldPairIsGood(s) ==> t.catalog == s.catalog && t.search == s.search && Certified(t))
  {
  }

  /** Exactly when a failure in the second `try` leaves the catalog as it was: there was none, or the index beside
      it was certified. Otherwise a valid old catalog is removed. */
  lemma OldCatalogSurvives(s: State, r: Refresh)
    requires Result(s, r).1.PairRolledBack?
    ensures Result(s, r).0.catalog == s.catalog <==> s.catalog.None? || Certified(s)
  {
  }

  /** A valid catalog with no index yet is lost when publishing the first index fails. */
  lemma FirstIndexFailureRemovesCatalog()
    ensures Result(State(Some(Catalog(1, true)), None, map[]), Refresh(2, "g", Some(ReplaceSearch))) ==
            (State(None, None, map[]), PairRolledBack)
  {
  }

  function Run(s: State, refreshes: seq<Refresh>): State
    decreases |refreshes|
  {
    if refreshes == [] then s else Run(Result(s, refreshes[0]).0, refreshes[1..])
  }

  /** Over any sequence of refreshes in which the directory check never fails, the pair stays matched. */
  lemma {:induction false} EveryRunMatched(s: State, refreshes: seq<Refresh>)
    requires Matched(s)
    requires forall i :: 0 <= i < |refreshes| ==> refreshes[i].fault != Some(DirectoryCheck)
    ensures Matched(Run(s, refreshes))
    decreases |refreshes|
  {
    if refreshes != [] {
      MatchedExactly(s, refreshes[0]);
      EveryRunMatched(Result(s, refreshes[0]).0, refreshes[1..]);
    }
  }

  /** Over any sequence of refreshes whatever, the live index is certified. */
  lemma {:induction false} EveryRunCertified(s: State, refreshes: seq<Refresh>)
    requires NoUncertified(s)
    ensures NoUncertified(Run(s, refreshes))
    decreases |refreshes|
  {
    if refreshes != [] {
      EveryRunCertified(Result(s, refreshes[0]).0, refreshes[1..]);
    }
  }
}
