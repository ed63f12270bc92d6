/**
  When the learning store accepts an operation, and what is active afterwards: stated over rows and
  ledger entries, for every intact store.
*/
module StoreLaws {
  import opened Names
  import opened Wrappers
  import opened HashChain
  import opened LearningStore

  // ---------- What an appended entry makes active ----------

  lemma LastWhereSnoc<T>(rows: seq<T>, row: T, condition: T -> bool)
    ensures LastWhere(rows + [row], condition) == if condition(row) then Some(row) else LastWhere(rows, condition)
  {
    assert (rows + [row])[..|rows|] == rows;
  }

  /** The last row of a condition is the last row of any narrower condition that it meets. */
  lemma LastWhereNarrows<T>(rows: seq<T>, wide: T -> bool, narrow: T -> bool)
    requires forall row :: narrow(row) ==> wide(row)
    requires LastWhere(rows, wide).Some? && narrow(LastWhere(rows, wide).value)
    ensures LastWhere(rows, narrow) == LastWhere(rows, wide)
  {
    var k :| 0 <= k < |rows| && rows[k] == LastWhere(rows, wide).value && forall j | k < j < |rows| :: !wide(rows[j]);
    var i :| 0 <= i < |rows| && rows[i] == LastWhere(rows, narrow).value && narrow(rows[i])
             && forall j | i < j < |rows| :: !narrow(rows[j]);
    assert i == k;
  }

  /** `after` is `before` with one more ledger entry and perhaps one more version row. */
  predicate OneMore(before: Store, after: Store, entry: Entry<Event>, rows: seq<Version>) {
    after.ledger == before.ledger + [entry] && after.versions == before.versions + rows && |rows| <= 1
  }

  /** An entry about another item, or one that activates nothing, leaves the active version of an item alone. */
  lemma ActiveIsUntouched(before: Store, after: Store, entry: Entry<Event>, rows: seq<Version>, itemId: Name)
    requires OneMore(before, after, entry, rows)
    requires entry.body.itemId != itemId || !SetsActive(entry.body.kind)
    requires forall row | row in rows :: row.itemId != itemId || !row.active
    ensures ActiveRow(after, itemId) == ActiveRow(before, itemId)
  {
    var ofItem := (e: Entry<Event>) => e.body.itemId == itemId && SetsActive(e.body.kind);
    LastWhereSnoc(before.ledger, entry, ofItem);
    assert LastWhere(after.ledger, ofItem) == LastWhere(before.ledger, ofItem);
    if LastWhere(before.ledger, ofItem).Some? {
      var event := LastWhere(before.ledger, ofItem).value.body;
      if !event.kind.ArchiveEvent? && event.after.Some? {
        var snapshot := (v: Version) =>
          v.itemId == itemId && v.candidateId == event.candidateId && v.knowledgeSha == event.after.value && v.active;
        if rows != [] {
          assert rows == [rows[0]] && rows[0] in rows;
          LastWhereSnoc(before.versions, rows[0], snapshot);
        } else {
          assert after.versions == before.versions;
        }
        assert LastWhere(after.versions, snapshot) == LastWhere(before.versions, snapshot);
      }
    }
  }

  lemma ArchivedIsInactive(before: Store, after: Store, entry: Entry<Event>, itemId: Name)
    requires OneMore(before, after, entry, []) && entry.body.itemId == itemId && entry.body.kind.ArchiveEvent?
    ensures ActiveRow(after, itemId) == Ok(None)
  {
    LastWhereSnoc(before.ledger, entry, (e: Entry<Event>) => e.body.itemId == itemId && SetsActive(e.body.kind));
  }

  /** An activating entry makes the newest snapshot of its candidate and knowledge active. */
  lemma ActivatedIsActive(before: Store, after: Store, entry: Entry<Event>, rows: seq<Version>, row: Version)
    requires OneMore(before, after, entry, rows) && row.Intact()
    requires Activates(entry.body, row.itemId, row.knowledgeSha)
    requires entry.body.candidateId == row.candidateId && entry.body.candidateSha == row.candidateSha
    requires entry.body.knowledgeSha == row.knowledgeSha
    requires LastWhere(after.versions, (v: Version) => v.itemId == row.itemId && v.candidateId == row.candidateId
               && v.knowledgeSha == row.knowledgeSha && v.active) == Some(row)
    ensures ActiveRow(after, row.itemId) == Ok(Some(row))
  {
    var itemId, event := row.itemId, entry.body;
    LastWhereSnoc(before.ledger, entry, (e: Entry<Event>) => e.body.itemId == itemId && SetsActive(e.body.kind));
    var found := (v: Version) => v.itemId == row.itemId && v.candidateId == row.candidateId
                                 && v.knowledgeSha == row.knowledgeSha && v.active;
    var asked := (v: Version) =>
      v.itemId == itemId && v.candidateId == event.candidateId && v.knowledgeSha == event.after.value && v.active;
    assert found(row) && asked(row);
    LastWhereNarrows(after.versions, found, asked);
  }

  // ---------- What an operation writes down ----------

  /** The new ledger entry names the item, the knowledge before and after, and who did it why and when. */
  predicate Written(before: Store, after: Store, kind: EventKind, row: Version, was: Option<KnowledgeSha>,
                    becomes: Option<KnowledgeSha>, actor: Name, reason: Name, now: Name)
  {
    && |after.ledger| == |before.ledger| + 1 && before.ledger <= after.ledger
    && var e := after.ledger[|before.ledger|].body;
    && e.kind == kind && e.itemId == row.itemId && e.candidateId == row.candidateId
    && e.candidateSha == row.candidateSha && e.knowledgeSha == row.knowledgeSha
    && e.before == was && e.after == becomes && e.receipt == row.receipt
    && e.experienceHashes == row.candidate.experienceHashes && e.evidenceHashes == row.candidate.evidenceHashes
    && e.actor == actor && e.reason == reason && e.timestamp == now
  }

  /** The active version of every item but one is what it was. */
  ghost predicate OthersKeepActive(before: Store, after: Store, itemId: Name) {
    forall other: Name | other != itemId :: ActiveRow(after, other) == ActiveRow(before, other)
  }

  // ---------- Promotion ----------

  /** `upper` is the next level above `lower`. */
  predicate NextAbove(lower: Level, upper: Level) {
    || (lower.CandidateLevel? && upper.ValidatedLevel?)
    || (lower.ValidatedLevel? && upper.ApprovedLevel?)
    || (lower.ApprovedLevel? && upper.EnterpriseLevel?)
  }

  /** Row k is the newest row of the candidate. */
  predicate IsNewest(versions: seq<Version>, candidateId: Name, k: nat) {
    && k < |versions| && versions[k].candidateId == candidateId
    && forall j | k < j < |versions| :: versions[j].candidateId != candidateId
  }

  ghost predicate HasLevel(versions: seq<Version>, candidateId: Name, level: Level) {
    exists i | 0 <= i < |versions| :: versions[i].candidateId == candidateId && versions[i].level == level
  }

  /** The candidate stands one level below the target. */
  ghost predicate StandsBelow(versions: seq<Version>, candidateId: Name, target: Level) {
    exists k: nat :: IsNewest(versions, candidateId, k) && NextAbove(versions[k].level, target)
  }

  lemma NewestRow(versions: seq<Version>, candidateId: Name) returns (k: nat)
    requires LastWhere(versions, (v: Version) => v.candidateId == candidateId).Some?
    ensures IsNewest(versions, candidateId, k)
    ensures LastWhere(versions, (v: Version) => v.candidateId == candidateId) == Some(versions[k])
  {
    var ofCandidate := (v: Version) => v.candidateId == candidateId;
    k :| 0 <= k < |versions| && versions[k] == LastWhere(versions, ofCandidate).value && ofCandidate(versions[k])
         && forall j | k < j < |versions| :: !ofCandidate(versions[j]);
  }

  lemma NewestIsUnique(versions: seq<Version>, candidateId: Name, i: nat, j: nat)
    requires IsNewest(versions, candidateId, i) && IsNewest(versions, candidateId, j)
    ensures i == j
  {
  }

  lemma HasLevelMeaning(versions: seq<Version>, id: Name, level: Level)
    ensures HasLevel(versions, id, level) <==>
              LastWhere(versions, (v: Version) => v.candidateId == id && v.level == level).Some?
  {
    var atLevel := (v: Version) => v.candidateId == id && v.level == level;
    if HasLevel(versions, id, level) {
      var i :| 0 <= i < |versions| && versions[i].candidateId == id && versions[i].level == level;
      assert atLevel(versions[i]);
    }
    if LastWhere(versions, atLevel).Some? {
      var k := LastWhereIndex(versions, atLevel);
    }
  }

  lemma StandsBelowMeaning(versions: seq<Version>, id: Name, target: Level)
    ensures var newest := LastWhere(versions, (v: Version) => v.candidateId == id);
            StandsBelow(versions, id, target) <==> newest.Some? && NextAbove(newest.value.level, target)
  {
    var ofCandidate := (v: Version) => v.candidateId == id;
    if StandsBelow(versions, id, target) {
      var j: nat :| IsNewest(versions, id, j) && NextAbove(versions[j].level, target);
      assert ofCandidate(versions[j]);
    }
    if LastWhere(versions, ofCandidate).Some? {
      var k := NewestRow(versions, id);
      if StandsBelow(versions, id, target) {
        var j: nat :| IsNewest(versions, id, j) && NextAbove(versions[j].level, target);
        NewestIsUnique(versions, id, j, k);
      }
    }
  }

  /** The row of this level carries this receipt. */
  ghost predicate HasReceipt(versions: seq<Version>, id: Name, level: Level, receiptSha: Name) {
    exists i | 0 <= i < |versions| ::
      versions[i].candidateId == id && versions[i].level == level && versions[i].receipt == Some(receiptSha)
  }

  lemma HasReceiptMeaning(versions: seq<Version>, id: Name, level: Level, receiptSha: Name)
    requires OneRowPerLevel(versions)
    ensures var row := LastWhere(versions, (v: Version) => v.candidateId == id && v.level == level);
            HasReceipt(versions, id, level, receiptSha) <==> row.Some? && row.value.receipt == Some(receiptSha)
  {
    var atLevel := (v: Version) => v.candidateId == id && v.level == level;
    if LastWhere(versions, atLevel).Some? {
      var k := LastWhereIndex(versions, atLevel);
      OneRowOfLevel(versions, k);
    } else {
      assert forall i | 0 <= i < |versions| :: !atLevel(versions[i]);
    }
  }

  lemma RowsOfAreIntact(store: Store, condition: Version -> bool)
    requires ValidStore(store) && LastWhere(store.versions, condition).Some?
    ensures LastWhere(store.versions, condition).value.Intact() && condition(LastWhere(store.versions, condition).value)
  {
    var k := LastWhereIndex(store.versions, condition);
  }

  /** The decision about a promotion, in terms of the two rows that it looks up. */
  lemma PromotionDecision(store: Store, id: Name, target: Level, receiptSha: Name, gateAllows: bool, actor: Name,
                          reason: Name, now: Name, newest: Option<Version>, existing: Option<Version>)
    requires LedgerIntact(store) && forall item: Name :: ActiveRow(store, item).Ok?
    requires newest == LastWhere(store.versions, (v: Version) => v.candidateId == id)
    requires existing == LastWhere(store.versions, (v: Version) => v.candidateId == id && v.level == target)
    requires (newest.Some? ==> newest.value.Intact()) && (existing.Some? ==> existing.value.Intact() && newest.Some?)
    ensures var r := Perform(store, Promote(id, target, receiptSha, gateAllows, actor, reason), now);
            && (r.Ok? && r.value != store <==>
                  gateAllows && newest.Some? && NextAbove(newest.value.level, target) && existing.None?)
            && (r.Ok? && r.value == store <==> existing.Some? && existing.value.receipt == Some(receiptSha))
  {
  }

  /**
    A promotion changes an intact store exactly when the gate allows it, the candidate stands one
    level below the target, and it has no row of that level yet. It succeeds without a change
    exactly when that row is there under the same receipt.
  */
  lemma PromotionMeaning(store: Store, id: Name, target: Level, receiptSha: Name, gateAllows: bool, actor: Name,
                         reason: Name, now: Name)
    requires ValidStore(store)
    ensures var r := Perform(store, Promote(id, target, receiptSha, gateAllows, actor, reason), now);
            && (r.Ok? && r.value != store <==>
                  gateAllows && StandsBelow(store.versions, id, target) && !HasLevel(store.versions, id, target))
            && (r.Ok? && r.value == store <==> HasReceipt(store.versions, id, target, receiptSha))
  {
    var ofCandidate := (v: Version) => v.candidateId == id;
    var atTarget := (v: Version) => v.candidateId == id && v.level == target;
    var newest, existing := LastWhere(store.versions, ofCandidate), LastWhere(store.versions, atTarget);
    forall item: Name ensures ActiveRow(store, item).Ok? { ActiveRowNeverFails(store, item); }
    if newest.Some? { RowsOfAreIntact(store, ofCandidate); }
    if existing.Some? {
      RowsOfAreIntact(store, atTarget);
      var k := LastWhereIndex(store.versions, atTarget);
      assert ofCandidate(store.versions[k]);
    }
    HasLevelMeaning(store.versions, id, target);
    StandsBelowMeaning(store.versions, id, target);
    HasReceiptMeaning(store.versions, id, target, receiptSha);
    PromotionDecision(store, id, target, receiptSha, gateAllows, actor, reason, now, newest, existing);
  }

  lemma OneRowOfLevel(versions: seq<Version>, i: nat)
    requires OneRowPerLevel(versions) && i < |versions|
    ensures forall j | 0 <= j < |versions| ::
              versions[j].candidateId == versions[i].candidateId && versions[j].level == versions[i].level ==> j == i
  {
  }

  /** The row that a promotion of row `latest` adds. */
  predicate PromotedRow(row: Version, latest: Version, number: nat, target: Level, receiptSha: Name, now: Name) {
    && row.versionId == number && row.level == target && row.receipt == Some(receiptSha) && row.createdAt == now
    && row.candidate == latest.candidate && row.candidateId == latest.candidateId && row.itemId == latest.itemId
    && row.candidateSha == latest.candidateSha && row.knowledgeSha == latest.knowledgeSha
  }

  /** An enterprise row is active for the item. */
  predicate EnterpriseIsActive(store: Store, itemId: Name) {
    match ActiveRow(store, itemId)
    case Ok(Some(row)) => row.level.EnterpriseLevel?
    case _ => false
  }

  /**
    What a promotion leaves: one more row of the candidate, active exactly for an enterprise target or
    for an approved one that meets no active enterprise row; an active new row is what is active from
    then on, and otherwise nothing changes in what is active.
  */
  lemma PromotionEffect(store: Store, id: Name, target: Level, receiptSha: Name, gateAllows: bool, actor: Name,
                        reason: Name, now: Name, after: Store, k: nat)
    requires ValidStore(store) && after != store && IsNewest(store.versions, id, k)
    requires Perform(store, Promote(id, target, receiptSha, gateAllows, actor, reason), now) == Ok(after)
    ensures |after.versions| == |store.versions| + 1 && store.versions <= after.versions
    ensures var row, latest := after.versions[|store.versions|], store.versions[k];
            && PromotedRow(row, latest, |store.versions| + 1, target, receiptSha, now)
            && (row.active <==>
                  target.EnterpriseLevel? || (target.ApprovedLevel? && !EnterpriseIsActive(store, row.itemId)))
            && ActiveRow(after, row.itemId) == (if row.active then Ok(Some(row)) else ActiveRow(store, row.itemId))
            && OthersKeepActive(store, after, row.itemId)
            && ActiveRow(store, row.itemId).Ok?
            && Written(store, after,
                 if !row.active then ValidateEvent else if target.EnterpriseLevel? then EnterpriseEvent else ActivateEvent,
                 row, KnowledgeOf(ActiveRow(store, row.itemId).value),
                 if row.active then Some(row.knowledgeSha) else None, actor, reason, now)
  {
    PromotionAppends(store, id, target, receiptSha, gateAllows, actor, reason, now, after, k);
    var row, entry := after.versions[|store.versions|], after.ledger[|store.ledger|];
    PromotionActivity(store, after, row, entry);
  }

  lemma PromotionAppends(store: Store, id: Name, target: Level, receiptSha: Name, gateAllows: bool, actor: Name,
                         reason: Name, now: Name, after: Store, k: nat)
    requires ValidStore(store) && after != store && IsNewest(store.versions, id, k)
    requires Perform(store, Promote(id, target, receiptSha, gateAllows, actor, reason), now) == Ok(after)
    ensures PromotionAppended(store, target, receiptSha, actor, reason, now, after, store.versions[k])
  {
    var ofCandidate := (v: Version) => v.candidateId == id;
    assert ofCandidate(store.versions[k]);
    var newest := NewestRow(store.versions, id);
    NewestIsUnique(store.versions, id, k, newest);
    ActiveRowNeverFails(store, store.versions[k].itemId);
    NewestAppends(store, id, target, receiptSha, gateAllows, actor, reason, now, after, store.versions[k]);
  }

  ghost predicate PromotionAppended(store: Store, target: Level, receiptSha: Name, actor: Name, reason: Name, now: Name,
                                    after: Store, latest: Version)
  {
    && |after.versions| == |store.versions| + 1 && |after.ledger| == |store.ledger| + 1
    && var row := after.versions[|store.versions|];
    && OneMore(store, after, after.ledger[|store.ledger|], [row])
    && PromotedRow(row, latest, |store.versions| + 1, target, receiptSha, now) && row.Intact()
    && (row.active <==> target.EnterpriseLevel? || (target.ApprovedLevel? && !EnterpriseIsActive(store, row.itemId)))
    && ActiveRow(store, row.itemId).Ok?
    && Written(store, after,
         if !row.active then ValidateEvent else if target.EnterpriseLevel? then EnterpriseEvent else ActivateEvent,
         row, KnowledgeOf(ActiveRow(store, row.itemId).value),
         if row.active then Some(row.knowledgeSha) else None, actor, reason, now)
  }

  lemma NewestAppends(store: Store, id: Name, target: Level, receiptSha: Name, gateAllows: bool, actor: Name,
                      reason: Name, now: Name, after: Store, latest: Version)
    requires after != store && latest.Intact() && ActiveRow(store, latest.itemId).Ok?
    requires LastWhere(store.versions, (v: Version) => v.candidateId == id) == Some(latest)
    requires PerformPromote(store, id, target, receiptSha, gateAllows, actor, reason, now) == Ok(after)
    ensures PromotionAppended(store, target, receiptSha, actor, reason, now, after, latest)
  {
  }

  lemma PromotionActivity(store: Store, after: Store, row: Version, entry: Entry<Event>)
    requires OneMore(store, after, entry, [row]) && row.Intact()
    requires entry.body.itemId == row.itemId && entry.body.candidateId == row.candidateId
    requires entry.body.candidateSha == row.candidateSha && entry.body.knowledgeSha == row.knowledgeSha
    requires if row.active then Activates(entry.body, row.itemId, row.knowledgeSha) else entry.body.kind.ValidateEvent?
    ensures ActiveRow(after, row.itemId) == (if row.active then Ok(Some(row)) else ActiveRow(store, row.itemId))
    ensures OthersKeepActive(store, after, row.itemId)
  {
    if row.active {
      LastWhereSnoc(store.versions, row, (v: Version) => v.itemId == row.itemId && v.candidateId == row.candidateId
        && v.knowledgeSha == row.knowledgeSha && v.active);
      ActivatedIsActive(store, after, entry, [row], row);
    } else {
      ActiveIsUntouched(store, after, entry, [row], row.itemId);
    }
    forall other: Name | other != row.itemId ensures ActiveRow(after, other) == ActiveRow(store, other) {
      ActiveIsUntouched(store, after, entry, [row], other);
    }
  }

  // ---------- Archive ----------

  /** An archive goes through exactly when the active knowledge is the expected one; then nothing is active. */
  lemma ArchiveMeaning(store: Store, itemId: Name, expected: KnowledgeSha, actor: Name, reason: Name, now: Name)
    requires ValidStore(store)
    ensures var r, active := Perform(store, Archive(itemId, expected, actor, reason), now), ActiveRow(store, itemId);
            && active.Ok?
            && (r.Ok? <==> active.value.Some? && active.value.value.knowledgeSha == expected)
            && (r.Ok? ==>
                  && r.value.versions == store.versions
                  && ActiveRow(r.value, itemId) == Ok(None)
                  && OthersKeepActive(store, r.value, itemId)
                  && Written(store, r.value, ArchiveEvent, active.value.value, Some(expected), None, actor, reason, now))
  {
    ActiveRowNeverFails(store, itemId);
    var r, active := PerformArchive(store, itemId, expected, actor, reason, now), ActiveRow(store, itemId).value;
    ArchiveDecision(store, itemId, expected, actor, reason, now, active);
    if r.Ok? {
      ArchiveActivity(store, r.value, itemId, r.value.ledger[|store.ledger|]);
    }
  }

  lemma ArchiveDecision(store: Store, itemId: Name, expected: KnowledgeSha, actor: Name, reason: Name, now: Name,
                        active: Option<Version>)
    requires LedgerIntact(store) && ActiveRow(store, itemId) == Ok(active)
    requires active.Some? ==> active.value.Intact() && active.value.itemId == itemId
    ensures var r := PerformArchive(store, itemId, expected, actor, reason, now);
            && (r.Ok? <==> active.Some? && active.value.knowledgeSha == expected)
            && (r.Ok? ==>
                  && Written(store, r.value, ArchiveEvent, active.value, Some(expected), None, actor, reason, now)
                  && OneMore(store, r.value, r.value.ledger[|store.ledger|], []))
  {
  }

  lemma ArchiveActivity(store: Store, after: Store, itemId: Name, entry: Entry<Event>)
    requires OneMore(store, after, entry, []) && entry.body.itemId == itemId && entry.body.kind.ArchiveEvent?
    ensures ActiveRow(after, itemId) == Ok(None) && OthersKeepActive(store, after, itemId)
  {
    ArchivedIsInactive(store, after, entry, itemId);
    forall other: Name | other != itemId ensures ActiveRow(after, other) == ActiveRow(store, other) {
      ActiveIsUntouched(store, after, entry, [], other);
    }
  }

  // ---------- Rollback ----------

  /** Some ledger entry made this knowledge the item's active one. */
  ghost predicate WasActive(store: Store, itemId: Name, knowledge: KnowledgeSha) {
    exists j | 0 <= j < |store.ledger| :: Activates(store.ledger[j].body, itemId, knowledge)
  }

  /** What was once active still has its snapshot row, and only that has one. */
  lemma WasActiveMeaning(store: Store, itemId: Name, knowledge: KnowledgeSha)
    requires ValidStore(store)
    ensures WasActive(store, itemId, knowledge) <==>
              LastWhere(store.versions, (v: Version) => v.itemId == itemId && v.knowledgeSha == knowledge && v.active).Some?
  {
    var snapshot := (v: Version) => v.itemId == itemId && v.knowledgeSha == knowledge && v.active;
    if WasActive(store, itemId, knowledge) {
      var j :| 0 <= j < |store.ledger| && Activates(store.ledger[j].body, itemId, knowledge);
      var event := store.ledger[j].body;
      assert Backed(store.versions, event);
      var i :| 0 <= i < |store.versions| && store.versions[i].active && store.versions[i].itemId == event.itemId
               && store.versions[i].knowledgeSha == event.knowledgeSha;
      assert snapshot(store.versions[i]);
    }
    if LastWhere(store.versions, snapshot).Some? {
      var k := LastWhereIndex(store.versions, snapshot);
      assert Activated(store.ledger, store.versions[k]);
    }
  }

  /**
    A rollback goes through exactly when the current knowledge is the expected one and the goal was
    once active for the item; then the goal is active.
  */
  lemma RollbackMeaning(store: Store, itemId: Name, goal: KnowledgeSha, current: Option<KnowledgeSha>, actor: Name,
                        reason: Name, now: Name)
    requires ValidStore(store)
    ensures var r, active := Perform(store, Rollback(itemId, goal, current, actor, reason), now), ActiveRow(store, itemId);
            && active.Ok?
            && (r.Ok? <==> KnowledgeOf(active.value) == current && WasActive(store, itemId, goal))
            && (r.Ok? ==> RolledBackTo(store, r.value, itemId, goal, current, actor, reason, now))
  {
    ActiveRowNeverFails(store, itemId);
    WasActiveMeaning(store, itemId, goal);
    if WasActive(store, itemId, goal) {
      var row := RolledBackRow(store, itemId, goal);
      RollbackToRow(store, itemId, goal, current, actor, reason, now, row);
    } else {
      NoRollbackWithoutGoal(store, itemId, goal, current, actor, reason, now);
    }
  }

  lemma NoRollbackWithoutGoal(store: Store, itemId: Name, goal: KnowledgeSha, current: Option<KnowledgeSha>, actor: Name,
                              reason: Name, now: Name)
    requires LastWhere(store.versions, (v: Version) => v.itemId == itemId && v.knowledgeSha == goal && v.active).None?
    ensures Perform(store, Rollback(itemId, goal, current, actor, reason), now).Err?
  {
  }

  lemma RollbackToRow(store: Store, itemId: Name, goal: KnowledgeSha, current: Option<KnowledgeSha>, actor: Name,
                      reason: Name, now: Name, row: Version)
    requires LedgerIntact(store) && ActiveRow(store, itemId).Ok?
    requires row.Intact() && row.itemId == itemId && row.knowledgeSha == goal
    requires LastWhere(store.versions, (v: Version) => v.itemId == itemId && v.knowledgeSha == goal && v.active) == Some(row)
    requires LastWhere(store.versions, (v: Version) => v.itemId == row.itemId && v.candidateId == row.candidateId
               && v.knowledgeSha == row.knowledgeSha && v.active) == Some(row)
    ensures var r := Perform(store, Rollback(itemId, goal, current, actor, reason), now);
            && (r.Ok? <==> KnowledgeOf(ActiveRow(store, itemId).value) == current)
            && (r.Ok? ==> RolledBackTo(store, r.value, itemId, goal, current, actor, reason, now))
  {
    RollbackDecision(store, itemId, goal, current, actor, reason, now, row);
    var r := Perform(store, Rollback(itemId, goal, current, actor, reason), now);
    if r.Ok? { RollbackEffect(store, r.value, itemId, goal, current, actor, reason, now, row); }
  }

  ghost predicate RolledBackTo(store: Store, after: Store, itemId: Name, goal: KnowledgeSha, current: Option<KnowledgeSha>,
                               actor: Name, reason: Name, now: Name)
  {
    && after.versions == store.versions && OthersKeepActive(store, after, itemId)
    && ActiveRow(after, itemId).Ok? && ActiveRow(after, itemId).value.Some?
    && var row := ActiveRow(after, itemId).value.value;
    && row.knowledgeSha == goal
    && Written(store, after, RollbackEvent, row, current, Some(goal), actor, reason, now)
  }

  lemma RollbackDecision(store: Store, itemId: Name, goal: KnowledgeSha, current: Option<KnowledgeSha>, actor: Name,
                         reason: Name, now: Name, row: Version)
    requires LedgerIntact(store) && ActiveRow(store, itemId).Ok? && row.Intact() && row.itemId == itemId
    requires LastWhere(store.versions, (v: Version) => v.itemId == itemId && v.knowledgeSha == goal && v.active) == Some(row)
    ensures var r := Perform(store, Rollback(itemId, goal, current, actor, reason), now);
            && (r.Ok? <==> KnowledgeOf(ActiveRow(store, itemId).value) == current)
            && (r.Ok? ==>
                  && |r.value.ledger| == |store.ledger| + 1
                  && OneMore(store, r.value, r.value.ledger[|store.ledger|], [])
                  && Written(store, r.value, RollbackEvent, row, current, Some(goal), actor, reason, now))
  {
  }

  lemma RollbackEffect(store: Store, after: Store, itemId: Name, goal: KnowledgeSha, current: Option<KnowledgeSha>,
                       actor: Name, reason: Name, now: Name, row: Version)
    requires |after.ledger| == |store.ledger| + 1 && OneMore(store, after, after.ledger[|store.ledger|], [])
    requires Written(store, after, RollbackEvent, row, current, Some(goal), actor, reason, now)
    requires row.Intact() && row.itemId == itemId && row.knowledgeSha == goal
    requires LastWhere(store.versions, (v: Version) => v.itemId == row.itemId && v.candidateId == row.candidateId
               && v.knowledgeSha == row.knowledgeSha && v.active) == Some(row)
    ensures RolledBackTo(store, after, itemId, goal, current, actor, reason, now)
  {
    var entry := after.ledger[|store.ledger|];
    assert after.versions == store.versions;
    ActivatedIsActive(store, after, entry, [], row);
    forall other: Name | other != itemId ensures ActiveRow(after, other) == ActiveRow(store, other) {
      ActiveIsUntouched(store, after, entry, [], other);
    }
  }

  /** The newest snapshot of the goal is also the newest of its candidate. */
  lemma RolledBackRow(store: Store, itemId: Name, goal: KnowledgeSha) returns (row: Version)
    requires ValidStore(store)
    requires LastWhere(store.versions, (v: Version) => v.itemId == itemId && v.knowledgeSha == goal && v.active).Some?
    ensures LastWhere(store.versions, (v: Version) => v.itemId == itemId && v.knowledgeSha == goal && v.active) == Some(row)
    ensures row.Intact() && row.itemId == itemId && row.knowledgeSha == goal && row.active
    ensures LastWhere(store.versions, (v: Version) => v.itemId == row.itemId && v.candidateId == row.candidateId
              && v.knowledgeSha == row.knowledgeSha && v.active) == Some(row)
  {
    var snapshot := (v: Version) => v.itemId == itemId && v.knowledgeSha == goal && v.active;
    var k := LastWhereIndex(store.versions, snapshot);
    row := store.versions[k];
    LastWhereNarrows(store.versions, snapshot, (v: Version) => v.itemId == row.itemId && v.candidateId == row.candidateId
      && v.knowledgeSha == row.knowledgeSha && v.active);
  }

  // ---------- Stage ----------

  /** The candidate fits what is active: nothing for a new item, its very base for a change. */
  predicate FitsActive(store: Store, c: Candidate)
    requires c.Valid()
  {
    match ActiveRow(store, c.ItemId())
    case Ok(None) => c.action.Create?
    case Ok(Some(row)) => !c.action.Create? && c.base == Some(row.knowledgeSha)
    case Err(_) => false
  }

  ghost predicate IsKnown(store: Store, candidateId: Name) {
    exists i | 0 <= i < |store.versions| :: store.versions[i].candidateId == candidateId
  }

  /**
    A stage changes an intact store exactly for a valid learner-managed candidate with a new id that
    fits what is active, and succeeds without a change exactly for one that is already stored as it is.
    It adds the candidate's row and leaves everything active as it was.
  */
  lemma StageMeaning(store: Store, c: Candidate, actor: Name, reason: Name, now: Name)
    requires ValidStore(store)
    ensures var r := Perform(store, Stage(c, actor, reason), now);
            && (r.Ok? && r.value != store <==>
                  c.Valid() && c.knowledge.ownership == "learner_managed" && !IsKnown(store, c.id) && FitsActive(store, c))
            && (r.Ok? && r.value == store <==>
                  && c.Valid() && c.knowledge.ownership == "learner_managed"
                  && exists i | 0 <= i < |store.versions| :: store.versions[i].candidate == c)
  {
    var staged := (v: Version) => v.candidateId == c.id && v.level.CandidateLevel?;
    var row := LastWhere(store.versions, staged);
    StagedIsKnown(store, c.id);
    StoredIsStaged(store, c);
    if c.Valid() { ActiveRowNeverFails(store, c.ItemId()); }
    if row.Some? { RowsOfAreIntact(store, staged); }
    StageDecision(store, c, actor, reason, now, row);
  }

  /** The decision about a stage, in terms of the row that it looks up. */
  lemma StageDecision(store: Store, c: Candidate, actor: Name, reason: Name, now: Name, row: Option<Version>)
    requires LedgerIntact(store) && (c.Valid() ==> ActiveRow(store, c.ItemId()).Ok?)
    requires row == LastWhere(store.versions, (v: Version) => v.candidateId == c.id && v.level.CandidateLevel?)
    requires row.Some? ==> row.value.Intact()
    ensures var r := Perform(store, Stage(c, actor, reason), now);
            var fit := c.Valid() && c.knowledge.ownership == "learner_managed";
            && (r.Ok? && r.value != store <==> fit && row.None? && FitsActive(store, c))
            && (r.Ok? && r.value == store <==> fit && row.Some? && row.value.candidate == c)
  {
  }

  lemma StoredIsStaged(store: Store, c: Candidate)
    requires ValidStore(store)
    ensures var row := LastWhere(store.versions, (v: Version) => v.candidateId == c.id && v.level.CandidateLevel?);
            row.Some? && row.value.candidate == c <==> exists i | 0 <= i < |store.versions| :: store.versions[i].candidate == c
  {
    var staged := (v: Version) => v.candidateId == c.id && v.level.CandidateLevel?;
    StagedIsKnown(store, c.id);
    if LastWhere(store.versions, staged).Some? {
      var k := LastWhereIndex(store.versions, staged);
    }
    if i :| 0 <= i < |store.versions| && store.versions[i].candidate == c {
      assert store.versions[i].Intact() && store.versions[i].candidateId == c.id;
      assert IsKnown(store, c.id);
      var k := LastWhereIndex(store.versions, staged);
      assert store.versions[k].candidateId == store.versions[i].candidateId;
    }
  }

  lemma StagedIsKnown(store: Store, id: Name)
    requires ValidStore(store)
    ensures LastWhere(store.versions, (v: Version) => v.candidateId == id && v.level.CandidateLevel?).Some? <==>
              IsKnown(store, id)
  {
    var staged := (v: Version) => v.candidateId == id && v.level.CandidateLevel?;
    if IsKnown(store, id) {
      var i :| 0 <= i < |store.versions| && store.versions[i].candidateId == id;
      assert HasStagedRow(store.versions, store.versions[i].candidateId);
      var k :| 0 <= k < |store.versions| && store.versions[k].candidateId == id && store.versions[k].level.CandidateLevel?;
      assert staged(store.versions[k]);
    }
    if LastWhere(store.versions, staged).Some? {
      var k := LastWhereIndex(store.versions, staged);
    }
  }

  lemma StageEffect(store: Store, c: Candidate, actor: Name, reason: Name, now: Name, after: Store)
    requires ValidStore(store) && after != store && Perform(store, Stage(c, actor, reason), now) == Ok(after)
    ensures |after.versions| == |store.versions| + 1 && store.versions <= after.versions
    ensures var row := after.versions[|store.versions|];
            && row.Intact() && row.candidate == c && row.level.CandidateLevel? && !row.active && row.receipt.None?
            && row.versionId == |store.versions| + 1 && row.createdAt == now
            && ActiveRow(store, row.itemId).Ok?
            && Written(store, after, StageEvent, row, KnowledgeOf(ActiveRow(store, row.itemId).value), None, actor, reason, now)
    ensures forall item: Name :: ActiveRow(after, item) == ActiveRow(store, item)
  {
    ActiveRowNeverFails(store, c.ItemId());
    StageAppends(store, c, actor, reason, now, after);
    var row, entry := after.versions[|store.versions|], after.ledger[|store.ledger|];
    forall item: Name ensures ActiveRow(after, item) == ActiveRow(store, item) {
      ActiveIsUntouched(store, after, entry, [row], item);
    }
  }

  lemma StageAppends(store: Store, c: Candidate, actor: Name, reason: Name, now: Name, after: Store)
    requires after != store && PerformStage(store, c, actor, reason, now) == Ok(after)
    requires ActiveRow(store, c.ItemId()).Ok?
    ensures |after.versions| == |store.versions| + 1 && |after.ledger| == |store.ledger| + 1
    ensures var row := after.versions[|store.versions|];
            && row.Intact() && row.candidate == c && row.level.CandidateLevel? && !row.active && row.receipt.None?
            && row.versionId == |store.versions| + 1 && row.createdAt == now && row.itemId == c.ItemId()
            && OneMore(store, after, after.ledger[|store.ledger|], [row])
            && Written(store, after, StageEvent, row, KnowledgeOf(ActiveRow(store, row.itemId).value), None, actor, reason, now)
  {
  }
}
