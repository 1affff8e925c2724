/**
 commitValidatedBackup (backend/src/core/services/backup-restore.ts): swap the staged attachments tree in,
 restore the database, migrate, reconcile, and undo the swap when the database restore fails.

 Every rename, remove and database call may fail; `Faults` says which ones do.  `trail` records every
 intermediate state, the half-removed trees included, so that what holds of each of its entries also holds
 if the process dies there.
 */
module RestoreCommit {
  datatype Place = AttachmentsRoot | RollbackPath | StagedAttachments | StageRoot

  /** `Ruins` is a tree that a failed or unfinished recursive remove has already taken files from. */
  datatype Tree = Original | Backup | Scratch | Ruins

  datatype Database = OldData | BackupData(migrated: bool, reconciled: bool)

  datatype State = State(disk: map<Place, Tree>, db: Database)

  datatype RestoreFault = Restored | FailedUnchanged | FailedAfterCommit

  datatype RemoveFault = Removed | Refused | Interrupted

  datatype Faults = Faults(
    moveAside: bool, moveStaged: bool, moveBack: bool, restore: RestoreFault, removeRoot: RemoveFault,
    migrate: bool, reconcile: bool, removeRollback: RemoveFault, removeStage: RemoveFault)

  datatype Moved = Done | NotFound | Failed

  datatype Outcome =
    | Completed
    | CleanupFailed
    | MoveAsideFailed
    | MoveStagedFailed
    | MoveBackFailed        // the compensating rename itself failed
    | RestoreFailed
    | RollbackFailed        // "attachment rollback failed. Previous attachments remain at ..."
    | MigrationsFailed
    | ReconcileFailed

  /** What the commit starts from: a validated stage, an unused rollback name, and perhaps a live tree. */
  function Start(had: bool): State {
    State((if had then map[AttachmentsRoot := Original] else map[])
          + map[StagedAttachments := Backup, StageRoot := Scratch], OldData)
  }

  /** Restore, migrations and reconciliation have all succeeded. */
  predicate Finished(s: State) {
    s.db == BackupData(true, true)
  }

  predicate At(s: State, p: Place, t: Tree) {
    p in s.disk && s.disk[p] == t
  }

  /** The tree that was live before the restore is still on disk, whole, where the code looks for it. */
  predicate OriginalSurvives(had: bool, s: State) {
    had ==> At(s, AttachmentsRoot, Original) || At(s, RollbackPath, Original)
  }

  predicate BothOld(had: bool, s: State) {
    && s.db == OldData
    && (if had then At(s, AttachmentsRoot, Original) else AttachmentsRoot !in s.disk)
  }

  predicate BothNew(s: State) {
    s.db.BackupData? && At(s, AttachmentsRoot, Backup)
  }

  /** The faults under which database and live attachments nevertheless end up on the same side. */
  predicate Survivable(had: bool, f: Faults) {
    if had && f.moveAside then true
    else if f.moveStaged then had ==> !f.moveBack
    else match f.restore
      case Restored => true
      case FailedUnchanged => f.removeRoot.Removed? && (had ==> !f.moveBack)
      case FailedAfterCommit => f.removeRoot.Refused?
  }

  predicate CleansUp(had: bool, f: Faults) {
    (had ==> f.removeRollback.Removed?) && f.removeStage.Removed?
  }

  /** Both renames of the swap work. */
  predicate Swaps(had: bool, f: Faults) {
    !(had && f.moveAside) && !f.moveStaged
  }

  /** The disk once the swap has gone through. */
  function Swapped(had: bool): map<Place, Tree> {
    map[AttachmentsRoot := Backup, StageRoot := Scratch] + (if had then map[RollbackPath := Original] else map[])
  }

  class Host {
    var disk: map<Place, Tree>
    var db: Database
    ghost var trail: seq<State>

    function Now(): State
      reads this
    {
      State(disk, db)
    }

    /** rename(2): atomic, and refused when the source is missing or the target exists. */
    method Rename(source: Place, target: Place, fails: bool) returns (r: Moved)
      modifies this`disk, this`trail
      ensures r.NotFound? <==> source !in old(disk)
      ensures r.Done? <==> source in old(disk) && target !in old(disk) && !fails
      ensures disk == if r.Done? then (old(disk) - {source})[target := old(disk)[source]] else old(disk)
      ensures trail == old(trail) + [Now()]
    {
      if source !in disk {
        r := NotFound;
      } else if target in disk || fails {
        r := Failed;
      } else {
        disk := (disk - {source})[target := disk[source]];
        r := Done;
      }
      trail := trail + [Now()];
    }

    /** rm -rf: removes file by file, so it passes through a damaged tree and can stop there. */
    method Remove(p: Place, fault: RemoveFault) returns (ok: bool)
      modifies this`disk, this`trail
      ensures ok <==> fault.Removed?
      ensures match fault
        case Removed => disk == old(disk) - Inside(p)
        case Refused => disk == old(disk)
        case Interrupted => disk == if p in old(disk) then old(disk)[p := Ruins] else old(disk)
      ensures old(trail) < trail && trail[|trail| - 1] == Now()
      ensures forall k :: |old(trail)| <= k < |trail| ==>
        trail[k].db == db && forall q :: q in old(disk) && q !in Inside(p) ==> At(trail[k], q, old(disk)[q])
    {
      if !fault.Refused? && p in disk {
        disk := disk[p := Ruins];
        trail := trail + [Now()];
      }
      if fault.Removed? { disk := disk - Inside(p); }
      trail := trail + [Now()];
      ok := fault.Removed?;
    }

    /** The staged attachments live inside the stage directory. */
    static function Inside(p: Place): set<Place> {
      if p.StageRoot? then {StageRoot, StagedAttachments} else {p}
    }

    /** restoreDatabase: one transaction, but the child can commit and the call still fail on the stream. */
    method RestoreDatabase(fault: RestoreFault) returns (ok: bool)
      modifies this`db, this`trail
      ensures ok <==> fault.Restored?
      ensures db == if fault.FailedUnchanged? then old(db) else BackupData(false, false)
      ensures trail == old(trail) + [Now()]
    {
      if !fault.FailedUnchanged? { db := BackupData(false, false); }
      trail := trail + [Now()];
      ok := fault.Restored?;
    }

    method RestoreAttachmentsAfterFailure(hasRollback: bool, f: Faults) returns (ok: bool)
      requires hasRollback <==> At(Now(), RollbackPath, Original)
      modifies this`disk, this`trail
      ensures ok <==> f.removeRoot.Removed? && (hasRollback ==> !f.moveBack)
      ensures ok ==> disk == if hasRollback
        then (old(disk) - {RollbackPath})[AttachmentsRoot := Original] else old(disk) - {AttachmentsRoot}
      ensures !ok && hasRollback ==> At(Now(), RollbackPath, Original)
      ensures !ok && !hasRollback ==> !f.removeRoot.Removed?
      ensures !ok && f.removeRoot.Refused? ==> disk == old(disk)
      ensures !ok && f.removeRoot.Interrupted? && AttachmentsRoot in old(disk) ==> At(Now(), AttachmentsRoot, Ruins)
      ensures !ok && f.removeRoot.Removed? ==> AttachmentsRoot !in disk
      ensures old(trail) < trail && trail[|trail| - 1] == Now()
      ensures forall k :: |old(trail)| <= k < |trail| ==> OriginalSurvives(hasRollback, trail[k])
    {
      ok := Remove(AttachmentsRoot, f.removeRoot);
      if !ok || !hasRollback { return; }
      var r := Rename(RollbackPath, AttachmentsRoot, f.moveBack);
      ok := r.Done?;
    }

    /** The swap: the live tree moves aside (or is absent), then the staged tree takes its place. */
    method Swap(ghost had: bool, f: Faults) returns (failure: Outcome, hasRollback: bool)
      requires Now() == Start(had)
      modifies this`disk, this`trail
      ensures old(trail) < trail && trail[|trail| - 1] == Now()
      ensures forall k :: |old(trail)| <= k < |trail| ==> OriginalSurvives(had, trail[k])
      ensures failure.Completed? || failure.MoveAsideFailed? || failure.MoveStagedFailed? || failure.MoveBackFailed?
      ensures failure.Completed? ==> hasRollback == had
      ensures failure.Completed? ==> disk == Swapped(had)
      ensures failure.Completed? <==> Swaps(had, f)
      ensures failure.MoveBackFailed? <==> had && !f.moveAside && f.moveStaged && f.moveBack
      ensures failure.MoveBackFailed? ==> AttachmentsRoot !in disk && At(Now(), RollbackPath, Original)
      ensures failure.MoveAsideFailed? || failure.MoveStagedFailed? ==> disk == Start(had).disk
    {
      failure, hasRollback := Completed, false;
      var r := Rename(AttachmentsRoot, RollbackPath, f.moveAside);
      if r.Failed? { failure := MoveAsideFailed; return; }
      if r.Done? { hasRollback := true; }
      r := Rename(StagedAttachments, AttachmentsRoot, f.moveStaged);
      if r.Done? { return; }
      failure := MoveStagedFailed;
      if hasRollback {
        r := Rename(RollbackPath, AttachmentsRoot, f.moveBack);
        if !r.Done? { failure := MoveBackFailed; }
      }
    }

    /** Migrations, reconciliation and clean-up: past this point nothing is undone. */
    method Complete(ghost had: bool, hasRollback: bool, f: Faults) returns (outcome: Outcome)
      requires db == BackupData(false, false) && hasRollback == had && disk == Swapped(had)
      modifies this
      ensures outcome.Completed? || outcome.CleanupFailed? || outcome.MigrationsFailed? || outcome.ReconcileFailed?
      ensures old(trail) <= trail && (old(trail) == trail ==> Now() == old(Now()))
      ensures old(trail) < trail ==> trail[|trail| - 1] == Now()
      ensures forall k :: |old(trail)| <= k < |trail| ==> OriginalSurvives(had, trail[k]) || Finished(trail[k])
      ensures BothNew(Now())
      ensures outcome.MigrationsFailed? || outcome.ReconcileFailed? ==>
        disk == old(disk) && !Finished(Now()) && (had ==> At(Now(), RollbackPath, Original)) && StageRoot in disk
      ensures outcome.Completed? || outcome.CleanupFailed? ==> Finished(Now())
      ensures outcome.Completed? ==> disk == map[AttachmentsRoot := Backup]
      ensures outcome.MigrationsFailed? <==> f.migrate
      ensures outcome.ReconcileFailed? <==> !f.migrate && f.reconcile
      ensures outcome.Completed? <==> !f.migrate && !f.reconcile && CleansUp(had, f)
    {
      if f.migrate { return MigrationsFailed; }
      db := BackupData(true, false);
      trail := trail + [Now()];
      if f.reconcile { return ReconcileFailed; }
      db := BackupData(true, true);
      trail := trail + [Now()];
      outcome := CleanUp(had, hasRollback, f);
    }

    method CleanUp(ghost had: bool, hasRollback: bool, f: Faults) returns (outcome: Outcome)
      requires Finished(Now()) && hasRollback == had && disk == Swapped(had)
      modifies this`disk, this`trail
      ensures old(trail) < trail && trail[|trail| - 1] == Now()
      ensures forall k :: |old(trail)| <= k < |trail| ==> Finished(trail[k])
      ensures At(Now(), AttachmentsRoot, Backup)
      ensures outcome.Completed? || outcome.CleanupFailed?
      ensures outcome.Completed? <==> CleansUp(had, f)
      ensures outcome.Completed? ==> disk == map[AttachmentsRoot := Backup]
    {
      if hasRollback {
        var gone := Remove(RollbackPath, f.removeRollback);
        if !gone { return CleanupFailed; }
      }
      var gone := Remove(StageRoot, f.removeStage);
      outcome := if gone then Completed else CleanupFailed;
    }

    /** The original tree survives every intermediate state until everything else has succeeded; database
        and live attachments end on the same side exactly when the faults are survivable; and each error
        that promises a kept rollback or stage keeps its promise. */
    method CommitValidatedBackup(ghost had: bool, f: Faults) returns (outcome: Outcome)
      requires Now() == Start(had)
      modifies this
      ensures old(trail) < trail && trail[|trail| - 1] == Now()
      ensures forall k :: |old(trail)| <= k < |trail| ==> OriginalSurvives(had, trail[k]) || Finished(trail[k])
      ensures BothOld(had, Now()) || BothNew(Now()) <==> Survivable(had, f)
      ensures !f.restore.FailedAfterCommit? && !f.moveBack && f.removeRoot.Removed? ==>
        BothOld(had, Now()) || BothNew(Now())
      ensures outcome.Completed? <==>
        Swaps(had, f) && f.restore.Restored? && !f.migrate && !f.reconcile && CleansUp(had, f)
      ensures outcome.CleanupFailed? <==>
        Swaps(had, f) && f.restore.Restored? && !f.migrate && !f.reconcile && !CleansUp(had, f)
      ensures outcome.MigrationsFailed? <==> Swaps(had, f) && f.restore.Restored? && f.migrate
      ensures outcome.ReconcileFailed? <==> Swaps(had, f) && f.restore.Restored? && !f.migrate && f.reconcile
      ensures outcome.RestoreFailed? || outcome.RollbackFailed? <==> Swaps(had, f) && !f.restore.Restored?
      ensures outcome.Completed? ==> Finished(Now()) && disk == map[AttachmentsRoot := Backup]
      ensures outcome.Completed? || outcome.CleanupFailed? <==> Finished(Now())
      ensures outcome.MoveAsideFailed? || outcome.MoveStagedFailed? ==> Now() == Start(had)
      ensures outcome.RestoreFailed? ==>
        if had then At(Now(), AttachmentsRoot, Original) else AttachmentsRoot !in disk
      ensures had && (outcome.MoveBackFailed? || outcome.RollbackFailed?) ==> At(Now(), RollbackPath, Original)
      ensures had && (outcome.MigrationsFailed? || outcome.ReconcileFailed?) ==> At(Now(), RollbackPath, Original)
      ensures outcome.MigrationsFailed? || outcome.ReconcileFailed? ==> BothNew(Now()) && StageRoot in disk
    {
      var hasRollback;
      outcome, hasRollback := Swap(had, f);
      if !outcome.Completed? { return; }
      var ok := RestoreDatabase(f.restore);
      if !ok {
        ok := RestoreAttachmentsAfterFailure(hasRollback, f);
        return if ok then RestoreFailed else RollbackFailed;
      }
      outcome := Complete(had, hasRollback, f);
    }
  }
}
