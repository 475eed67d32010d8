// The delivery manager: apply, undo, recover and the two approvals, step by durable step (corvus/delivery.py).
module Delivery {
  import opened Common
  import opened DeliveryState

  class Destination {
    var files: map<Path, Content>

    constructor (files: map<Path, Content>)
      ensures this.files == files
    {
      this.files := files;
    }
  }

  class DeliveryManager {
    const bundle: Bundle
    const destination: Destination
    const hasKey: bool
    var disk: Disk

    constructor (bundle: Bundle, destination: Destination, staged: map<Path, Content>, hasKey: bool)
      requires bundle.WellFormed()
      ensures this.bundle == bundle && this.destination == destination && this.hasKey == hasKey
      ensures disk == Disk(staged, map[], false, map[], None, [], {}, {}, []) && Good()
    {
      this.bundle, this.destination, this.hasKey := bundle, destination, hasKey;
      disk := Disk(staged, map[], false, map[], None, [], {}, {}, []);
    }

    ghost predicate Good()
      reads this
    {
      Valid(bundle, disk)
    }

    ghost predicate Tidy()
      reads this, destination
    {
      Clean(bundle, disk, destination.files)
    }

    twostate predicate OthersOnly()
      reads this, destination
    {
      Others(old(disk), old(destination.files), disk, destination.files)
    }

    twostate predicate StaysConfined()
      reads this, destination
    {
      Confined(bundle, old(disk), old(destination.files), disk, destination.files)
    }

    // How many of the steps taken did not go well.
    twostate function Spent(): int
      reads this
    {
      Troubles(old(disk).fates) - Troubles(disk.fates)
    }

    // ---- The durable steps -------------------------------------------------------------------------------------

    // Time passes before a durable step: the environment edits what it likes and decides how the step goes.
    method Tick() returns (weather: Weather)
      modifies this, destination
      ensures OthersOnly()
      ensures old(disk).fates == [] ==> weather == Fine
      ensures Spent() == if weather == Fine then 0 else 1
      ensures old(disk).fates != [] ==> weather == old(disk).fates[0].weather
    {
      if |disk.fates| == 0 {
        return Fine;
      }
      var fate := disk.fates[0];
      destination.files := Overwrite(destination.files, fate.edits);
      disk := disk.(
        fates := disk.fates[1..], backups := Overwrite(disk.backups, fate.damage),
        touched := disk.touched + fate.edits.Keys, damaged := disk.damaged + fate.damage.Keys);
      weather := fate.weather;
    }

    static function Ending(weather: Weather): Outcome {
      if weather == Fine then Done else if weather == PowerFails then PowerLost else Failed(SystemError)
    }

    static predicate Written(weather: Weather) {
      weather == Fine || weather == RaisesAfter
    }

    // A fault point: nothing is written, but the step may raise or the power may fail.
    method Fault() returns (o: Outcome)
      requires Good()
      modifies this, destination
      ensures Good() && OthersOnly() && (old(Tidy()) ==> Tidy())
      ensures old(disk).fates == [] ==> o == Done
      ensures Spent() == if o.Done? then 0 else 1
    {
      hide Troubles;
      var weather := Tick();
      OthersKeep(bundle, old(disk), old(destination.files), disk, destination.files);
      o := Ending(weather);
    }

    method PutJournal(j: Journal) returns (o: Outcome)
      requires Good() && disk.backupMade && JournalFits(bundle, disk, j)
      modifies this, destination
      ensures Good() && JournalFits(bundle, disk, j)
      ensures Others(old(disk), old(destination.files), disk.(journal := old(disk).journal), destination.files)
      ensures disk.journal in {old(disk).journal, Some(j)}
      ensures o.Done? ==> disk.journal == Some(j)
      ensures o.PowerLost? ==> disk.journal == old(disk).journal
      ensures old(disk).fates != [] && old(disk).fates[0].weather == RaisesAfter ==> o.Failed? && disk.journal == Some(j)
      ensures o.Failed? ==> o.error == SystemError
      ensures Agrees(bundle, old(disk), old(destination.files), j) ==> Agrees(bundle, disk, destination.files, j)
      ensures old(Tidy()) && Agrees(bundle, old(disk), old(destination.files), j) ==> Tidy()
      ensures old(disk).fates == [] ==> o == Done
      ensures Spent() == if o.Done? then 0 else 1
    {
      hide Troubles;
      var weather := Tick();
      OthersKeep(bundle, old(disk), old(destination.files), disk, destination.files);
      OthersKeepJournal(bundle, old(disk), old(destination.files), disk, destination.files, j);
      if Written(weather) {
        disk := disk.(journal := Some(j));
      }
      o := Ending(weather);
    }

    // The durable write shared by _claim_approval and _consume_approval.
    method Consume(id: GrantId) returns (o: Outcome)
      requires Good() && id in disk.approvals && disk.approvals[id].state == Approved
      modifies this, destination
      ensures Good() && (old(Tidy()) ==> Tidy())
      ensures OnlyConsumes(old(disk).approvals, disk.approvals) && disk.approvals.Keys == old(disk).approvals.Keys
      ensures Others(old(disk), old(destination.files),
                     disk.(approvals := old(disk).approvals, log := old(disk).log), destination.files)
      ensures o.Done? ==> disk.approvals == old(disk).approvals[id := old(disk).approvals[id].(state := Consumed)]
      ensures o.PowerLost? ==> disk.approvals == old(disk).approvals
      ensures old(disk).fates != [] && old(disk).fates[0].weather == RaisesAfter ==> o.Failed? && disk.approvals[id].state == Consumed
      ensures o.Failed? ==> o.error == SystemError
      ensures old(disk).fates == [] ==> o == Done
      ensures Spent() == if o.Done? then 0 else 1
    {
      hide ItemFits, FilesFit, StatesFit, MayFollow, Disciplined, Troubles;
      var weather := Tick();
      OthersKeep(bundle, old(disk), old(destination.files), disk, destination.files);
      if Written(weather) {
        ConsumeInTrail(bundle, disk.log, disk.approvals, disk.backupMade, id);
        disk := disk.(
          approvals := disk.approvals[id := disk.approvals[id].(state := Consumed)],
          log := disk.log + [GrantConsumed(id, disk.approvals[id].operation)]);
      }
      o := Ending(weather);
    }

    // _claim_approval: the record is read again and must still be available.
    method Claim(grant: Grant, actor: string, op: Operation) returns (o: Outcome)
      requires Good()
      modifies this, destination
      ensures Good() && (old(Tidy()) ==> Tidy())
      ensures OnlyConsumes(old(disk).approvals, disk.approvals) && disk.approvals.Keys == old(disk).approvals.Keys
      ensures Others(old(disk), old(destination.files),
                     disk.(approvals := old(disk).approvals, log := old(disk).log), destination.files)
      ensures
        var problem := RecordProblem(old(disk).approvals, grant, actor, op);
        if problem.Some? then o == Failed(problem.value) && disk == old(disk)
        else
          && (o.Done? ==> grant.id in disk.approvals && disk.approvals[grant.id].state == Consumed)
          && (old(disk).fates == [] ==> o == Done)
      ensures RecordProblem(old(disk).approvals, grant, actor, op).None? ==> Spent() == if o.Done? then 0 else 1
    {
      hide Troubles;
      var problem := RecordProblem(disk.approvals, grant, actor, op);
      if problem.Some? {
        return Failed(problem.value);
      }
      o := Consume(grant.id);
    }

    // ---- Delivering the files ----------------------------------------------------------------------------------

    // The atomic replacement of one destination file by its payload.
    method DeliverFile(p: Path) returns (o: Outcome)
      requires Good() && Tidy() && StagedIntact(bundle, disk.staged)
      requires disk.journal.Some? && disk.journal.value.status == Applying
      requires p in bundle.changedFiles && disk.journal.value.files[p].state == Writing
      modifies this, destination
      ensures Good() && Tidy() && StaysConfined()
      ensures disk.journal == old(disk).journal && disk.approvals == old(disk).approvals
      ensures o.Done? ==> HoldsPayload(bundle, destination.files, p)
      ensures old(disk).fates == [] ==> o == Done
      ensures Spent() == if o.Done? then 0 else 1
    {
      hide Troubles;
      var weather := Tick();
      OthersKeep(bundle, old(disk), old(destination.files), disk, destination.files);
      if Written(weather) {
        DeliverKeeps(bundle, disk, destination.files, p);
        var payload := disk.staged[p];
        disk := disk.(log := disk.log + [FileDelivered(p, disk.journal.value.approvalId, Some(payload))]);
        destination.files := destination.files[p := payload];
      }
      o := Ending(weather);
    }

    // One turn of the delivery loop, first half: check the baseline, journal "writing".
    method AnnounceFile(p: Path, j: Journal) returns (o: Outcome)
      requires Good() && Tidy() && disk.journal == Some(j) && j.status == Applying
      requires p in bundle.changedFiles && j.files[p].state == Pending
      modifies this, destination
      ensures Good() && Tidy() && StaysConfined()
      ensures disk.journal in {Some(j), Some(j.WithState(p, Writing))} && disk.approvals == old(disk).approvals
      ensures o.Done? ==> disk.journal == Some(j.WithState(p, Writing))
      ensures old(disk).fates == [] && p !in old(disk).touched ==> o == Done
      ensures o.Done? ==> Spent() == 0
      ensures !o.Done? ==> 0 <= Spent() <= 1 && (p !in disk.touched || o.PowerLost? ==> Spent() == 1)
      ensures Lookup(old(destination.files), p) != bundle.Original(p) ==>
                o == Failed(DestinationConflict(p)) && disk == old(disk) && destination.files == old(destination.files)
    {
      hide Troubles, ItemFits, StatesFit, GrantFits, TrailFits;
      if DigestOf(Lookup(destination.files, p)) != bundle.baseline[p] {
        return Failed(DestinationConflict(p));
      }
      MoveFits(bundle, disk, j, p, Writing);
      MoveAgrees(bundle, disk, destination.files, j, p, Writing);
      :- PutJournal(j.WithState(p, Writing));
      o := Fault();
    }

    // Second half: write the file, check what arrived, journal "delivered". arrived is what was there to be checked.
    method WriteFile(p: Path, j: Journal) returns (o: Outcome, ghost arrived: Option<Content>)
      requires Good() && Tidy() && StagedIntact(bundle, disk.staged)
      requires disk.journal == Some(j) && j.status == Applying
      requires p in bundle.changedFiles && j.files[p].state == Writing
      modifies this, destination
      ensures Good() && Tidy() && StaysConfined()
      ensures disk.journal in {Some(j), Some(j.WithState(p, Delivered))} && disk.approvals == old(disk).approvals
      ensures o.Done? ==> disk.journal == Some(j.WithState(p, Delivered))
      ensures old(disk).fates == [] && p !in old(disk).touched ==> o == Done
      ensures o.Done? ==> Spent() == 0
      ensures !o.Done? ==> 0 <= Spent() <= 1 && (p !in disk.touched || o.PowerLost? ==> Spent() == 1)
      ensures o.Done? ==> arrived == bundle.Payload(p)
    {
      hide TrailFits, StatesFit, GrantFits, Troubles;
      arrived := None;
      o := DeliverFile(p);
      if !o.Done? {
        return;
      }
      o := Fault();
      if !o.Done? {
        return;
      }
      arrived := Lookup(destination.files, p);
      if DigestOf(Lookup(destination.files, p)) != Some(j.files[p].delivered) {
        return Failed(DeliveredIntegrity(p)), arrived;
      }
      MoveFits(bundle, disk, j, p, Delivered);
      MoveAgrees(bundle, disk, destination.files, j, p, Delivered);
      o := PutJournal(j.WithState(p, Delivered));
    }

    method DeliverOne(p: Path, j: Journal) returns (o: Outcome)
      requires Good() && Tidy() && StagedIntact(bundle, disk.staged)
      requires disk.journal == Some(j) && j.status == Applying
      requires p in bundle.changedFiles && j.files[p].state == Pending
      modifies this, destination
      ensures Good() && Tidy() && StaysConfined()
      ensures disk.journal.Some? && disk.approvals == old(disk).approvals
      ensures disk.journal == Some(j.(files := disk.journal.value.files))
      ensures o.Done? ==> disk.journal == Some(j.WithState(p, Delivered))
      ensures old(disk).fates == [] && p !in old(disk).touched ==> o == Done
      ensures o.Done? ==> Spent() == 0
      ensures !o.Done? ==> 0 <= Spent() <= 1 && (p !in disk.touched || o.PowerLost? ==> Spent() == 1)
    {
      hide TrailFits, ItemFits, Agrees, FileFits, GrantFits, StatesFit, Troubles, Confined;
      o := AnnounceFile(p, j);
      if !o.Done? {
        return;
      }
      ghost var arrived;
      ghost var before, files := disk, destination.files;
      StagedStays(bundle, old(disk), old(destination.files), before, files);
      o, arrived := WriteFile(p, j.WithState(p, Writing));
      ConfinedTransitive(bundle, old(disk), old(destination.files), before, files, disk, destination.files);
      assert j.WithState(p, Writing).WithState(p, Delivered) == j.WithState(p, Delivered);
    }

    ghost predicate AllUntouched()
      reads this
    {
      forall p :: p in bundle.changedFiles ==> p !in disk.touched
    }

    method DeliverEach() returns (o: Outcome)
      requires Good() && Tidy() && StagedIntact(bundle, disk.staged)
      requires disk.journal.Some? && disk.journal.value.status == Applying
      requires forall p :: p in disk.journal.value.files ==> disk.journal.value.files[p].state == Pending
      modifies this, destination
      ensures Good() && Tidy() && StaysConfined()
      ensures disk.journal.Some? && disk.journal.value.status == Applying
      ensures disk.journal.value.approvalId == old(disk).journal.value.approvalId
      ensures disk.approvals == old(disk).approvals
      ensures o.Done? ==> forall p :: p in disk.journal.value.files ==> disk.journal.value.files[p].state == Delivered
      ensures old(disk).fates == [] && old(AllUntouched()) ==> o == Done
      ensures o.Done? ==> Spent() == 0
      ensures !o.Done? ==> 0 <= Spent() <= 1 && (AllUntouched() || o.PowerLost? ==> Spent() == 1)
    {
      hide TrailFits, ItemFits, Agrees, FileFits, GrantFits, StatesFit, Troubles;
      var j := disk.journal.value;
      for i := 0 to |bundle.changedFiles|
        invariant Good() && Tidy() && StaysConfined()
        invariant disk.journal == Some(j) && j.status == Applying
        invariant j.approvalId == old(disk).journal.value.approvalId && disk.approvals == old(disk).approvals
        invariant DeliveredUpTo(bundle, j.files, i) && Spent() == 0
      {
        DeliveredUpToStep(bundle, j, i);
        :- DeliverOne(bundle.changedFiles[i], j);
        j := j.WithState(bundle.changedFiles[i], Delivered);
      }
      o := Done;
    }

    // The body of the try block: every file in turn, then the receipt and the status "applied".
    method DeliverFiles(appliedAt: int) returns (o: Outcome)
      requires Good() && Tidy() && StagedIntact(bundle, disk.staged)
      requires disk.journal.Some? && disk.journal.value.status == Applying
      requires forall p :: p in disk.journal.value.files ==> disk.journal.value.files[p].state == Pending
      modifies this, destination
      ensures Good() && Tidy() && StaysConfined()
      ensures disk.journal.Some? && disk.journal.value.status in {Applying, Applied}
      ensures disk.journal.value.approvalId == old(disk).journal.value.approvalId
      ensures disk.approvals == old(disk).approvals
      ensures o.Done? ==> disk.journal.value.status == Applied
      ensures old(disk).fates == [] && old(AllUntouched()) ==> o == Done
      ensures o.Done? ==> Spent() == 0
      ensures !o.Done? ==> 0 <= Spent() <= 1 && (AllUntouched() || o.PowerLost? ==> Spent() == 1)
    {
      hide Troubles;
      o := DeliverEach();
      if !o.Done? {
        return;
      }
      var j := disk.journal.value;
      var receipt := ReceiptOf(j.approvalId, appliedAt, bundle.id, j.files, bundle.manifest);
      AppliedFits(bundle, disk, destination.files, j, receipt);
      :- PutJournal(j.(receipt := Some(receipt), status := Applied));
      o := Fault();
    }

    // ---- Restoring the files -----------------------------------------------------------------------------------

    // Check and replacement of one destination file, taken as one step: nothing happens in between.
    method CheckAndRestore(p: Path) returns (problem: Option<Error>)
      requires Good() && p in bundle.changedFiles
      requires disk.journal.Some? && disk.journal.value.status == RollingBack
      requires disk.journal.value.files[p].state != Pending
      modifies this, destination
      ensures Good() && (old(Tidy()) ==> Tidy())
      ensures disk == old(disk).(log := disk.log)
      ensures problem.Some? ==> disk == old(disk) && destination.files == old(destination.files)
      ensures problem.None? ==> destination.files == Overwrite(old(destination.files), map[p := bundle.Original(p)])
      ensures problem == Some(RecoveryConflict(p)) <==>
              old(Lookup(destination.files, p)) !in {bundle.Original(p), bundle.Payload(p)}
      ensures problem.Some? ==> problem.value in {RecoveryConflict(p), CheckpointDamaged(p)}
      ensures problem == Some(CheckpointDamaged(p)) ==> p in disk.damaged
    {
      var item := disk.journal.value.files[p];
      var actual := Lookup(destination.files, p);
      AllowedMeans(bundle, disk.backups, disk.damaged, p, item, actual);
      CheckpointIsOriginal(bundle, disk.backups, disk.damaged, p, item);
      if DigestOf(actual) !in {item.baseline, Some(item.delivered)} {
        return Some(RecoveryConflict(p));
      }
      if Checkpoint(disk.backups, p, item).None? {
        return Some(CheckpointDamaged(p));
      }
      var content := Checkpoint(disk.backups, p, item).value;
      var g := disk.journal.value.CurrentGrant().value;
      RestoreKeeps(bundle, disk, destination.files, p, g);
      disk := disk.(log := disk.log + [FileRestored(p, g, disk.journal.value.operation, actual, content)]);
      destination.files := Overwrite(destination.files, map[p := content]);
      problem := None;
    }

    lemma HoldsOneOfTwo(p: Path)
      requires Good() && Tidy() && p in bundle.changedFiles && p !in disk.touched && disk.journal.Some?
      ensures Lookup(destination.files, p) in {bundle.Original(p), bundle.Payload(p)}
    {
      assert FileFits(bundle, destination.files, p, disk.journal.value.files[p].state, disk.journal.value.status);
    }

    method RestoreFile(p: Path) returns (o: Outcome)
      requires Good() && p in bundle.changedFiles
      requires disk.journal.Some? && disk.journal.value.status == RollingBack
      requires disk.journal.value.files[p].state != Pending
      modifies this, destination
      ensures Good() && (old(Tidy()) ==> Tidy()) && StaysConfined()
      ensures disk.journal == old(disk).journal && disk.approvals == old(disk).approvals
      ensures o.Done? ==> HoldsOriginal(bundle, destination.files, p)
      ensures o.Failed? && o.error.RecoveryConflict? && old(Tidy()) ==> p in disk.touched
      ensures old(disk).fates == [] && old(Tidy()) && p !in old(disk).touched && p !in old(disk).damaged ==> o == Done
      ensures o.Done? ==> Spent() == 0
      ensures !o.Done? ==> 0 <= Spent() <= 1 && ((old(Tidy()) && p !in disk.touched && p !in disk.damaged) || o.PowerLost? ==> Spent() == 1)
    {
      hide TrailFits, ItemFits, StatesFit, Troubles, GrantFits, FileFits, FilesFit, Confined;
      var weather := Tick();
      OthersKeep(bundle, old(disk), old(destination.files), disk, destination.files);
      OthersConfined(bundle, old(disk), old(destination.files), disk, destination.files);
      assert old(disk).fates == [] ==> disk == old(disk) && destination.files == old(destination.files);
      assert disk.journal == old(disk).journal && disk.approvals == old(disk).approvals;
      hide Others;
      o := Ending(weather);
      if Written(weather) {
        if Tidy() && p !in disk.touched {
          HoldsOneOfTwo(p);
        }
        ghost var before, files := disk, destination.files;
        var problem := CheckAndRestore(p);
        RestoreConfined(bundle, before, files, disk.log, p, bundle.Original(p));
        ConfinedTransitive(bundle, old(disk), old(destination.files), before, files, disk, destination.files);
        if problem.Some? {
          return Failed(problem.value);
        }
      }
    }

    method RestoreOne(p: Path, j: Journal) returns (o: Outcome)
      requires Good() && p in bundle.changedFiles && disk.journal == Some(j) && j.status == RollingBack
      requires j.files[p].state != Pending
      modifies this, destination
      ensures Good() && (old(Tidy()) ==> Tidy()) && StaysConfined()
      ensures disk.journal in {Some(j), Some(j.WithState(p, Restored))} && disk.approvals == old(disk).approvals
      ensures o.Done? ==> disk.journal == Some(j.WithState(p, Restored))
      ensures o.Failed? && o.error.RecoveryConflict? && old(Tidy()) ==> p in disk.touched
      ensures old(disk).fates == [] && old(Tidy()) && p !in old(disk).touched && p !in old(disk).damaged ==> o == Done
      ensures o.Done? ==> Spent() == 0
      ensures !o.Done? ==> 0 <= Spent() <= 1 && ((old(Tidy()) && p !in disk.touched && p !in disk.damaged) || o.PowerLost? ==> Spent() == 1)
    {
      hide TrailFits, ItemFits, StatesFit, GrantFits, Troubles;
      o := RestoreFile(p);
      if !o.Done? {
        return;
      }
      MoveFits(bundle, disk, j, p, Restored);
      if Tidy() {
        MoveAgrees(bundle, disk, destination.files, j, p, Restored);
      }
      o := PutJournal(j.WithState(p, Restored));
    }

    ghost predicate AllRecoverable()
      reads this
    {
      forall p :: p in bundle.changedFiles ==> p !in disk.touched && p !in disk.damaged
    }

    // The loop over the files, last delivered first.
    method RestoreEach(j0: Journal) returns (o: Outcome)
      requires Good() && disk.journal == Some(j0) && j0.status == RollingBack
      modifies this, destination
      ensures Good() && (old(Tidy()) ==> Tidy()) && StaysConfined() && disk.approvals == old(disk).approvals
      ensures disk.journal.Some? && disk.journal.value.status == RollingBack
      ensures disk.journal == Some(j0.(files := disk.journal.value.files))
      ensures o.Done? ==> forall p :: p in disk.journal.value.files ==> disk.journal.value.files[p].state in {Pending, Restored}
      ensures o.Failed? && o.error.RecoveryConflict? && old(Tidy()) ==> !AllUntouched()
      ensures old(disk).fates == [] && old(Tidy()) && old(AllRecoverable()) ==> o == Done
      ensures o.Done? ==> Spent() == 0
      ensures !o.Done? ==> 0 <= Spent() <= 1 && ((old(Tidy()) && AllRecoverable()) || o.PowerLost? ==> Spent() == 1)
    {
      hide TrailFits, ItemFits, FileFits, Agrees, StatesFit, Troubles;
      var j := j0;
      var i := |bundle.changedFiles|;
      while i > 0
        invariant 0 <= i <= |bundle.changedFiles|
        invariant Good() && (old(Tidy()) ==> Tidy()) && StaysConfined() && disk.approvals == old(disk).approvals
        invariant disk.journal == Some(j) && j == j0.(files := j.files)
        invariant RestoredFrom(bundle, j.files, i) && Spent() == 0
      {
        i := i - 1;
        RestoredFromStep(bundle, j, i);
        var p := bundle.changedFiles[i];
        if j.files[p].state != Pending {
          :- RestoreOne(p, j);
          j := j.WithState(p, Restored);
        }
      }
      o := Done;
    }

    method Restore() returns (o: Outcome)
      requires Good() && disk.journal.Some?
      requires disk.approvals[disk.journal.value.CurrentGrant().value].state == Consumed
      modifies this, destination
      ensures Good() && (old(Tidy()) ==> Tidy()) && StaysConfined() && disk.journal.Some?
      ensures disk.approvals == old(disk).approvals
      ensures disk.journal == Some(old(disk).journal.value.(status := disk.journal.value.status, files := disk.journal.value.files))
      ensures disk.journal.value.status in {old(disk).journal.value.status, RollingBack, RolledBack}
      ensures o.Done? ==> disk.journal.value.status == RolledBack
      ensures o.Failed? && o.error.RecoveryConflict? && old(Tidy()) ==> !AllUntouched()
      ensures old(disk).fates == [] && old(Tidy()) && old(AllRecoverable()) ==> o == Done
      ensures o.Done? ==> Spent() == 0
      ensures !o.Done? ==> 0 <= Spent() <= 1 && ((old(Tidy()) && AllRecoverable()) || o.PowerLost? ==> Spent() == 1)
      ensures !o.Done? && disk.journal.value.status !in {RollingBack, RolledBack} ==> Spent() == 1
    {
      hide TrailFits, ItemFits, FileFits, Agrees, StatesFit, Troubles, FilesFit;
      var j := disk.journal.value;
      BeginFits(bundle, disk, destination.files, j);
      j := j.(status := RollingBack);
      :- PutJournal(j);
      :- RestoreEach(j);
      j := disk.journal.value;
      FinishFits(bundle, disk, destination.files, j);
      o := PutJournal(j.(status := RolledBack));
    }

    // ---- Apply -------------------------------------------------------------------------------------------------

    // Why apply refuses before it writes anything, in the order of its checks.
    function ApplyProblem(grant: Grant, actor: string, now: int): Option<Error>
      reads this, destination
      requires bundle.WellFormed()
    {
      if ApprovalProblem(bundle, grant, now).Some? then ApprovalProblem(bundle, grant, now)
      else if RecordProblem(disk.approvals, grant, actor, ApplyOp).Some? then
        RecordProblem(disk.approvals, grant, actor, ApplyOp)
      else if !StagedIntact(bundle, disk.staged) then Some(ArtifactIntegrity)
      else if !hasKey then Some(KeyMissing)
      else if FirstConflict(bundle, bundle.changedFiles, destination.files).Some? then
        Some(DestinationConflict(FirstConflict(bundle, bundle.changedFiles, destination.files).value))
      else if disk.backupMade then Some(BackupExists)
      else None
    }

    // When apply goes ahead: a grant for this very bundle, actor and operation that is neither expired nor used, the
    // staged artifacts as listed, the key, every changed file at its baseline, and no earlier apply.
    ghost predicate MayApply(grant: Grant, actor: string, now: int)
      reads this, destination
    {
      && Grants(bundle, disk.approvals, grant, actor, ApplyOp, now)
      && (forall p :: p in bundle.changedFiles ==> p in disk.staged && Some(disk.staged[p]) == bundle.Payload(p))
      && hasKey && !disk.backupMade
      && (forall p :: p in bundle.changedFiles ==> Lookup(destination.files, p) == bundle.Original(p))
    }

    lemma Allowed(grant: Grant, actor: string, now: int)
      requires bundle.WellFormed()
      ensures MayApply(grant, actor, now) <==> ApplyProblem(grant, actor, now).None?
    {
      GrantsExactly(bundle, disk.approvals, grant, actor, ApplyOp, now);
      NoConflict(bundle, destination.files);
      hide Grants, ApprovalProblem, RecordProblem;
    }

    // Reads every changed file, and stops at the first that is not at its baseline.
    method ReadDestination() returns (conflict: Option<Path>, originals: map<Path, Option<Content>>)
      requires bundle.WellFormed()
      ensures conflict == FirstConflict(bundle, bundle.changedFiles, destination.files)
      ensures conflict.None? ==>
                forall p :: p in bundle.changedFiles ==>
                  p in originals && originals[p] == bundle.Original(p) == Lookup(destination.files, p)
    {
      originals := map[];
      for i := 0 to |bundle.changedFiles|
        invariant FirstConflict(bundle, bundle.changedFiles, destination.files)
               == FirstConflict(bundle, bundle.changedFiles[i..], destination.files)
        invariant forall p :: p in bundle.changedFiles[..i] ==>
                    p in originals && originals[p] == bundle.Original(p) == Lookup(destination.files, p)
      {
        var p := bundle.changedFiles[i];
        var original := Lookup(destination.files, p);
        if DigestOf(original) != bundle.baseline[p] {
          return Some(p), originals;
        }
        originals := originals[p := original];
      }
      conflict := None;
    }

    method MakeBackupDirectory() returns (o: Outcome)
      requires Good() && !disk.backupMade && disk.journal.None?
      modifies this, destination
      ensures Good() && disk.journal.None? && disk.approvals == old(disk).approvals
      ensures Others(old(disk), old(destination.files),
                     disk.(backupMade := false, log := old(disk).log), destination.files)
      ensures o.Done? ==> disk.backupMade
      ensures old(disk).fates == [] ==> o == Done
      ensures Spent() == if o.Done? then 0 else 1
    {
      hide Troubles;
      var weather := Tick();
      OthersKeep(bundle, old(disk), old(destination.files), disk, destination.files);
      if Written(weather) {
        WriteInTrail(bundle, disk.log, disk.approvals, disk.backupMade, BackupMade);
        disk := disk.(backupMade := true, log := disk.log + [BackupMade]);
      }
      o := Ending(weather);
    }

    // The files the environment has left alone are as they were.
    twostate predicate OnlyTouched()
      reads this, destination
    {
      && disk == old(disk).(backups := disk.backups, fates := disk.fates, touched := disk.touched, damaged := disk.damaged)
      && old(disk).touched <= disk.touched
      && (forall p :: p !in disk.touched ==> Lookup(destination.files, p) == Lookup(old(destination.files), p))
      && (old(disk).fates == [] ==>
            disk.fates == [] && disk.touched == old(disk).touched && disk.damaged == old(disk).damaged
            && destination.files == old(destination.files))
    }

    method WriteBackup(p: Path, original: Option<Content>) returns (o: Outcome, item: Item)
      requires p in bundle.changedFiles && original == bundle.Original(p)
      requires bundle.WellFormed() && StagedIntact(bundle, disk.staged)
      modifies this, destination
      ensures OnlyTouched() && old(disk).damaged <= disk.damaged
      ensures forall q :: q != p && q !in disk.damaged ==> Lookup(disk.backups, q) == Lookup(old(disk).backups, q)
      ensures o.Done? ==> ItemFits(bundle, disk.backups, disk.damaged, p, item) && item.state == Pending
      ensures old(disk).fates == [] ==> o == Done
      ensures Spent() == if o.Done? then 0 else 1
    {
      hide Troubles;
      var backupDigest := None;
      o := Done;
      if original.Some? {
        var weather := Tick();
        o := Ending(weather);
        if Written(weather) {
          var cipher := Fernet(original.value);
          disk := disk.(backups := disk.backups[p := cipher]);
          backupDigest := Some(Sha256OfCipher(cipher));
        }
      }
      item := Item(backupDigest, bundle.baseline[p], Sha256(disk.staged[p]), original.Some?, Pending);
    }

    method WriteBackups(originals: map<Path, Option<Content>>) returns (o: Outcome, items: map<Path, Item>)
      requires bundle.WellFormed() && StagedIntact(bundle, disk.staged)
      requires forall p :: p in bundle.changedFiles ==> p in originals && originals[p] == bundle.Original(p)
      modifies this, destination
      ensures OnlyTouched()
      ensures o.Done? ==> FilesFit(bundle, disk.backups, disk.damaged, items) && forall p :: p in items ==> items[p].state == Pending
      ensures old(disk).fates == [] ==> o == Done
      ensures Spent() == if o.Done? then 0 else 1
    {
      hide Troubles;
      items := map[];
      o := Done;
      for i := 0 to |bundle.changedFiles|
        invariant OnlyTouched() && o == Done && Spent() == 0
        invariant forall p :: p in items <==> p in bundle.changedFiles[..i]
        invariant forall p :: p in items ==> ItemFits(bundle, disk.backups, disk.damaged, p, items[p]) && items[p].state == Pending
      {
        var p := bundle.changedFiles[i];
        assert p !in items;
        var item;
        o, item := WriteBackup(p, originals[p]);
        if !o.Done? {
          return;
        }
        items := items[p := item];
      }
    }

    // The durable intent, and then the consumption of the grant.
    method Intend(grant: Grant, actor: string, j: Journal) returns (o: Outcome)
      requires Good() && disk.backupMade && disk.journal.None?
      requires JournalFits(bundle, disk, j) && Agrees(bundle, disk, destination.files, j) && j.status == Prepared
      requires j.approvalId == grant.id && RecordProblem(disk.approvals, grant, actor, ApplyOp).None?
      modifies this, destination
      ensures Good() && Tidy()
      ensures OnlyConsumes(old(disk).approvals, disk.approvals) && disk.approvals.Keys == old(disk).approvals.Keys
      ensures Others(old(disk), old(destination.files),
                     disk.(approvals := old(disk).approvals, log := old(disk).log, journal := None), destination.files)
      ensures disk.journal in {None, Some(j)}
      ensures o.Done? ==>
                disk.journal == Some(j) && grant.id in disk.approvals && disk.approvals[grant.id].state == Consumed
      ensures old(disk).fates == [] ==> o == Done
      ensures Spent() == if o.Done? then 0 else 1
    {
      hide TrailFits, ItemFits, FilesFit, Agrees, FileFits, StatesFit, GrantFits, Troubles;
      o := PutJournal(j);
      if o.Done? {
        :- Fault();
        o := Claim(grant, actor, ApplyOp);
      }
    }

    // Past the two fault points, the status "applying".
    method BeginApplying(j: Journal) returns (o: Outcome)
      requires Good() && Tidy() && disk.journal == Some(j) && j.status == Prepared
      requires disk.approvals[j.approvalId].state == Consumed
      modifies this, destination
      ensures Good() && Tidy() && disk.approvals == old(disk).approvals
      ensures Others(old(disk), old(destination.files), disk.(journal := Some(j)), destination.files)
      ensures disk.journal in {Some(j), Some(j.(status := Applying))}
      ensures o.Done? ==> disk.journal == Some(j.(status := Applying))
      ensures old(disk).fates == [] ==> o == Done
      ensures Spent() == if o.Done? then 0 else 1
    {
      hide TrailFits, ItemFits, FilesFit, Agrees, FileFits, StatesFit, Troubles;
      o := Fault();
      if o.Done? {
        :- Fault();
        ApplyingFits(bundle, disk, destination.files, j);
        o := PutJournal(j.(status := Applying));
      }
    }

    lemma ConsumedGrant()
      requires Good() && disk.journal.Some? && disk.journal.value.status in {Applying, Applied}
      ensures disk.journal.value.CurrentGrant().Some? && disk.journal.value.CurrentGrant().value in disk.approvals
      ensures disk.approvals[disk.journal.value.CurrentGrant().value].state == Consumed
    {
    }

    // The try block of apply together with its handler: a failure restores, and a failing restore takes over.
    method DeliverOrRestore(appliedAt: int) returns (o: Outcome)
      requires Good() && Tidy() && StagedIntact(bundle, disk.staged)
      requires disk.journal.Some? && disk.journal.value.status == Applying
      requires forall p :: p in disk.journal.value.files ==> disk.journal.value.files[p].state == Pending
      modifies this, destination
      ensures Good() && Tidy() && StaysConfined()
      ensures disk.journal.Some? && disk.approvals == old(disk).approvals
      ensures disk.journal.value.approvalId == old(disk).journal.value.approvalId
      ensures o.Done? ==> disk.journal.value.status == Applied
      ensures old(disk).fates == [] && old(AllUntouched()) ==> o == Done
      ensures o.Done? ==> Spent() == 0
      ensures o.Failed? ==> disk.journal.value.status in {Applying, Applied, RollingBack, RolledBack}
      ensures o.Failed? && disk.journal.value.status == RolledBack ==> AllHold(bundle, destination.files, disk.touched, RolledBack)
      ensures o.Failed? && disk.journal.value.status != RolledBack && AllRecoverable() ==> Spent() == 2
      ensures o.Failed? && disk.journal.value.status in {Applying, Applied} ==> Spent() >= if AllUntouched() then 2 else 1
      ensures o.PowerLost? ==> Spent() >= 1
    {
      hide TrailFits, ItemFits, FilesFit, Agrees, FileFits, StatesFit, AllHold, Troubles;
      o := DeliverFiles(appliedAt);
      if o.Failed? {
        ConsumedGrant();
        var restored := Restore();
        if disk.journal.value.status == RolledBack {
          FinalMeansAllOrNothing(bundle, disk, destination.files);
        }
        if !restored.Done? {
          return restored;
        }
      }
    }

    ghost predicate AllPending()
      reads this
    {
      disk.journal.Some? ==> forall p :: p in disk.journal.value.files ==> disk.journal.value.files[p].state == Pending
    }

    // What a failed apply leaves, when so many of its steps did not go well. If it was one step, and nobody interfered,
    // every changed file is original again: nothing was delivered yet, or what was is rolled back. A journal with
    // deliveries survives as applying only if the first write of the restore failed as well.
    ghost predicate FailsClean(spent: int)
      reads this, destination
    {
      && (spent <= 1 && AllRecoverable() ==>
            AllHold(bundle, destination.files, disk.touched, RolledBack)
            && (AllPending() || disk.journal.value.status == RolledBack))
      && (disk.journal.Some? ==> disk.journal.value.status in {Prepared, Applying, Applied, RollingBack, RolledBack})
      && (disk.journal.Some? && disk.journal.value.status in {Applying, Applied} ==>
            AllPending() || spent >= if AllUntouched() then 2 else 1)
    }

    // Backups, the durable intent, the consumption of the grant, and the status "applying".
    method Prepare(grant: Grant, actor: string, originals: map<Path, Option<Content>>) returns (o: Outcome)
      requires Good() && !disk.backupMade && StagedIntact(bundle, disk.staged) && disk.touched == {} && disk.damaged == {}
      requires RecordProblem(disk.approvals, grant, actor, ApplyOp).None?
      requires forall p :: p in bundle.changedFiles ==>
                 p in originals && originals[p] == bundle.Original(p) == Lookup(destination.files, p)
      modifies this, destination
      ensures Good() && Tidy() && disk.staged == old(disk).staged && AllPending()
      ensures OnlyConsumes(old(disk).approvals, disk.approvals) && disk.approvals.Keys == old(disk).approvals.Keys
      ensures forall p :: p !in disk.touched ==> Lookup(destination.files, p) == Lookup(old(destination.files), p)
      ensures disk.journal.Some? ==> disk.journal.value.status in {Prepared, Applying} && disk.journal.value.approvalId == grant.id
      ensures o.Done? ==> disk.journal.Some? && disk.journal.value.status == Applying
      ensures Spent() == if o.Done? then 0 else 1
      ensures old(disk).fates == [] ==> o == Done && disk.fates == [] && disk.touched == {} && disk.damaged == {}
    {
      hide TrailFits, ItemFits, Agrees, FileFits, StatesFit, GrantFits, Troubles;
      o := MakeBackupDirectory();
      if !o.Done? {
        return;
      }
      var items;
      o, items := WriteBackups(originals);
      if !o.Done? {
        return;
      }
      var j := Journal(grant.id, None, items, ApplyOp, Prepared, None);
      PreparedFits(bundle, disk, destination.files, j);
      :- Intend(grant, actor, j);
      o := BeginApplying(j);
    }

    // Past the checks.
    method CarryOutApply(grant: Grant, actor: string, appliedAt: int, originals: map<Path, Option<Content>>) returns (o: Outcome)
      requires Good() && !disk.backupMade && StagedIntact(bundle, disk.staged) && disk.touched == {} && disk.damaged == {}
      requires RecordProblem(disk.approvals, grant, actor, ApplyOp).None?
      requires forall p :: p in bundle.changedFiles ==>
                 p in originals && originals[p] == bundle.Original(p) == Lookup(destination.files, p)
      modifies this, destination
      ensures Good() && Tidy()
      ensures OnlyConsumes(old(disk).approvals, disk.approvals) && disk.approvals.Keys == old(disk).approvals.Keys
      ensures forall p :: p !in disk.touched && (p !in bundle.changedFiles || disk.journal.None?) ==>
                Lookup(destination.files, p) == Lookup(old(destination.files), p)
      ensures old(disk).fates == [] ==> o == Done && disk.fates == [] && disk.touched == {} && disk.damaged == {}
      ensures o.Done? ==>
                disk.journal.Some? && disk.journal.value.status == Applied && disk.journal.value.approvalId == grant.id
      ensures (o.Failed? ==> FailsClean(Spent())) && (o.Done? ==> Spent() == 0) && (o.PowerLost? ==> Spent() >= 1)
    {
      hide TrailFits, ItemFits, Agrees, FileFits, StatesFit, GrantFits, FilesFit, Troubles;
      o := Prepare(grant, actor, originals);
      if o.Done? {
        o := DeliverOrRestore(appliedAt);
      } else {
        assert forall p :: p in bundle.changedFiles && p !in disk.touched ==> HoldsOriginal(bundle, destination.files, p);
      }
    }

    method Apply(grant: Grant, actor: string, now: int, appliedAt: int) returns (o: Outcome)
      requires Good()
      modifies this, destination
      ensures Good() && (old(Tidy()) ==> Tidy())
      ensures OnlyConsumes(old(disk).approvals, disk.approvals) && disk.approvals.Keys == old(disk).approvals.Keys
      ensures old(ApplyProblem(grant, actor, now)).Some? ==>
                && o == Failed(old(ApplyProblem(grant, actor, now)).value)
                && disk == old(disk) && destination.files == old(destination.files)
      ensures !old(MayApply(grant, actor, now)) ==> o.Failed? && disk == old(disk) && destination.files == old(destination.files)
      ensures old(MayApply(grant, actor, now)) && old(disk).fates == [] ==> o == Done
      ensures grant.expiresAt <= now ==> o == Failed(ApprovalExpired)
      ensures old(ApplyProblem(grant, actor, now)).None? ==>
                && Tidy()
                && (forall p :: p !in disk.touched && (p !in bundle.changedFiles || disk.journal.None?) ==>
                      Lookup(destination.files, p) == Lookup(old(destination.files), p))
                && (old(disk).fates == [] ==> o == Done && disk.fates == [] && disk.touched == {} && disk.damaged == {})
      ensures old(ApplyProblem(grant, actor, now)).None? ==>
                && (o.Failed? ==> FailsClean(Spent())) && (o.Done? ==> Spent() == 0) && (o.PowerLost? ==> Spent() >= 1)
      ensures o.Done? ==>
                && disk.journal.Some? && disk.journal.value.status == Applied && disk.journal.value.approvalId == grant.id
                && Sealed(bundle, disk.journal.value)
                && AllHold(bundle, destination.files, disk.touched, Applied)
    {
      hide TrailFits, ItemFits, Agrees, FileFits, StatesFit, GrantFits, Sealed, AllHold, Troubles, MayApply;
      Allowed(grant, actor, now);
      var problem := ApprovalProblem(bundle, grant, now);
      if problem.Some? {
        return Failed(problem.value);
      }
      problem := RecordProblem(disk.approvals, grant, actor, ApplyOp);
      if problem.Some? {
        return Failed(problem.value);
      }
      if !StagedIntact(bundle, disk.staged) {
        return Failed(ArtifactIntegrity);
      }
      if !hasKey {
        return Failed(KeyMissing);
      }
      var conflict, originals := ReadDestination();
      if conflict.Some? {
        return Failed(DestinationConflict(conflict.value));
      }
      if disk.backupMade {
        return Failed(BackupExists);
      }
      disk := disk.(touched := {}, damaged := {});
      o := CarryOutApply(grant, actor, appliedAt, originals);
      if o.Done? {
        FinalMeansAllOrNothing(bundle, disk, destination.files);
      }
    }

    // ---- Undo --------------------------------------------------------------------------------------------------

    function UndoProblem(grant: Grant, actor: string, now: int): Option<Error>
      reads this, destination
    {
      if ApprovalProblem(bundle, grant, now).Some? then ApprovalProblem(bundle, grant, now)
      else if RecordProblem(disk.approvals, grant, actor, UndoOp).Some? then
        RecordProblem(disk.approvals, grant, actor, UndoOp)
      else if disk.journal.None? then Some(JournalMissing)
      else if disk.journal.value.status != Applied then Some(NotApplied)
      else if disk.approvals[grant.id].receipt != disk.journal.value.receipt then Some(ReceiptMismatch)
      else
        var conflict := FirstUndoConflict(bundle, bundle.changedFiles, disk.journal.value.files, destination.files);
        if conflict.Some? then Some(UndoConflict(conflict.value)) else None
    }

    // When undo goes ahead: such a grant for undoing, approved for this very receipt, a journal still applied, and every
    // changed file still holding what was delivered.
    ghost predicate MayUndo(grant: Grant, actor: string, now: int)
      reads this, destination
    {
      && Grants(bundle, disk.approvals, grant, actor, UndoOp, now)
      && disk.journal.Some? && disk.journal.value.status == Applied
      && disk.approvals[grant.id].receipt == disk.journal.value.receipt
      && (forall p :: p in bundle.changedFiles ==> Lookup(destination.files, p) == bundle.Payload(p))
    }

    lemma UndoAllowed(grant: Grant, actor: string, now: int)
      requires Good()
      ensures MayUndo(grant, actor, now) <==> UndoProblem(grant, actor, now).None?
    {
      hide TrailFits, FilesFit, StatesFit, GrantFits, ApprovalProblem, RecordProblem;
      GrantsExactly(bundle, disk.approvals, grant, actor, UndoOp, now);
      if disk.journal.Some? {
        NoUndoConflict(bundle, disk, destination.files);
      }
    }

    // Past the checks: the durable intent, the consumption of the grant, and the restore.
    method CarryOutUndo(grant: Grant, actor: string) returns (o: Outcome)
      requires Good() && disk.journal.Some? && disk.journal.value.status == Applied && disk.touched == {}
      requires RecordProblem(disk.approvals, grant, actor, UndoOp).None?
      requires forall p :: p in bundle.changedFiles ==> HoldsPayload(bundle, destination.files, p)
      modifies this, destination
      ensures Good() && Tidy() && StaysConfined() && disk.journal.Some?
      ensures OnlyConsumes(old(disk).approvals, disk.approvals) && disk.approvals.Keys == old(disk).approvals.Keys
      ensures old(disk).fates == [] && (forall p :: p in bundle.changedFiles ==> p !in old(disk).damaged) ==>
                o == Done && disk.fates == [] && disk.touched == {}
      ensures o.Done? ==> disk.journal.value.status == RolledBack && Spent() == 0
      ensures !o.Done? && AllRecoverable() ==> Spent() == 1
    {
      hide TrailFits, ItemFits, Agrees, FileFits, Troubles;
      UndoingFits(bundle, disk, destination.files, disk.journal.value, grant.id);
      var j := disk.journal.value.(operation := UndoOp, status := Undoing, undoApprovalId := Some(grant.id));
      hide FilesFit, StatesFit, MayFollow, Disciplined;
      o := PutJournal(j);
      if o.Done? {
        :- Fault();
        :- Claim(grant, actor, UndoOp);
        :- Fault();
        ghost var before, files := disk, destination.files;
        assert StaysConfined();
        hide Others, Confined, HoldsPayload;
        o := Restore();
        ConfinedTransitive(bundle, old(disk), old(destination.files), before, files, disk, destination.files);
      }
    }

    method Undo(grant: Grant, actor: string, now: int) returns (o: Outcome)
      requires Good()
      modifies this, destination
      ensures Good() && (old(Tidy()) ==> Tidy())
      ensures OnlyConsumes(old(disk).approvals, disk.approvals) && disk.approvals.Keys == old(disk).approvals.Keys
      ensures old(UndoProblem(grant, actor, now)).Some? ==>
                && o == Failed(old(UndoProblem(grant, actor, now)).value)
                && disk == old(disk) && destination.files == old(destination.files)
      ensures !old(MayUndo(grant, actor, now)) ==> o.Failed? && disk == old(disk) && destination.files == old(destination.files)
      ensures grant.expiresAt <= now ==> o == Failed(ApprovalExpired)
      ensures old(UndoProblem(grant, actor, now)).None? ==>
                && Tidy()
                && (forall p :: p !in disk.touched && p !in bundle.changedFiles ==>
                      Lookup(destination.files, p) == Lookup(old(destination.files), p))
                && (old(disk).fates == [] && (forall p :: p in bundle.changedFiles ==> p !in old(disk).damaged) ==>
                      o == Done && disk.fates == [] && disk.touched == {})
      ensures o.Done? ==>
                && disk.journal.Some? && disk.journal.value.status == RolledBack
                && AllHold(bundle, destination.files, disk.touched, RolledBack)
      ensures old(UndoProblem(grant, actor, now)).None? && Spent() == 0 && AllRecoverable() ==> o == Done
    {
      hide TrailFits, ItemFits, Agrees, FileFits, Troubles;
      UndoAllowed(grant, actor, now);
      hide MayUndo;
      var problem := UndoProblem(grant, actor, now);
      if problem.Some? {
        return Failed(problem.value);
      }
      disk := disk.(touched := {});
      NoUndoConflict(bundle, disk, destination.files);
      o := CarryOutUndo(grant, actor);
      if o.Done? {
        FinalMeansAllOrNothing(bundle, disk, destination.files);
      }
    }

    // ---- Recover -----------------------------------------------------------------------------------------------

    // _consume_approval: an unusable record is passed over.
    method ConsumeIfApproved(id: GrantId, op: Operation) returns (o: Outcome)
      requires Good()
      modifies this, destination
      ensures Good() && (old(Tidy()) ==> Tidy())
      ensures OnlyConsumes(old(disk).approvals, disk.approvals) && disk.approvals.Keys == old(disk).approvals.Keys
      ensures Others(old(disk), old(destination.files),
                     disk.(approvals := old(disk).approvals, log := old(disk).log), destination.files)
      ensures o.Done? && id in old(disk).approvals && old(disk).approvals[id].operation == op ==>
                disk.approvals[id].state == Consumed
      ensures o.Failed? ==> o.error == SystemError
      ensures old(disk).fates == [] ==> o == Done
      ensures Spent() == if o.Done? then 0 else 1
    {
      hide Troubles;
      o := Done;
      if id in disk.approvals && disk.approvals[id].operation == op && disk.approvals[id].state == Approved {
        o := Consume(id);
      }
    }

    // The grant of the journalled operation is consumed before anything is restored.
    method RollBack() returns (o: Outcome)
      requires Good() && disk.journal.Some?
      modifies this, destination
      ensures Good() && (old(Tidy()) ==> Tidy()) && StaysConfined()
      ensures OnlyConsumes(old(disk).approvals, disk.approvals) && disk.approvals.Keys == old(disk).approvals.Keys
      ensures disk.journal.Some? && disk.journal.value.operation == old(disk).journal.value.operation
      ensures o.Done? ==> disk.journal.value.status == RolledBack
      ensures o.Failed? && o.error.RecoveryConflict? && old(Tidy()) ==> !AllUntouched()
      ensures old(disk).fates == [] && old(Tidy()) && old(AllRecoverable()) ==> o == Done
      ensures 0 <= Spent() && (Spent() == 0 && old(Tidy()) && AllRecoverable() ==> o == Done)
    {
      hide TrailFits, ItemFits, Agrees, FileFits, FilesFit, StatesFit, OnlyConsumes, Troubles;
      var g := disk.journal.value.CurrentGrant();
      :- ConsumeIfApproved(g.value, disk.journal.value.operation);
      o := Restore();
    }

    method Recover() returns (o: Outcome)
      requires Good()
      modifies this, destination
      ensures Good() && (old(Tidy()) ==> Tidy()) && StaysConfined()
      ensures OnlyConsumes(old(disk).approvals, disk.approvals) && disk.approvals.Keys == old(disk).approvals.Keys
      ensures old(disk).journal.None? ==>
                o == Failed(JournalMissing) && disk == old(disk) && destination.files == old(destination.files)
      ensures old(disk).journal.Some? && old(disk).journal.value.status in {Applied, RolledBack} ==>
                o == Done && disk == old(disk) && destination.files == old(destination.files)
      ensures old(disk).journal.Some? ==> disk.journal.Some? && disk.journal.value.operation == old(disk).journal.value.operation
      ensures o.Done? ==>
                && disk.journal.Some? && disk.journal.value.status in {Applied, RolledBack}
                && (old(Tidy()) ==> AllHold(bundle, destination.files, disk.touched, disk.journal.value.status))
      ensures o.Failed? && o.error.RecoveryConflict? && old(Tidy()) ==> !AllUntouched()
      ensures old(disk).fates == [] && old(disk).journal.Some? && old(Tidy()) && old(AllRecoverable()) ==> o == Done
      ensures old(disk).journal.Some? && Spent() == 0 && old(Tidy()) && AllRecoverable() ==> o == Done
    {
      hide TrailFits, ItemFits, Agrees, FileFits, OnlyConsumes, FilesFit, StatesFit, GrantFits, AllHold, Troubles;
      ApprovalsStay(disk.approvals);
      if disk.journal.None? {
        return Failed(JournalMissing);
      }
      if disk.journal.value.status !in {Applied, RolledBack} {
        :- RollBack();
      }
      if Tidy() {
        FinalMeansAllOrNothing(bundle, disk, destination.files);
      }
      o := Done;
    }

    // ---- Approvals ---------------------------------------------------------------------------------------------

    function GrantFor(id: GrantId, now: int, ttl: int): Grant {
      Grant(id, bundle.runId, bundle.id, bundle.destination, bundle.manifest, bundle.changedFiles, now + ttl)
    }

    // Shared tail of approve and approve_undo: one durable record under a fresh identifier.
    method PutRecord(record: ApprovalRecord) returns (o: Outcome)
      requires Good() && record.grant.id !in disk.approvals && record.state == Approved
      modifies this, destination
      ensures Good() && (old(Tidy()) ==> Tidy())
      ensures OnlyConsumes(old(disk).approvals, disk.approvals)
      ensures Others(old(disk), old(destination.files), disk.(approvals := old(disk).approvals), destination.files)
      ensures disk.approvals in {old(disk).approvals, old(disk).approvals[record.grant.id := record]}
      ensures o.Done? ==> disk.approvals == old(disk).approvals[record.grant.id := record]
      ensures old(disk).fates == [] ==> o == Done
      ensures Spent() == if o.Done? then 0 else 1
      ensures o.Failed? ==> o.error == SystemError
    {
      hide Troubles, ItemFits, FilesFit, StatesFit;
      var weather := Tick();
      OthersKeep(bundle, old(disk), old(destination.files), disk, destination.files);
      if Written(weather) {
        disk := disk.(approvals := disk.approvals[record.grant.id := record]);
      }
      o := Ending(weather);
    }

    // What str.strip removes.
    static predicate White(c: char) {
      var n := c as int;
      || 0x09 <= n <= 0x0D || 0x1C <= n <= 0x20 || n in {0x85, 0xA0, 0x1680} || 0x2000 <= n <= 0x200A
      || n in {0x2028, 0x2029, 0x202F, 0x205F, 0x3000}
    }

    static predicate Blank(s: string) {
      forall i :: 0 <= i < |s| ==> White(s[i])
    }

    method Approve(id: GrantId, actor: string, now: int, ttl: int) returns (o: Outcome)
      requires Good() && id !in disk.approvals
      modifies this, destination
      ensures Good() && (old(Tidy()) ==> Tidy())
      ensures OnlyConsumes(old(disk).approvals, disk.approvals)
      ensures Others(old(disk), old(destination.files), disk.(approvals := old(disk).approvals), destination.files)
      ensures Blank(actor) || ttl <= 0 ==>
                o == Failed(if Blank(actor) then ActorRequired else TtlNotPositive) && disk == old(disk)
      ensures o.Done? ==>
                disk.approvals == old(disk).approvals[id := ApprovalRecord(actor, GrantFor(id, now, ttl), ApplyOp, Approved, None)]
      ensures o.Done? && ttl > 0 ==> Grants(bundle, disk.approvals, disk.approvals[id].grant, actor, ApplyOp, now)
      ensures o.Done? ==> disk.approvals[id].grant.expiresAt == now + ttl
      ensures !Blank(actor) && ttl > 0 && old(disk).fates == [] ==> o == Done
      ensures (exists i :: 0 <= i < |actor| && '!' <= actor[i] <= '~') ==> o != Failed(ActorRequired)
      ensures actor == "" || actor == " " || actor == "\t\n" ==> o == Failed(ActorRequired)
    {
      if Blank(actor) {
        return Failed(ActorRequired);
      }
      if ttl <= 0 {
        return Failed(TtlNotPositive);
      }
      o := PutRecord(ApprovalRecord(actor, GrantFor(id, now, ttl), ApplyOp, Approved, None));
    }

    method ApproveUndo(id: GrantId, actor: string, now: int, ttl: int) returns (o: Outcome)
      requires Good() && id !in disk.approvals
      modifies this, destination
      ensures Good() && (old(Tidy()) ==> Tidy())
      ensures OnlyConsumes(old(disk).approvals, disk.approvals)
      ensures Others(old(disk), old(destination.files), disk.(approvals := old(disk).approvals), destination.files)
      ensures o.Done? ==>
                && old(disk).journal.Some? && old(disk).journal.value.status == Applied
                && disk.approvals == old(disk).approvals[id :=
                     ApprovalRecord(actor, GrantFor(id, now, ttl), UndoOp, Approved, old(disk).journal.value.receipt)]
      ensures o.Done? && ttl > 0 ==> Grants(bundle, disk.approvals, disk.approvals[id].grant, actor, UndoOp, now)
      ensures o.Done? ==> disk.approvals[id].grant.expiresAt == now + ttl
      ensures !Blank(actor) && ttl > 0 && old(disk).fates == [] && old(disk).journal.Some? ==>
                if old(disk).journal.value.status == Applied then o == Done else o == Failed(NotApplied) && disk == old(disk)
      ensures (exists i :: 0 <= i < |actor| && '!' <= actor[i] <= '~') ==> o != Failed(ActorRequired)
      ensures actor == "" || actor == " " || actor == "\t\n" ==> o == Failed(ActorRequired)
    {
      if Blank(actor) {
        return Failed(ActorRequired);
      }
      if ttl <= 0 {
        return Failed(TtlNotPositive);
      }
      if disk.journal.None? {
        return Failed(JournalMissing);
      }
      if disk.journal.value.status != Applied || disk.journal.value.receipt.None? {
        return Failed(NotApplied);
      }
      o := PutRecord(ApprovalRecord(actor, GrantFor(id, now, ttl), UndoOp, Approved, disk.journal.value.receipt));
    }
  }
}
