// Crash-recoverable delivery (corvus/delivery.py).
//
// One DeliveryManager object is everything the disk holds for one bundle: its approval records, its encrypted
// backups and its journal. The destination tree is a separate object, so that several bundles can share it.
// Every durable write is one atomic step and draws a Fate first: the power may fail before the step, the step may
// raise, or it may take effect and then raise. The same Fate carries edits other processes made in the meantime.
module DeliveryState {
  import opened Common

  type Path = string
  type Content = string
  type GrantId = nat

  // SHA-256 as an abstract injective function: a digest is determined by, and determines, what was hashed.
  datatype Digest = Sha256(content: Content)

  // Fernet encryption under the backup key; decrypting gives the plaintext back.
  datatype Cipher = Fernet(plain: Content)
  datatype CipherDigest = Sha256OfCipher(cipher: Cipher)

  function DigestOf(content: Option<Content>): Option<Digest> {
    if content.Some? then Some(Sha256(content.value)) else None
  }

  datatype Bundle = Bundle(
    id: nat, runId: nat, destination: string, manifest: string,
    changedFiles: seq<Path>,
    baseline: map<Path, Option<Digest>>,
    artifacts: map<Path, Digest>)
  {
    // package() lists distinct sorted names and hashes and stages every one of them.
    ghost predicate WellFormed() {
      && (forall i, j :: 0 <= i < j < |changedFiles| ==> changedFiles[i] != changedFiles[j])
      && (forall p :: p in changedFiles ==> p in baseline && p in artifacts)
    }

    // The content (or absence) the bundle was prepared against, and the content it delivers.
    ghost function Original(p: Path): Option<Content> {
      if p in baseline && baseline[p].Some? then Some(baseline[p].value.content) else None
    }

    ghost function Payload(p: Path): Option<Content> {
      if p in artifacts then Some(artifacts[p].content) else None
    }
  }

  datatype Operation = ApplyOp | UndoOp
  datatype Grant = Grant(
    id: GrantId, runId: nat, bundleId: nat, destination: string, manifest: string,
    approvedFiles: seq<Path>, expiresAt: int)

  datatype GrantState = Approved | Consumed
  datatype ApprovalRecord = ApprovalRecord(
    actor: string, grant: Grant, operation: Operation, state: GrantState, receipt: Option<Receipt>)

  datatype ItemState = Pending | Writing | Delivered | Restored
  datatype Item = Item(
    backupDigest: Option<CipherDigest>, baseline: Option<Digest>, delivered: Digest, existed: bool, state: ItemState)

  datatype Status = Prepared | Applying | Applied | Undoing | RollingBack | RolledBack

  // The digest of the receipt body, again injective.
  datatype Receipt = ReceiptOf(approvalId: GrantId, appliedAt: int, bundleId: nat, files: map<Path, Item>, manifest: string)

  datatype Journal = Journal(
    approvalId: GrantId, undoApprovalId: Option<GrantId>, files: map<Path, Item>,
    operation: Operation, status: Status, receipt: Option<Receipt>)
  {
    // The grant that recovery consumes for the journalled operation.
    function CurrentGrant(): Option<GrantId> {
      if operation == UndoOp then undoApprovalId else Some(approvalId)
    }

    function WithState(p: Path, s: ItemState): Journal
      requires p in files
    {
      this.(files := files[p := files[p].(state := s)])
    }
  }

  datatype Error =
    | ApprovalExpired | ApprovalNotBound | ApprovalRecordMissing | ActorMismatch | OperationMismatch | AlreadyConsumed
    | ActorRequired | TtlNotPositive
    | ArtifactIntegrity | KeyMissing | DestinationConflict(p: Path) | BackupExists | DeliveredIntegrity(p: Path)
    | JournalMissing | NotApplied | ReceiptMismatch | UndoConflict(p: Path)
    | RecoveryConflict(p: Path) | CheckpointDamaged(p: Path) | SystemError

  // How a call ends. PowerLost stands for a crash: nothing more of the call happens.
  datatype Outcome = Done | Failed(error: Error) | PowerLost {
    predicate IsFailure() {
      !Done?
    }

    function PropagateFailure(): Outcome {
      this
    }
  }

  datatype Weather = Fine | Raises | RaisesAfter | PowerFails
  datatype Fate = Fate(weather: Weather, edits: map<Path, Option<Content>>, damage: map<Path, Option<Cipher>>)

  // How many of these steps do not go well.
  ghost function Troubles(fates: seq<Fate>): nat {
    if fates == [] then 0 else Troubles(fates[1..]) + if fates[0].weather == Fine then 0 else 1
  }

  // What a step did, in order: the audit trail on which the approval discipline is stated.
  datatype Effect =
    | BackupMade
    | GrantConsumed(id: GrantId, operation: Operation)
    | FileDelivered(p: Path, grant: GrantId, after: Option<Content>)
    | FileRestored(p: Path, grant: GrantId, operation: Operation, before: Option<Content>, after: Option<Content>)

  ghost predicate MayFollow(bundle: Bundle, log: seq<Effect>, e: Effect) {
    match e
    case BackupMade => BackupMade !in log
    case GrantConsumed(id, _) => forall op :: GrantConsumed(id, op) !in log
    case FileDelivered(p, g, after) =>
      GrantConsumed(g, ApplyOp) in log && after == bundle.Payload(p)
    case FileRestored(p, g, op, before, after) =>
      && GrantConsumed(g, op) in log
      && before in {bundle.Original(p), bundle.Payload(p)}
      && after == bundle.Original(p)
  }

  // Every effect is permitted by the effects before it.
  ghost predicate Disciplined(bundle: Bundle, log: seq<Effect>) {
    forall i :: 0 <= i < |log| ==> MayFollow(bundle, log[..i], log[i])
  }

  lemma Append(bundle: Bundle, log: seq<Effect>, e: Effect)
    requires Disciplined(bundle, log) && MayFollow(bundle, log, e)
    ensures Disciplined(bundle, log + [e])
  {
    var longer := log + [e];
    forall i | 0 <= i < |longer| ensures MayFollow(bundle, longer[..i], longer[i]) {
      assert longer[..i] == log[..i];
      assert i == |log| ==> log[..i] == log;
    }
  }

  // A disciplined trail consumes a grant at most once, passes backup creation at most once, and writes the
  // destination only after the grant of the same operation was consumed; restoring never overwrites a file that
  // holds neither its baseline nor its delivered content.
  lemma DisciplineMeans(bundle: Bundle, log: seq<Effect>, i: nat, j: nat)
    requires Disciplined(bundle, log) && i < |log| && j < |log|
    ensures log[i].GrantConsumed? && log[j].GrantConsumed? && log[i].id == log[j].id ==> i == j
    ensures log[i].BackupMade? && log[j].BackupMade? ==> i == j
    ensures log[i].FileDelivered? ==> exists k :: 0 <= k < i && log[k] == GrantConsumed(log[i].grant, ApplyOp)
    ensures log[i].FileRestored? ==>
              && (exists k :: 0 <= k < i && log[k] == GrantConsumed(log[i].grant, log[i].operation))
              && log[i].before in {bundle.Original(log[i].p), bundle.Payload(log[i].p)}
  {
    assert MayFollow(bundle, log[..i], log[i]) && MayFollow(bundle, log[..j], log[j]);
    if i < j {
      assert log[..j][i] == log[i];
    } else if j < i {
      assert log[..i][j] == log[j];
    }
    if log[i].FileDelivered? {
      var k :| 0 <= k < |log[..i]| && log[..i][k] == GrantConsumed(log[i].grant, ApplyOp);
      assert log[k] == log[..i][k];
    } else if log[i].FileRestored? {
      var k :| 0 <= k < |log[..i]| && log[..i][k] == GrantConsumed(log[i].grant, log[i].operation);
      assert log[k] == log[..i][k];
    }
  }

  // ---- Checks that decide before anything is written -----------------------------------------------------------

  function ApprovalProblem(bundle: Bundle, grant: Grant, now: int): Option<Error> {
    if grant.expiresAt <= now then Some(ApprovalExpired)
    else if
      || grant.runId != bundle.runId || grant.bundleId != bundle.id
      || grant.destination != bundle.destination || grant.manifest != bundle.manifest
      || multiset(grant.approvedFiles) != multiset(bundle.changedFiles)
    then Some(ApprovalNotBound)
    else None
  }

  function RecordProblem(approvals: map<GrantId, ApprovalRecord>, grant: Grant, actor: string, op: Operation): Option<Error> {
    if grant.id !in approvals then Some(ApprovalRecordMissing)
    else
      var record := approvals[grant.id];
      if record.grant != grant then Some(ApprovalNotBound)
      else if record.actor != actor then Some(ActorMismatch)
      else if record.operation != op then Some(OperationMismatch)
      else if record.state != Approved then Some(AlreadyConsumed)
      else None
  }

  // Every changed file's staged artifact is there and hashes to what the manifest lists.
  predicate StagedIntact(bundle: Bundle, staged: map<Path, Content>)
  {
    forall p :: p in bundle.changedFiles ==> p in staged && p in bundle.artifacts && Sha256(staged[p]) == bundle.artifacts[p]
  }

  function FirstConflict(bundle: Bundle, paths: seq<Path>, files: map<Path, Content>): (r: Option<Path>)
    requires forall p :: p in paths ==> p in bundle.baseline
    ensures r.Some? ==> r.value in paths && DigestOf(Lookup(files, r.value)) != bundle.baseline[r.value]
    ensures r.None? ==> forall p :: p in paths ==> DigestOf(Lookup(files, p)) == bundle.baseline[p]
  {
    if paths == [] then None
    else if DigestOf(Lookup(files, paths[0])) != bundle.baseline[paths[0]] then Some(paths[0])
    else FirstConflict(bundle, paths[1..], files)
  }

  lemma NoConflict(bundle: Bundle, files: map<Path, Content>)
    requires bundle.WellFormed()
    ensures FirstConflict(bundle, bundle.changedFiles, files).None? <==>
            forall p :: p in bundle.changedFiles ==> Lookup(files, p) == bundle.Original(p)
  {
    assert forall p :: p in bundle.changedFiles ==>
             (Lookup(files, p) == bundle.Original(p) <==> DigestOf(Lookup(files, p)) == bundle.baseline[p]);
  }

  // A grant record only ever moves from approved to consumed; everything else about it is fixed for good.
  ghost predicate OnlyConsumes(before: map<GrantId, ApprovalRecord>, after: map<GrantId, ApprovalRecord>) {
    && before.Keys <= after.Keys
    && forall g :: g in before ==>
      && after[g].(state := Approved) == before[g].(state := Approved)
      && (before[g].state == Consumed ==> after[g].state == Consumed)
  }

  lemma ApprovalsStay(approvals: map<GrantId, ApprovalRecord>)
    ensures OnlyConsumes(approvals, approvals)
  {
  }

  // ---- What the disk always satisfies, whatever happens to the destination --------------------------------------

  ghost predicate ItemFits(bundle: Bundle, backups: map<Path, Cipher>, damaged: set<Path>, p: Path, item: Item) {
    && item.baseline == DigestOf(bundle.Original(p))
    && Some(item.delivered) == DigestOf(bundle.Payload(p))
    && item.existed == bundle.Original(p).Some?
    && (item.existed ==>
      var cipher := Fernet(bundle.Original(p).value);
      item.backupDigest == Some(Sha256OfCipher(cipher)) && (p !in damaged ==> Lookup(backups, p) == Some(cipher)))
  }

  // The receipt seals exactly this journal of this bundle.
  predicate Sealed(bundle: Bundle, j: Journal) {
    j.receipt.Some? && j.receipt.value == ReceiptOf(j.approvalId, j.receipt.value.appliedAt, bundle.id, j.files, bundle.manifest)
  }

  ghost predicate StatesFit(bundle: Bundle, j: Journal) {
    match j.status
    case Prepared => j.operation == ApplyOp && forall p :: p in j.files ==> j.files[p].state == Pending
    case Applying => j.operation == ApplyOp && forall p :: p in j.files ==> j.files[p].state != Restored
    case Applied =>
      && j.operation == ApplyOp && Sealed(bundle, j)
      && forall p :: p in j.files ==> j.files[p].state == Delivered
    case Undoing => j.operation == UndoOp && forall p :: p in j.files ==> j.files[p].state == Delivered
    case RollingBack => true
    case RolledBack => forall p :: p in j.files ==> j.files[p].state in {Pending, Restored}
  }

  // The journalled operation has a grant of its own kind, consumed in every status but the two intents.
  ghost predicate GrantFits(approvals: map<GrantId, ApprovalRecord>, j: Journal) {
    && j.CurrentGrant().Some?
    && j.CurrentGrant().value in approvals
    && approvals[j.CurrentGrant().value].operation == j.operation
    && (j.status !in {Prepared, Undoing} ==> approvals[j.CurrentGrant().value].state == Consumed)
  }

  ghost predicate FilesFit(bundle: Bundle, backups: map<Path, Cipher>, damaged: set<Path>, files: map<Path, Item>) {
    && (forall p :: p in files <==> p in bundle.changedFiles)
    && (forall p :: p in files ==> ItemFits(bundle, backups, damaged, p, files[p]))
  }

  // The trail and the approval records tell the same story.
  ghost predicate TrailFits(bundle: Bundle, log: seq<Effect>, approvals: map<GrantId, ApprovalRecord>, backupMade: bool) {
    && Disciplined(bundle, log)
    && (backupMade <==> BackupMade in log)
    && (forall g :: g in approvals ==> approvals[g].grant.id == g)
    && (forall g, op :: GrantConsumed(g, op) in log <==>
          g in approvals && approvals[g].state == Consumed && approvals[g].operation == op)
  }

  lemma ConsumeInTrail(bundle: Bundle, log: seq<Effect>, approvals: map<GrantId, ApprovalRecord>, backupMade: bool, id: GrantId)
    requires TrailFits(bundle, log, approvals, backupMade) && id in approvals && approvals[id].state == Approved
    ensures TrailFits(bundle, log + [GrantConsumed(id, approvals[id].operation)],
                      approvals[id := approvals[id].(state := Consumed)], backupMade)
  {
    var e := GrantConsumed(id, approvals[id].operation);
    Append(bundle, log, e);
    forall x ensures x in log + [e] <==> x in log || x == e {}
  }

  lemma WriteInTrail(bundle: Bundle, log: seq<Effect>, approvals: map<GrantId, ApprovalRecord>, backupMade: bool, e: Effect)
    requires TrailFits(bundle, log, approvals, backupMade) && MayFollow(bundle, log, e) && !e.GrantConsumed?
    ensures TrailFits(bundle, log + [e], approvals, backupMade || e.BackupMade?)
  {
    Append(bundle, log, e);
    forall x ensures x in log + [e] <==> x in log || x == e {}
  }

  // ---- What holds of a destination file nobody else has edited ---------------------------------------------------

  ghost predicate HoldsOriginal(bundle: Bundle, files: map<Path, Content>, p: Path) {
    Lookup(files, p) == bundle.Original(p)
  }

  ghost predicate HoldsPayload(bundle: Bundle, files: map<Path, Content>, p: Path) {
    Lookup(files, p) == bundle.Payload(p)
  }

  ghost predicate FileFits(bundle: Bundle, files: map<Path, Content>, p: Path, state: ItemState, status: Status) {
    match state
    case Pending => HoldsOriginal(bundle, files, p)
    case Writing => HoldsOriginal(bundle, files, p) || HoldsPayload(bundle, files, p)
    case Delivered =>
      HoldsPayload(bundle, files, p) || (status == RollingBack && HoldsOriginal(bundle, files, p))
    case Restored => HoldsOriginal(bundle, files, p)
  }

  // ---- The disk of one bundle ------------------------------------------------------------------------------------

  // What the bundle and backup directories hold, and the environment's script for the durable steps to come.
  // The last three fields record what happened: destination paths and backup files somebody else has edited since
  // the running operation checked them, and the trail of the manager's own effects.
  datatype Disk = Disk(
    staged: map<Path, Content>, approvals: map<GrantId, ApprovalRecord>,
    backupMade: bool, backups: map<Path, Cipher>, journal: Option<Journal>,
    fates: seq<Fate>, touched: set<Path>, damaged: set<Path>, log: seq<Effect>)

  ghost predicate JournalFits(bundle: Bundle, d: Disk, j: Journal) {
    FilesFit(bundle, d.backups, d.damaged, j.files) && StatesFit(bundle, j) && GrantFits(d.approvals, j)
  }

  // Holds of the disk at every instant, whatever anybody does to the destination.
  ghost predicate Valid(bundle: Bundle, d: Disk) {
    && bundle.WellFormed()
    && TrailFits(bundle, d.log, d.approvals, d.backupMade)
    && (d.journal.Some? ==> d.backupMade && JournalFits(bundle, d, d.journal.value))
  }

  ghost predicate Agrees(bundle: Bundle, d: Disk, files: map<Path, Content>, j: Journal) {
    forall p :: p in j.files && p !in d.touched ==> FileFits(bundle, files, p, j.files[p].state, j.status)
  }

  // The files nobody else has edited are where the journal says they are.
  ghost predicate Clean(bundle: Bundle, d: Disk, files: map<Path, Content>) {
    d.journal.Some? ==> Agrees(bundle, d, files, d.journal.value)
  }

  // From (d, files) to (d', files') everything that changed is the work of somebody else.
  ghost predicate Others(d: Disk, files: map<Path, Content>, d': Disk, files': map<Path, Content>) {
    && d' == d.(backups := d'.backups, fates := d'.fates, touched := d'.touched, damaged := d'.damaged)
    && d.touched <= d'.touched && d.damaged <= d'.damaged
    && (forall p :: p !in d'.touched ==> Lookup(files', p) == Lookup(files, p))
    && (forall p :: p !in d'.damaged ==> Lookup(d'.backups, p) == Lookup(d.backups, p))
    && (d.fates == [] ==> d' == d && files' == files)
  }

  // Outside the bundle's files, and while the environment is silent, nothing changes but by this manager.
  ghost predicate Confined(bundle: Bundle, d: Disk, files: map<Path, Content>, d': Disk, files': map<Path, Content>) {
    && d'.staged == d.staged
    && d.touched <= d'.touched
    && (forall p :: p !in d'.touched && p !in bundle.changedFiles ==> Lookup(files', p) == Lookup(files, p))
    && (d.fates == [] ==> d'.fates == [] && d'.touched == d.touched && d'.damaged == d.damaged)
  }

  lemma ConfinedTransitive(bundle: Bundle, d: Disk, files: map<Path, Content>, d': Disk, files': map<Path, Content>, d'': Disk, files'': map<Path, Content>)
    requires Confined(bundle, d, files, d', files') && Confined(bundle, d', files', d'', files'')
    ensures Confined(bundle, d, files, d'', files'')
  {
  }

  lemma StagedStays(bundle: Bundle, d: Disk, files: map<Path, Content>, d': Disk, files': map<Path, Content>)
    requires Confined(bundle, d, files, d', files')
    ensures d'.staged == d.staged && (d.fates == [] ==> d'.fates == [] && d'.touched == d.touched)
  {
  }

  lemma OthersConfined(bundle: Bundle, d: Disk, files: map<Path, Content>, d': Disk, files': map<Path, Content>)
    requires Others(d, files, d', files')
    ensures Confined(bundle, d, files, d', files')
  {
  }

  lemma RestoreConfined(bundle: Bundle, d: Disk, files: map<Path, Content>, log: seq<Effect>, p: Path, content: Option<Content>)
    requires p in bundle.changedFiles
    ensures Confined(bundle, d, files, d.(log := log), Overwrite(files, map[p := content]))
    ensures Confined(bundle, d, files, d, files)
  {
  }

  lemma OthersKeepJournal(bundle: Bundle, d: Disk, files: map<Path, Content>, d': Disk, files': map<Path, Content>, j: Journal)
    requires Others(d, files, d', files') && JournalFits(bundle, d, j)
    ensures JournalFits(bundle, d', j)
    ensures Agrees(bundle, d, files, j) ==> Agrees(bundle, d', files', j)
  {
    forall p | p in j.files ensures ItemFits(bundle, d'.backups, d'.damaged, p, j.files[p]) {
      assert ItemFits(bundle, d.backups, d.damaged, p, j.files[p]);
      assert p !in d'.damaged ==> Lookup(d'.backups, p) == Lookup(d.backups, p);
    }
    if Agrees(bundle, d, files, j) {
      forall p | p in j.files && p !in d'.touched
        ensures FileFits(bundle, files', p, j.files[p].state, j.status)
      {
        assert FileFits(bundle, files, p, j.files[p].state, j.status);
        assert Lookup(files', p) == Lookup(files, p);
      }
    }
  }

  // Edits by others leave both invariants standing: they only shrink what is claimed.
  lemma OthersKeep(bundle: Bundle, d: Disk, files: map<Path, Content>, d': Disk, files': map<Path, Content>)
    requires Valid(bundle, d) && Others(d, files, d', files')
    ensures Valid(bundle, d')
    ensures Clean(bundle, d, files) ==> Clean(bundle, d', files')
  {
    if d.journal.Some? {
      OthersKeepJournal(bundle, d, files, d', files', d.journal.value);
    }
  }

  // Replacing a file announced as "writing" by its payload keeps both invariants.
  lemma DeliverKeeps(bundle: Bundle, d: Disk, files: map<Path, Content>, p: Path)
    requires Valid(bundle, d) && Clean(bundle, d, files) && p in bundle.changedFiles
    requires d.journal.Some? && d.journal.value.status == Applying && d.journal.value.files[p].state == Writing
    ensures bundle.Payload(p).Some?
    ensures
      var d' := d.(log := d.log + [FileDelivered(p, d.journal.value.approvalId, bundle.Payload(p))]);
      Valid(bundle, d') && Clean(bundle, d', files[p := bundle.Payload(p).value])
  {
    WriteInTrail(bundle, d.log, d.approvals, d.backupMade, FileDelivered(p, d.journal.value.approvalId, bundle.Payload(p)));
    var files' := files[p := bundle.Payload(p).value];
    forall q | q in d.journal.value.files && q !in d.touched
      ensures FileFits(bundle, files', q, d.journal.value.files[q].state, Applying)
    {
      assert FileFits(bundle, files, q, d.journal.value.files[q].state, Applying);
      assert q != p ==> Lookup(files', q) == Lookup(files, q);
    }
  }

  // Putting a file that holds its baseline or its payload back to the baseline keeps both invariants.
  lemma RestoreKeeps(bundle: Bundle, d: Disk, files: map<Path, Content>, p: Path, g: GrantId)
    requires Valid(bundle, d) && p in bundle.changedFiles
    requires d.journal.Some? && d.journal.value.status == RollingBack && d.journal.value.CurrentGrant() == Some(g)
    requires d.journal.value.files[p].state != Pending
    requires Lookup(files, p) in {bundle.Original(p), bundle.Payload(p)}
    ensures
      var d' := d.(log := d.log + [FileRestored(p, g, d.journal.value.operation, Lookup(files, p), bundle.Original(p))]);
      var files' := Overwrite(files, map[p := bundle.Original(p)]);
      Valid(bundle, d') && (Clean(bundle, d, files) ==> Clean(bundle, d', files'))
  {
    WriteInTrail(bundle, d.log, d.approvals, d.backupMade,
                 FileRestored(p, g, d.journal.value.operation, Lookup(files, p), bundle.Original(p)));
    var files' := Overwrite(files, map[p := bundle.Original(p)]);
    if Clean(bundle, d, files) {
      forall q | q in d.journal.value.files && q !in d.touched
        ensures FileFits(bundle, files', q, d.journal.value.files[q].state, RollingBack)
      {
        assert FileFits(bundle, files, q, d.journal.value.files[q].state, RollingBack);
        assert q != p ==> Lookup(files', q) == Lookup(files, q);
      }
    }
  }

  // Journalling a new state for one file.
  lemma MoveFits(bundle: Bundle, d: Disk, j: Journal, p: Path, state: ItemState)
    requires JournalFits(bundle, d, j) && p in j.files
    requires j.status == RollingBack || (j.status == Applying && state != Restored)
    ensures JournalFits(bundle, d, j.WithState(p, state))
  {
    var j' := j.WithState(p, state);
    forall q | q in j'.files ensures ItemFits(bundle, d.backups, d.damaged, q, j'.files[q]) {
      assert ItemFits(bundle, d.backups, d.damaged, q, j.files[q]);
    }
  }

  lemma MoveAgrees(bundle: Bundle, d: Disk, files: map<Path, Content>, j: Journal, p: Path, state: ItemState)
    requires Agrees(bundle, d, files, j) && p in j.files
    requires p !in d.touched ==> FileFits(bundle, files, p, state, j.status)
    ensures Agrees(bundle, d, files, j.WithState(p, state))
  {
    var j' := j.WithState(p, state);
    forall q | q in j'.files && q !in d.touched
      ensures FileFits(bundle, files, q, j'.files[q].state, j'.status)
    {
      assert q != p ==> FileFits(bundle, files, q, j.files[q].state, j.status);
    }
  }

  // Progress of the two loops over the changed files: from index i on, resp. up to index i, the files have settled.
  ghost predicate RestoredFrom(bundle: Bundle, items: map<Path, Item>, i: nat) {
    forall k :: i <= k < |bundle.changedFiles| ==>
      bundle.changedFiles[k] in items && items[bundle.changedFiles[k]].state in {Pending, Restored}
  }

  lemma RestoredFromStep(bundle: Bundle, j: Journal, i: nat)
    requires i < |bundle.changedFiles| && bundle.changedFiles[i] in j.files && RestoredFrom(bundle, j.files, i + 1)
    ensures RestoredFrom(bundle, j.WithState(bundle.changedFiles[i], Restored).files, i)
    ensures j.files[bundle.changedFiles[i]].state == Pending ==> RestoredFrom(bundle, j.files, i)
  {
  }

  ghost predicate DeliveredUpTo(bundle: Bundle, items: map<Path, Item>, i: nat) {
    forall k :: 0 <= k < |bundle.changedFiles| ==>
      bundle.changedFiles[k] in items && items[bundle.changedFiles[k]].state == (if k < i then Delivered else Pending)
  }

  lemma DeliveredUpToStep(bundle: Bundle, j: Journal, i: nat)
    requires bundle.WellFormed() && i < |bundle.changedFiles| && DeliveredUpTo(bundle, j.files, i)
    ensures DeliveredUpTo(bundle, j.WithState(bundle.changedFiles[i], Delivered).files, i + 1)
  {
  }

  // What a restore would write: the decrypted backup, absence for a file that did not exist, or nothing when the
  // ciphertext is missing or is not the one journalled.
  function Checkpoint(backups: map<Path, Cipher>, p: Path, item: Item): Option<Option<Content>> {
    if !item.existed then Some(None)
    else if p !in backups || Some(Sha256OfCipher(backups[p])) != item.backupDigest then None
    else Some(Some(backups[p].plain))
  }

  // A checkpoint that passes its digest check is the original content, even among damaged backups.
  lemma CheckpointIsOriginal(bundle: Bundle, backups: map<Path, Cipher>, damaged: set<Path>, p: Path, item: Item)
    requires ItemFits(bundle, backups, damaged, p, item)
    ensures Checkpoint(backups, p, item).Some? ==> Checkpoint(backups, p, item).value == bundle.Original(p)
    ensures p !in damaged ==> Checkpoint(backups, p, item).Some?
  {
    assert p !in damaged && item.existed ==> Lookup(backups, p) == Some(Fernet(bundle.Original(p).value));
  }

  // The digests admit exactly the baseline and the delivered content.
  lemma AllowedMeans(bundle: Bundle, backups: map<Path, Cipher>, damaged: set<Path>, p: Path, item: Item, actual: Option<Content>)
    requires ItemFits(bundle, backups, damaged, p, item)
    ensures DigestOf(actual) in {item.baseline, Some(item.delivered)} <==> actual in {bundle.Original(p), bundle.Payload(p)}
  {
  }

  // Starting and finishing a rollback in the journal.
  lemma BeginFits(bundle: Bundle, d: Disk, files: map<Path, Content>, j: Journal)
    requires JournalFits(bundle, d, j) && d.approvals[j.CurrentGrant().value].state == Consumed
    ensures JournalFits(bundle, d, j.(status := RollingBack))
    ensures Agrees(bundle, d, files, j) ==> Agrees(bundle, d, files, j.(status := RollingBack))
  {
    if Agrees(bundle, d, files, j) {
      forall p | p in j.files && p !in d.touched
        ensures FileFits(bundle, files, p, j.files[p].state, RollingBack)
      {
        assert FileFits(bundle, files, p, j.files[p].state, j.status);
      }
    }
  }

  lemma FinishFits(bundle: Bundle, d: Disk, files: map<Path, Content>, j: Journal)
    requires JournalFits(bundle, d, j) && j.status == RollingBack
    requires forall p :: p in j.files ==> j.files[p].state in {Pending, Restored}
    ensures JournalFits(bundle, d, j.(status := RolledBack))
    ensures Agrees(bundle, d, files, j) ==> Agrees(bundle, d, files, j.(status := RolledBack))
  {
    if Agrees(bundle, d, files, j) {
      forall p | p in j.files && p !in d.touched
        ensures FileFits(bundle, files, p, j.files[p].state, RolledBack)
      {
        assert FileFits(bundle, files, p, j.files[p].state, j.status);
      }
    }
  }

  // The journal as apply first persists it, and as it reads once the grant is consumed.
  lemma PreparedFits(bundle: Bundle, d: Disk, files: map<Path, Content>, j: Journal)
    requires j.status == Prepared && j.operation == ApplyOp && FilesFit(bundle, d.backups, d.damaged, j.files)
    requires forall p :: p in j.files ==> j.files[p].state == Pending
    requires j.approvalId in d.approvals && d.approvals[j.approvalId].operation == ApplyOp
    requires forall p :: p in bundle.changedFiles && p !in d.touched ==> HoldsOriginal(bundle, files, p)
    ensures JournalFits(bundle, d, j) && Agrees(bundle, d, files, j)
  {
  }

  lemma ApplyingFits(bundle: Bundle, d: Disk, files: map<Path, Content>, j: Journal)
    requires JournalFits(bundle, d, j) && Agrees(bundle, d, files, j) && j.status == Prepared
    requires d.approvals[j.approvalId].state == Consumed
    ensures JournalFits(bundle, d, j.(status := Applying)) && Agrees(bundle, d, files, j.(status := Applying))
  {
    forall p | p in j.files && p !in d.touched
      ensures FileFits(bundle, files, p, j.files[p].state, Applying)
    {
      assert FileFits(bundle, files, p, j.files[p].state, j.status);
    }
  }

  lemma AppliedFits(bundle: Bundle, d: Disk, files: map<Path, Content>, j: Journal, receipt: Receipt)
    requires JournalFits(bundle, d, j) && Agrees(bundle, d, files, j) && j.status == Applying
    requires forall p :: p in j.files ==> j.files[p].state == Delivered
    requires Sealed(bundle, j.(receipt := Some(receipt)))
    ensures
      var j' := j.(receipt := Some(receipt), status := Applied);
      JournalFits(bundle, d, j') && Agrees(bundle, d, files, j')
  {
    forall p | p in j.files && p !in d.touched
      ensures FileFits(bundle, files, p, j.files[p].state, Applied)
    {
      assert FileFits(bundle, files, p, j.files[p].state, j.status);
    }
  }

  lemma UndoingFits(bundle: Bundle, d: Disk, files: map<Path, Content>, j: Journal, g: GrantId)
    requires JournalFits(bundle, d, j) && j.status == Applied
    requires g in d.approvals && d.approvals[g].operation == UndoOp
    requires forall p :: p in bundle.changedFiles ==> HoldsPayload(bundle, files, p)
    ensures
      var j' := j.(operation := UndoOp, status := Undoing, undoApprovalId := Some(g));
      Agrees(bundle, d, files, j) && JournalFits(bundle, d, j') && Agrees(bundle, d, files, j')
  {
  }

  // The first changed file that no longer holds what was delivered.
  function FirstUndoConflict(bundle: Bundle, paths: seq<Path>, items: map<Path, Item>, files: map<Path, Content>): (r: Option<Path>)
    ensures r.Some? ==> r.value in paths && (r.value in items ==> Lookup(files, r.value) != Some(items[r.value].delivered.content))
    ensures r.None? ==> forall p :: p in paths ==> p in items && Lookup(files, p) == Some(items[p].delivered.content)
  {
    if paths == [] then None
    else if paths[0] !in items || DigestOf(Lookup(files, paths[0])) != Some(items[paths[0]].delivered) then Some(paths[0])
    else FirstUndoConflict(bundle, paths[1..], items, files)
  }

  // Undo finds no conflict exactly when every changed file still holds what was delivered.
  lemma NoUndoConflict(bundle: Bundle, d: Disk, files: map<Path, Content>)
    requires Valid(bundle, d) && d.journal.Some?
    ensures FirstUndoConflict(bundle, bundle.changedFiles, d.journal.value.files, files).None? <==>
            forall p :: p in bundle.changedFiles ==> HoldsPayload(bundle, files, p)
  {
    var items := d.journal.value.files;
    forall p | p in bundle.changedFiles
      ensures p in items && (Lookup(files, p) == Some(items[p].delivered.content) <==> HoldsPayload(bundle, files, p))
    {
      assert ItemFits(bundle, d.backups, d.damaged, p, items[p]);
    }
  }

  // The checks of the grant and of its record, in their own fields.
  ghost predicate Grants(bundle: Bundle, approvals: map<GrantId, ApprovalRecord>, grant: Grant, actor: string, op: Operation, now: int) {
    && now < grant.expiresAt
    && grant.runId == bundle.runId && grant.bundleId == bundle.id
    && grant.destination == bundle.destination && grant.manifest == bundle.manifest
    && multiset(grant.approvedFiles) == multiset(bundle.changedFiles)
    && grant.id in approvals && approvals[grant.id].grant == grant && approvals[grant.id].actor == actor
    && approvals[grant.id].operation == op && approvals[grant.id].state == Approved
  }

  lemma GrantsExactly(bundle: Bundle, approvals: map<GrantId, ApprovalRecord>, grant: Grant, actor: string, op: Operation, now: int)
    ensures Grants(bundle, approvals, grant, actor, op, now) <==>
            ApprovalProblem(bundle, grant, now).None? && RecordProblem(approvals, grant, actor, op).None?
  {
  }

  // A journal that is final tells what every file nobody else has edited holds: all delivered, or all original.
  ghost predicate AllHold(bundle: Bundle, files: map<Path, Content>, touched: set<Path>, status: Status) {
    forall p :: p in bundle.changedFiles && p !in touched ==>
      if status == Applied then HoldsPayload(bundle, files, p) else HoldsOriginal(bundle, files, p)
  }

  lemma FinalMeansAllOrNothing(bundle: Bundle, d: Disk, files: map<Path, Content>)
    requires Valid(bundle, d) && Clean(bundle, d, files)
    requires d.journal.Some? && d.journal.value.status in {Applied, RolledBack}
    ensures AllHold(bundle, files, d.touched, d.journal.value.status)
    ensures d.journal.value.status == Applied ==> Sealed(bundle, d.journal.value)
  {
    forall p | p in bundle.changedFiles && p !in d.touched
      ensures if d.journal.value.status == Applied then HoldsPayload(bundle, files, p) else HoldsOriginal(bundle, files, p)
    {
      assert p in d.journal.value.files;
      assert FileFits(bundle, files, p, d.journal.value.files[p].state, d.journal.value.status);
    }
  }
}
