// Whole runs of the delivery manager: any sequence of calls, each interrupted wherever the environment likes.
module DeliveryRuns {
  import opened Common
  import opened Delivery
  import opened DeliveryState

  datatype Call =
    | CallApprove(id: GrantId, actor: string, now: int, ttl: int)
    | CallApproveUndo(id: GrantId, actor: string, now: int, ttl: int)
    | CallApply(grant: Grant, actor: string, now: int, appliedAt: int)
    | CallUndo(grant: Grant, actor: string, now: int)
    | CallRecover

  // One call with the fates of its durable steps. A reused identifier stands for no call: uuid4 never repeats.
  datatype Event = Event(call: Call, fates: seq<Fate>)

  // Under either form of crash the invariants survive and grants are only ever consumed.
  method Perform(m: DeliveryManager, e: Event)
    requires m.Good() && m.Tidy()
    modifies m, m.destination
    ensures m.Good() && m.Tidy() && OnlyConsumes(old(m.disk).approvals, m.disk.approvals)
  {
    m.disk := m.disk.(fates := e.fates);
    assert m.Good() && m.Tidy();
    match e.call
    case CallApprove(id, actor, now, ttl) =>
      if id !in m.disk.approvals {
        var _ := m.Approve(id, actor, now, ttl);
      }
    case CallApproveUndo(id, actor, now, ttl) =>
      if id !in m.disk.approvals {
        var _ := m.ApproveUndo(id, actor, now, ttl);
      }
    case CallApply(grant, actor, now, appliedAt) =>
      var _ := m.Apply(grant, actor, now, appliedAt);
    case CallUndo(grant, actor, now) =>
      var _ := m.Undo(grant, actor, now);
    case CallRecover =>
      var _ := m.Recover();
  }

  lemma OnlyConsumesTransitive(a: map<GrantId, ApprovalRecord>, b: map<GrantId, ApprovalRecord>, c: map<GrantId, ApprovalRecord>)
    requires OnlyConsumes(a, b) && OnlyConsumes(b, c)
    ensures OnlyConsumes(a, c)
  {
    forall g | g in a
      ensures g in c && c[g].(state := Approved) == a[g].(state := Approved) && (a[g].state == Consumed ==> c[g].state == Consumed)
    {
      assert g in b && g in c;
    }
  }

  method Run(m: DeliveryManager, events: seq<Event>)
    requires m.Good() && m.Tidy()
    modifies m, m.destination
    ensures m.Good() && m.Tidy() && OnlyConsumes(old(m.disk).approvals, m.disk.approvals)
  {
    for i := 0 to |events|
      invariant m.Good() && m.Tidy() && OnlyConsumes(old(m.disk).approvals, m.disk.approvals)
    {
      ghost var before := m.disk.approvals;
      Perform(m, events[i]);
      OnlyConsumesTransitive(old(m.disk).approvals, before, m.disk.approvals);
    }
  }

  // Crash atomicity. After any run whatsoever, with a journal on disk and the changed files and their backups left
  // alone by everybody else, a recovery that is not itself interrupted completes; in the state it settles in every file
  // is delivered or every file is original, and recovering once more leaves exactly that state.
  method RunThenRecover(m: DeliveryManager, events: seq<Event>)
    returns (o: Outcome, again: Outcome, ghost settled: Disk, ghost files: map<Path, Content>)
    requires m.Good() && m.Tidy()
    modifies m, m.destination
    ensures m.Good() && m.Tidy()
    ensures o == Done ==> again == Done && m.disk == settled && m.destination.files == files
    ensures settled.journal.Some? && (forall p :: p in m.bundle.changedFiles ==> p !in settled.touched && p !in settled.damaged) ==>
              && o == Done
              && settled.journal.value.status in {Applied, RolledBack}
              && forall p :: p in m.bundle.changedFiles ==>
                   if settled.journal.value.status == Applied
                   then Lookup(files, p) == m.bundle.Payload(p)
                   else Lookup(files, p) == m.bundle.Original(p)
  {
    Run(m, events);
    m.disk := m.disk.(fates := []);
    o := m.Recover();
    settled, files := m.disk, m.destination.files;
    again := m.Recover();
  }

  // Apply followed by undo, both uninterrupted: the whole destination is what it was.
  method ApplyThenUndo(m: DeliveryManager, grant: Grant, undoId: GrantId, actor: string, now: int)
    returns (applied: Outcome, undone: Outcome)
    requires m.Good() && m.disk.fates == [] && !DeliveryManager.Blank(actor)
    requires m.ApplyProblem(grant, actor, now).None? && undoId !in m.disk.approvals
    modifies m, m.destination
    ensures applied == Done && undone == Done && m.destination.files == old(m.destination.files)
  {
    hide StatesFit, GrantFits, Agrees, OnlyConsumes;
    ghost var before := m.destination.files;
    NoConflict(m.bundle, before);
    applied := ApplyNow(m, grant, actor, now);
    undone := UndoNow(m, undoId, actor, now);
    SameLookups(m.destination.files, before);
  }

  // A single step that raises, wherever in apply it is: unless somebody interfered with the bundle's files or backups, a
  // failed apply leaves the whole destination as it was, but for what others changed.
  method FailedApply(m: DeliveryManager, grant: Grant, actor: string, now: int, appliedAt: int) returns (o: Outcome)
    requires m.Good() && m.MayApply(grant, actor, now) && Troubles(m.disk.fates) <= 1
    modifies m, m.destination
    ensures m.Good() && (o.Done? || o.Failed? || o.PowerLost?)
    ensures o.Failed? && m.AllRecoverable() ==>
              forall p :: p !in m.disk.touched ==> Lookup(m.destination.files, p) == Lookup(old(m.destination.files), p)
    ensures o.Failed? && m.AllRecoverable() && m.disk.journal.Some? ==> m.disk.journal.value.status == RolledBack || m.AllPending()
  {
    hide TrailFits, FilesFit, StatesFit, GrantFits, Agrees, OnlyConsumes, Troubles, Sealed;
    m.Allowed(grant, actor, now);
    o := m.Apply(grant, actor, now, appliedAt);
  }

  // A fresh undo approval, used at once.
  method UndoNow(m: DeliveryManager, undoId: GrantId, actor: string, now: int) returns (o: Outcome)
    requires m.Good() && m.disk.fates == [] && !DeliveryManager.Blank(actor) && undoId !in m.disk.approvals
    requires m.disk.journal.Some? && m.disk.journal.value.status == Applied
    requires forall p :: p in m.bundle.changedFiles ==> p !in m.disk.damaged
    requires forall p :: p in m.bundle.changedFiles ==> HoldsPayload(m.bundle, m.destination.files, p)
    modifies m, m.destination
    ensures m.Good() && o == Done && m.disk.fates == []
    ensures forall p :: Lookup(m.destination.files, p) ==
                        if p in m.bundle.changedFiles then m.bundle.Original(p) else Lookup(old(m.destination.files), p)
  {
    hide TrailFits, FilesFit, StatesFit, GrantFits, Agrees, OnlyConsumes;
    o := m.ApproveUndo(undoId, actor, now, 15);
    NoUndoConflict(m.bundle, m.disk, m.destination.files);
    o := m.Undo(m.GrantFor(undoId, now, 15), actor, now);
  }

  // What apply does to a destination at the baseline when nothing interferes.
  method ApplyNow(m: DeliveryManager, grant: Grant, actor: string, now: int) returns (o: Outcome)
    requires m.Good() && m.disk.fates == [] && m.ApplyProblem(grant, actor, now).None?
    modifies m, m.destination
    ensures m.Good() && o == Done && m.disk.fates == [] && m.disk.damaged == {}
    ensures m.disk.journal.Some? && m.disk.journal.value.status == Applied
    ensures m.disk.approvals.Keys == old(m.disk).approvals.Keys
    ensures forall p :: Lookup(m.destination.files, p) ==
                        if p in m.bundle.changedFiles then m.bundle.Payload(p) else Lookup(old(m.destination.files), p)
  {
    o := m.Apply(grant, actor, now, now);
  }

  // An undo approved and tried after somebody has replaced a delivered file: refused, nothing changed.
  method UndoTooEarly(m: DeliveryManager, undoId: GrantId, actor: string, now: int, replaced: Path) returns (o: Outcome)
    requires m.Good() && m.disk.fates == [] && !DeliveryManager.Blank(actor) && undoId !in m.disk.approvals
    requires m.disk.journal.Some? && m.disk.journal.value.status == Applied
    requires replaced in m.bundle.changedFiles && !HoldsPayload(m.bundle, m.destination.files, replaced)
    modifies m, m.destination
    ensures m.Good() && o.Failed? && m.destination.files == old(m.destination.files)
    ensures m.disk == old(m.disk).(approvals := m.disk.approvals)
    ensures m.disk.approvals.Keys == old(m.disk).approvals.Keys + {undoId}
  {
    hide TrailFits, FilesFit, StatesFit, GrantFits, Agrees, OnlyConsumes;
    var _ := m.ApproveUndo(undoId, actor, now, 15);
    NoUndoConflict(m.bundle, m.disk, m.destination.files);
    o := m.Undo(m.GrantFor(undoId, now, 15), actor, now);
  }

  // Bundle b is prepared against the destination as it stands once a is applied.
  ghost predicate StacksOn(a: DeliveryManager, b: DeliveryManager)
    reads a.destination
  {
    forall p :: p in b.bundle.changedFiles ==>
      b.bundle.Original(p) == if p in a.bundle.changedFiles then a.bundle.Payload(p) else Lookup(a.destination.files, p)
  }

  ghost predicate Appliable(m: DeliveryManager, grant: Grant, actor: string, now: int)
    reads m
  {
    && m.Good() && m.disk.fates == [] && m.hasKey && !m.disk.backupMade && StagedIntact(m.bundle, m.disk.staged)
    && ApprovalProblem(m.bundle, grant, now).None? && RecordProblem(m.disk.approvals, grant, actor, ApplyOp).None?
  }

  method ApplyStack(a: DeliveryManager, b: DeliveryManager, grantA: Grant, grantB: Grant, actor: string, now: int)
    requires a != b && a.destination == b.destination
    requires Appliable(a, grantA, actor, now) && Appliable(b, grantB, actor, now) && StacksOn(a, b)
    requires forall p :: p in a.bundle.changedFiles ==> a.bundle.Original(p) == Lookup(a.destination.files, p)
    modifies a, b, a.destination
    ensures a.Good() && a.disk.fates == [] && a.disk.damaged == {} && a.disk.journal.Some? && a.disk.journal.value.status == Applied
    ensures b.Good() && b.disk.fates == [] && b.disk.damaged == {} && b.disk.journal.Some? && b.disk.journal.value.status == Applied
    ensures a.disk.approvals.Keys == old(a.disk).approvals.Keys && b.disk.approvals.Keys == old(b.disk).approvals.Keys
    ensures forall p :: Lookup(a.destination.files, p) ==
                        if p in b.bundle.changedFiles then b.bundle.Payload(p)
                        else if p in a.bundle.changedFiles then a.bundle.Payload(p)
                        else Lookup(old(a.destination.files), p)
  {
    hide TrailFits, JournalFits, OnlyConsumes;
    NoConflict(a.bundle, a.destination.files);
    var _ := ApplyNow(a, grantA, actor, now);
    NoConflict(b.bundle, b.destination.files);
    var _ := ApplyNow(b, grantB, actor, now);
  }

  // Two bundles over one destination, a applied and then b, with a file common to both to which b gives other content
  // than a. Undoing a out of turn is refused and changes nothing; undoing b and then a restores the destination.
  method StackedUndo(
      a: DeliveryManager, b: DeliveryManager, grantA: Grant, grantB: Grant, early: GrantId, idA: GrantId, idB: GrantId,
      actor: string, now: int, shared: Path)
    returns (outOfTurn: Outcome, first: Outcome, second: Outcome)
    requires a != b && a.destination == b.destination && !DeliveryManager.Blank(actor)
    requires Appliable(a, grantA, actor, now) && Appliable(b, grantB, actor, now) && StacksOn(a, b)
    requires forall p :: p in a.bundle.changedFiles ==> a.bundle.Original(p) == Lookup(a.destination.files, p)
    requires early !in a.disk.approvals && idA !in a.disk.approvals && early != idA && idB !in b.disk.approvals
    requires shared in a.bundle.changedFiles && shared in b.bundle.changedFiles
    requires a.bundle.Payload(shared) != b.bundle.Payload(shared)
    modifies a, b, a.destination
    ensures outOfTurn.Failed? && first == Done && second == Done
    ensures a.destination.files == old(a.destination.files)
  {
    hide Valid;
    ghost var before := a.destination.files;
    ApplyStack(a, b, grantA, grantB, actor, now);
    outOfTurn := UndoTooEarly(a, early, actor, now, shared);
    first := UndoNow(b, idB, actor, now);
    second := UndoNow(a, idA, actor, now);
    SameLookups(a.destination.files, before);
  }
}
