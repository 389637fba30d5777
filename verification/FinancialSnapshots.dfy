/** The Financial Snapshot ledger of src/operations/financial-snapshot.ts. Each call is atomic: what
  * happens when a completion overlaps a successor is the subject of `SnapshotChains`.
  */
module FinancialSnapshots {
  import opened Contracts
  import opened PolicyEngine
  import opened SnapshotChains
  import opened Wrappers

  datatype PrepareRequest = PrepareRequest(
    period: string,
    workbook: string,
    sourceExports: seq<string>,
    reconciliationReference: string,
    supersedes: Option<string>)

  datatype Refusal =
    | UnknownPredecessor
    | PredecessorAlreadySuperseded
    | UnknownSnapshot
    | ReconciliationMismatch
    | InvalidState
    | NotValidatedByCfo
    | ApprovalNotGranted

  datatype Answer =
    | Done(snapshot: Snapshot)
    | ApprovalAwaited(approvalId: string, workItemId: string)
    | Refused(refusal: Refusal)
    | Failed

  /** The action a snapshot asks approval for: its target is this snapshot at this digest. */
  function SnapshotAction(workItemId: string, snapshot: Snapshot): Action {
    Action(workItemId, PersonalCFO, Finance, Write, Reversible, MediumRisk, Some(FinancialRecordChange), None,
           Some(Target("financial-snapshot", snapshot.id, snapshot.digest.text)))
  }

  function NewSnapshot(request: PrepareRequest, id: string, version: nat, now: int): Snapshot {
    Snapshot(id, request.period, version, DigestOf(request.workbook, request.period, version), request.workbook,
             request.sourceExports, request.reconciliationReference, false, None, request.supersedes, Prepared, now)
  }

  /** What a snapshot's state says about the steps it has passed. */
  predicate Sound(snapshot: Snapshot) {
    && snapshot.digest == DigestOf(snapshot.workbook, snapshot.period, snapshot.version)
    && (snapshot.state == Prepared ==> !snapshot.validatedByCfo && snapshot.approvalId == None)
    && (snapshot.state == Validated || snapshot.state == Approved ==> snapshot.validatedByCfo)
    && (snapshot.state == Approved ==> snapshot.approvalId.Some?)
  }

  /** An approval and the time at which it permitted an action. */
  datatype Permit = Permit(approval: Approval, at: int)

  /** The permit was a granted, unexpired approval of this very snapshot at this very digest. */
  predicate Binds(permit: Permit, row: Row) {
    && permit.approval.state == Granted && Unexpired(permit.approval, permit.at)
    && permit.approval.scope == FinancialRecordChange
    && permit.approval.target == Target("financial-snapshot", row.snapshot.id, row.snapshot.digest.text)
  }

  /** Rows never disappear and their artifacts never change. */
  ghost predicate Preserves(before: Table, after: Table) {
    forall id <- before :: id in after && SameArtifact(after[id].snapshot, before[id].snapshot)
  }

  /** States match the steps taken, and every approved snapshot has the permit it was approved under. */
  ghost predicate Backed(rows: Table, permits: map<string, Permit>) {
    && (forall id <- rows :: rows[id].snapshot.id == id && Sound(rows[id].snapshot))
    && (forall id <- rows :: rows[id].snapshot.state == Approved ==> id in permits)
    && (forall id <- permits :: id in rows && rows[id].snapshot.validatedByCfo && Binds(permits[id], rows[id]))
  }

  /** What every reachable ledger keeps. */
  ghost predicate Kept(rows: Table, permits: map<string, Permit>) {
    Chained(rows) && Backed(rows, permits)
  }

  // ---------------------------------------------------------------- one call, as a value

  /** What a call answers and the table it leaves. */
  datatype Step = Step(answer: Answer, rows: Table)

  /** A new snapshot, or a successor together with the supersession of its predecessor. */
  function PrepareStep(rows: Table, request: PrepareRequest, id: string, now: int, insertFails: bool): Step {
    match request.supersedes
    case None =>
      var snapshot := NewSnapshot(request, id, 1, now);
      Step(Done(snapshot), Put(rows, snapshot))
    case Some(before) =>
      if before !in rows then Step(Refused(UnknownPredecessor), rows)
      else
        var predecessor := rows[before].snapshot;
        if predecessor.state == Superseded then Step(Refused(PredecessorAlreadySuperseded), rows)
        else if insertFails then Step(Failed, rows)
        else
          var snapshot := NewSnapshot(request, id, predecessor.version + 1, now);
          Step(Done(snapshot), PutSuccessor(rows, predecessor, snapshot))
  }

  function ValidateStep(rows: Table, id: string, reconciliationReference: string): Step {
    if id !in rows then Step(Refused(UnknownSnapshot), rows)
    else
      var snapshot := rows[id].snapshot;
      if snapshot.state != Prepared then Step(Refused(InvalidState), rows)
      else if snapshot.reconciliationReference != reconciliationReference then Step(Refused(ReconciliationMismatch), rows)
      else
        var validated := snapshot.(validatedByCfo := true, state := Validated);
        Step(Done(validated), Put(rows, validated))
  }

  /** Whether a presentation gets as far as asking the gateway. */
  predicate Presentable(rows: Table, id: string) {
    id in rows && rows[id].snapshot.state == Validated
  }

  function WithWorkItem(rows: Table, id: string, workItemId: string): Table
    requires id in rows
  {
    rows[id := rows[id].(workItemId := Some(workItemId))]
  }

  /** The CEO is asked to approve a validated snapshot; `decision` is what the gateway then says. */
  function PresentStep(rows: Table, id: string, acknowledged: Option<string>, decision: Decision): Step {
    if id !in rows then Step(Refused(UnknownSnapshot), rows)
    else
      var snapshot := rows[id].snapshot;
      if snapshot.state == Prepared && !snapshot.validatedByCfo then Step(Refused(NotValidatedByCfo), rows)
      else if snapshot.state != Validated then Step(Refused(InvalidState), rows)
      else if acknowledged == None then Step(Failed, rows)
      else
        var linked := WithWorkItem(rows, id, acknowledged.value);
        if !decision.AwaitApproval? then Step(Refused(NotValidatedByCfo), linked)
        else
          Step(ApprovalAwaited(decision.approvalId, acknowledged.value),
               Put(linked, snapshot.(approvalId := Some(decision.approvalId))))
  }

  predicate Completable(rows: Table, id: string) {
    && id in rows && rows[id].workItemId.Some?
    && rows[id].snapshot.state == Validated && rows[id].snapshot.approvalId.Some?
  }

  function CompleteStep(rows: Table, id: string, decision: Decision, executes: bool): Step {
    if id !in rows || rows[id].workItemId == None then Step(Refused(UnknownSnapshot), rows)
    else
      var snapshot := rows[id].snapshot;
      if snapshot.state != Validated || snapshot.approvalId == None then Step(Refused(InvalidState), rows)
      else if !decision.Permitted? then Step(Refused(ApprovalNotGranted), rows)
      else if !executes then Step(Failed, rows)
      else
        var approved := snapshot.(state := Approved);
        Step(Done(approved), Put(rows, approved))
  }

  // ---------------------------------------------------------------- what each call keeps

  lemma InsertIsBacked(rows: Table, permits: map<string, Permit>, snapshot: Snapshot)
    requires Backed(rows, permits) && snapshot.id !in rows && Sound(snapshot) && snapshot.state == Prepared
    ensures Backed(Put(rows, snapshot), permits) && Preserves(rows, Put(rows, snapshot))
  {
  }

  lemma UpdateIsBacked(rows: Table, permits: map<string, Permit>, copy: Snapshot)
    requires Backed(rows, permits) && copy.id in rows
    requires SameArtifact(copy, rows[copy.id].snapshot) && Sound(copy)
    requires copy.state == Approved ==> copy.id in permits
    requires copy.id in permits ==> copy.validatedByCfo
    ensures Backed(Put(rows, copy), permits) && Preserves(rows, Put(rows, copy))
  {
    assert Put(rows, copy)[copy.id] == rows[copy.id].(snapshot := copy);
  }

  lemma NewSnapshotIsSound(request: PrepareRequest, id: string, version: nat, now: int)
    ensures Sound(NewSnapshot(request, id, version, now))
  {
  }

  lemma SuccessorKeeps(rows: Table, permits: map<string, Permit>, predecessor: Snapshot, snapshot: Snapshot)
    requires Kept(rows, permits) && predecessor.id in rows && rows[predecessor.id].snapshot == predecessor
    requires predecessor.state != Superseded
    requires snapshot.id !in rows && Sound(snapshot) && snapshot.state == Prepared
    requires snapshot.supersedes == Some(predecessor.id) && snapshot.version == predecessor.version + 1
    ensures Kept(PutSuccessor(rows, predecessor, snapshot), permits)
    ensures Preserves(rows, PutSuccessor(rows, predecessor, snapshot))
  {
    SuccessorKeepsChains(rows, predecessor, snapshot);
    var between := Put(rows, predecessor.(state := Superseded));
    UpdateIsBacked(rows, permits, predecessor.(state := Superseded));
    InsertIsBacked(between, permits, snapshot);
  }

  lemma FirstVersionKeeps(rows: Table, permits: map<string, Permit>, snapshot: Snapshot)
    requires Kept(rows, permits) && snapshot.id !in rows && Sound(snapshot) && snapshot.state == Prepared
    requires snapshot.supersedes == None && snapshot.version == 1
    ensures Kept(Put(rows, snapshot), permits) && Preserves(rows, Put(rows, snapshot))
  {
    FirstVersionKeepsChains(rows, snapshot);
    InsertIsBacked(rows, permits, snapshot);
  }

  lemma PrepareSuccessorKeeps(rows: Table, permits: map<string, Permit>, request: PrepareRequest, id: string, now: int, insertFails: bool)
    requires Kept(rows, permits) && id !in rows && request.supersedes.Some?
    ensures var after := PrepareStep(rows, request, id, now, insertFails).rows;
            Kept(after, permits) && Preserves(rows, after)
  {
    var before := request.supersedes.value;
    if before in rows && rows[before].snapshot.state != Superseded && !insertFails {
      var version := rows[before].snapshot.version + 1;
      NewSnapshotIsSound(request, id, version, now);
      SuccessorKeeps(rows, permits, rows[before].snapshot, NewSnapshot(request, id, version, now));
    }
  }

  lemma PrepareKeeps(rows: Table, permits: map<string, Permit>, request: PrepareRequest, id: string, now: int, insertFails: bool)
    requires Kept(rows, permits) && id !in rows
    ensures var after := PrepareStep(rows, request, id, now, insertFails).rows;
            Kept(after, permits) && Preserves(rows, after)
  {
    match request.supersedes
    case None =>
      NewSnapshotIsSound(request, id, 1, now);
      FirstVersionKeeps(rows, permits, NewSnapshot(request, id, 1, now));
    case Some(before) => PrepareSuccessorKeeps(rows, permits, request, id, now, insertFails);
  }

  /** Writing a row's own snapshot back, one step further on. */
  lemma WriteBackIsKept(rows: Table, permits: map<string, Permit>, copy: Snapshot)
    requires Kept(rows, permits) && copy.id in rows && rows[copy.id].snapshot.state != Superseded
    requires SameArtifact(copy, rows[copy.id].snapshot) && Sound(copy) && copy.state != Superseded
    requires copy.state == Approved ==> copy.id in permits
    requires copy.id in permits ==> copy.validatedByCfo
    ensures Kept(Put(rows, copy), permits) && Preserves(rows, Put(rows, copy))
  {
    WriteBackKeepsChainsExactlyUnlessSuperseded(rows, copy);
    UpdateIsBacked(rows, permits, copy);
  }

  lemma ValidatedIsSound(snapshot: Snapshot)
    requires Sound(snapshot) && snapshot.state == Prepared
    ensures Sound(snapshot.(validatedByCfo := true, state := Validated))
    ensures SameArtifact(snapshot.(validatedByCfo := true, state := Validated), snapshot)
  {
  }

  lemma ValidateKeeps(rows: Table, permits: map<string, Permit>, id: string, reconciliationReference: string)
    requires Kept(rows, permits)
    ensures var after := ValidateStep(rows, id, reconciliationReference).rows;
            Kept(after, permits) && Preserves(rows, after)
  {
    if id in rows && rows[id].snapshot.state == Prepared {
      ValidatedIsSound(rows[id].snapshot);
      WriteBackIsKept(rows, permits, rows[id].snapshot.(validatedByCfo := true, state := Validated));
    }
  }

  lemma WorkItemIsKept(rows: Table, permits: map<string, Permit>, id: string, workItemId: string)
    requires Kept(rows, permits) && id in rows
    ensures Kept(WithWorkItem(rows, id, workItemId), permits) && Preserves(rows, WithWorkItem(rows, id, workItemId))
  {
    WorkItemKeepsChains(rows, id, workItemId);
  }

  lemma ApprovalIsKept(rows: Table, permits: map<string, Permit>, id: string, workItemId: string, approvalId: string)
    requires Kept(rows, permits) && Presentable(rows, id)
    requires var linked := WithWorkItem(rows, id, workItemId); Kept(linked, permits) && Preserves(rows, linked)
    ensures var after := Put(WithWorkItem(rows, id, workItemId), rows[id].snapshot.(approvalId := Some(approvalId)));
            Kept(after, permits) && Preserves(rows, after)
  {
    WriteBackIsKept(WithWorkItem(rows, id, workItemId), permits, rows[id].snapshot.(approvalId := Some(approvalId)));
  }

  lemma PresentedRows(rows: Table, id: string, acknowledged: Option<string>, decision: Decision)
    ensures PresentStep(rows, id, acknowledged, decision).rows ==
            if !Presentable(rows, id) || acknowledged == None then rows
            else if !decision.AwaitApproval? then WithWorkItem(rows, id, acknowledged.value)
            else Put(WithWorkItem(rows, id, acknowledged.value), rows[id].snapshot.(approvalId := Some(decision.approvalId)))
  {
  }

  lemma PresentKeeps(rows: Table, permits: map<string, Permit>, id: string, acknowledged: Option<string>, decision: Decision)
    requires Kept(rows, permits)
    ensures var after := PresentStep(rows, id, acknowledged, decision).rows;
            Kept(after, permits) && Preserves(rows, after)
  {
    PresentedRows(rows, id, acknowledged, decision);
    if Presentable(rows, id) && acknowledged.Some? {
      WorkItemIsKept(rows, permits, id, acknowledged.value);
      if decision.AwaitApproval? {
        ApprovalIsKept(rows, permits, id, acknowledged.value, decision.approvalId);
      }
    } else {
      assert PresentStep(rows, id, acknowledged, decision).rows == rows;
    }
  }

  /** A snapshot is approved only through an approval of the gateway that covers exactly it. */
  lemma PermissionIsACoveringApproval(row: Row, workItemId: string, authorities: seq<StandingAuthority>, approvals: seq<Approval>, now: int)
    requires Permits(EvaluateAction(SnapshotAction(workItemId, row.snapshot), authorities, approvals, now))
    ensures var outcome := EvaluateAction(SnapshotAction(workItemId, row.snapshot), authorities, approvals, now);
            outcome.ByApproval? && outcome.approval in approvals && Binds(Permit(outcome.approval, now), row)
  {
    OnlyACoveringApprovalPermits(SnapshotAction(workItemId, row.snapshot), authorities, approvals, now);
  }

  lemma PermitIsKept(rows: Table, permits: map<string, Permit>, id: string, permit: Permit)
    requires Kept(rows, permits) && id in rows && rows[id].snapshot.validatedByCfo && Binds(permit, rows[id])
    ensures Kept(rows, permits[id := permit])
  {
  }

  lemma CompleteKeeps(rows: Table, permits: map<string, Permit>, id: string, decision: Decision, executes: bool, permit: Permit)
    requires Kept(rows, permits)
    requires Completable(rows, id) && decision.Permitted? ==> Binds(permit, rows[id])
    ensures var step := CompleteStep(rows, id, decision, executes);
            Preserves(rows, step.rows) && Kept(step.rows, if step.answer.Done? then permits[id := permit] else permits)
  {
    if CompleteStep(rows, id, decision, executes).answer.Done? {
      PermitIsKept(rows, permits, id, permit);
      WriteBackIsKept(rows, permits[id := permit], rows[id].snapshot.(state := Approved));
    }
  }

  // ---------------------------------------------------------------- the ledger

  class FinancialSnapshotLedger {
    const gateway: Gateway
    var rows: Table
    /** The permit under which each snapshot was approved. */
    ghost var permits: map<string, Permit>

    ghost predicate Valid()
      reads this
    {
      Kept(rows, permits)
    }

    constructor (gateway: Gateway)
      ensures Valid() && this.gateway == gateway && rows == map[]
    {
      this.gateway := gateway;
      rows, permits := map[], map[];
    }

    /** A failure between the two writes of a succession rolls both back. */
    method Prepare(request: PrepareRequest, freshId: string, now: int, insertFails: bool) returns (answer: Answer)
      requires Valid() && freshId !in rows
      modifies this`rows
      ensures Step(answer, rows) == PrepareStep(old(rows), request, freshId, now, insertFails)
      ensures Valid() && Preserves(old(rows), rows)
    {
      PrepareKeeps(rows, permits, request, freshId, now, insertFails);
      if request.supersedes == None {
        var snapshot := NewSnapshot(request, freshId, 1, now);
        rows := Put(rows, snapshot);
        return Done(snapshot);
      }
      if request.supersedes.value !in rows {
        return Refused(UnknownPredecessor);
      }
      var predecessor := rows[request.supersedes.value].snapshot;
      if predecessor.state == Superseded {
        return Refused(PredecessorAlreadySuperseded);
      }
      var snapshot := NewSnapshot(request, freshId, predecessor.version + 1, now);
      var begun := rows;
      rows := Put(rows, predecessor.(state := Superseded));
      if insertFails {
        rows := begun;
        return Failed;
      }
      rows := Put(rows, snapshot);
      answer := Done(snapshot);
    }

    method Validate(id: string, reconciliationReference: string) returns (answer: Answer)
      requires Valid()
      modifies this`rows
      ensures Step(answer, rows) == ValidateStep(old(rows), id, reconciliationReference)
      ensures Valid() && Preserves(old(rows), rows)
    {
      ValidateKeeps(rows, permits, id, reconciliationReference);
      if id !in rows {
        return Refused(UnknownSnapshot);
      }
      var snapshot := rows[id].snapshot;
      if snapshot.state != Prepared {
        return Refused(InvalidState);
      }
      if snapshot.reconciliationReference != reconciliationReference {
        return Refused(ReconciliationMismatch);
      }
      var validated := snapshot.(validatedByCfo := true, state := Validated);
      rows := Put(rows, validated);
      answer := Done(validated);
    }

    /** Asks the CEO to approve a validated snapshot. The Work Item is the one the gateway acknowledges,
      * or none if that call fails. */
    method Present(id: string, acknowledged: Option<string>, now: int, freshApprovalId: string) returns (answer: Answer, ghost decision: Decision)
      requires Valid()
      modifies this`rows, gateway`approvals
      ensures Step(answer, rows) == PresentStep(old(rows), id, acknowledged, decision)
      ensures Presentable(old(rows), id) && acknowledged.Some? && decision.AwaitApproval? ==> decision.approvalId == freshApprovalId
      ensures Valid() && Preserves(old(rows), rows)
    {
      decision := Denied;
      if id !in rows {
        return Refused(UnknownSnapshot), decision;
      }
      var snapshot := rows[id].snapshot;
      if snapshot.state == Prepared && !snapshot.validatedByCfo {
        return Refused(NotValidatedByCfo), decision;
      }
      if snapshot.state != Validated {
        return Refused(InvalidState), decision;
      }
      if acknowledged == None {
        return Failed, decision;
      }
      rows := WithWorkItem(rows, id, acknowledged.value);
      var decided := gateway.RequestAction(SnapshotAction(acknowledged.value, snapshot), now, freshApprovalId);
      decision := decided;
      PresentKeeps(old(rows), permits, id, acknowledged, decision);
      if !decided.AwaitApproval? {
        return Refused(NotValidatedByCfo), decision;
      }
      rows := Put(rows, snapshot.(approvalId := Some(decided.approvalId)));
      answer := ApprovalAwaited(decided.approvalId, acknowledged.value);
    }

    /** Approves a presented snapshot. It succeeds only through a granted, unexpired approval whose scope,
      * type, identity and version are this snapshot's; the permit is kept as evidence. */
    method Complete(id: string, now: int, freshApprovalId: string, executes: bool) returns (answer: Answer, ghost decision: Decision)
      requires Valid()
      modifies this`rows, this`permits, gateway`approvals
      ensures Step(answer, rows) == CompleteStep(old(rows), id, decision, executes)
      ensures Completable(old(rows), id) ==>
                var workItemId := old(rows)[id].workItemId.value;
                var outcome := EvaluateAction(SnapshotAction(workItemId, old(rows)[id].snapshot), gateway.authorities,
                                              old(gateway.ApprovalsOf(workItemId)), now);
                && (decision.Permitted? <==> Permits(outcome))
                && (answer.Done? ==>
                      && outcome.ByApproval? && outcome.approval in old(gateway.ApprovalsOf(workItemId))
                      && permits == old(permits)[id := Permit(outcome.approval, now)])
      ensures !answer.Done? ==> permits == old(permits)
      ensures Valid() && Preserves(old(rows), rows)
    {
      decision := Denied;
      if id !in rows || rows[id].workItemId == None {
        return Refused(UnknownSnapshot), decision;
      }
      var snapshot, workItemId := rows[id].snapshot, rows[id].workItemId.value;
      if snapshot.state != Validated || snapshot.approvalId == None {
        return Refused(InvalidState), decision;
      }
      ghost var approvals := gateway.ApprovalsOf(workItemId);
      var decided := gateway.RequestAction(SnapshotAction(workItemId, snapshot), now, freshApprovalId);
      decision := decided;
      if !decided.Permitted? {
        return Refused(ApprovalNotGranted), decision;
      }
      PermissionIsACoveringApproval(rows[id], workItemId, gateway.authorities, approvals, now);
      CompleteKeeps(rows, permits, id, decision, executes, Permit(decided.basis.approval, now));
      if !executes {
        return Failed, decision;
      }
      permits := permits[id := Permit(decided.basis.approval, now)];
      var approved := snapshot.(state := Approved);
      rows := Put(rows, approved);
      answer := Done(approved);
    }
  }

  /** A permit for one snapshot is none for another, nor for another version of the artifact. */
  lemma PermitDoesNotTravel(permit: Permit, row: Row, other: Row)
    requires Binds(permit, row) && Binds(permit, other)
    requires Sound(row.snapshot) && Sound(other.snapshot) && '|' !in row.snapshot.period && '|' !in other.snapshot.period
    ensures row.snapshot.id == other.snapshot.id
    ensures row.snapshot.workbook == other.snapshot.workbook && row.snapshot.version == other.snapshot.version
    ensures row.snapshot.period == other.snapshot.period
  {
    DigestIdentifiesArtifact(row.snapshot.workbook, row.snapshot.period, row.snapshot.version,
                             other.snapshot.workbook, other.snapshot.period, other.snapshot.version);
  }
}
