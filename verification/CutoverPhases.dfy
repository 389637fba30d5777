/** The two-phase cutover of src/migration/master-tasks-cutover.ts: Phase A imports and verifies the
  * approved records, Phase B switches daily use and retires the legacy sources one by one. Everything
  * outside is a `World` of answers, any of which may be a failure, so a statement about every world is
  * a statement about failure at every step.
  */
module CutoverPhases {
  import opened Contracts
  import opened CutoverDrift
  import opened CutoverPlan
  import opened Sequences
  import opened Text
  import opened Wrappers

  datatype Approval = Approval(
    approvalId: string,
    planVersion: string,
    digestVersion: string,
    digestSha256: string,
    backupSha256: string,
    phaseAReportSha256: string,
    executionPhase: Phase)

  /** What the capture event of a migrated Work Item recorded. */
  datatype Captured = CapturedEvent(
    basis: string,
    sourceReference: string,
    legacyStatus: string,
    provenance: Provenance,
    workstream: Workstream,
    executive: Executive)

  datatype WorkItem = WorkItem(
    id: string,
    workspaceId: string,
    idempotencyKey: string,
    intent: string,
    state: Lifecycle,
    workstream: Workstream,
    executive: Executive,
    effectKind: string,
    effectValue: string,
    captured: Option<Captured>)

  datatype Priority = Low | Medium | High | Critical

  /** A record of Master Tasks. `details` holds the fields that only the comparison of a replay looks at. */
  datatype TaskRecord = TaskRecord(
    workItemId: string,
    sourceReference: string,
    intent: string,
    lifecycle: Lifecycle,
    workstream: Option<Workstream>,
    executive: Executive,
    details: Details)

  datatype Details = Details(
    workspaceId: string,
    title: string,
    origin: string,
    trustDomain: TrustDomain,
    collaborating: seq<Executive>,
    priority: Option<Priority>,
    commitmentValue: Option<string>,
    commitmentProvenance: Option<Provenance>,
    riskClass: Option<string>,
    approvalRequired: bool,
    approvalReference: Option<string>,
    portfolioProject: Option<string>,
    evidenceReferences: seq<string>,
    outcomeReportReference: Option<string>)

  /** The answers to the steps of one sample edit: the records read, the priority of the sample's Work Item
    * before and after, and whether the edit, its reconciliation and its restoring went through. */
  datatype SampleAnswers = SampleAnswers(
    records: Option<seq<TaskRecord>>,
    before: Option<Option<Priority>>,
    upserts: bool,
    reconciles: bool,
    observed: Option<Option<Priority>>,
    restores: bool)

  datatype SampleEdit = SampleEdit(viewName: string, workItemId: string, observed: Priority, restored: Option<Priority>)
  datatype LinkedView = LinkedView(name: string, dataSourceId: string, workstreams: seq<Workstream>)
  datatype ViewSpec = ViewSpec(name: string, workstreams: seq<Workstream>)
  datatype RetireRequest = RetireRequest(dataSourceId: string, archivedName: string)
  datatype Retirement = Retirement(dataSourceId: string, archivedName: string, locked: bool)

  /** The answers of the workspace, the gateway and the store; None is a call that failed. */
  datatype World = World(
    snapshots: Option<seq<Snapshot>>,
    target: Option<(string, string)>,
    existing: Option<seq<TaskRecord>>,
    local: string -> Option<WorkItem>,
    recordFor: WorkItem -> TaskRecord,
    imports: string -> Option<WorkItem>,
    projected: Option<seq<TaskRecord>>,
    views: nat -> Option<string>,
    samples: nat -> SampleAnswers,
    retirable: nat -> bool,
    retire: nat -> Option<Retirement>,
    writable: Option<seq<string>>)

  datatype Stop =
    | StaleApproval
    | PhaseNotApproved
    | PlanInvalid(problem: Problem)
    | Drifted(drift: DriftError)
    | CallFailed
    | WrongTarget
    | NotAContinuation
    | ConflictingRecord(reference: string)
    | ImportRefused(reference: string)
    | NoSampleFor(sampleWorkstream: Workstream)
    | ImportMiscounted
    | ProjectionMismatch(reference: string)
    | PhaseAUnverified
    | ViewElsewhere(viewName: string)
    | NoWorkItemFor(viewName: string)
    | EditDidNotReach(viewName: string)
    | CannotRetire(dataSourceId: string)
    | StoppedRetiring(dataSourceId: string)
    | SystemsStillWritable

  datatype Sample = Sample(workstream: Workstream, sourceReference: string, workItemId: string)

  datatype PhaseAReport = PhaseAReport(
    approvalId: string,
    sources: seq<SourceReport>,
    imported: seq<string>,
    archiveOnly: seq<string>,
    samples: seq<Sample>)

  datatype PhaseBReport = PhaseBReport(
    views: seq<LinkedView>,
    sampleEdits: seq<SampleEdit>,
    retirements: seq<Retirement>,
    writableTaskSystems: seq<string>)

  const SAMPLE_EDIT_PRIORITY: Priority := High

  const LEGACY_VIEWS: seq<ViewSpec> := [
    ViewSpec("(IP Content Creation) Task To Do List", [ContentCreation]),
    ViewSpec("(MicroSaaS) Task To Do List", [MicroSaaS]),
    ViewSpec("(Academic) Task To Do List", [AcademicWork]),
    ViewSpec("(Job x Life) Task To Do List", [PersonalLife, CareerJob]),
    ViewSpec("(Finance) Task To Do List", [FinanceWork])
  ]

  // ---------------------------------------------------------------- what Phase A checks

  predicate ApprovalMatches(approval: Approval, bindings: Bindings) {
    && Trim(approval.approvalId) != ""
    && approval.planVersion == bindings.planVersion
    && approval.digestVersion == bindings.digestVersion
    && approval.digestSha256 == bindings.digestSha256
    && approval.backupSha256 == bindings.backupSha256
    && approval.phaseAReportSha256 == bindings.phaseAReportSha256
    && approval.executionPhase == bindings.executionPhase
  }

  predicate IsMigration(record: TaskRecord) {
    SOURCE_REFERENCE_PREFIX <= record.sourceReference
  }

  function Migrating(plan: Plan): seq<Decision> {
    Filter(plan.decisions, Migrates)
  }

  function PlannedReferences(plan: Plan): seq<string> {
    References(Migrating(plan))
  }

  function RecordReferences(records: seq<TaskRecord>): seq<string> {
    Map(records, (r: TaskRecord) => r.sourceReference)
  }

  /** Phase B may only continue from exactly one projection of every planned reference. */
  predicate Continues(plan: Plan, existing: seq<TaskRecord>) {
    var projected := RecordReferences(Filter(existing, IsMigration));
    && (forall reference <- PlannedReferences(plan) :: multiset(projected)[reference] == 1)
    && |projected| == |ToSet(PlannedReferences(plan))|
  }

  predicate SafeReplay(plan: Plan, world: World, record: TaskRecord) {
    IsMigration(record) ==>
      && record.sourceReference in PlannedReferences(plan)
      && var local := world.local(record.sourceReference);
         local.Some? && local.value.id == record.workItemId && record == world.recordFor(local.value)
  }

  function AddRecords(titles: map<string, SourceRecord>, dataSourceId: string, records: seq<SourceRecord>): map<string, SourceRecord> {
    if records == [] then titles
    else
      var last := records[|records| - 1];
      AddRecords(titles, dataSourceId, records[..|records| - 1])[SourceReference(dataSourceId, last.pageId) := last]
  }

  function Titles(snapshots: seq<Snapshot>): map<string, SourceRecord> {
    if snapshots == [] then map[]
    else
      var last := snapshots[|snapshots| - 1];
      AddRecords(Titles(snapshots[..|snapshots| - 1]), last.dataSourceId, last.records)
  }

  /** A Work Item carries its decision: every field of it, and of its capture event. */
  predicate MatchesDecision(workspaceId: string, item: WorkItem, decision: Decision, source: SourceRecord) {
    var reference := ReferenceOf(decision);
    && item.workspaceId == workspaceId
    && item.idempotencyKey == reference
    && item.intent == source.title
    && item.state == decision.lifecycle
    && item.workstream == decision.workstream
    && item.executive == decision.executive
    && item.effectKind == "migrated-legacy-task"
    && item.effectValue == reference
    && item.captured == Some(CapturedEvent("ceo-approved-migration", reference, source.legacyStatus,
                                           decision.provenance, decision.workstream, decision.executive))
  }

  predicate Imports(workspaceId: string, plan: Plan, world: World, titles: map<string, SourceRecord>, decision: Decision) {
    var reference := ReferenceOf(decision);
    && reference in titles
    && var existing, imported := world.local(reference), world.imports(reference);
       && (plan.bindings.executionPhase == PhaseB ==> existing.Some?)
       && (existing.Some? ==> MatchesDecision(workspaceId, existing.value, decision, titles[reference]))
       && imported.Some? && MatchesDecision(workspaceId, imported.value, decision, titles[reference])
  }

  /** The imported Work Items, in the order of their decisions. */
  function Imported(decisions: seq<Decision>, world: World): seq<WorkItem>
    requires forall d <- decisions :: world.imports(ReferenceOf(d)).Some?
  {
    seq(|decisions|, i requires 0 <= i < |decisions| => world.imports(ReferenceOf(decisions[i])).value)
  }

  function FirstOf(items: seq<WorkItem>, workstream: Workstream): Option<nat> {
    if items == [] then None
    else
      var earlier := FirstOf(items[..|items| - 1], workstream);
      if earlier.Some? then earlier
      else if items[|items| - 1].workstream == workstream then Some(|items| - 1)
      else None
  }

  function ItemStates(items: seq<WorkItem>): seq<Lifecycle> {
    Map(items, (item: WorkItem) => item.state)
  }

  function ItemRoutes(items: seq<WorkItem>): seq<Route> {
    Map(items, (item: WorkItem) => (item.workstream, item.executive))
  }

  /** The counts of the imported Work Items are the approved ones. */
  predicate ImportCounts(plan: Plan, items: seq<WorkItem>) {
    && |items| == plan.bindings.canonicalImportCount
    && (forall c <- plan.bindings.lifecycleCounts ::
          c.lifecycle != Cancelled ==> multiset(ItemStates(items))[c.lifecycle] == c.count)
    && (forall c <- plan.bindings.routingCounts ::
          multiset(ItemRoutes(items))[(c.workstream, c.executive)] == c.count)
  }

  /** The last projected record under a reference. */
  function LastRecord(records: seq<TaskRecord>, reference: string): Option<TaskRecord> {
    if records == [] then None
    else if records[|records| - 1].sourceReference == reference then Some(records[|records| - 1])
    else LastRecord(records[..|records| - 1], reference)
  }

  predicate ProjectsItem(records: seq<TaskRecord>, reference: string, item: WorkItem) {
    var record := LastRecord(records, reference);
    && record.Some?
    && record.value.workItemId == item.id
    && record.value.intent == item.intent
    && record.value.lifecycle == item.state
    && record.value.workstream == Some(item.workstream)
    && record.value.executive == item.executive
  }

  /** The sources and the target are the approved ones. */
  ghost predicate SourcesPass(plan: Plan, approval: Approval, world: World) {
    && ApprovalMatches(approval, plan.bindings)
    && PlanHolds(plan)
    && world.snapshots.Some? && Drift(plan, world.snapshots.value).Ok?
    && world.target == Some((plan.bindings.databaseId, plan.bindings.dataSourceId))
  }

  /** Every approved record imports as decided, and is counted and projected as approved. */
  ghost predicate ImportsPass(workspaceId: string, plan: Plan, world: World)
    requires world.snapshots.Some?
  {
    var decisions := Migrating(plan);
    && world.existing.Some?
    && (plan.bindings.executionPhase == PhaseB ==> Continues(plan, world.existing.value))
    && (forall record <- world.existing.value :: SafeReplay(plan, world, record))
    && (forall d <- decisions :: Imports(workspaceId, plan, world, Titles(world.snapshots.value), d))
    && var items := Imported(decisions, world);
       && (forall c <- plan.bindings.routingCounts :: FirstOf(items, c.workstream).Some?)
       && ImportCounts(plan, items)
       && world.projected.Some?
       && forall i :: 0 <= i < |items| ==> ProjectsItem(world.projected.value, ReferenceOf(decisions[i]), items[i])
  }

  /** Everything Phase A verifies before it reports. */
  ghost predicate PhaseAPasses(workspaceId: string, plan: Plan, approval: Approval, world: World) {
    SourcesPass(plan, approval, world) && ImportsPass(workspaceId, plan, world)
  }

  // ---------------------------------------------------------------- what Phase B does

  predicate ViewsRead(plan: Plan, world: World) {
    forall i: nat :: i < |LEGACY_VIEWS| ==> world.views(i) == Some(plan.bindings.dataSourceId)
  }

  /** The first n familiar pages, each reading the bound data source. */
  function ApprovedViews(bindings: Bindings, n: nat): seq<LinkedView>
    requires n <= |LEGACY_VIEWS|
  {
    seq(n, i requires 0 <= i < n => LinkedView(LEGACY_VIEWS[i].name, bindings.dataSourceId, LEGACY_VIEWS[i].workstreams))
  }

  /** A migrated record that a familiar page shows. */
  predicate Shows(spec: ViewSpec, record: TaskRecord) {
    record.workstream.Some? && record.workstream.value in spec.workstreams && IsMigration(record)
  }

  function FirstShown(spec: ViewSpec, records: seq<TaskRecord>): Option<TaskRecord> {
    if records == [] then None
    else if Shows(spec, records[0]) then Some(records[0])
    else FirstShown(spec, records[1..])
  }

  /** The edit of a page's sample reached its Work Item and was taken back, or the page shows none. */
  predicate SampleReached(spec: ViewSpec, answers: SampleAnswers) {
    && answers.records.Some?
    && (FirstShown(spec, answers.records.value).Some? ==>
          && answers.before.Some? && answers.upserts && answers.reconciles
          && answers.observed == Some(Some(SAMPLE_EDIT_PRIORITY)) && answers.restores)
  }

  predicate SamplesReached(world: World) {
    forall i: nat :: i < |LEGACY_VIEWS| ==> SampleReached(LEGACY_VIEWS[i], world.samples(i))
  }

  /** The edit of a page's sample, if it shows one. */
  function EditOf(spec: ViewSpec, answers: SampleAnswers): seq<SampleEdit>
    requires SampleReached(spec, answers)
  {
    match FirstShown(spec, answers.records.value)
    case None => []
    case Some(sample) => [SampleEdit(spec.name, sample.workItemId, SAMPLE_EDIT_PRIORITY, answers.before.value)]
  }

  function EditsOf(world: World, n: nat): seq<SampleEdit>
    requires n <= |LEGACY_VIEWS| && forall i: nat :: i < n ==> SampleReached(LEGACY_VIEWS[i], world.samples(i))
  {
    if n == 0 then [] else EditsOf(world, n - 1) + EditOf(LEGACY_VIEWS[n - 1], world.samples(n - 1))
  }

  predicate AllRetirable(plan: Plan, world: World) {
    forall i: nat :: i < |plan.bindings.sources| ==> world.retirable(i)
  }

  /** All that must succeed before the first source is retired. */
  ghost predicate ReadyToRetire(plan: Plan, world: World) {
    ViewsRead(plan, world) && SamplesReached(world) && AllRetirable(plan, world)
  }

  function RequestOf(bindings: Bindings, names: map<string, string>, i: nat): RetireRequest
    requires i < |bindings.sources|
  {
    var id := bindings.sources[i].dataSourceId;
    RetireRequest(id, bindings.archivePrefix + " " + (if id in names then names[id] else id))
  }

  /** What the workspace is asked for the first n sources. */
  function RequestsOf(bindings: Bindings, names: map<string, string>, n: nat): (requests: seq<RetireRequest>)
    requires n <= |bindings.sources|
    ensures |requests| == n
  {
    if n == 0 then [] else RequestsOf(bindings, names, n - 1) + [RequestOf(bindings, names, n - 1)]
  }

  predicate RetiresLocked(world: World, i: nat) {
    world.retire(i).Some? && world.retire(i).value.locked
  }

  /** What it answered for the sources that retire, in order, before one fails or stays unlocked. */
  function Retired(bindings: Bindings, world: World, from: nat): (answers: seq<Retirement>)
    requires from <= |bindings.sources|
    ensures from + |answers| <= |bindings.sources|
    decreases |bindings.sources| - from
  {
    if from < |bindings.sources| && RetiresLocked(world, from)
    then [world.retire(from).value] + Retired(bindings, world, from + 1)
    else []
  }

  /** They are the answers for the longest run of sources that come back locked. */
  lemma {:induction false} RetiredIsTheLockedPrefix(bindings: Bindings, world: World, from: nat)
    requires from <= |bindings.sources|
    ensures var answers := Retired(bindings, world, from);
            && (forall j :: 0 <= j < |answers| ==> answers[j].locked && world.retire(from + j) == Some(answers[j]))
            && (from + |answers| < |bindings.sources| ==> !RetiresLocked(world, from + |answers|))
    decreases |bindings.sources| - from
  {
    if from < |bindings.sources| && RetiresLocked(world, from) {
      RetiredIsTheLockedPrefix(bindings, world, from + 1);
      var answers, later := Retired(bindings, world, from), Retired(bindings, world, from + 1);
      forall j | 0 <= j < |answers|
        ensures answers[j].locked && world.retire(from + j) == Some(answers[j])
      {
        if j > 0 {
          assert answers[j] == later[j - 1] && world.retire(from + 1 + (j - 1)) == Some(later[j - 1]);
        }
      }
    }
  }

  lemma OneMoreAnswer(bindings: Bindings, world: World, i: nat, before: seq<Retirement>)
    requires i < |bindings.sources| && RetiresLocked(world, i)
    ensures before + [world.retire(i).value] + Retired(bindings, world, i + 1) == before + Retired(bindings, world, i)
    ensures |Retired(bindings, world, i)| == 1 + |Retired(bindings, world, i + 1)|
  {
  }

  lemma NoMoreAnswers(bindings: Bindings, world: World, i: nat, before: seq<Retirement>)
    requires i <= |bindings.sources| && (i < |bindings.sources| ==> !RetiresLocked(world, i))
    ensures |Retired(bindings, world, i)| == 0 && before + Retired(bindings, world, i) == before
  {
  }

  datatype RecoveryStage = BeforeCommitPoint | AfterCommitPoint

  class MasterTasksCutover {
    const plan: Plan
    const workspaceId: string
    var phaseAVerified: bool
    var retirements: seq<Retirement>
    var sourceNames: map<string, string>
    /** What the workspace was asked to retire, in order. */
    ghost var retireCalls: seq<RetireRequest>

    constructor (plan: Plan, workspaceId: string)
      ensures this.plan == plan && this.workspaceId == workspaceId
      ensures !phaseAVerified && retirements == [] && sourceNames == map[] && retireCalls == []
    {
      this.plan := plan;
      this.workspaceId := workspaceId;
      phaseAVerified, retirements, sourceNames, retireCalls := false, [], map[], [];
    }

    method CheckApproval(approval: Approval) returns (stop: Option<Stop>)
      ensures stop == if ApprovalMatches(approval, plan.bindings) then None else Some(StaleApproval)
    {
      stop := if ApprovalMatches(approval, plan.bindings) then None else Some(StaleApproval);
    }

    method CheckExisting(world: World, existing: seq<TaskRecord>) returns (stop: Option<Stop>)
      ensures stop.None? <==>
              && (plan.bindings.executionPhase == PhaseB ==> Continues(plan, existing))
              && forall record <- existing :: SafeReplay(plan, world, record)
      ensures stop.Some? ==> stop.value.NotAContinuation? || stop.value.ConflictingRecord?
    {
      if plan.bindings.executionPhase == PhaseB && !Continues(plan, existing) {
        return Some(NotAContinuation);
      }
      for i := 0 to |existing|
        invariant forall record <- existing[..i] :: SafeReplay(plan, world, record)
      {
        assert existing[..i + 1] == existing[..i] + [existing[i]];
        if !SafeReplay(plan, world, existing[i]) {
          assert existing[i] in existing;
          return Some(ConflictingRecord(existing[i].sourceReference));
        }
      }
      assert existing[..|existing|] == existing;
      stop := None;
    }

    method ImportAll(world: World, titles: map<string, SourceRecord>)
      returns (stop: Option<Stop>, references: seq<string>, items: seq<WorkItem>)
      ensures stop.None? <==> forall d <- Migrating(plan) :: Imports(workspaceId, plan, world, titles, d)
      ensures stop.None? ==> references == PlannedReferences(plan) && items == Imported(Migrating(plan), world)
      ensures stop.Some? ==> stop.value.ImportRefused? && stop.value.reference in PlannedReferences(plan)
    {
      var decisions := Migrating(plan);
      stop, references, items := None, [], [];
      for i := 0 to |decisions|
        invariant references == References(decisions)[..i]
        invariant forall d <- decisions[..i] :: Imports(workspaceId, plan, world, titles, d)
        invariant items == Imported(decisions[..i], world)
      {
        var decision := decisions[i];
        assert decisions[..i + 1] == decisions[..i] + [decision];
        if !Imports(workspaceId, plan, world, titles, decision) {
          assert decision in decisions && References(decisions)[i] == ReferenceOf(decision);
          return Some(ImportRefused(ReferenceOf(decision))), references, items;
        }
        references := references + [ReferenceOf(decision)];
        items := items + [world.imports(ReferenceOf(decision)).value];
      }
      assert decisions[..|decisions|] == decisions;
    }

    method FindSamples(references: seq<string>, items: seq<WorkItem>) returns (result: Result<seq<Sample>, Stop>)
      requires |references| == |items|
      ensures result.Ok? <==> forall c <- plan.bindings.routingCounts :: FirstOf(items, c.workstream).Some?
      ensures result.Ok? ==>
                |result.value| == |plan.bindings.routingCounts| &&
                forall i :: 0 <= i < |result.value| ==>
                  var sample := result.value[i];
                  sample.workstream == plan.bindings.routingCounts[i].workstream &&
                  exists k :: 0 <= k < |items| && items[k].workstream == sample.workstream &&
                    sample.sourceReference == references[k] && sample.workItemId == items[k].id
      ensures result.Err? ==> result.error.NoSampleFor?
    {
      var counts := plan.bindings.routingCounts;
      var samples: seq<Sample> := [];
      for i := 0 to |counts|
        invariant |samples| == i
        invariant forall c <- counts[..i] :: FirstOf(items, c.workstream).Some?
        invariant forall j :: 0 <= j < i ==>
                    samples[j].workstream == counts[j].workstream &&
                    exists k :: 0 <= k < |items| && items[k].workstream == samples[j].workstream &&
                      samples[j].sourceReference == references[k] && samples[j].workItemId == items[k].id
      {
        assert counts[..i + 1] == counts[..i] + [counts[i]];
        var found := FirstOf(items, counts[i].workstream);
        if found.None? {
          assert counts[i] in counts;
          return Err(NoSampleFor(counts[i].workstream));
        }
        FirstOfFinds(items, counts[i].workstream);
        samples := samples + [Sample(counts[i].workstream, references[found.value], items[found.value].id)];
      }
      assert counts[..|counts|] == counts;
      result := Ok(samples);
    }

    method CheckProjection(references: seq<string>, items: seq<WorkItem>, projected: seq<TaskRecord>) returns (stop: Option<Stop>)
      requires |references| == |items|
      ensures stop.None? <==> forall i :: 0 <= i < |items| ==> ProjectsItem(projected, references[i], items[i])
      ensures stop.Some? ==> stop.value.ProjectionMismatch?
    {
      for i := 0 to |items|
        invariant forall j :: 0 <= j < i ==> ProjectsItem(projected, references[j], items[j])
      {
        if !ProjectsItem(projected, references[i], items[i]) {
          return Some(ProjectionMismatch(references[i]));
        }
      }
      stop := None;
    }

    /** The records of every snapshot, under their references. */
    method IndexTitles(snapshots: seq<Snapshot>) returns (titles: map<string, SourceRecord>)
      ensures titles == Titles(snapshots)
    {
      titles := map[];
      for i := 0 to |snapshots|
        invariant titles == Titles(snapshots[..i])
      {
        assert snapshots[..i + 1][..i] == snapshots[..i];
        ghost var before := titles;
        var records := snapshots[i].records;
        for j := 0 to |records|
          invariant titles == AddRecords(before, snapshots[i].dataSourceId, records[..j])
        {
          assert records[..j + 1][..j] == records[..j];
          titles := titles[SourceReference(snapshots[i].dataSourceId, records[j].pageId) := records[j]];
        }
        assert records[..|records|] == records;
      }
      assert snapshots[..|snapshots|] == snapshots;
    }

    /** The imports and their verification, once the sources and the target are known to be the bound
      * ones. */
    method ImportAndVerify(approval: Approval, world: World, sources: seq<SourceReport>)
      returns (result: Result<PhaseAReport, Stop>)
      requires world.snapshots.Some?
      modifies this`phaseAVerified
      ensures result.Ok? <==> ImportsPass(workspaceId, plan, world)
      ensures result.Ok? ==>
                && phaseAVerified
                && result.value.sources == sources
                && result.value.imported == PlannedReferences(plan)
                && result.value.archiveOnly == References(Filter(plan.decisions, Archives))
      ensures result.Err? ==> phaseAVerified == old(phaseAVerified)
    {
      if world.existing.None? {
        return Err(CallFailed);
      }
      var stop := CheckExisting(world, world.existing.value);
      if stop.Some? {
        return Err(stop.value);
      }
      var titles := IndexTitles(world.snapshots.value);
      var stopped, references, items := ImportAll(world, titles);
      if stopped.Some? {
        return Err(stopped.value);
      }
      var samples := FindSamples(references, items);
      if samples.Err? {
        return Err(samples.error);
      }
      if !ImportCounts(plan, items) {
        return Err(ImportMiscounted);
      }
      if world.projected.None? {
        return Err(CallFailed);
      }
      stop := CheckProjection(references, items, world.projected.value);
      if stop.Some? {
        return Err(stop.value);
      }
      phaseAVerified := true;
      var archived := References(Filter(plan.decisions, Archives));
      result := Ok(PhaseAReport(approval.approvalId, sources, references, archived, samples.value));
    }

    /** The checks before any import: approval, plan, snapshots and target. The names of the sources read
      * are recorded on the way. */
    method VerifyBeforeImport(approval: Approval, world: World) returns (result: Result<seq<SourceReport>, Stop>)
      modifies this`sourceNames
      ensures result.Ok? <==> SourcesPass(plan, approval, world)
      ensures result.Ok? ==>
                && Drift(plan, world.snapshots.value) == Ok(result.value)
                && forall id <- BoundIds(plan.bindings.sources) :: id in sourceNames && NamedBy(world.snapshots.value, id, sourceNames[id])
    {
      var stale := CheckApproval(approval);
      if stale.Some? {
        return Err(stale.value);
      }
      var problems := ValidateCutoverPlan(plan);
      if |problems| > 0 {
        return Err(PlanInvalid(problems[0]));
      }
      if world.snapshots.None? {
        return Err(CallFailed);
      }
      var drift, names := VerifySnapshots(plan, world.snapshots.value);
      sourceNames := sourceNames + names;
      if drift.Err? {
        return Err(Drifted(drift.error));
      }
      if world.target.None? {
        return Err(CallFailed);
      }
      if world.target.value != (plan.bindings.databaseId, plan.bindings.dataSourceId) {
        return Err(WrongTarget);
      }
      result := Ok(drift.value);
    }

    /** Phase A succeeds exactly when everything it verifies holds, and changes no legacy source. */
    method ExecutePhaseA(approval: Approval, world: World) returns (result: Result<PhaseAReport, Stop>)
      modifies this`phaseAVerified, this`sourceNames
      ensures result.Ok? <==> PhaseAPasses(workspaceId, plan, approval, world)
      ensures result.Ok? ==>
                && phaseAVerified
                && Drift(plan, world.snapshots.value) == Ok(result.value.sources)
                && result.value.imported == PlannedReferences(plan)
                && result.value.archiveOnly == References(Filter(plan.decisions, Archives))
                && forall id <- BoundIds(plan.bindings.sources) :: id in sourceNames && NamedBy(world.snapshots.value, id, sourceNames[id])
      ensures result.Err? ==> phaseAVerified == old(phaseAVerified)
    {
      var sources := VerifyBeforeImport(approval, world);
      if sources.Err? {
        return Err(sources.error);
      }
      result := ImportAndVerify(approval, world, sources.value);
    }

    /** Edits the first record a familiar page shows, and takes the edit back. */
    method EditSample(spec: ViewSpec, answers: SampleAnswers) returns (result: Result<seq<SampleEdit>, Stop>)
      ensures result.Ok? <==> SampleReached(spec, answers)
      ensures result.Ok? ==> result.value == EditOf(spec, answers)
      ensures result.Err? ==> result.error in {CallFailed, NoWorkItemFor(spec.name), EditDidNotReach(spec.name)}
    {
      if answers.records.None? {
        return Err(CallFailed);
      }
      var records := answers.records.value;
      var i := 0;
      while i < |records| && !Shows(spec, records[i])
        invariant 0 <= i <= |records| && FirstShown(spec, records) == FirstShown(spec, records[i..])
      {
        i := i + 1;
      }
      if i == |records| {
        return Ok([]);
      }
      if answers.before.None? {
        return Err(NoWorkItemFor(spec.name));
      }
      if !answers.upserts || !answers.reconciles {
        return Err(CallFailed);
      }
      if answers.observed != Some(Some(SAMPLE_EDIT_PRIORITY)) {
        return Err(EditDidNotReach(spec.name));
      }
      if !answers.restores {
        return Err(CallFailed);
      }
      result := Ok([SampleEdit(spec.name, records[i].workItemId, SAMPLE_EDIT_PRIORITY, answers.before.value)]);
    }

    /** Switches the views and edits a sample through each, then probes every source; nothing is
      * retired here. */
    method PrepareRetirement(world: World)
      returns (stop: Option<Stop>, views: seq<LinkedView>, edits: seq<SampleEdit>)
      ensures stop.None? <==> ReadyToRetire(plan, world)
      ensures stop.None? ==> views == ApprovedViews(plan.bindings, |LEGACY_VIEWS|) && edits == EditsOf(world, |LEGACY_VIEWS|)
    {
      stop, views, edits := None, [], [];
      for i := 0 to |LEGACY_VIEWS|
        invariant views == ApprovedViews(plan.bindings, i)
        invariant forall j: nat :: j < i ==> world.views(j) == Some(plan.bindings.dataSourceId)
      {
        var view := world.views(i);
        if view.None? {
          return Some(CallFailed), views, edits;
        }
        if view.value != plan.bindings.dataSourceId {
          return Some(ViewElsewhere(LEGACY_VIEWS[i].name)), views, edits;
        }
        views := views + [LinkedView(LEGACY_VIEWS[i].name, view.value, LEGACY_VIEWS[i].workstreams)];
      }
      for i := 0 to |LEGACY_VIEWS|
        invariant forall j: nat :: j < i ==> SampleReached(LEGACY_VIEWS[j], world.samples(j))
        invariant edits == EditsOf(world, i)
      {
        var edit := EditSample(LEGACY_VIEWS[i], world.samples(i));
        if edit.Err? {
          return Some(edit.error), views, edits;
        }
        edits := edits + edit.value;
      }
      for i := 0 to |plan.bindings.sources|
        invariant forall j: nat :: j < i ==> world.retirable(j)
      {
        if !world.retirable(i) {
          return Some(CannotRetire(plan.bindings.sources[i].dataSourceId)), views, edits;
        }
      }
    }

    /** Asks for one source; its answer is recorded if it is locked. */
    method RetireSource(world: World, i: nat) returns (retired: bool)
      requires i < |plan.bindings.sources|
      modifies this`retirements, this`retireCalls
      ensures retireCalls == old(retireCalls) + [RequestOf(plan.bindings, sourceNames, i)]
      ensures retired <==> RetiresLocked(world, i)
      ensures retirements == if retired then old(retirements) + [world.retire(i).value] else old(retirements)
    {
      retireCalls := retireCalls + [RequestOf(plan.bindings, sourceNames, i)];
      var answer := world.retire(i);
      retired := answer.Some? && answer.value.locked;
      if retired {
        retirements := retirements + [answer.value];
      }
    }

    /** Retires the sources in order and stops at the first that fails or stays unlocked. That one was
      * asked for but is not recorded; the workspace's answers for the others are. */
    method RetireSources(world: World) returns (stop: Option<Stop>)
      modifies this`retirements, this`retireCalls
      ensures var n, k := |plan.bindings.sources|, |Retired(plan.bindings, world, 0)|;
              && retirements == old(retirements) + Retired(plan.bindings, world, 0)
              && retireCalls == old(retireCalls) + RequestsOf(plan.bindings, sourceNames, if k < n then k + 1 else n)
              && (stop.None? <==> k == n)
              && (stop.Some? ==> stop.value == StoppedRetiring(plan.bindings.sources[k].dataSourceId))
    {
      var sources := plan.bindings.sources;
      ghost var answers: seq<Retirement> := [];
      for i := 0 to |sources|
        invariant retirements == old(retirements) + answers && |answers| == i
        invariant answers + Retired(plan.bindings, world, i) == Retired(plan.bindings, world, 0)
        invariant retireCalls == old(retireCalls) + RequestsOf(plan.bindings, sourceNames, i)
      {
        ghost var asked := RequestsOf(plan.bindings, sourceNames, i);
        assert old(retireCalls) + asked + [RequestOf(plan.bindings, sourceNames, i)] ==
               old(retireCalls) + (asked + [RequestOf(plan.bindings, sourceNames, i)]);
        var retired := RetireSource(world, i);
        if !retired {
          NoMoreAnswers(plan.bindings, world, i, answers);
          return Some(StoppedRetiring(sources[i].dataSourceId));
        }
        OneMoreAnswer(plan.bindings, world, i, answers);
        assert old(retirements) + answers + [world.retire(i).value] == old(retirements) + (answers + [world.retire(i).value]);
        answers := answers + [world.retire(i).value];
      }
      NoMoreAnswers(plan.bindings, world, |sources|, answers);
      stop := None;
    }

    /** Phase B: no source is asked to retire unless Phase A was verified and every view, sample edit and
      * probe succeeded; the recorded retirements are then the locked prefix of the bound sources. */
    method ExecutePhaseB(world: World) returns (result: Result<PhaseBReport, Stop>)
      modifies this`retirements, this`retireCalls
      ensures var n, k := |plan.bindings.sources|, |Retired(plan.bindings, world, 0)|;
              if phaseAVerified && ReadyToRetire(plan, world) then
                && retirements == old(retirements) + Retired(plan.bindings, world, 0)
                && retireCalls == old(retireCalls) + RequestsOf(plan.bindings, sourceNames, if k < n then k + 1 else n)
                && (result.Ok? <==> k == n && world.writable == Some([plan.bindings.dataSourceId]))
              else
                retirements == old(retirements) && retireCalls == old(retireCalls) && result.Err?
      ensures result.Ok? ==>
                && result.value.retirements == retirements
                && result.value.writableTaskSystems == [plan.bindings.dataSourceId]
                && result.value.views == ApprovedViews(plan.bindings, |LEGACY_VIEWS|)
                && ReadyToRetire(plan, world) && result.value.sampleEdits == EditsOf(world, |LEGACY_VIEWS|)
    {
      if !phaseAVerified {
        return Err(PhaseAUnverified);
      }
      var stop, views, edits := PrepareRetirement(world);
      if stop.Some? {
        return Err(stop.value);
      }
      stop := RetireSources(world);
      if stop.Some? {
        return Err(stop.value);
      }
      if world.writable.None? {
        return Err(CallFailed);
      }
      if |world.writable.value| != 1 || world.writable.value[0] != plan.bindings.dataSourceId {
        return Err(SystemsStillWritable);
      }
      assert world.writable.value == [plan.bindings.dataSourceId];
      result := Ok(PhaseBReport(views, edits, retirements, world.writable.value));
    }

    /** Phase B always runs Phase A first. On a fresh object the commit point is honest at every exit:
      * sources are asked to retire only after everything before succeeded, and what is recorded is the
      * locked prefix of the bound sources. */
    method ExecuteApprovedPhaseB(approval: Approval, world: World) returns (result: Result<PhaseBReport, Stop>)
      requires !phaseAVerified && retirements == [] && retireCalls == []
      modifies this`phaseAVerified, this`sourceNames, this`retirements, this`retireCalls
      ensures var n, k := |plan.bindings.sources|, |Retired(plan.bindings, world, 0)|;
              if MayRetire(workspaceId, plan, approval, world) then
                && retirements == Retired(plan.bindings, world, 0)
                && retireCalls == RequestsOf(plan.bindings, sourceNames, if k < n then k + 1 else n)
                && (result.Ok? <==> k == n && world.writable == Some([plan.bindings.dataSourceId]))
              else
                retirements == [] && retireCalls == [] && result.Err?
      ensures result.Ok? ==>
                && result.value.retirements == retirements
                && result.value.writableTaskSystems == [plan.bindings.dataSourceId]
    {
      var stale := CheckApproval(approval);
      if stale.Some? {
        return Err(stale.value);
      }
      if plan.bindings.executionPhase != PhaseB {
        return Err(PhaseNotApproved);
      }
      var phaseA := ExecutePhaseA(approval, world);
      if phaseA.Err? {
        return Err(phaseA.error);
      }
      result := ExecutePhaseB(world);
    }

    /** After the commit point means that a retirement is recorded. */
    function Recovery(): (stage: RecoveryStage)
      reads this`retirements
    {
      if |retirements| > 0 then AfterCommitPoint else BeforeCommitPoint
    }

    /** What recovery says after a run: that the commit point is passed exactly when a retirement is
      * recorded. It says otherwise although a source was asked to retire exactly when the first one
      * failed or came back unlocked. */
    method RecoverAfterRun(approval: Approval, world: World) returns (stage: RecoveryStage)
      requires !phaseAVerified && retirements == [] && retireCalls == []
      modifies this`phaseAVerified, this`sourceNames, this`retirements, this`retireCalls
      ensures stage == AfterCommitPoint <==> retirements != []
      ensures stage == BeforeCommitPoint && retireCalls != [] <==>
                && MayRetire(workspaceId, plan, approval, world)
                && |plan.bindings.sources| > 0 && !RetiresLocked(world, 0)
    {
      var _ := ExecuteApprovedPhaseB(approval, world);
      stage := Recovery();
      assert |Retired(plan.bindings, world, 0)| == 0 <==> |plan.bindings.sources| == 0 || !RetiresLocked(world, 0);
    }
  }

  /** Everything that must have succeeded before any source is asked to retire. */
  ghost predicate MayRetire(workspaceId: string, plan: Plan, approval: Approval, world: World) {
    && plan.bindings.executionPhase == PhaseB
    && PhaseAPasses(workspaceId, plan, approval, world)
    && ReadyToRetire(plan, world)
  }

  /** A snapshot read under an id that carries a name. */
  ghost predicate NamedBy(snapshots: seq<Snapshot>, id: string, name: string) {
    id in ById(snapshots) && ById(snapshots)[id].name == name
  }

  lemma {:induction false} FirstOfFinds(items: seq<WorkItem>, workstream: Workstream)
    ensures match FirstOf(items, workstream)
            case Some(i) => i < |items| && items[i].workstream == workstream &&
                            forall j :: 0 <= j < i ==> items[j].workstream != workstream
            case None => forall item <- items :: item.workstream != workstream
  {
    if items != [] {
      FirstOfFinds(items[..|items| - 1], workstream);
      assert items == items[..|items| - 1] + [items[|items| - 1]];
    }
  }

  // ---------------------------------------------------------------- validation and import compose

  /** A key that occurs and is bound more than once. */
  ghost predicate BoundTwice<K>(keys: seq<K>, bounds: seq<(K, int)>) {
    exists i :: 0 <= i < |bounds| && bounds[i].0 in Keys(bounds[..i]) && bounds[i].0 in keys
  }

  ghost predicate EachCountIsActual<K>(keys: seq<K>, bounds: seq<(K, int)>) {
    forall i :: 0 <= i < |bounds| ==> bounds[i].1 == multiset(keys)[bounds[i].0]
  }

  lemma ActualUnlessBoundTwice<K>(keys: seq<K>, bounds: seq<(K, int)>)
    requires CountsHold(keys, bounds)
    ensures EachCountIsActual(keys, bounds) <==> !BoundTwice(keys, bounds)
  {
    assert forall i :: 0 <= i < |bounds| ==> bounds[i].1 == ActualCount(keys, bounds, i);
    if BoundTwice(keys, bounds) {
      var i :| 0 <= i < |bounds| && bounds[i].0 in Keys(bounds[..i]) && bounds[i].0 in keys;
      assert ActualCount(keys, bounds, i) == 0 < multiset(keys)[bounds[i].0];
    }
  }

  lemma {:induction false} MigratingLifecycleCount(decisions: seq<Decision>, lifecycle: Lifecycle)
    requires forall d <- decisions :: d.lifecycle == Cancelled <==> Archives(d)
    ensures multiset(Lifecycles(Filter(decisions, Migrates)))[lifecycle]
            == if lifecycle == Cancelled then 0 else multiset(Lifecycles(decisions))[lifecycle]
  {
    if decisions != [] {
      var earlier, last := decisions[..|decisions| - 1], decisions[|decisions| - 1];
      assert last in decisions;
      MigratingLifecycleCount(earlier, lifecycle);
      assert Lifecycles(decisions) == Lifecycles(earlier) + [last.lifecycle];
      if Migrates(last) {
        assert Lifecycles(Filter(earlier, Migrates) + [last]) == Lifecycles(Filter(earlier, Migrates)) + [last.lifecycle];
      }
    }
  }

  ghost predicate AllImport(workspaceId: string, plan: Plan, world: World, titles: map<string, SourceRecord>) {
    forall d <- Migrating(plan) :: Imports(workspaceId, plan, world, titles, d)
  }

  lemma ItemsMirrorDecisions(workspaceId: string, plan: Plan, world: World, titles: map<string, SourceRecord>)
    requires AllImport(workspaceId, plan, world, titles)
    ensures var items := Imported(Migrating(plan), world);
            |items| == |Migrating(plan)| &&
            ItemStates(items) == Lifecycles(Migrating(plan)) && ItemRoutes(items) == Routes(plan.decisions)
  {
    var decisions, items := Migrating(plan), Imported(Migrating(plan), world);
    forall i | 0 <= i < |items|
      ensures items[i].state == decisions[i].lifecycle
      ensures items[i].workstream == decisions[i].workstream && items[i].executive == decisions[i].executive
    {
      assert decisions[i] in decisions;
      assert Imports(workspaceId, plan, world, titles, decisions[i]);
    }
  }

  /** The lifecycle counts Phase A compares, as pairs without the archived one. */
  ghost predicate LifecyclesCount(plan: Plan, items: seq<WorkItem>) {
    forall c <- plan.bindings.lifecycleCounts ::
      c.lifecycle != Cancelled ==> multiset(ItemStates(items))[c.lifecycle] == c.count
  }

  lemma LifecyclesCountUnlessBoundTwice(plan: Plan, items: seq<WorkItem>)
    requires PlanHolds(plan) && ItemStates(items) == Lifecycles(Migrating(plan))
    ensures LifecyclesCount(plan, items) <==>
            !BoundTwice(Lifecycles(Migrating(plan)), LifecycleBounds(plan.bindings.lifecycleCounts))
  {
    var counts, bounds := plan.bindings.lifecycleCounts, LifecycleBounds(plan.bindings.lifecycleCounts);
    var states := ItemStates(items);
    forall i | 0 <= i < |counts|
      ensures counts[i].lifecycle != Cancelled ==>
                (multiset(states)[counts[i].lifecycle] == counts[i].count <==>
                 !(bounds[i].0 in Keys(bounds[..i]) && bounds[i].0 in states))
      ensures Cancelled !in states
    {
      MigratingLifecycleCount(plan.decisions, counts[i].lifecycle);
      MigratingLifecycleCount(plan.decisions, Cancelled);
      assert bounds[i].1 == ActualCount(Lifecycles(plan.decisions), bounds, i);
    }
    if LifecyclesCount(plan, items) {
      forall i | 0 <= i < |counts|
        ensures !(bounds[i].0 in Keys(bounds[..i]) && bounds[i].0 in states)
      {
        assert counts[i] in counts;
      }
    }
  }

  lemma RoutesCountUnlessBoundTwice(plan: Plan, items: seq<WorkItem>)
    requires PlanHolds(plan) && ItemRoutes(items) == Routes(plan.decisions)
    ensures (forall c <- plan.bindings.routingCounts ::
               multiset(ItemRoutes(items))[(c.workstream, c.executive)] == c.count) <==>
            !BoundTwice(Routes(plan.decisions), RoutingBounds(plan.bindings.routingCounts))
  {
    var counts, bounds := plan.bindings.routingCounts, RoutingBounds(plan.bindings.routingCounts);
    ActualUnlessBoundTwice(Routes(plan.decisions), bounds);
    assert forall i :: 0 <= i < |counts| ==>
        counts[i] in counts && bounds[i] == ((counts[i].workstream, counts[i].executive), counts[i].count);
  }

  /** Validation and the per-item checks compose: once every item matches its decision, the final count
    * of the imports can only fail for a packet that binds a lifecycle or a route with records twice. */
  lemma ImportCountsFollowFromValidation(workspaceId: string, plan: Plan, world: World, titles: map<string, SourceRecord>)
    requires PlanHolds(plan) && AllImport(workspaceId, plan, world, titles)
    ensures ImportCounts(plan, Imported(Migrating(plan), world)) <==>
            && !BoundTwice(Lifecycles(Migrating(plan)), LifecycleBounds(plan.bindings.lifecycleCounts))
            && !BoundTwice(Routes(plan.decisions), RoutingBounds(plan.bindings.routingCounts))
  {
    var items := Imported(Migrating(plan), world);
    ItemsMirrorDecisions(workspaceId, plan, world, titles);
    LifecyclesCountUnlessBoundTwice(plan, items);
    RoutesCountUnlessBoundTwice(plan, items);
  }

  /** Imported and archived records together are the reviewed ones, each once. */
  lemma ReportAccountsForEveryDecision(plan: Plan)
    requires PlanHolds(plan)
    ensures multiset(PlannedReferences(plan)) + multiset(References(Filter(plan.decisions, Archives)))
            == multiset(References(plan.decisions))
  {
    SplitReferences(plan.decisions);
  }

  lemma {:induction false} SplitReferences(decisions: seq<Decision>)
    ensures multiset(References(Filter(decisions, Migrates))) + multiset(References(Filter(decisions, Archives)))
            == multiset(References(decisions))
  {
    if decisions != [] {
      var earlier, last := decisions[..|decisions| - 1], decisions[|decisions| - 1];
      SplitReferences(earlier);
      assert References(decisions) == References(earlier) + [ReferenceOf(last)];
      if Migrates(last) {
        assert References(Filter(earlier, Migrates) + [last]) == References(Filter(earlier, Migrates)) + [ReferenceOf(last)];
      } else {
        assert References(Filter(earlier, Archives) + [last]) == References(Filter(earlier, Archives)) + [ReferenceOf(last)];
      }
    }
  }
}
