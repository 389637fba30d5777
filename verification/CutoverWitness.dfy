/** One approved packet and one world, in which a repeated page stands in for a missing one and Phase B goes
  * on to retire the source.
  */
module CutoverWitness {
  import opened Contracts
  import opened CutoverDrift
  import opened CutoverPhases
  import opened CutoverPlan
  import opened Sequences
  import opened Text
  import opened Wrappers

  function Archived(source: string, page: string): Decision {
    Decision(source, page, "hash", ArchiveOnly, Cancelled, PersonalLife, COO, NoneInSource)
  }

  /** Two pages of one source, both archived. */
  function TwoPages(source: string, one: string, other: string): Plan {
    Plan(Bindings("", "", "", "", "", PhaseB, "database", "tasks", "Archived", [SourceBinding(source, 2)], 2, 0, 2, 0,
                  [LifecycleCount(Cancelled, 2)], []),
         [Archived(source, one), Archived(source, other)])
  }

  /** The source as read: the first page twice, the second not at all. */
  function FirstPageTwice(source: string, one: string): seq<Snapshot> {
    [Snapshot(source, "", "Tasks", [SourceRecord(one, "hash", "", ""), SourceRecord(one, "hash", "", "")])]
  }

  lemma TwoIn<T>(a: T, b: T, p: T -> bool)
    ensures Filter([a, b], p) == (if p(a) then [a] else []) + (if p(b) then [b] else [])
  {
    assert [a, b][..1] == [a] && [a][..0] == [];
    assert Filter([a], p) == if p(a) then [a] else [];
  }

  lemma TwoArchived(one: Decision, other: Decision)
    requires Archives(one) && Archives(other) && !Commits(one) && !Commits(other)
    ensures |Filter([one, other], Archives)| == 2
    ensures Filter([one, other], Migrates) == [] == Filter([one, other], Commits)
  {
    TwoIn(one, other, Archives);
    TwoIn(one, other, Migrates);
    TwoIn(one, other, Commits);
  }

  lemma TwoPagesAreTwoRecords(source: string, one: string, other: string)
    requires one != other && ':' !in source
    ensures var plan := TwoPages(source, one, other);
            && Distinct(References(plan.decisions)) && BoundIds(plan.bindings.sources) == [source]
            && (forall s <- plan.bindings.sources :: s.recordCount == multiset(SourceIds(plan.decisions))[s.dataSourceId])
  {
    var plan := TwoPages(source, one, other);
    var a, b := Archived(source, one), Archived(source, other);
    if ReferenceOf(a) == ReferenceOf(b) {
      ReferencesIdentifyRecords(source, one, source, other);
    }
    assert References(plan.decisions) == [ReferenceOf(a), ReferenceOf(b)];
    assert SourceIds(plan.decisions) == [source, source];
  }

  lemma TwoPagesCount(source: string, one: string, other: string)
    ensures var plan := TwoPages(source, one, other);
            && CountsHold(Lifecycles(plan.decisions), LifecycleBounds(plan.bindings.lifecycleCounts))
            && CountsHold(Routes(plan.decisions), RoutingBounds(plan.bindings.routingCounts))
  {
    var plan := TwoPages(source, one, other);
    var bounds := LifecycleBounds(plan.bindings.lifecycleCounts);
    TwoArchived(plan.decisions[0], plan.decisions[1]);
    assert Lifecycles(plan.decisions) == [Cancelled, Cancelled];
    assert bounds == [(Cancelled, 2)];
    assert bounds[..0] == [] && Keys(bounds)[0] == Cancelled;
    assert Routes(plan.decisions) == [] && RoutingBounds(plan.bindings.routingCounts) == [];
  }

  lemma TwoPagesHold(source: string, one: string, other: string)
    requires one != other && ':' !in source
    ensures Packet(TwoPages(source, one, other))
  {
    var plan := TwoPages(source, one, other);
    TwoPagesAreTwoRecords(source, one, other);
    TwoPagesCount(source, one, other);
    TwoArchived(plan.decisions[0], plan.decisions[1]);
    assert BoundIds(plan.bindings.sources)[0] == source;
    assert PlanHolds(plan);
  }

  lemma FirstPageTwiceIsAccepted(source: string, one: string, other: string)
    requires one != other && ':' !in source
    ensures var plan, snapshots := TwoPages(source, one, other), FirstPageTwice(source, one);
            && Drift(plan, snapshots).Ok?
            && (other, "hash") in Decided(plan, source) && (other, "hash") !in Held(snapshots[0])
  {
    var plan, snapshots := TwoPages(source, one, other), FirstPageTwice(source, one);
    var expected := ExpectedHashes(plan.decisions);
    TwoPagesHold(source, one, other);
    ExpectedHashesAre(plan.decisions);
    assert plan.decisions[0] in plan.decisions && plan.decisions[1] in plan.decisions;
    NoRecordsDrift(source, snapshots[0].records, expected);
    assert ById(snapshots) == map[source := snapshots[0]];
    ReportsSucceed(plan.bindings.sources, ById(snapshots), expected);
  }

  /** Every step before retirement goes through; how retiring goes is left open. */
  function OpenWorld(snapshots: seq<Snapshot>, retire: nat -> Option<Retirement>, recordFor: WorkItem -> TaskRecord): World {
    World(Some(snapshots), Some(("database", "tasks")), Some([]), (_: string) => None, recordFor, (_: string) => None,
          Some([]), (_: nat) => Some("tasks"), (_: nat) => SampleAnswers(Some([]), None, true, true, None, true),
          (_: nat) => true, retire, Some(["tasks"]))
  }

  function ApprovalOf(id: string): Approval {
    Approval(id, "", "", "", "", "", PhaseB)
  }

  /** With that packet approved and the second page never read, everything up to retirement succeeds, whatever
    * the workspace then answers: a first retirement that fails included. */
  lemma UnreadPageMayBeRetired(source: string, one: string, other: string, approvalId: string, workspaceId: string,
                               retire: nat -> Option<Retirement>, recordFor: WorkItem -> TaskRecord)
    requires one != other && ':' !in source && Trim(approvalId) != ""
    ensures MayRetire(workspaceId, TwoPages(source, one, other), ApprovalOf(approvalId),
                      OpenWorld(FirstPageTwice(source, one), retire, recordFor))
  {
    var plan, world := TwoPages(source, one, other), OpenWorld(FirstPageTwice(source, one), retire, recordFor);
    TwoPagesHold(source, one, other);
    FirstPageTwiceIsAccepted(source, one, other);
    TwoArchived(plan.decisions[0], plan.decisions[1]);
    assert Migrating(plan) == [];
    assert PlannedReferences(plan) == [];
    assert ToSet(PlannedReferences(plan)) == {};
    assert RecordReferences(Filter([], IsMigration)) == [];
    assert Continues(plan, []);
  }

  /** One packet, approval and world in full: everything before retirement succeeds and the first retirement
    * fails, which is where recovery is wrong about a source that was asked to retire. */
  lemma FirstRetirementMayFail(recordFor: WorkItem -> TaskRecord)
    ensures var plan, world := TwoPages("s", "p", "q"), OpenWorld(FirstPageTwice("s", "p"), (_: nat) => None, recordFor);
            MayRetire("w", plan, ApprovalOf("a"), world) && |plan.bindings.sources| > 0 && !RetiresLocked(world, 0)
  {
    assert Trim("a") == "a";
    UnreadPageMayBeRetired("s", "p", "q", "a", "w", (_: nat) => None, recordFor);
  }
}
