/** The approved cutover plan of src/migration/master-tasks-cutover.ts: its counting validator and the
  * drift check of the live sources against it.
  */
module CutoverPlan {
  import opened Contracts
  import opened Sequences
  import opened Wrappers

  datatype Disposition = Migrate | ArchiveOnly

  /** The four lifecycles a migration may create, and the one an archived record carries. */
  datatype Lifecycle = Captured | Planned | WaitingBlocked | ReadyForCeoReview | Cancelled

  datatype Provenance = NoneInSource | SourceDate | CeoSetDate
  datatype Phase = PhaseA | PhaseB

  datatype SourceBinding = SourceBinding(dataSourceId: string, recordCount: int)
  datatype LifecycleCount = LifecycleCount(lifecycle: Lifecycle, count: int)
  datatype RoutingCount = RoutingCount(workstream: Workstream, executive: Executive, count: int)

  datatype Bindings = Bindings(
    planVersion: string,
    digestVersion: string,
    digestSha256: string,
    backupSha256: string,
    phaseAReportSha256: string,
    executionPhase: Phase,
    databaseId: string,
    dataSourceId: string,
    archivePrefix: string,
    sources: seq<SourceBinding>,
    reviewedRecordCount: int,
    canonicalImportCount: int,
    archiveOnlyCount: int,
    sourceCommitmentCount: int,
    lifecycleCounts: seq<LifecycleCount>,
    routingCounts: seq<RoutingCount>)

  datatype Decision = Decision(
    dataSourceId: string,
    pageId: string,
    payloadHash: string,
    disposition: Disposition,
    lifecycle: Lifecycle,
    workstream: Workstream,
    executive: Executive,
    provenance: Provenance)

  datatype Plan = Plan(bindings: Bindings, decisions: seq<Decision>)

  /** A bound count that the entries do not meet, or an entry no bound count names. */
  datatype Mismatch<K> = WrongCount(key: K, bound: int, actual: int) | Unexpected(key: K)

  datatype Problem =
    | DecisionCount(actual: int, bound: int)
    | RepeatedSourceRecord
    | UnboundSource(pageId: string, dataSourceId: string)
    | WrongExecutive(pageId: string, expected: Executive)
    | ArchiveNotCancelled(pageId: string)
    | LifecycleNotImportable(pageId: string, lifecycle: Lifecycle)
    | SourceCount(dataSourceId: string, bound: int, decided: int)
    | MigrateCount(actual: int, bound: int)
    | ArchiveCount(actual: int, bound: int)
    | CommitmentCount(actual: int, bound: int)
    | LifecycleMismatch(lifecycleCount: Mismatch<Lifecycle>)
    | RoutingMismatch(routingCount: Mismatch<Route>)

  type Route = (Workstream, Executive)

  const SOURCE_REFERENCE_PREFIX: string := "notion-migration:"

  function SourceReference(dataSourceId: string, pageId: string): string {
    SOURCE_REFERENCE_PREFIX + dataSourceId + ":" + pageId
  }

  function ReferenceOf(decision: Decision): string {
    SourceReference(decision.dataSourceId, decision.pageId)
  }

  predicate Migrates(decision: Decision) {
    decision.disposition == Migrate
  }

  predicate Archives(decision: Decision) {
    decision.disposition == ArchiveOnly
  }

  predicate Commits(decision: Decision) {
    decision.provenance != NoneInSource
  }

  function RouteOf(decision: Decision): Route {
    (decision.workstream, decision.executive)
  }

  function References(decisions: seq<Decision>): seq<string> {
    Map(decisions, ReferenceOf)
  }

  function SourceIds(decisions: seq<Decision>): seq<string> {
    Map(decisions, (d: Decision) => d.dataSourceId)
  }

  function Lifecycles(decisions: seq<Decision>): seq<Lifecycle> {
    Map(decisions, (d: Decision) => d.lifecycle)
  }

  function Routes(decisions: seq<Decision>): seq<Route> {
    Map(Filter(decisions, Migrates), RouteOf)
  }

  function BoundIds(sources: seq<SourceBinding>): seq<string> {
    Map(sources, (s: SourceBinding) => s.dataSourceId)
  }

  /** The bound lifecycle and routing counts as pairs of a key and its count. */
  function LifecycleBounds(counts: seq<LifecycleCount>): seq<(Lifecycle, int)> {
    Map(counts, (c: LifecycleCount) => (c.lifecycle, c.count))
  }

  function RoutingBounds(counts: seq<RoutingCount>): seq<(Route, int)> {
    Map(counts, (c: RoutingCount) => ((c.workstream, c.executive), c.count))
  }

  // ---------------------------------------------------------------- counting

  method Counted<K(==)>(keys: seq<K>) returns (counts: map<K, int>, order: seq<K>)
    ensures order == FirstSeen(keys)
    ensures forall k :: k in counts <==> k in keys
    ensures forall k <- counts :: counts[k] == multiset(keys)[k]
  {
    counts, order := map[], [];
    for i := 0 to |keys|
      invariant order == FirstSeen(keys[..i])
      invariant forall k :: k in counts <==> k in keys[..i]
      invariant forall k <- counts :: counts[k] == multiset(keys[..i])[k]
    {
      var identity := keys[i];
      assert keys[..i + 1] == keys[..i] + [identity];
      FirstSeenListsEachOnce(keys[..i]);
      if identity in counts {
        counts := counts[identity := counts[identity] + 1];
      } else {
        order := order + [identity];
        counts := counts[identity := 1];
      }
    }
    assert keys[..|keys|] == keys;
  }

  function Keys<K>(bounds: seq<(K, int)>): seq<K> {
    Map(bounds, (b: (K, int)) => b.0)
  }

  function Counts<K>(bounds: seq<(K, int)>): seq<int> {
    Map(bounds, (b: (K, int)) => b.1)
  }

  /** What a bound count is compared with: each key is spent by the first bound that names it. */
  function ActualCount<K(==)>(keys: seq<K>, bounds: seq<(K, int)>, i: nat): int
    requires i < |bounds|
  {
    if bounds[i].0 in Keys(bounds[..i]) then 0 else multiset(keys)[bounds[i].0]
  }

  function WrongCounts<K(==)>(keys: seq<K>, bounds: seq<(K, int)>, n: nat): seq<Mismatch<K>>
    requires n <= |bounds|
  {
    if n == 0 then []
    else
      var before, actual := WrongCounts(keys, bounds, n - 1), ActualCount(keys, bounds, n - 1);
      if actual != bounds[n - 1].1 then before + [WrongCount(bounds[n - 1].0, bounds[n - 1].1, actual)] else before
  }

  function UnexpectedKeys<K(==)>(order: seq<K>, bounds: seq<(K, int)>): seq<Mismatch<K>> {
    if order == [] then []
    else
      var before, last := UnexpectedKeys(order[..|order| - 1], bounds), order[|order| - 1];
      if last in Keys(bounds) then before else before + [Unexpected(last)]
  }

  function Mismatches<K(==)>(keys: seq<K>, bounds: seq<(K, int)>): seq<Mismatch<K>> {
    WrongCounts(keys, bounds, |bounds|) + UnexpectedKeys(FirstSeen(keys), bounds)
  }

  method CheckCounts<K(==)>(keys: seq<K>, bounds: seq<(K, int)>) returns (mismatches: seq<Mismatch<K>>)
    ensures mismatches == Mismatches(keys, bounds)
  {
    var counts, order := Counted(keys);
    mismatches := [];
    for i := 0 to |bounds|
      invariant mismatches == WrongCounts(keys, bounds, i)
      invariant forall k :: k in counts <==> k in keys && k !in Keys(bounds[..i])
      invariant forall k <- counts :: counts[k] == multiset(keys)[k]
    {
      var key, bound := bounds[i].0, bounds[i].1;
      assert Keys(bounds[..i + 1]) == Keys(bounds[..i]) + [key];
      var actual := if key in counts then counts[key] else 0;
      if actual != bound {
        mismatches := mismatches + [WrongCount(key, bound, actual)];
      }
      counts := counts - {key};
    }
    assert bounds[..|bounds|] == bounds;
    FirstSeenListsEachOnce(keys);
    var unexpected := CheckUnexpected(order, counts, bounds);
    mismatches := mismatches + unexpected;
  }

  /** What was left of the counts once every bound was compared and deleted. */
  method CheckUnexpected<K(==)>(order: seq<K>, counts: map<K, int>, ghost bounds: seq<(K, int)>) returns (unexpected: seq<Mismatch<K>>)
    requires forall k <- order :: k in counts <==> k !in Keys(bounds)
    ensures unexpected == UnexpectedKeys(order, bounds)
  {
    unexpected := [];
    for i := 0 to |order|
      invariant unexpected == UnexpectedKeys(order[..i], bounds)
    {
      assert order[..i + 1][..i] == order[..i];
      if order[i] in counts {
        unexpected := unexpected + [Unexpected(order[i])];
      }
    }
    assert order[..|order|] == order;
  }

  /** Every bound count is met, where a key named again must be bound to zero, and every key is bound. */
  ghost predicate CountsHold<K>(keys: seq<K>, bounds: seq<(K, int)>) {
    && (forall i :: 0 <= i < |bounds| ==> bounds[i].1 == ActualCount(keys, bounds, i))
    && (forall k <- keys :: k in Keys(bounds))
  }

  lemma {:induction false} WrongCountsEmpty<K>(keys: seq<K>, bounds: seq<(K, int)>, n: nat)
    requires n <= |bounds|
    ensures WrongCounts(keys, bounds, n) == [] <==>
            forall i :: 0 <= i < n ==> bounds[i].1 == ActualCount(keys, bounds, i)
  {
    if n > 0 {
      WrongCountsEmpty(keys, bounds, n - 1);
    }
  }

  lemma {:induction false} UnexpectedKeysEmpty<K>(order: seq<K>, bounds: seq<(K, int)>)
    ensures UnexpectedKeys(order, bounds) == [] <==> forall k <- order :: k in Keys(bounds)
  {
    if order != [] {
      UnexpectedKeysEmpty(order[..|order| - 1], bounds);
      assert order == order[..|order| - 1] + [order[|order| - 1]];
    }
  }

  lemma NoMismatchesExactlyWhenCountsHold<K>(keys: seq<K>, bounds: seq<(K, int)>)
    ensures Mismatches(keys, bounds) == [] <==> CountsHold(keys, bounds)
  {
    WrongCountsEmpty(keys, bounds, |bounds|);
    FirstSeenListsEachOnce(keys);
    var order := FirstSeen(keys);
    UnexpectedKeysEmpty(order, bounds);
    var wrong, unexpected := WrongCounts(keys, bounds, |bounds|), UnexpectedKeys(order, bounds);
    assert Mismatches(keys, bounds) == [] <==> |wrong| + |unexpected| == 0;
    assert unexpected == [] <==> forall k <- keys :: k in Keys(bounds) by {
      if k :| k in keys && k !in Keys(bounds) {
        assert k in order;
      }
    }
  }

  /** How many of the keys the first n bounds name. */
  function Named<K(==)>(keys: seq<K>, bounds: seq<(K, int)>, n: nat): int
    requires n <= |bounds|
  {
    if keys == [] then 0
    else
      Named(keys[..|keys| - 1], bounds, n) + if keys[|keys| - 1] in Keys(bounds[..n]) then 1 else 0
  }

  lemma {:induction false} BoundSum<K>(keys: seq<K>, bounds: seq<(K, int)>, n: nat)
    requires n <= |bounds|
    requires forall i :: 0 <= i < n ==> bounds[i].1 == ActualCount(keys, bounds, i)
    ensures Sum(Counts(bounds[..n])) == Named(keys, bounds, n)
  {
    if n == 0 {
      NoneNamed(keys, bounds);
    } else {
      BoundSum(keys, bounds, n - 1);
      assert bounds[..n] == bounds[..n - 1] + [bounds[n - 1]];
      assert Counts(bounds[..n]) == Counts(bounds[..n - 1]) + [bounds[n - 1].1];
      OneMoreName(keys, bounds, n);
    }
  }

  lemma {:induction false} NoneNamed<K>(keys: seq<K>, bounds: seq<(K, int)>)
    ensures Named(keys, bounds, 0) == 0
  {
    if keys != [] {
      NoneNamed(keys[..|keys| - 1], bounds);
    }
  }

  lemma {:induction false} AllNamed<K>(keys: seq<K>, bounds: seq<(K, int)>)
    requires forall k <- keys :: k in Keys(bounds)
    ensures Named(keys, bounds, |bounds|) == |keys|
  {
    assert bounds[..|bounds|] == bounds;
    if keys != [] {
      AllNamed(keys[..|keys| - 1], bounds);
      assert keys[|keys| - 1] in keys;
    }
  }

  /** Naming one more key counts its occurrences, unless it was named already. */
  lemma {:induction false} OneMoreName<K>(keys: seq<K>, bounds: seq<(K, int)>, n: nat)
    requires 1 <= n <= |bounds|
    ensures Named(keys, bounds, n) == Named(keys, bounds, n - 1) + ActualCount(keys, bounds, n - 1)
  {
    if keys != [] {
      var earlier, last := keys[..|keys| - 1], keys[|keys| - 1];
      OneMoreName(earlier, bounds, n);
      assert keys == earlier + [last];
      assert bounds[..n] == bounds[..n - 1] + [bounds[n - 1]];
      assert Keys(bounds[..n]) == Keys(bounds[..n - 1]) + [bounds[n - 1].0];
    }
  }

  /** Counts that hold add up to the number of entries, whether or not a key is bound twice. */
  lemma CountsThatHoldAddUp<K>(keys: seq<K>, bounds: seq<(K, int)>)
    requires CountsHold(keys, bounds)
    ensures Sum(Counts(bounds)) == |keys|
  {
    BoundSum(keys, bounds, |bounds|);
    assert bounds[..|bounds|] == bounds;
    AllNamed(keys, bounds);
  }

  // ---------------------------------------------------------------- validation

  function DecisionProblems(decision: Decision, boundIds: seq<string>): seq<Problem> {
    var expected := RouteExecutive(decision.workstream);
    (if decision.dataSourceId !in boundIds then [UnboundSource(decision.pageId, decision.dataSourceId)] else [])
    + (if decision.executive != expected then [WrongExecutive(decision.pageId, expected)] else [])
    + (if Archives(decision) then
         if decision.lifecycle != Cancelled then [ArchiveNotCancelled(decision.pageId)] else []
       else if decision.lifecycle == Cancelled then [LifecycleNotImportable(decision.pageId, decision.lifecycle)]
       else [])
  }

  function AllDecisionProblems(decisions: seq<Decision>, boundIds: seq<string>): seq<Problem> {
    if decisions == [] then []
    else
      AllDecisionProblems(decisions[..|decisions| - 1], boundIds)
      + DecisionProblems(decisions[|decisions| - 1], boundIds)
  }

  function SourceProblems(sources: seq<SourceBinding>, decidedIds: seq<string>): seq<Problem> {
    if sources == [] then []
    else
      var before, last := SourceProblems(sources[..|sources| - 1], decidedIds), sources[|sources| - 1];
      var actual := multiset(decidedIds)[last.dataSourceId];
      if actual != last.recordCount
      then before + [SourceCount(last.dataSourceId, last.recordCount, actual)]
      else before
  }

  function TotalProblems(plan: Plan): seq<Problem> {
    var bindings, decisions := plan.bindings, plan.decisions;
    var migrating, archiving := |Filter(decisions, Migrates)|, |Filter(decisions, Archives)|;
    var commitments := |Filter(decisions, Commits)|;
    (if migrating != bindings.canonicalImportCount then [MigrateCount(migrating, bindings.canonicalImportCount)] else [])
    + (if archiving != bindings.archiveOnlyCount then [ArchiveCount(archiving, bindings.archiveOnlyCount)] else [])
    + (if commitments != bindings.sourceCommitmentCount
       then [CommitmentCount(commitments, bindings.sourceCommitmentCount)] else [])
  }

  function RecordProblems(plan: Plan): seq<Problem> {
    (if |plan.decisions| != plan.bindings.reviewedRecordCount
     then [DecisionCount(|plan.decisions|, plan.bindings.reviewedRecordCount)] else [])
    + (if !Distinct(References(plan.decisions)) then [RepeatedSourceRecord] else [])
  }

  function LifecycleProblem(mismatch: Mismatch<Lifecycle>): Problem {
    LifecycleMismatch(mismatch)
  }

  function RoutingProblem(mismatch: Mismatch<Route>): Problem {
    RoutingMismatch(mismatch)
  }

  function Problems(plan: Plan): seq<Problem> {
    var bindings, decisions := plan.bindings, plan.decisions;
    RecordProblems(plan)
    + AllDecisionProblems(decisions, BoundIds(bindings.sources))
    + SourceProblems(bindings.sources, SourceIds(decisions))
    + TotalProblems(plan)
    + Map(Mismatches(Lifecycles(decisions), LifecycleBounds(bindings.lifecycleCounts)), LifecycleProblem)
    + Map(Mismatches(Routes(decisions), RoutingBounds(bindings.routingCounts)), RoutingProblem)
  }

  /** What an approved packet promises: every count the CEO read is the count of the decisions. */
  ghost predicate PlanHolds(plan: Plan) {
    var bindings, decisions := plan.bindings, plan.decisions;
    && |decisions| == bindings.reviewedRecordCount
    && Distinct(References(decisions))
    && (forall d <- decisions ::
          && d.dataSourceId in BoundIds(bindings.sources)
          && d.executive == RouteExecutive(d.workstream)
          && (d.lifecycle == Cancelled <==> Archives(d)))
    && (forall s <- bindings.sources :: s.recordCount == multiset(SourceIds(decisions))[s.dataSourceId])
    && |Filter(decisions, Migrates)| == bindings.canonicalImportCount
    && |Filter(decisions, Archives)| == bindings.archiveOnlyCount
    && |Filter(decisions, Commits)| == bindings.sourceCommitmentCount
    && CountsHold(Lifecycles(decisions), LifecycleBounds(bindings.lifecycleCounts))
    && CountsHold(Routes(decisions), RoutingBounds(bindings.routingCounts))
  }

  method CheckDecisions(decisions: seq<Decision>, boundIds: seq<string>) returns (problems: seq<Problem>)
    ensures problems == AllDecisionProblems(decisions, boundIds)
  {
    problems := [];
    for i := 0 to |decisions|
      invariant problems == AllDecisionProblems(decisions[..i], boundIds)
    {
      var decision := decisions[i];
      assert decisions[..i + 1][..i] == decisions[..i];
      if decision.dataSourceId !in boundIds {
        problems := problems + [UnboundSource(decision.pageId, decision.dataSourceId)];
      }
      var expected := RouteExecutive(decision.workstream);
      if decision.executive != expected {
        problems := problems + [WrongExecutive(decision.pageId, expected)];
      }
      if Archives(decision) {
        if decision.lifecycle != Cancelled {
          problems := problems + [ArchiveNotCancelled(decision.pageId)];
        }
      } else if decision.lifecycle == Cancelled {
        problems := problems + [LifecycleNotImportable(decision.pageId, decision.lifecycle)];
      }
      assert problems == AllDecisionProblems(decisions[..i], boundIds) + DecisionProblems(decision, boundIds);
    }
    assert decisions[..|decisions|] == decisions;
  }

  method CheckSources(sources: seq<SourceBinding>, decidedIds: seq<string>) returns (problems: seq<Problem>)
    ensures problems == SourceProblems(sources, decidedIds)
  {
    var perSource, _ := Counted(decidedIds);
    problems := [];
    for i := 0 to |sources|
      invariant problems == SourceProblems(sources[..i], decidedIds)
    {
      var source := sources[i];
      assert sources[..i + 1][..i] == sources[..i];
      var actual := if source.dataSourceId in perSource then perSource[source.dataSourceId] else 0;
      if actual != source.recordCount {
        problems := problems + [SourceCount(source.dataSourceId, source.recordCount, actual)];
      }
    }
    assert sources[..|sources|] == sources;
  }

  method CheckTotals(plan: Plan) returns (problems: seq<Problem>)
    ensures problems == TotalProblems(plan)
  {
    var bindings, decisions := plan.bindings, plan.decisions;
    problems := [];
    var migrating := |Filter(decisions, Migrates)|;
    if migrating != bindings.canonicalImportCount {
      problems := problems + [MigrateCount(migrating, bindings.canonicalImportCount)];
    }
    var archiving := |Filter(decisions, Archives)|;
    if archiving != bindings.archiveOnlyCount {
      problems := problems + [ArchiveCount(archiving, bindings.archiveOnlyCount)];
    }
    var commitments := |Filter(decisions, Commits)|;
    if commitments != bindings.sourceCommitmentCount {
      problems := problems + [CommitmentCount(commitments, bindings.sourceCommitmentCount)];
    }
  }

  method CheckRecords(plan: Plan) returns (problems: seq<Problem>)
    ensures problems == RecordProblems(plan)
  {
    problems := [];
    if |plan.decisions| != plan.bindings.reviewedRecordCount {
      problems := problems + [DecisionCount(|plan.decisions|, plan.bindings.reviewedRecordCount)];
    }
    var references := References(plan.decisions);
    DistinctBySize(references);
    if |ToSet(references)| != |references| {
      problems := problems + [RepeatedSourceRecord];
    }
  }

  method ValidateCutoverPlan(plan: Plan) returns (problems: seq<Problem>)
    ensures problems == Problems(plan)
    ensures problems == [] <==> PlanHolds(plan)
  {
    var bindings, decisions := plan.bindings, plan.decisions;
    problems := CheckRecords(plan);
    var more := CheckDecisions(decisions, BoundIds(bindings.sources));
    problems := problems + more;
    more := CheckSources(bindings.sources, SourceIds(decisions));
    problems := problems + more;
    more := CheckTotals(plan);
    problems := problems + more;
    var lifecycles := CheckCounts(Lifecycles(decisions), LifecycleBounds(bindings.lifecycleCounts));
    problems := problems + Map(lifecycles, LifecycleProblem);
    var routes := CheckCounts(Routes(decisions), RoutingBounds(bindings.routingCounts));
    problems := problems + Map(routes, RoutingProblem);
    NoProblemsExactlyWhenPlanHolds(plan);
  }

  lemma {:induction false} NoDecisionProblems(decisions: seq<Decision>, boundIds: seq<string>)
    ensures AllDecisionProblems(decisions, boundIds) == [] <==>
            forall d <- decisions ::
              && d.dataSourceId in boundIds
              && d.executive == RouteExecutive(d.workstream)
              && (d.lifecycle == Cancelled <==> Archives(d))
  {
    if decisions != [] {
      var earlier, last := decisions[..|decisions| - 1], decisions[|decisions| - 1];
      NoDecisionProblems(earlier, boundIds);
      assert decisions == earlier + [last];
      assert AllDecisionProblems(decisions, boundIds) == [] <==>
             |AllDecisionProblems(earlier, boundIds)| + |DecisionProblems(last, boundIds)| == 0;
      assert DecisionProblems(last, boundIds) == [] <==>
             && last.dataSourceId in boundIds
             && last.executive == RouteExecutive(last.workstream)
             && (last.lifecycle == Cancelled <==> Archives(last));
    }
  }

  lemma {:induction false} NoSourceProblems(sources: seq<SourceBinding>, decidedIds: seq<string>)
    ensures SourceProblems(sources, decidedIds) == [] <==>
            forall s <- sources :: s.recordCount == multiset(decidedIds)[s.dataSourceId]
  {
    if sources != [] {
      NoSourceProblems(sources[..|sources| - 1], decidedIds);
      assert sources == sources[..|sources| - 1] + [sources[|sources| - 1]];
    }
  }

  lemma NoProblemsExactlyWhenPlanHolds(plan: Plan)
    ensures Problems(plan) == [] <==> PlanHolds(plan)
  {
    var bindings, decisions := plan.bindings, plan.decisions;
    NoDecisionProblems(decisions, BoundIds(bindings.sources));
    NoSourceProblems(bindings.sources, SourceIds(decisions));
    NoMismatchesExactlyWhenCountsHold(Lifecycles(decisions), LifecycleBounds(bindings.lifecycleCounts));
    NoMismatchesExactlyWhenCountsHold(Routes(decisions), RoutingBounds(bindings.routingCounts));
    assert Problems(plan) == [] <==>
           |RecordProblems(plan)|
           + |AllDecisionProblems(decisions, BoundIds(bindings.sources))|
           + |SourceProblems(bindings.sources, SourceIds(decisions))|
           + |TotalProblems(plan)|
           + |Mismatches(Lifecycles(decisions), LifecycleBounds(bindings.lifecycleCounts))|
           + |Mismatches(Routes(decisions), RoutingBounds(bindings.routingCounts))| == 0;
  }

  /** A plan that holds conserves its records: imports and archived records make up the reviewed ones,
    * lifecycle counts add up to them, and routing counts add up to the imports. */
  lemma ValidPlanConservesRecords(plan: Plan)
    requires PlanHolds(plan)
    ensures var b := plan.bindings;
            && b.canonicalImportCount + b.archiveOnlyCount == b.reviewedRecordCount
            && Sum(Counts(LifecycleBounds(b.lifecycleCounts))) == b.reviewedRecordCount
            && Sum(Counts(RoutingBounds(b.routingCounts))) == b.canonicalImportCount
            && multiset(Lifecycles(plan.decisions))[Cancelled] == b.archiveOnlyCount
  {
    var decisions := plan.decisions;
    FilterSplits(decisions, Migrates, Archives);
    CountsThatHoldAddUp(Lifecycles(decisions), LifecycleBounds(plan.bindings.lifecycleCounts));
    CountsThatHoldAddUp(Routes(decisions), RoutingBounds(plan.bindings.routingCounts));
    FilterCountsKey(decisions, (d: Decision) => d.lifecycle, Cancelled, Archives);
  }

  /** Bound sources share the reviewed records out between them when none is bound twice. */
  lemma SourceCountsAddUp(plan: Plan)
    requires PlanHolds(plan) && Distinct(BoundIds(plan.bindings.sources))
    ensures Sum(Map(plan.bindings.sources, (s: SourceBinding) => s.recordCount)) == plan.bindings.reviewedRecordCount
  {
    var sources := plan.bindings.sources;
    var bounds := Map(sources, (s: SourceBinding) => (s.dataSourceId, s.recordCount));
    var ids := SourceIds(plan.decisions);
    forall i | 0 <= i < |bounds|
      ensures bounds[i].1 == ActualCount(ids, bounds, i)
    {
      assert sources[i] in sources;
      assert bounds[i].0 !in Keys(bounds[..i]) by {
        assert forall j :: 0 <= j < i ==> BoundIds(sources)[j] != BoundIds(sources)[i];
      }
    }
    forall id | id in ids
      ensures id in Keys(bounds)
    {
      var i :| 0 <= i < |ids| && ids[i] == id;
      assert plan.decisions[i] in plan.decisions;
      assert Keys(bounds) == BoundIds(sources);
    }
    CountsThatHoldAddUp(ids, bounds);
    assert Counts(bounds) == Map(sources, (s: SourceBinding) => s.recordCount);
  }
}
