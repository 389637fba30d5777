/** The drift check of src/migration/master-tasks-cutover.ts (`#verifySnapshots`): the live sources must
  * be the ones the CEO reviewed, record for record and hash for hash.
  */
module CutoverDrift {
  import opened CutoverPlan
  import opened Sequences
  import opened Text
  import opened Wrappers

  datatype SourceRecord = SourceRecord(pageId: string, payloadHash: string, title: string, legacyStatus: string)
  datatype Snapshot = Snapshot(dataSourceId: string, parentDatabaseId: string, name: string, records: seq<SourceRecord>)
  datatype SourceReport = SourceReport(dataSourceId: string, parentDatabaseId: string, recordCount: int)

  datatype DriftError =
    | ReadTwice
    | WrongSourceCount
    | SourceMissing(dataSourceId: string)
    | WrongRecordCount(dataSourceId: string)
    | NotReviewed(reference: string)
    | PayloadChanged(reference: string)

  function SnapshotIds(snapshots: seq<Snapshot>): seq<string> {
    Map(snapshots, (s: Snapshot) => s.dataSourceId)
  }

  function PageIds(records: seq<SourceRecord>): seq<string> {
    Map(records, (r: SourceRecord) => r.pageId)
  }

  function ById(snapshots: seq<Snapshot>): map<string, Snapshot> {
    if snapshots == [] then map[]
    else
      var last := snapshots[|snapshots| - 1];
      ById(snapshots[..|snapshots| - 1])[last.dataSourceId := last]
  }

  function ExpectedHashes(decisions: seq<Decision>): map<string, string> {
    if decisions == [] then map[]
    else
      var last := decisions[|decisions| - 1];
      ExpectedHashes(decisions[..|decisions| - 1])[ReferenceOf(last) := last.payloadHash]
  }

  function RecordDrift(dataSourceId: string, record: SourceRecord, expected: map<string, string>): Option<DriftError> {
    var reference := SourceReference(dataSourceId, record.pageId);
    if reference !in expected then Some(NotReviewed(reference))
    else if expected[reference] != record.payloadHash then Some(PayloadChanged(reference))
    else None
  }

  /** The first record that drifted. */
  function RecordsDrift(dataSourceId: string, records: seq<SourceRecord>, expected: map<string, string>): Option<DriftError> {
    if records == [] then None
    else
      var earlier := RecordsDrift(dataSourceId, records[..|records| - 1], expected);
      if earlier.Some? then earlier else RecordDrift(dataSourceId, records[|records| - 1], expected)
  }

  function SourceDrift(source: SourceBinding, byId: map<string, Snapshot>, expected: map<string, string>): Option<DriftError> {
    if source.dataSourceId !in byId then Some(SourceMissing(source.dataSourceId))
    else
      var snapshot := byId[source.dataSourceId];
      if |snapshot.records| != source.recordCount then Some(WrongRecordCount(source.dataSourceId))
      else RecordsDrift(source.dataSourceId, snapshot.records, expected)
  }

  function Reports(
    sources: seq<SourceBinding>, byId: map<string, Snapshot>, expected: map<string, string>
  ): Result<seq<SourceReport>, DriftError>
  {
    if sources == [] then Ok([])
    else
      var earlier, last := Reports(sources[..|sources| - 1], byId, expected), sources[|sources| - 1];
      if earlier.Err? then earlier
      else match SourceDrift(last, byId, expected)
        case Some(error) => Err(error)
        case None =>
          var snapshot := byId[last.dataSourceId];
          Ok(earlier.value + [SourceReport(last.dataSourceId, snapshot.parentDatabaseId, |snapshot.records|)])
  }

  function Drift(plan: Plan, snapshots: seq<Snapshot>): Result<seq<SourceReport>, DriftError> {
    if !Distinct(SnapshotIds(snapshots)) then Err(ReadTwice)
    else if |snapshots| != |plan.bindings.sources| then Err(WrongSourceCount)
    else Reports(plan.bindings.sources, ById(snapshots), ExpectedHashes(plan.decisions))
  }

  method IndexSnapshots(snapshots: seq<Snapshot>) returns (byId: map<string, Snapshot>)
    ensures byId == ById(snapshots)
  {
    byId := map[];
    for i := 0 to |snapshots|
      invariant byId == ById(snapshots[..i])
    {
      assert snapshots[..i + 1][..i] == snapshots[..i];
      byId := byId[snapshots[i].dataSourceId := snapshots[i]];
    }
    assert snapshots[..|snapshots|] == snapshots;
  }

  method IndexHashes(decisions: seq<Decision>) returns (expected: map<string, string>)
    ensures expected == ExpectedHashes(decisions)
  {
    expected := map[];
    for i := 0 to |decisions|
      invariant expected == ExpectedHashes(decisions[..i])
    {
      assert decisions[..i + 1][..i] == decisions[..i];
      expected := expected[ReferenceOf(decisions[i]) := decisions[i].payloadHash];
    }
    assert decisions[..|decisions|] == decisions;
  }

  /** Verifies the snapshots and records the names of the sources verified so far. */
  method VerifySnapshots(plan: Plan, snapshots: seq<Snapshot>)
    returns (result: Result<seq<SourceReport>, DriftError>, names: map<string, string>)
    ensures result == Drift(plan, snapshots)
    ensures forall id <- names :: id in ById(snapshots) && names[id] == ById(snapshots)[id].name
    ensures result.Ok? ==> names.Keys == ToSet(BoundIds(plan.bindings.sources))
  {
    names := map[];
    var byId := IndexSnapshots(snapshots);
    ByIdKeys(snapshots);
    DistinctBySize(SnapshotIds(snapshots));
    if |byId.Keys| != |snapshots| {
      return Err(ReadTwice), names;
    }
    var sources := plan.bindings.sources;
    if |snapshots| != |sources| {
      return Err(WrongSourceCount), names;
    }
    var expected := IndexHashes(plan.decisions);
    result, names := VerifySources(sources, byId, expected);
  }

  method VerifySources(sources: seq<SourceBinding>, byId: map<string, Snapshot>, expected: map<string, string>)
    returns (result: Result<seq<SourceReport>, DriftError>, names: map<string, string>)
    ensures result == Reports(sources, byId, expected)
    ensures forall id <- names :: id in byId && names[id] == byId[id].name
    ensures result.Ok? ==> names.Keys == ToSet(BoundIds(sources))
  {
    names := map[];
    var reports: seq<SourceReport> := [];
    for i := 0 to |sources|
      invariant Reports(sources[..i], byId, expected) == Ok(reports)
      invariant forall id <- names :: id in byId && names[id] == byId[id].name
      invariant names.Keys == ToSet(BoundIds(sources[..i]))
    {
      var source := sources[i];
      assert sources[..i + 1][..i] == sources[..i];
      var drift := CheckSource(source, byId, expected);
      if drift.Some? {
        ReportsStopAtFirstError(sources, byId, expected, i + 1);
        return Err(drift.value), names;
      }
      var snapshot := byId[source.dataSourceId];
      OneMoreBoundId(sources, i);
      names := names[source.dataSourceId := snapshot.name];
      reports := reports + [SourceReport(source.dataSourceId, snapshot.parentDatabaseId, |snapshot.records|)];
    }
    assert sources[..|sources|] == sources;
    result := Ok(reports);
  }

  lemma OneMoreBoundId(sources: seq<SourceBinding>, i: nat)
    requires i < |sources|
    ensures ToSet(BoundIds(sources[..i + 1])) == ToSet(BoundIds(sources[..i])) + {sources[i].dataSourceId}
  {
    assert BoundIds(sources[..i + 1]) == BoundIds(sources[..i]) + [sources[i].dataSourceId];
    ToSetOneMore(BoundIds(sources[..i]), sources[i].dataSourceId);
  }

  method CheckSource(source: SourceBinding, byId: map<string, Snapshot>, expected: map<string, string>)
    returns (drift: Option<DriftError>)
    ensures drift == SourceDrift(source, byId, expected)
  {
    if source.dataSourceId !in byId {
      return Some(SourceMissing(source.dataSourceId));
    }
    var records := byId[source.dataSourceId].records;
    if |records| != source.recordCount {
      return Some(WrongRecordCount(source.dataSourceId));
    }
    for i := 0 to |records|
      invariant RecordsDrift(source.dataSourceId, records[..i], expected) == None
    {
      assert records[..i + 1][..i] == records[..i];
      var reference := SourceReference(source.dataSourceId, records[i].pageId);
      if reference !in expected {
        RecordsStopAtFirstError(source.dataSourceId, records, expected, i + 1);
        return Some(NotReviewed(reference));
      }
      if expected[reference] != records[i].payloadHash {
        RecordsStopAtFirstError(source.dataSourceId, records, expected, i + 1);
        return Some(PayloadChanged(reference));
      }
    }
    assert records[..|records|] == records;
    drift := None;
  }

  lemma {:induction false} RecordsStopAtFirstError(
    dataSourceId: string, records: seq<SourceRecord>, expected: map<string, string>, n: nat)
    requires n <= |records| && RecordsDrift(dataSourceId, records[..n], expected).Some?
    ensures RecordsDrift(dataSourceId, records, expected) == RecordsDrift(dataSourceId, records[..n], expected)
  {
    if n == |records| {
      assert records[..n] == records;
    } else {
      assert records[..|records| - 1][..n] == records[..n];
      RecordsStopAtFirstError(dataSourceId, records[..|records| - 1], expected, n);
    }
  }

  lemma {:induction false} ReportsStopAtFirstError(
    sources: seq<SourceBinding>, byId: map<string, Snapshot>, expected: map<string, string>, n: nat)
    requires n <= |sources| && Reports(sources[..n], byId, expected).Err?
    ensures Reports(sources, byId, expected) == Reports(sources[..n], byId, expected)
  {
    if n == |sources| {
      assert sources[..n] == sources;
    } else {
      assert sources[..|sources| - 1][..n] == sources[..n];
      ReportsStopAtFirstError(sources[..|sources| - 1], byId, expected, n);
    }
  }

  lemma {:induction false} ByIdKeys(snapshots: seq<Snapshot>)
    ensures ById(snapshots).Keys == ToSet(SnapshotIds(snapshots))
    ensures forall id <- ById(snapshots) :: ById(snapshots)[id] in snapshots && ById(snapshots)[id].dataSourceId == id
  {
    if snapshots != [] {
      var earlier, last := snapshots[..|snapshots| - 1], snapshots[|snapshots| - 1];
      ByIdKeys(earlier);
      assert snapshots == earlier + [last];
      assert SnapshotIds(snapshots) == SnapshotIds(earlier) + [last.dataSourceId];
    }
  }

  // ---------------------------------------------------------------- references

  /** References identify records as long as no source id holds a colon. */
  lemma ReferencesIdentifyRecords(id: string, page: string, otherId: string, otherPage: string)
    requires ':' !in id && ':' !in otherId
    requires SourceReference(id, page) == SourceReference(otherId, otherPage)
    ensures id == otherId && page == otherPage
  {
    var n := |SOURCE_REFERENCE_PREFIX|;
    assert SourceReference(id, page)[n..] == id + ":" + page;
    assert SourceReference(otherId, otherPage)[n..] == otherId + ":" + otherPage;
    SameCut(id, page, otherId, otherPage, ':');
  }

  /** With a colon in a source id they need not. */
  lemma ReferencesMayCollide()
    ensures SourceReference("a", "b:c") == SourceReference("a:b", "c")
  {
    assert SourceReference("a", "b:c") == SOURCE_REFERENCE_PREFIX + "a:b:c";
    assert SourceReference("a:b", "c") == SOURCE_REFERENCE_PREFIX + "a:b:c";
  }

  // ---------------------------------------------------------------- exactness

  /** The (page, hash) pairs the plan decides for a source, and those a snapshot holds. */
  ghost function Decided(plan: Plan, dataSourceId: string): set<(string, string)> {
    set d | d in plan.decisions && d.dataSourceId == dataSourceId :: (d.pageId, d.payloadHash)
  }

  ghost function Held(snapshot: Snapshot): set<(string, string)> {
    set r | r in snapshot.records :: (r.pageId, r.payloadHash)
  }

  ghost predicate ColonFree(plan: Plan) {
    forall id <- BoundIds(plan.bindings.sources) :: ':' !in id
  }

  /** The plan as a packet the drift check is meant for: valid, each source bound once. */
  ghost predicate Packet(plan: Plan) {
    PlanHolds(plan) && Distinct(BoundIds(plan.bindings.sources)) && ColonFree(plan)
  }

  lemma {:induction false} ExpectedHashesAre(decisions: seq<Decision>)
    requires Distinct(References(decisions))
    ensures forall d <- decisions ::
              ReferenceOf(d) in ExpectedHashes(decisions) && ExpectedHashes(decisions)[ReferenceOf(d)] == d.payloadHash
    ensures forall reference <- ExpectedHashes(decisions) :: exists d :: d in decisions && ReferenceOf(d) == reference
  {
    if decisions != [] {
      var earlier, last := decisions[..|decisions| - 1], decisions[|decisions| - 1];
      assert forall i :: 0 <= i < |earlier| ==> References(decisions)[i] == References(earlier)[i];
      ExpectedHashesAre(earlier);
      assert decisions == earlier + [last];
      forall d | d in earlier
        ensures ReferenceOf(d) != ReferenceOf(last)
      {
        var i :| 0 <= i < |earlier| && earlier[i] == d;
        assert References(decisions)[i] != References(decisions)[|decisions| - 1];
      }
    }
  }

  lemma {:induction false} NoRecordsDrift(dataSourceId: string, records: seq<SourceRecord>, expected: map<string, string>)
    ensures RecordsDrift(dataSourceId, records, expected).None? <==>
            forall r <- records :: RecordDrift(dataSourceId, r, expected).None?
  {
    if records != [] {
      NoRecordsDrift(dataSourceId, records[..|records| - 1], expected);
      assert records == records[..|records| - 1] + [records[|records| - 1]];
    }
  }

  lemma {:induction false} ReportsSucceed(sources: seq<SourceBinding>, byId: map<string, Snapshot>, expected: map<string, string>)
    ensures Reports(sources, byId, expected).Ok? <==> forall s <- sources :: SourceDrift(s, byId, expected).None?
  {
    if sources != [] {
      ReportsSucceed(sources[..|sources| - 1], byId, expected);
      assert sources == sources[..|sources| - 1] + [sources[|sources| - 1]];
    }
  }

  /** A decision carries a record's reference only if it is about that source and page. */
  lemma ReferencedDecision(plan: Plan, decision: Decision, dataSourceId: string, pageId: string)
    requires Packet(plan) && decision in plan.decisions && dataSourceId in BoundIds(plan.bindings.sources)
    requires ReferenceOf(decision) == SourceReference(dataSourceId, pageId)
    ensures decision.dataSourceId == dataSourceId && decision.pageId == pageId
  {
    ReferencesIdentifyRecords(decision.dataSourceId, decision.pageId, dataSourceId, pageId);
  }

  lemma ReferencedIsDecided(plan: Plan, dataSourceId: string, pageId: string)
    requires Packet(plan) && dataSourceId in BoundIds(plan.bindings.sources)
    requires SourceReference(dataSourceId, pageId) in ExpectedHashes(plan.decisions)
    ensures (pageId, ExpectedHashes(plan.decisions)[SourceReference(dataSourceId, pageId)]) in Decided(plan, dataSourceId)
  {
    var reference := SourceReference(dataSourceId, pageId);
    ExpectedHashesAre(plan.decisions);
    var d :| d in plan.decisions && ReferenceOf(d) == reference;
    ReferencedDecision(plan, d, dataSourceId, pageId);
    assert ExpectedHashes(plan.decisions)[reference] == d.payloadHash;
  }

  lemma DecidedIsReferenced(plan: Plan, dataSourceId: string, pageId: string, hash: string)
    requires Packet(plan) && (pageId, hash) in Decided(plan, dataSourceId)
    ensures SourceReference(dataSourceId, pageId) in ExpectedHashes(plan.decisions)
  {
    ExpectedHashesAre(plan.decisions);
    var d :| d in plan.decisions && d.dataSourceId == dataSourceId && (d.pageId, d.payloadHash) == (pageId, hash);
    assert ReferenceOf(d) == SourceReference(dataSourceId, pageId);
  }

  /** A record does not drift exactly when the plan decided its page with its hash. */
  lemma UndriftedRecordIsDecided(plan: Plan, dataSourceId: string, record: SourceRecord)
    requires Packet(plan) && dataSourceId in BoundIds(plan.bindings.sources)
    ensures RecordDrift(dataSourceId, record, ExpectedHashes(plan.decisions)).None? <==>
            (record.pageId, record.payloadHash) in Decided(plan, dataSourceId)
  {
    var reference, expected := SourceReference(dataSourceId, record.pageId), ExpectedHashes(plan.decisions);
    if (record.pageId, record.payloadHash) in Decided(plan, dataSourceId) {
      DecidedIsReferenced(plan, dataSourceId, record.pageId, record.payloadHash);
    }
    if reference in expected {
      ReferencedIsDecided(plan, dataSourceId, record.pageId);
      if (record.pageId, record.payloadHash) in Decided(plan, dataSourceId) {
        OneHashPerPage(plan, dataSourceId, (record.pageId, expected[reference]), (record.pageId, record.payloadHash));
      }
    }
  }

  function PairsOf(chosen: seq<Decision>): seq<(string, string)> {
    Map(chosen, (d: Decision) => (d.pageId, d.payloadHash))
  }

  lemma PairsAreDecided(plan: Plan, id: string, here: Decision -> bool)
    requires forall d <- plan.decisions :: here(d) <==> d.dataSourceId == id
    ensures ToSet(PairsOf(Filter(plan.decisions, here))) == Decided(plan, id)
  {
    var chosen := Filter(plan.decisions, here);
    FilterKeeps(plan.decisions, here);
    forall d | d in plan.decisions && d.dataSourceId == id
      ensures (d.pageId, d.payloadHash) in PairsOf(chosen)
    {
      assert d in chosen;
      var i :| 0 <= i < |chosen| && chosen[i] == d;
      assert PairsOf(chosen)[i] == (d.pageId, d.payloadHash);
    }
  }

  /** Decisions of one source with references of their own have pairs of their own. */
  lemma PairsAreDistinct(chosen: seq<Decision>, id: string)
    requires (forall d <- chosen :: d.dataSourceId == id) && Distinct(References(chosen))
    ensures Distinct(PairsOf(chosen))
  {
    forall i, j | 0 <= i < j < |chosen|
      ensures PairsOf(chosen)[i] != PairsOf(chosen)[j]
    {
      assert chosen[i] in chosen && chosen[j] in chosen;
      assert ReferenceOf(chosen[i]) == References(chosen)[i] != References(chosen)[j] == ReferenceOf(chosen[j]);
    }
  }

  /** The plan decides as many pairs for a source as it binds records. */
  lemma DecidedSize(plan: Plan, source: SourceBinding)
    requires Packet(plan) && source in plan.bindings.sources
    ensures |Decided(plan, source.dataSourceId)| == source.recordCount
  {
    var id := source.dataSourceId;
    var here := (d: Decision) => d.dataSourceId == id;
    var chosen := Filter(plan.decisions, here);
    FilterKeeps(plan.decisions, here);
    FilterCountsKey(plan.decisions, (d: Decision) => d.dataSourceId, id, here);
    PairsAreDecided(plan, id, here);
    DistinctWithin(plan.decisions, here);
    PairsAreDistinct(chosen, id);
    DistinctBySize(PairsOf(chosen));
  }

  lemma {:induction false} DistinctWithin(decisions: seq<Decision>, p: Decision -> bool)
    requires Distinct(References(decisions))
    ensures Distinct(References(Filter(decisions, p)))
  {
    if decisions != [] {
      var earlier, last := decisions[..|decisions| - 1], decisions[|decisions| - 1];
      assert forall i :: 0 <= i < |earlier| ==> References(decisions)[i] == References(earlier)[i];
      DistinctWithin(earlier, p);
      FilterKeeps(earlier, p);
      var kept := Filter(earlier, p);
      forall i | 0 <= i < |kept|
        ensures References(kept)[i] != ReferenceOf(last)
      {
        assert kept[i] in kept;
        var j :| 0 <= j < |earlier| && earlier[j] == kept[i];
        assert References(decisions)[j] != References(decisions)[|decisions| - 1];
      }
      assert References(kept + [last]) == References(kept) + [ReferenceOf(last)];
    }
  }

  /** A snapshot holds as many distinct pairs as records exactly when no page repeats, given that its
    * pages carry one hash each. */
  lemma HeldSize(plan: Plan, snapshot: Snapshot)
    requires Packet(plan) && Held(snapshot) <= Decided(plan, snapshot.dataSourceId)
    ensures |Held(snapshot)| <= |snapshot.records|
    ensures |Held(snapshot)| == |snapshot.records| <==> Distinct(PageIds(snapshot.records))
  {
    var records := snapshot.records;
    var pairs := Map(records, (r: SourceRecord) => (r.pageId, r.payloadHash));
    DistinctBySize(pairs);
    assert ToSet(pairs) == Held(snapshot) by {
      forall r | r in records
        ensures (r.pageId, r.payloadHash) in pairs
      {
        var i :| 0 <= i < |records| && records[i] == r;
        assert pairs[i] == (r.pageId, r.payloadHash);
      }
    }
    forall i, j | 0 <= i < j < |records|
      ensures pairs[i] == pairs[j] <==> PageIds(records)[i] == PageIds(records)[j]
    {
      assert pairs[i] in Held(snapshot) && pairs[j] in Held(snapshot);
      if PageIds(records)[i] == PageIds(records)[j] {
        OneHashPerPage(plan, snapshot.dataSourceId, pairs[i], pairs[j]);
      }
    }
  }

  lemma SameReferenceSameDecision(decisions: seq<Decision>, d: Decision, e: Decision)
    requires Distinct(References(decisions)) && d in decisions && e in decisions && ReferenceOf(d) == ReferenceOf(e)
    ensures d == e
  {
    var i :| 0 <= i < |decisions| && decisions[i] == d;
    var j :| 0 <= j < |decisions| && decisions[j] == e;
    assert References(decisions)[i] == References(decisions)[j];
  }

  lemma OneHashPerPage(plan: Plan, dataSourceId: string, left: (string, string), right: (string, string))
    requires PlanHolds(plan) && left in Decided(plan, dataSourceId) && right in Decided(plan, dataSourceId)
    requires left.0 == right.0
    ensures left == right
  {
    var d :| d in plan.decisions && d.dataSourceId == dataSourceId && (d.pageId, d.payloadHash) == left;
    var e :| e in plan.decisions && e.dataSourceId == dataSourceId && (e.pageId, e.payloadHash) == right;
    SameReferenceSameDecision(plan.decisions, d, e);
  }

  /** One bound source passes exactly when its snapshot has the bound number of records, all decided. */
  lemma SourcePasses(plan: Plan, source: SourceBinding, snapshot: Snapshot, byId: map<string, Snapshot>)
    requires Packet(plan) && source in plan.bindings.sources
    requires source.dataSourceId in byId && byId[source.dataSourceId] == snapshot
    requires snapshot.dataSourceId == source.dataSourceId
    ensures SourceDrift(source, byId, ExpectedHashes(plan.decisions)).None? <==>
            |snapshot.records| == |Decided(plan, source.dataSourceId)| && Held(snapshot) <= Decided(plan, source.dataSourceId)
  {
    var expected := ExpectedHashes(plan.decisions);
    DecidedSize(plan, source);
    NoRecordsDrift(source.dataSourceId, snapshot.records, expected);
    var i :| 0 <= i < |plan.bindings.sources| && plan.bindings.sources[i] == source;
    assert BoundIds(plan.bindings.sources)[i] == source.dataSourceId;
    forall r | r in snapshot.records
      ensures RecordDrift(source.dataSourceId, r, expected).None? <==>
              (r.pageId, r.payloadHash) in Decided(plan, source.dataSourceId)
    {
      UndriftedRecordIsDecided(plan, source.dataSourceId, r);
    }
    if Held(snapshot) <= Decided(plan, source.dataSourceId) {
      forall r | r in snapshot.records
        ensures RecordDrift(source.dataSourceId, r, expected).None?
      {
        assert (r.pageId, r.payloadHash) in Held(snapshot);
      }
    }
  }

  /** In an accepted read, a snapshot holds exactly the decided records precisely when it does not list
    * a page twice: the count alone lets a repeated page stand in for a missing one. */
  lemma AcceptedSnapshotIsExactWhenPagesDistinct(plan: Plan, snapshots: seq<Snapshot>, snapshot: Snapshot)
    requires Packet(plan) && Drift(plan, snapshots).Ok? && snapshot in snapshots
    ensures Held(snapshot) == Decided(plan, snapshot.dataSourceId) <==> Distinct(PageIds(snapshot.records))
  {
    var byId := ById(snapshots);
    var source := BindingOf(plan, snapshots, snapshot);
    ReportsSucceed(plan.bindings.sources, byId, ExpectedHashes(plan.decisions));
    SourcePasses(plan, source, snapshot, byId);
    HeldSize(plan, snapshot);
    ContainedOfSameSize(Held(snapshot), Decided(plan, snapshot.dataSourceId));
  }

  /** As many distinct snapshots as distinct bindings, each binding found: the ids are the same. */
  lemma AcceptedIdsAreBound(plan: Plan, snapshots: seq<Snapshot>)
    requires Packet(plan) && Drift(plan, snapshots).Ok?
    ensures ToSet(BoundIds(plan.bindings.sources)) == ToSet(SnapshotIds(snapshots))
  {
    var sources, ids := plan.bindings.sources, SnapshotIds(snapshots);
    ByIdKeys(snapshots);
    ReportsSucceed(sources, ById(snapshots), ExpectedHashes(plan.decisions));
    forall id | id in BoundIds(sources)
      ensures id in ById(snapshots)
    {
      var k :| 0 <= k < |sources| && BoundIds(sources)[k] == id;
      assert SourceDrift(sources[k], ById(snapshots), ExpectedHashes(plan.decisions)).None?;
    }
    DistinctBySize(BoundIds(sources));
    DistinctBySize(ids);
    ContainedOfSameSize(ToSet(BoundIds(sources)), ToSet(ids));
  }

  lemma BindingOf(plan: Plan, snapshots: seq<Snapshot>, snapshot: Snapshot) returns (source: SourceBinding)
    requires Packet(plan) && snapshot in snapshots && Drift(plan, snapshots).Ok?
    ensures source in plan.bindings.sources && source.dataSourceId == snapshot.dataSourceId
    ensures snapshot.dataSourceId in ById(snapshots) && ById(snapshots)[snapshot.dataSourceId] == snapshot
  {
    var sources, ids := plan.bindings.sources, SnapshotIds(snapshots);
    AcceptedIdsAreBound(plan, snapshots);
    ByIdKeys(snapshots);
    var i :| 0 <= i < |snapshots| && snapshots[i] == snapshot;
    assert ids[i] in ToSet(ids);
    var k :| 0 <= k < |sources| && BoundIds(sources)[k] == ids[i];
    source := sources[k];
    FoundById(snapshots, snapshot);
  }

  lemma FoundById(snapshots: seq<Snapshot>, snapshot: Snapshot)
    requires Distinct(SnapshotIds(snapshots)) && snapshot in snapshots
    ensures snapshot.dataSourceId in ById(snapshots) && ById(snapshots)[snapshot.dataSourceId] == snapshot
  {
    ByIdKeys(snapshots);
    var ids := SnapshotIds(snapshots);
    var i :| 0 <= i < |snapshots| && snapshots[i] == snapshot;
    assert ids[i] in ToSet(ids);
    var found := ById(snapshots)[snapshot.dataSourceId];
    var j :| 0 <= j < |snapshots| && snapshots[j] == found;
    assert ids[i] == ids[j];
  }

  /** With no page listed twice, the check accepts exactly the decided sources and their decided
    * records. */
  lemma DriftCheckIsExact(plan: Plan, snapshots: seq<Snapshot>)
    requires Packet(plan) && forall s <- snapshots :: Distinct(PageIds(s.records))
    ensures Drift(plan, snapshots).Ok? <==>
            && Distinct(SnapshotIds(snapshots))
            && ToSet(SnapshotIds(snapshots)) == ToSet(BoundIds(plan.bindings.sources))
            && forall s <- snapshots :: Held(s) == Decided(plan, s.dataSourceId)
  {
    var sources, byId, expected := plan.bindings.sources, ById(snapshots), ExpectedHashes(plan.decisions);
    if Drift(plan, snapshots).Ok? {
      forall s | s in snapshots
        ensures Held(s) == Decided(plan, s.dataSourceId)
      {
        AcceptedSnapshotIsExactWhenPagesDistinct(plan, snapshots, s);
      }
      AcceptedIdsAreBound(plan, snapshots);
    } else if Distinct(SnapshotIds(snapshots)) && ToSet(SnapshotIds(snapshots)) == ToSet(BoundIds(sources)) &&
              (forall s <- snapshots :: Held(s) == Decided(plan, s.dataSourceId)) {
      DistinctBySize(BoundIds(sources));
      DistinctBySize(SnapshotIds(snapshots));
      ByIdKeys(snapshots);
      forall source | source in sources
        ensures SourceDrift(source, byId, expected).None?
      {
        var k :| 0 <= k < |sources| && sources[k] == source;
        assert BoundIds(sources)[k] in ToSet(BoundIds(sources));
        var snapshot := byId[source.dataSourceId];
        HeldSize(plan, snapshot);
        SourcePasses(plan, source, snapshot, byId);
      }
      ReportsSucceed(sources, byId, expected);
    }
  }
}
