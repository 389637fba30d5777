/** What every run of ingestions, purges and crashes keeps of the Personal Context store. */
module PersonalContextStore {
  import opened Contracts
  import opened PersonalContext
  import opened RetentionCalendar
  import opened Sequences
  import opened Wrappers

  /** `LeavesPayload`: the process died between writing a payload and inserting its row, or something else
    * put a file into the staging directory. `PurgeDies`: the process died, or the database raised, after n
    * rows, and `unlinked` says whether the next due payload was already removed; `CleanupDies`: the same in
    * the loop over the directory, after some files. */
  datatype Op =
    | IngestOp(allowlist: seq<Approval>, entry: Entry, manifestValid: bool, source: Source, reasons: seq<string>, now: int, inserts: bool)
    | PurgeOp(at: int)
    | PurgeDies(at: int, n: nat, unlinked: bool)
    | CleanupDies(at: int, done: set<PayloadPath>, lost: Option<PayloadPath>)
    | LeavesPayload(path: PayloadPath, file: File)

  const EMPTY: Store := Store([], map[], map[])

  function Step(s: Store, op: Op): Store {
    match op
    case IngestOp(allowlist, entry, manifestValid, source, reasons, now, inserts) =>
      IngestStep(s, allowlist, entry, manifestValid, source, reasons, now, inserts).store
    case PurgeOp(at) => PurgeStep(s, at).store
    case PurgeDies(at, n, unlinked) => DyingPurge(s, at, n, unlinked)
    case CleanupDies(at, done, lost) => DyingCleanup(s, at, done, lost)
    case LeavesPayload(path, file) => if Referenced(s.rows, path) then s else s.(files := s.files[path := file])
  }

  function Run(ops: seq<Op>): Store {
    if ops == [] then EMPTY else Step(Run(ops[..|ops| - 1]), ops[|ops| - 1])
  }

  // ---------------------------------------------------------------- the invariant

  ghost predicate DistinctIds(rows: seq<Row>) {
    forall i, j :: 0 <= i < j < |rows| ==> rows[i].id != rows[j].id
  }

  /** A row holds what its identity calls for: a payload path exactly for a clean snapshot, the candidate
    * before it in its stream, and the end of its retention. */
  predicate RowIsKept(rows: seq<Row>, i: nat)
    requires i < |rows|
  {
    var row := rows[i];
    && row.payload == PayloadOf(row.id, row.quarantineReasons)
    && row.supersedes == LastOfStream(rows[..i], row.id.entry.stream)
    && AddRetention(row.capturedAt, row.id.entry.retention) == Ok(row.purgeEligibleAt)
  }

  ghost predicate RowsAreKept(rows: seq<Row>) {
    DistinctIds(rows) && forall i :: 0 <= i < |rows| ==> RowIsKept(rows, i)
  }

  /** The payload of a purged candidate is gone, and one that is there holds its candidate's content. */
  predicate FileIsSafe(s: Store, row: Row) {
    row.payload.Some? ==>
      && (PurgedCandidate(row.id) in s.events ==> row.payload.value !in s.files)
      && (row.payload.value in s.files ==> s.files[row.payload.value].content == row.id.content)
  }

  /** The payload is gone although nothing records it. */
  predicate IsTorn(s: Store, row: Row) {
    row.payload.Some? && row.payload.value !in s.files && PurgedCandidate(row.id) !in s.events
  }

  /** What every step keeps, wherever the process dies. */
  ghost predicate Safe(s: Store) {
    RowsAreKept(s.rows) && (forall row <- s.rows :: FileIsSafe(s, row)) && OnlyPayloadsPurged(s)
  }

  /** And nothing is torn: a payload file exists exactly while its candidate is not purged. */
  ghost predicate WellKept(s: Store) {
    Safe(s) && forall row <- s.rows :: !IsTorn(s, row)
  }

  ghost predicate OnlyPayloadsPurged(s: Store) {
    forall event <- s.events :: event.PurgedCandidate? ==> RowOf(s.rows, event.id).Some? && RowOf(s.rows, event.id).value.payload.Some?
  }

  // ---------------------------------------------------------------- finding rows

  lemma {:induction false} RowOfFinds(rows: seq<Row>, id: CandidateId)
    ensures match RowOf(rows, id)
            case Some(row) => row in rows && row.id == id
            case None => forall row <- rows :: row.id != id
  {
    if rows != [] && rows[|rows| - 1].id != id {
      RowOfFinds(rows[..|rows| - 1], id);
      assert rows == rows[..|rows| - 1] + [rows[|rows| - 1]];
    }
  }

  lemma {:induction false} RowOfIsTheRow(rows: seq<Row>, row: Row)
    requires DistinctIds(rows) && row in rows
    ensures RowOf(rows, row.id) == Some(row)
  {
    assert rows == rows[..|rows| - 1] + [rows[|rows| - 1]];
    var i :| 0 <= i < |rows| && rows[i] == row;
    if i < |rows| - 1 {
      RowOfIsTheRow(rows[..|rows| - 1], row);
    }
  }

  lemma PayloadNamesItsRow(rows: seq<Row>, row: Row)
    requires RowsAreKept(rows) && row in rows && row.payload.Some?
    ensures row.payload.value == PayloadFor(row.id)
  {
    var i :| 0 <= i < |rows| && rows[i] == row;
    assert RowIsKept(rows, i);
  }

  // ---------------------------------------------------------------- ingestion

  lemma NewRowIsKept(s: Store, row: Row)
    requires RowsAreKept(s.rows) && RowOf(s.rows, row.id) == None
    requires RowIsKept(s.rows + [row], |s.rows|)
    ensures RowsAreKept(s.rows + [row])
  {
    RowOfFinds(s.rows, row.id);
    forall i | 0 <= i < |s.rows|
      ensures RowIsKept(s.rows + [row], i)
    {
      assert RowIsKept(s.rows, i) && (s.rows + [row])[..i] == s.rows[..i];
    }
  }

  lemma InsertKeeps(s: Store, row: Row, inserts: bool)
    requires Safe(s) && RowOf(s.rows, row.id) == None
    requires RowIsKept(s.rows + [row], |s.rows|)
    ensures Safe(Insert(s, row, inserts).store)
  {
    RowOfFinds(s.rows, row.id);
    var after := Insert(s, row, inserts).store;
    forall kept | kept in s.rows
      ensures FileIsSafe(after, kept)
    {
      if kept.payload.Some? {
        PayloadNamesItsRow(s.rows, kept);
      }
      assert FileIsSafe(s, kept);
    }
    if inserts {
      NewRowIsKept(s, row);
      assert after.rows[..|s.rows|] == s.rows;
      assert FileIsSafe(after, row) by {
        assert PurgedCandidate(row.id) !in s.events;
      }
    }
  }

  lemma IngestKeeps(s: Store, op: Op)
    requires Safe(s) && op.IngestOp?
    ensures Safe(Step(s, op))
  {
    var id := IdOf(op.entry, op.source);
    var eligibleAt := AddRetention(op.now, op.entry.retention);
    if RowOf(s.rows, id) == None && eligibleAt.Ok? {
      var row := NewRow(s, id, op.now, op.reasons, eligibleAt.value);
      assert (s.rows + [row])[..|s.rows|] == s.rows;
      InsertKeeps(s, row, op.inserts);
    }
  }

  /** Ingesting again what was ingested adds no row and changes nothing, whatever time has passed, even
    * after its payload was purged; it answers with the row there is. */
  lemma ReingestionAddsNothing(s: Store, first: Op, again: Op)
    requires first.IngestOp? && again.IngestOp? && first.entry == again.entry && first.source == again.source
    requires first.allowlist == again.allowlist && first.manifestValid == again.manifestValid
    requires IngestStep(s, first.allowlist, first.entry, first.manifestValid, first.source, first.reasons, first.now, first.inserts).result.Ok?
    ensures var done := IngestStep(s, first.allowlist, first.entry, first.manifestValid, first.source, first.reasons, first.now, first.inserts);
            IngestStep(done.store, again.allowlist, again.entry, again.manifestValid, again.source, again.reasons, again.now, again.inserts) == done
  {
  }

  // ---------------------------------------------------------------- supersession

  predicate InStream(row: Row, stream: Stream) {
    row.id.entry.stream == stream
  }

  /** The candidates of a stream, in the order of their insertion. */
  function StreamRows(rows: seq<Row>, stream: Stream): seq<Row> {
    if rows == [] then []
    else
      var earlier, last := StreamRows(rows[..|rows| - 1], stream), rows[|rows| - 1];
      if InStream(last, stream) then earlier + [last] else earlier
  }

  lemma {:induction false} LastOfStreamIsLast(rows: seq<Row>, stream: Stream)
    ensures var chain := StreamRows(rows, stream);
            LastOfStream(rows, stream) == if chain == [] then None else Some(chain[|chain| - 1].id)
  {
    if rows != [] {
      LastOfStreamIsLast(rows[..|rows| - 1], stream);
    }
  }

  lemma EarlierRowsAreKept(rows: seq<Row>)
    requires RowsAreKept(rows) && rows != []
    ensures RowsAreKept(rows[..|rows| - 1])
  {
    var earlier := rows[..|rows| - 1];
    forall i | 0 <= i < |earlier|
      ensures RowIsKept(earlier, i)
    {
      assert earlier[..i] == rows[..i] && RowIsKept(rows, i);
    }
  }

  /** Each supersedes the one immediately before it, and the first supersedes none. */
  ghost predicate Chained(chain: seq<Row>) {
    && (chain != [] ==> chain[0].supersedes == None)
    && (forall j, k :: 0 <= j < k < |chain| && k == j + 1 ==> chain[k].supersedes == Some(chain[j].id))
  }

  lemma ChainedOneMore(chain: seq<Row>, last: Row)
    requires Chained(chain) && last.supersedes == if chain == [] then None else Some(chain[|chain| - 1].id)
    ensures Chained(chain + [last])
  {
  }

  lemma NewestSupersedes(rows: seq<Row>)
    requires RowsAreKept(rows) && rows != []
    ensures var last := rows[|rows| - 1]; last.supersedes == LastOfStream(rows[..|rows| - 1], last.id.entry.stream)
  {
    assert RowIsKept(rows, |rows| - 1);
  }

  /** The candidates of a stream are one chain, in the order of their insertion. */
  lemma {:induction false} StreamIsOneChain(rows: seq<Row>, stream: Stream)
    requires RowsAreKept(rows)
    ensures Chained(StreamRows(rows, stream))
  {
    if rows != [] {
      var earlier := rows[..|rows| - 1];
      EarlierRowsAreKept(rows);
      StreamIsOneChain(earlier, stream);
      NewestSupersedes(rows);
      LastOfStreamIsLast(earlier, stream);
      if InStream(rows[|rows| - 1], stream) {
        ChainedOneMore(StreamRows(earlier, stream), rows[|rows| - 1]);
      }
    }
  }

  // ---------------------------------------------------------------- purging

  lemma PurgeRowKeeps(p: Purged, row: Row, at: int)
    requires Safe(p.store) && row in p.store.rows
    ensures Safe(PurgeRow(p, row, at).store) && PurgeRow(p, row, at).store.rows == p.store.rows
  {
    var after := PurgeRow(p, row, at).store;
    RowOfIsTheRow(p.store.rows, row);
    forall kept | kept in p.store.rows
      ensures FileIsSafe(after, kept)
    {
      assert FileIsSafe(p.store, kept);
      if kept.payload.Some? && row.payload.Some? {
        PayloadNamesItsRow(p.store.rows, kept);
        PayloadNamesItsRow(p.store.rows, row);
      }
      if kept.id == row.id {
        RowOfIsTheRow(p.store.rows, kept);
      }
    }
  }

  lemma {:induction false} PurgeRowsKeeps(s: Store, n: nat, at: int)
    requires Safe(s) && n <= |s.rows|
    ensures Safe(PurgeRows(s, n, at).store) && PurgeRows(s, n, at).store.rows == s.rows
  {
    if n > 0 {
      PurgeRowsKeeps(s, n - 1, at);
      PurgeRowKeeps(PurgeRows(s, n - 1, at), s.rows[n - 1], at);
    }
  }

  /** Removing orphans among some paths deletes no payload that a row refers to, and records no candidate as
    * purged. */
  lemma SomeOrphansAreUnreferenced(s: Store, paths: set<PayloadPath>, at: int)
    ensures var after := RemoveAmong(s, paths, at);
            && after.rows == s.rows
            && (forall path :: Referenced(s.rows, path) ==>
                  (path in after.files <==> path in s.files) && (path in s.files ==> after.files[path] == s.files[path]))
            && (forall id :: PurgedCandidate(id) in after.events <==> PurgedCandidate(id) in s.events)
  {
  }

  /** Orphan cleanup deletes no payload that a row refers to, and records no candidate as purged. */
  lemma OrphansAreUnreferenced(s: Store, at: int)
    ensures var after := RemoveOrphans(s, at);
            && after.rows == s.rows
            && (forall path :: Referenced(s.rows, path) ==>
                  (path in after.files <==> path in s.files) && (path in s.files ==> after.files[path] == s.files[path]))
            && (forall id :: PurgedCandidate(id) in after.events <==> PurgedCandidate(id) in s.events)
            && (forall path <- after.files :: path in s.files && after.files[path] == s.files[path] && !IsOrphan(s, path, at))
            && (forall event <- s.events :: event in after.events && after.events[event] == s.events[event])
  {
  }

  /** Steps away from the payloads of rows and from the record of candidates. */
  ghost predicate Untouched(s: Store, after: Store) {
    && after.rows == s.rows
    && (forall path :: Referenced(s.rows, path) ==>
          (path in after.files <==> path in s.files) && (path in s.files ==> after.files[path] == s.files[path]))
    && (forall id :: PurgedCandidate(id) in after.events <==> PurgedCandidate(id) in s.events)
  }

  lemma UntouchedIsSafe(s: Store, after: Store)
    requires Safe(s) && Untouched(s, after)
    ensures Safe(after)
    ensures forall row <- s.rows :: IsTorn(after, row) <==> IsTorn(s, row)
  {
    forall row | row in s.rows
      ensures FileIsSafe(after, row)
      ensures IsTorn(after, row) <==> IsTorn(s, row)
    {
      assert FileIsSafe(s, row);
      if row.payload.Some? {
        assert Referenced(s.rows, row.payload.value);
      }
    }
  }

  lemma RemoveOrphansKeeps(s: Store, at: int)
    requires Safe(s)
    ensures Safe(RemoveOrphans(s, at))
  {
    OrphansAreUnreferenced(s, at);
    UntouchedIsSafe(s, RemoveOrphans(s, at));
  }

  lemma DyingCleanupTouchesNothing(s: Store, at: int, done: set<PayloadPath>, lost: Option<PayloadPath>)
    requires PurgeRows(s, |s.rows|, at).store.rows == s.rows
    ensures Untouched(PurgeRows(s, |s.rows|, at).store, DyingCleanup(s, at, done, lost))
  {
    SomeOrphansAreUnreferenced(PurgeRows(s, |s.rows|, at).store, done, at);
  }

  lemma InterruptedIsSafe(s: Store, n: nat, at: int)
    requires Safe(s) && n < |s.rows| && s.rows[n].payload.Some?
    ensures Safe(Interrupted(s, n, at))
  {
    PurgeRowsKeeps(s, n, at);
    var before, after := PurgeRows(s, n, at).store, Interrupted(s, n, at);
    forall row | row in s.rows
      ensures FileIsSafe(after, row)
    {
      assert FileIsSafe(before, row);
    }
  }

  lemma StepKeeps(s: Store, op: Op)
    requires Safe(s)
    ensures Safe(Step(s, op))
  {
    match op
    case IngestOp(_, _, _, _, _, _, _) => IngestKeeps(s, op);
    case PurgeOp(at) => {
      PurgeRowsKeeps(s, |s.rows|, at);
      RemoveOrphansKeeps(PurgeRows(s, |s.rows|, at).store, at);
    }
    case PurgeDies(at, n, unlinked) =>
      if n <= |s.rows| {
        PurgeRowsKeeps(s, n, at);
        if n < |s.rows| && s.rows[n].payload.Some? {
          InterruptedIsSafe(s, n, at);
        }
      }
    case CleanupDies(at, done, lost) => {
      PurgeRowsKeeps(s, |s.rows|, at);
      DyingCleanupTouchesNothing(s, at, done, lost);
      UntouchedIsSafe(PurgeRows(s, |s.rows|, at).store, Step(s, op));
    }
    case LeavesPayload(path, file) => UntouchedIsSafe(s, Step(s, op));
  }

  /** Over every run, wherever the process dies: rows are as their identities call for, the payload of a purged
    * candidate is gone, and one that is there holds its candidate's content. */
  lemma {:induction false} EveryRunKeeps(ops: seq<Op>)
    ensures Safe(Run(ops))
  {
    if ops != [] {
      EveryRunKeeps(ops[..|ops| - 1]);
      StepKeeps(Run(ops[..|ops| - 1]), ops[|ops| - 1]);
    }
  }

  // ---------------------------------------------------------------- exactly the due rows

  /** The ids of the rows that are due and not yet purged. */
  function DueIds(rows: seq<Row>, events: map<EventId, int>, at: int): seq<CandidateId> {
    if rows == [] then []
    else
      var earlier, last := DueIds(rows[..|rows| - 1], events, at), rows[|rows| - 1];
      if IsDue(last, at) && PurgedCandidate(last.id) !in events then earlier + [last.id] else earlier
  }

  predicate DueAmong(rows: seq<Row>, n: nat, id: CandidateId, at: int)
    requires n <= |rows|
  {
    exists i :: 0 <= i < n && rows[i].id == id && IsDue(rows[i], at)
  }

  lemma {:induction false} PurgeRowsIsExact(s: Store, n: nat, at: int)
    requires DistinctIds(s.rows) && n <= |s.rows|
    ensures PurgeRows(s, n, at).ids == DueIds(s.rows[..n], s.events, at)
    ensures forall id :: PurgedCandidate(id) in PurgeRows(s, n, at).store.events <==>
                         PurgedCandidate(id) in s.events || DueAmong(s.rows, n, id, at)
  {
    if n > 0 {
      PurgeRowsIsExact(s, n - 1, at);
      assert s.rows[..n][..n - 1] == s.rows[..n - 1];
      var row := s.rows[n - 1];
      assert !DueAmong(s.rows, n - 1, row.id, at);
      forall id
        ensures DueAmong(s.rows, n, id, at) <==> DueAmong(s.rows, n - 1, id, at) || (row.id == id && IsDue(row, at))
      {
        if row.id == id && IsDue(row, at) {
          assert s.rows[n - 1].id == id;
        }
      }
    }
  }

  /** A purge returns, in row order, exactly the rows with a payload whose retention has ended and that no
    * earlier purge took, and afterwards exactly those and the earlier ones are recorded. */
  lemma PurgeIsExact(s: Store, at: int)
    requires Safe(s)
    ensures PurgeStep(s, at).ids == DueIds(s.rows, s.events, at)
    ensures forall id :: PurgedCandidate(id) in PurgeStep(s, at).store.events <==>
                         PurgedCandidate(id) in s.events || DueAmong(s.rows, |s.rows|, id, at)
  {
    PurgeRowsIsExact(s, |s.rows|, at);
    assert s.rows[..|s.rows|] == s.rows;
    OrphansAreUnreferenced(PurgeRows(s, |s.rows|, at).store, at);
  }

  /** The candidates that an operation reports as purged, and those that one which died has recorded without
    * reporting them. */
  function Reported(s: Store, op: Op): seq<CandidateId> {
    if op.PurgeOp? then PurgeStep(s, op.at).ids else []
  }

  function Unreported(s: Store, op: Op): seq<CandidateId> {
    match op
    case PurgeDies(at, n, _) => if n <= |s.rows| then PurgeRows(s, n, at).ids else []
    case CleanupDies(at, _, _) => PurgeRows(s, |s.rows|, at).ids
    case _ => []
  }

  function TimesReported(ops: seq<Op>, id: CandidateId): nat {
    if ops == [] then 0
    else
      var earlier := ops[..|ops| - 1];
      TimesReported(earlier, id) + multiset(Reported(Run(earlier), ops[|ops| - 1]))[id]
  }

  function TimesUnreported(ops: seq<Op>, id: CandidateId): nat {
    if ops == [] then 0
    else
      var earlier := ops[..|ops| - 1];
      TimesUnreported(earlier, id) + multiset(Unreported(Run(earlier), ops[|ops| - 1]))[id]
  }

  lemma DueAmongOneMore(rows: seq<Row>, id: CandidateId, at: int)
    requires rows != []
    ensures var earlier, last := rows[..|rows| - 1], rows[|rows| - 1];
            DueAmong(rows, |rows|, id, at) <==> DueAmong(earlier, |earlier|, id, at) || (last.id == id && IsDue(last, at))
  {
    var earlier := rows[..|rows| - 1];
    assert forall i :: 0 <= i < |earlier| ==> earlier[i] == rows[i];
    assert rows[|rows| - 1] == rows[|earlier|];
    if DueAmong(earlier, |earlier|, id, at) {
      var i :| 0 <= i < |earlier| && earlier[i].id == id && IsDue(earlier[i], at);
      assert rows[i].id == id && IsDue(rows[i], at);
    }
  }

  lemma LastIsOnlyDueOnce(rows: seq<Row>, id: CandidateId, at: int)
    requires DistinctIds(rows) && rows != [] && rows[|rows| - 1].id == id
    ensures !DueAmong(rows[..|rows| - 1], |rows| - 1, id, at)
  {
    assert forall i :: 0 <= i < |rows| - 1 ==> rows[..|rows| - 1][i] == rows[i];
  }

  lemma {:induction false} DueOnce(rows: seq<Row>, events: map<EventId, int>, at: int, id: CandidateId)
    requires DistinctIds(rows)
    ensures multiset(DueIds(rows, events, at))[id] ==
            if DueAmong(rows, |rows|, id, at) && PurgedCandidate(id) !in events then 1 else 0
  {
    if rows != [] {
      DueOnce(rows[..|rows| - 1], events, at, id);
      DueAmongOneMore(rows, id, at);
      if rows[|rows| - 1].id == id {
        LastIsOnlyDueOnce(rows, id, at);
      }
    }
  }

  predicate Recorded(s: Store, id: CandidateId) {
    PurgedCandidate(id) in s.events
  }

  lemma PurgeRowsRecordsOnce(s: Store, n: nat, at: int, id: CandidateId)
    requires DistinctIds(s.rows) && n <= |s.rows|
    ensures multiset(PurgeRows(s, n, at).ids)[id] ==
            if Recorded(PurgeRows(s, n, at).store, id) && !Recorded(s, id) then 1 else 0
    ensures Recorded(s, id) ==> Recorded(PurgeRows(s, n, at).store, id)
  {
    var rows := s.rows[..n];
    PurgeRowsIsExact(s, n, at);
    DueOnce(rows, s.events, at, id);
    assert DueAmong(rows, n, id, at) <==> DueAmong(s.rows, n, id, at) by {
      assert forall i :: 0 <= i < n ==> rows[i] == s.rows[i];
      if DueAmong(s.rows, n, id, at) {
        var i :| 0 <= i < n && s.rows[i].id == id && IsDue(s.rows[i], at);
        assert rows[i].id == id && IsDue(rows[i], at);
      }
    }
  }

  /** An operation records a candidate exactly when it reports it or dies with it. */
  lemma StepRecordsOnce(s: Store, op: Op, id: CandidateId)
    requires Safe(s)
    ensures multiset(Reported(s, op))[id] + multiset(Unreported(s, op))[id] ==
            if Recorded(Step(s, op), id) && !Recorded(s, id) then 1 else 0
    ensures Recorded(s, id) ==> Recorded(Step(s, op), id)
  {
    match op
    case PurgeOp(at) => {
      PurgeRowsRecordsOnce(s, |s.rows|, at, id);
      OrphansAreUnreferenced(PurgeRows(s, |s.rows|, at).store, at);
    }
    case PurgeDies(at, n, _) =>
      if n <= |s.rows| {
        PurgeRowsRecordsOnce(s, n, at, id);
      }
    case CleanupDies(at, done, _) => {
      PurgeRowsRecordsOnce(s, |s.rows|, at, id);
      SomeOrphansAreUnreferenced(PurgeRows(s, |s.rows|, at).store, done, at);
    }
    case _ => {}
  }

  /** Over every run, a candidate is purged at most once: once if it is recorded as purged, by a purge that
    * reported it or by one that died afterwards. */
  lemma {:induction false} PurgedAtMostOnce(ops: seq<Op>, id: CandidateId)
    ensures TimesReported(ops, id) + TimesUnreported(ops, id) == if Recorded(Run(ops), id) then 1 else 0
  {
    if ops != [] {
      PurgedAtMostOnce(ops[..|ops| - 1], id);
      EveryRunKeeps(ops[..|ops| - 1]);
      StepRecordsOnce(Run(ops[..|ops| - 1]), ops[|ops| - 1], id);
    }
  }

  // ---------------------------------------------------------------- how long a payload lives

  lemma PurgeRowsLeavesNothingDue(s: Store, at: int, row: Row)
    requires Safe(s) && row in s.rows && IsDue(row, at)
    ensures row.payload.value !in PurgeStep(s, at).store.files
  {
    PurgeRowsKeeps(s, |s.rows|, at);
    RemoveOrphansKeeps(PurgeRows(s, |s.rows|, at).store, at);
    PurgeIsExact(s, at);
    var i :| 0 <= i < |s.rows| && s.rows[i] == row;
    assert DueAmong(s.rows, |s.rows|, row.id, at);
    assert FileIsSafe(PurgeStep(s, at).store, row);
  }

  /** After a purge no staged file is older than thirty days: a candidate's payload was captured within the
    * thirty days before the purge, and any other file was last changed within them. */
  lemma NothingStagedOutlivesThirtyDays(s: Store, at: int, path: PayloadPath)
    requires Safe(s) && path in PurgeStep(s, at).store.files
    ensures (exists row <- s.rows :: row.payload == Some(path) && at < row.purgeEligibleAt <= row.capturedAt + ORPHAN_DAYS * MS_PER_DAY) ||
            (!Referenced(s.rows, path) && path in s.files && at < s.files[path].modifiedAt + ORPHAN_DAYS * MS_PER_DAY)
  {
    var purged := PurgeRows(s, |s.rows|, at).store;
    PurgeRowsKeeps(s, |s.rows|, at);
    OrphansAreUnreferenced(purged, at);
    if Referenced(s.rows, path) {
      var row :| row in s.rows && row.payload == Some(path);
      if IsDue(row, at) {
        PurgeRowsLeavesNothingDue(s, at, row);
      }
      var i :| 0 <= i < |s.rows| && s.rows[i] == row;
      assert RowIsKept(s.rows, i);
      RetentionIsExactlyTheGrantedDays(row.capturedAt, row.id.entry.retention, row.purgeEligibleAt);
    } else {
      PurgeRowsOnlyRemoves(s, |s.rows|, at);
    }
  }

  lemma {:induction false} PurgeRowsOnlyRemoves(s: Store, n: nat, at: int)
    requires n <= |s.rows|
    ensures var after := PurgeRows(s, n, at).store;
            after.rows == s.rows && forall path <- after.files :: path in s.files && after.files[path] == s.files[path]
  {
    if n > 0 {
      PurgeRowsOnlyRemoves(s, n - 1, at);
    }
  }

  // ---------------------------------------------------------------- torn purges

  /** An operation dies after removing a candidate's payload and before recording that. */
  predicate Tears(s: Store, op: Op, id: CandidateId) {
    op.PurgeDies? && op.unlinked && op.n < |s.rows| && WouldPurge(s, s.rows[op.n], op.at) && s.rows[op.n].id == id
  }

  /** A run tore the purge of a candidate, and none has recorded it since. */
  predicate TornIn(ops: seq<Op>, id: CandidateId) {
    ops != [] &&
    var earlier := ops[..|ops| - 1];
    !Recorded(Run(ops), id) && (TornIn(earlier, id) || Tears(Run(earlier), ops[|ops| - 1], id))
  }

  lemma OtherPayload(rows: seq<Row>, row: Row, other: Row)
    requires RowsAreKept(rows) && row in rows && other in rows && row.id != other.id && row.payload.Some? && other.payload.Some?
    ensures row.payload.value != other.payload.value
  {
    PayloadNamesItsRow(rows, row);
    PayloadNamesItsRow(rows, other);
  }

  /** Whole rows are purged without a tear. */
  lemma {:induction false} PurgeRowsTearNothing(s: Store, n: nat, at: int, row: Row)
    requires Safe(s) && n <= |s.rows| && row in s.rows
    ensures IsTorn(PurgeRows(s, n, at).store, row) <==> IsTorn(s, row) && !Recorded(PurgeRows(s, n, at).store, row.id)
    ensures Recorded(s, row.id) ==> Recorded(PurgeRows(s, n, at).store, row.id)
  {
    if n > 0 {
      PurgeRowsTearNothing(s, n - 1, at, row);
      PurgeRowsKeeps(s, n - 1, at);
      var before, other := PurgeRows(s, n - 1, at).store, s.rows[n - 1];
      if other.id != row.id && row.payload.Some? && other.payload.Some? {
        OtherPayload(s.rows, row, other);
      }
      if other.id == row.id {
        RowOfIsTheRow(s.rows, row);
        RowOfIsTheRow(s.rows, other);
      }
    }
  }

  lemma ReachesWhatIsDue(s: Store, n: nat, at: int)
    requires DistinctIds(s.rows) && n < |s.rows|
    ensures Reaches(s, n, at) <==> WouldPurge(s, s.rows[n], at)
  {
    PurgeRowsIsExact(s, n, at);
    assert !DueAmong(s.rows, n, s.rows[n].id, at);
  }

  lemma InterruptedTearsOne(s: Store, n: nat, at: int, row: Row)
    requires Safe(s) && n < |s.rows| && WouldPurge(s, s.rows[n], at) && row in s.rows
    ensures !Recorded(Interrupted(s, n, at), s.rows[n].id)
    ensures IsTorn(Interrupted(s, n, at), row) <==>
            !Recorded(Interrupted(s, n, at), row.id) && (IsTorn(s, row) || row.id == s.rows[n].id)
  {
    PurgeRowsTearNothing(s, n, at, row);
    PurgeRowsIsExact(s, n, at);
    assert !DueAmong(s.rows, n, s.rows[n].id, at);
    if row.id == s.rows[n].id {
      RowOfIsTheRow(s.rows, row);
      RowOfIsTheRow(s.rows, s.rows[n]);
    } else if row.payload.Some? {
      OtherPayload(s.rows, row, s.rows[n]);
    }
  }

  lemma IngestTearsNothing(s: Store, op: Op, row: Row)
    requires Safe(s) && op.IngestOp? && row in Step(s, op).rows
    ensures Step(s, op).events == s.events
    ensures row in s.rows ==> (IsTorn(Step(s, op), row) <==> IsTorn(s, row))
    ensures row !in s.rows ==> !IsTorn(Step(s, op), row) && RowOf(s.rows, row.id) == None
  {
    if RowOf(s.rows, IdOf(op.entry, op.source)) == None {
      RowOfFinds(s.rows, IdOf(op.entry, op.source));
      if row in s.rows && row.payload.Some? {
        PayloadNamesItsRow(s.rows, row);
      }
    }
  }

  lemma StepTears(s: Store, op: Op, row: Row)
    requires Safe(s) && row in s.rows && !op.IngestOp?
    ensures Step(s, op).rows == s.rows
    ensures IsTorn(Step(s, op), row) <==> !Recorded(Step(s, op), row.id) && (IsTorn(s, row) || Tears(s, op, row.id))
  {
    match op
    case PurgeOp(at) => {
      PurgeRowsTearNothing(s, |s.rows|, at, row);
      PurgeRowsKeeps(s, |s.rows|, at);
      var before := PurgeRows(s, |s.rows|, at).store;
      OrphansAreUnreferenced(before, at);
      UntouchedIsSafe(before, Step(s, op));
    }
    case PurgeDies(at, n, unlinked) =>
      if n <= |s.rows| {
        PurgeRowsKeeps(s, n, at);
        PurgeRowsTearNothing(s, n, at, row);
        if n < |s.rows| {
          ReachesWhatIsDue(s, n, at);
          if unlinked && WouldPurge(s, s.rows[n], at) {
            InterruptedTearsOne(s, n, at, row);
          }
        }
      }
    case CleanupDies(at, done, lost) => {
      PurgeRowsTearNothing(s, |s.rows|, at, row);
      PurgeRowsKeeps(s, |s.rows|, at);
      DyingCleanupTouchesNothing(s, at, done, lost);
      UntouchedIsSafe(PurgeRows(s, |s.rows|, at).store, Step(s, op));
    }
    case LeavesPayload(path, file) => UntouchedIsSafe(s, Step(s, op));
  }

  lemma {:induction false} TornHasARow(ops: seq<Op>, id: CandidateId)
    ensures TornIn(ops, id) ==> exists row <- Run(ops).rows :: row.id == id
  {
    if TornIn(ops, id) {
      var earlier, last := ops[..|ops| - 1], ops[|ops| - 1];
      TornHasARow(earlier, id);
      EveryRunKeeps(earlier);
      var row :| row in Run(earlier).rows && row.id == id;
      if !last.IngestOp? {
        StepTears(Run(earlier), last, row);
      }
      assert row in Run(ops).rows;
    }
  }

  /** Over every run, a row's payload is gone without a record exactly when a purge of it was torn and none has
    * recorded it since. */
  lemma {:induction false} TornExactlyWhenPurgeDied(ops: seq<Op>, row: Row)
    requires row in Run(ops).rows
    ensures IsTorn(Run(ops), row) <==> TornIn(ops, row.id)
  {
    var earlier, last := ops[..|ops| - 1], ops[|ops| - 1];
    EveryRunKeeps(earlier);
    if row in Run(earlier).rows {
      TornExactlyWhenPurgeDied(earlier, row);
      if last.IngestOp? {
        IngestTearsNothing(Run(earlier), last, row);
      } else {
        StepTears(Run(earlier), last, row);
      }
    } else {
      RowsComeByIngestion(Run(earlier), last, row);
      IngestTearsNothing(Run(earlier), last, row);
      RowOfFinds(Run(earlier).rows, row.id);
      TornHasARow(earlier, row.id);
    }
  }

  lemma RowsComeByIngestion(s: Store, op: Op, row: Row)
    requires Safe(s) && row in Step(s, op).rows && row !in s.rows
    ensures op.IngestOp?
  {
    if !op.IngestOp? {
      StepKeepsRows(s, op);
    }
  }

  lemma StepKeepsRows(s: Store, op: Op)
    requires Safe(s) && !op.IngestOp?
    ensures Step(s, op).rows == s.rows
  {
    match op
    case PurgeOp(at) => PurgeRowsKeeps(s, |s.rows|, at);
    case PurgeDies(at, n, unlinked) =>
      if n <= |s.rows| {
        PurgeRowsKeeps(s, n, at);
      }
    case CleanupDies(at, done, lost) => PurgeRowsKeeps(s, |s.rows|, at);
    case LeavesPayload(path, file) => {}
  }

  /** So over every run a payload file exists exactly for the rows that have a payload path and are not purged,
    * if and only if no purge is torn. */
  lemma WellKeptExactlyUnlessTorn(ops: seq<Op>)
    ensures WellKept(Run(ops)) <==> forall row <- Run(ops).rows :: !TornIn(ops, row.id)
  {
    EveryRunKeeps(ops);
    forall row | row in Run(ops).rows
      ensures IsTorn(Run(ops), row) <==> TornIn(ops, row.id)
    {
      TornExactlyWhenPurgeDied(ops, row);
    }
  }

  /** A purge mends the torn rows that are due by then, and no others. */
  lemma PurgeMendsWhatIsDue(s: Store, at: int, row: Row)
    requires Safe(s) && row in s.rows
    ensures IsTorn(PurgeStep(s, at).store, row) <==> IsTorn(s, row) && !IsDue(row, at)
  {
    StepTears(s, PurgeOp(at), row);
    PurgeIsExact(s, at);
    var i :| 0 <= i < |s.rows| && s.rows[i] == row;
    assert IsDue(row, at) ==> DueAmong(s.rows, |s.rows|, row.id, at);
    if DueAmong(s.rows, |s.rows|, row.id, at) {
      var j :| 0 <= j < |s.rows| && s.rows[j].id == row.id && IsDue(s.rows[j], at);
      RowOfIsTheRow(s.rows, row);
      RowOfIsTheRow(s.rows, s.rows[j]);
    }
  }

  function WithoutFile(p: Purged, path: PayloadPath): Purged {
    p.(store := p.store.(files := p.store.files - {path}))
  }

  lemma {:induction false} WithoutFileCatchesUp(s: Store, n: nat, at: int, m: nat)
    requires DistinctIds(s.rows) && n < |s.rows| && m <= |s.rows| && WouldPurge(s, s.rows[n], at)
    ensures var cut := WithoutFile(Purged(s, []), s.rows[n].payload.value).store;
            PurgeRows(cut, m, at) == if m <= n then WithoutFile(PurgeRows(s, m, at), s.rows[n].payload.value) else PurgeRows(s, m, at)
  {
    if m > 0 {
      WithoutFileCatchesUp(s, n, at, m - 1);
      var before, row, path := PurgeRows(s, m - 1, at), s.rows[m - 1], s.rows[n].payload.value;
      if m - 1 < n {
        PurgeRowWithoutFile(before, row, at, path);
      } else if m - 1 == n {
        PurgeRowsIsExact(s, n, at);
        assert !DueAmong(s.rows, n, row.id, at);
        assert before.store.files - {path} - {path} == before.store.files - {path};
      }
    }
  }

  lemma PurgeRowWithoutFile(p: Purged, row: Row, at: int, path: PayloadPath)
    ensures PurgeRow(WithoutFile(p, path), row, at) == WithoutFile(PurgeRow(p, row, at), path)
  {
    if IsDue(row, at) {
      var other := row.payload.value;
      assert p.store.files - {path} - {other} == p.store.files - {other} - {path};
    }
  }

  /** A purge that died between removing a payload and recording it leaves the store torn; any purge from then
    * on comes to what it would have come to, had the payload still been there. */
  lemma InterruptedPurgeResumes(s: Store, n: nat, at: int, later: int)
    requires WellKept(s) && n < |s.rows| && WouldPurge(s, s.rows[n], at) && at <= later
    ensures !WellKept(Interrupted(s, n, at))
    ensures PurgeStep(Interrupted(s, n, at), later) == PurgeStep(PurgeRows(s, n, at).store, later)
    ensures WellKept(PurgeStep(Interrupted(s, n, at), later).store)
  {
    var before := PurgeRows(s, n, at).store;
    PurgeRowsKeeps(s, n, at);
    InterruptedTearsOne(s, n, at, s.rows[n]);
    assert Recorded(before, s.rows[n].id) == Recorded(Interrupted(s, n, at), s.rows[n].id);
    WithoutFileCatchesUp(before, n, later, |s.rows|);
    assert WithoutFile(Purged(before, []), s.rows[n].payload.value).store == Interrupted(s, n, at);
    InterruptedIsSafe(s, n, at);
    StepKeeps(Interrupted(s, n, at), PurgeOp(later));
    StepKeepsRows(Interrupted(s, n, at), PurgeOp(later));
    forall row | row in s.rows
      ensures !IsTorn(PurgeStep(Interrupted(s, n, at), later).store, row)
    {
      InterruptedTearsOne(s, n, at, row);
      PurgeMendsWhatIsDue(Interrupted(s, n, at), later, row);
      if row.id == s.rows[n].id {
        RowOfIsTheRow(s.rows, row);
        RowOfIsTheRow(s.rows, s.rows[n]);
      }
    }
  }

  // ---------------------------------------------------------------- reading back

  /** A read is let through exactly for an allowed role on a clean snapshot whose payload was not purged. It
    * returns the very content that was ingested, unless its purge was torn: then the file is missing. */
  lemma ReadReturnsWhatWasIngested(s: Store, id: CandidateId, executive: Executive)
    requires Safe(s)
    ensures var letThrough := RowOf(s.rows, id).Some? && executive in id.entry.roles && RowOf(s.rows, id).value.quarantineReasons == [] &&
                              id.entry.snapshot && PurgedCandidate(id) !in s.events;
            && (Read(s, id, executive) == Ok(id.content) <==> letThrough && !IsTorn(s, RowOf(s.rows, id).value))
            && (Read(s, id, executive) == Err(PayloadMissing) <==> letThrough && IsTorn(s, RowOf(s.rows, id).value))
    ensures Read(s, id, executive).Ok? ==> Read(s, id, executive) == Ok(id.content)
    ensures Read(s, id, executive) != Err(NoPayload)
  {
    RowOfFinds(s.rows, id);
    if RowOf(s.rows, id).Some? {
      var row := RowOf(s.rows, id).value;
      var i :| 0 <= i < |s.rows| && s.rows[i] == row;
      assert RowIsKept(s.rows, i) && FileIsSafe(s, row);
    }
  }
}
