/** Personal Context of src/knowledge/personal-context-ingestion.ts: an append-only table of candidates,
  * append-only purge evidence and a staging directory of payload files. Digests are injective, so a
  * candidate is named by what its identity hashes, and a payload file by its candidate. Encryption,
  * parsing and the secret detector's answer are outside: a payload file holds the content itself.
  */
module PersonalContext {
  import opened Contracts
  import opened RetentionCalendar
  import opened Text
  import opened Wrappers

  // ---------------------------------------------------------------- entries and candidates

  datatype Stream = Stream(manifestId: string, sourceSystem: string, sourceReference: string)

  /** A manifest entry; `rest` stands for the fields that are only carried along. */
  datatype Entry = Entry(stream: Stream, roles: set<Executive>, snapshot: bool, retention: RetentionClass, rest: string)

  datatype Source = Source(content: string, asOf: string, asOfParses: bool, freshness: string, version: string)

  datatype Approval = Approval(entry: Entry, byCeo: bool)

  /** What a candidate's identity is computed from. */
  datatype CandidateId = CandidateId(entry: Entry, content: string, asOf: string, freshness: string, version: string)

  datatype PayloadPath = PayloadFor(id: CandidateId) | Stray(name: string)

  datatype Row = Row(
    id: CandidateId,
    capturedAt: int,
    supersedes: Option<CandidateId>,
    payload: Option<PayloadPath>,
    quarantineReasons: seq<string>,
    purgeEligibleAt: int)

  datatype EventId = PurgedCandidate(id: CandidateId) | PurgedOrphan(path: PayloadPath)

  datatype File = File(content: string, modifiedAt: int)

  /** Rows in the order of their insertion. */
  datatype Store = Store(rows: seq<Row>, events: map<EventId, int>, files: map<PayloadPath, File>)

  datatype IngestError =
    | InvalidManifest | NotAllowlisted | AsOfMissing | AsOfInvalid | FreshnessInvalid | SnapshotTooLarge
    | BadRetention(error: RetentionError) | InsertFailed

  const MAX_SNAPSHOT_CHARS: nat := 64_000
  const ORPHAN_DAYS: int := 30

  function IdOf(entry: Entry, source: Source): CandidateId {
    CandidateId(entry, source.content, source.asOf, source.freshness, source.version)
  }

  function RowOf(rows: seq<Row>, id: CandidateId): Option<Row> {
    if rows == [] then None else if rows[|rows| - 1].id == id then Some(rows[|rows| - 1]) else RowOf(rows[..|rows| - 1], id)
  }

  /** The last candidate of a stream. */
  function LastOfStream(rows: seq<Row>, stream: Stream): Option<CandidateId> {
    if rows == [] then None
    else if rows[|rows| - 1].id.entry.stream == stream then Some(rows[|rows| - 1].id)
    else LastOfStream(rows[..|rows| - 1], stream)
  }

  // ---------------------------------------------------------------- ingestion

  predicate Approved(allowlist: seq<Approval>, entry: Entry) {
    exists approval <- allowlist :: approval.entry == entry && approval.byCeo
  }

  function CheckSource(entry: Entry, source: Source): Option<IngestError> {
    if IsBlank(source.asOf) then Some(AsOfMissing)
    else if !source.asOfParses then Some(AsOfInvalid)
    else if source.freshness != "current" && source.freshness != "stale" then Some(FreshnessInvalid)
    else if entry.snapshot && |source.content| > MAX_SNAPSHOT_CHARS then Some(SnapshotTooLarge)
    else None
  }

  function PayloadOf(id: CandidateId, reasons: seq<string>): Option<PayloadPath> {
    if reasons == [] && id.entry.snapshot then Some(PayloadFor(id)) else None
  }

  function NewRow(s: Store, id: CandidateId, capturedAt: int, reasons: seq<string>, eligibleAt: int): Row {
    Row(id, capturedAt, LastOfStream(s.rows, id.entry.stream), PayloadOf(id, reasons), reasons, eligibleAt)
  }

  datatype Ingested = Ingested(store: Store, result: Result<Row, IngestError>)

  /** The payload is written first; when the row cannot be inserted the payload is removed again. */
  function Insert(s: Store, row: Row, inserts: bool): Ingested {
    if inserts then
      var files := if row.payload.Some? then s.files[row.payload.value := File(row.id.content, row.capturedAt)] else s.files;
      Ingested(s.(rows := s.rows + [row], files := files), Ok(row))
    else
      Ingested(s.(files := if row.payload.Some? then s.files - {row.payload.value} else s.files), Err(InsertFailed))
  }

  function IngestStep(s: Store, allowlist: seq<Approval>, entry: Entry, manifestValid: bool, source: Source, reasons: seq<string>,
                      now: int, inserts: bool): Ingested {
    if !manifestValid then Ingested(s, Err(InvalidManifest))
    else if !Approved(allowlist, entry) then Ingested(s, Err(NotAllowlisted))
    else if CheckSource(entry, source).Some? then Ingested(s, Err(CheckSource(entry, source).value))
    else if RowOf(s.rows, IdOf(entry, source)).Some? then Ingested(s, Ok(RowOf(s.rows, IdOf(entry, source)).value))
    else match AddRetention(now, entry.retention)
      case Err(error) => Ingested(s, Err(BadRetention(error)))
      case Ok(eligibleAt) => Insert(s, NewRow(s, IdOf(entry, source), now, reasons, eligibleAt), inserts)
  }

  // ---------------------------------------------------------------- reading

  datatype ReadError = NotFound | RoleRefused | IsQuarantined | IsPointer | NoPayload | IsPurged | PayloadMissing

  function Read(s: Store, id: CandidateId, executive: Executive): Result<string, ReadError> {
    match RowOf(s.rows, id)
    case None => Err(NotFound)
    case Some(row) =>
      if executive !in id.entry.roles then Err(RoleRefused)
      else if row.quarantineReasons != [] then Err(IsQuarantined)
      else if !id.entry.snapshot then Err(IsPointer)
      else if row.payload == None then Err(NoPayload)
      else if PurgedCandidate(id) in s.events then Err(IsPurged)
      else if row.payload.value !in s.files then Err(PayloadMissing)
      else Ok(s.files[row.payload.value].content)
  }

  // ---------------------------------------------------------------- purging

  predicate IsDue(row: Row, at: int) {
    row.payload.Some? && row.purgeEligibleAt <= at
  }

  datatype Purged = Purged(store: Store, ids: seq<CandidateId>)

  /** Removes the payload of a due row, and records that once. */
  function PurgeRow(p: Purged, row: Row, at: int): Purged {
    if !IsDue(row, at) || PurgedCandidate(row.id) in p.store.events then p
    else
      Purged(p.store.(files := p.store.files - {row.payload.value}, events := p.store.events[PurgedCandidate(row.id) := at]),
             p.ids + [row.id])
  }

  function PurgeRows(s: Store, n: nat, at: int): Purged
    requires n <= |s.rows|
  {
    if n == 0 then Purged(s, []) else PurgeRow(PurgeRows(s, n - 1, at), s.rows[n - 1], at)
  }

  predicate Referenced(rows: seq<Row>, path: PayloadPath) {
    exists row <- rows :: row.payload == Some(path)
  }

  /** A file that no row refers to, and that has not changed for the staging period. */
  predicate IsOrphan(s: Store, path: PayloadPath, at: int) {
    path in s.files && !Referenced(s.rows, path) && s.files[path].modifiedAt + ORPHAN_DAYS * MS_PER_DAY <= at
  }

  function OrphanEvents(events: map<EventId, int>, orphans: set<PayloadPath>, at: int): map<EventId, int> {
    map event | event in events.Keys + (set path | path in orphans :: PurgedOrphan(path)) ::
      if event in events then events[event] else at
  }

  function OrphansAmong(s: Store, paths: set<PayloadPath>, at: int): set<PayloadPath> {
    set path | path in paths && IsOrphan(s, path, at)
  }

  /** Removes the orphans among some paths, and records each once. */
  function RemoveAmong(s: Store, paths: set<PayloadPath>, at: int): Store {
    var orphans := OrphansAmong(s, paths, at);
    s.(files := s.files - orphans, events := OrphanEvents(s.events, orphans, at))
  }

  function RemoveOrphans(s: Store, at: int): Store {
    RemoveAmong(s, s.files.Keys, at)
  }

  function RemoveOne(s: Store, path: PayloadPath, at: int): Store {
    if IsOrphan(s, path, at) then
      s.(files := s.files - {path},
         events := if PurgedOrphan(path) in s.events then s.events else s.events[PurgedOrphan(path) := at])
    else s
  }

  lemma NothingAmongNone(s: Store, at: int)
    ensures RemoveAmong(s, {}, at) == s
  {
    assert OrphansAmong(s, {}, at) == {};
    assert OrphanEvents(s.events, {}, at) == s.events;
  }

  lemma OneMoreOrphan(s: Store, paths: set<PayloadPath>, path: PayloadPath, at: int)
    requires path !in paths
    ensures RemoveAmong(s, paths + {path}, at) == RemoveOne(RemoveAmong(s, paths, at), path, at)
  {
    var orphans := OrphansAmong(s, paths, at);
    if IsOrphan(s, path, at) {
      assert OrphansAmong(s, paths + {path}, at) == orphans + {path};
      OneMoreOrphanEvent(s.events, orphans, path, at);
      assert s.files - (orphans + {path}) == s.files - orphans - {path};
    } else {
      assert OrphansAmong(s, paths + {path}, at) == orphans;
    }
  }

  lemma OneMoreOrphanEvent(events: map<EventId, int>, orphans: set<PayloadPath>, path: PayloadPath, at: int)
    ensures var before := OrphanEvents(events, orphans, at);
            OrphanEvents(events, orphans + {path}, at) ==
            if PurgedOrphan(path) in before then before else before[PurgedOrphan(path) := at]
  {
    var before, after := OrphanEvents(events, orphans, at), OrphanEvents(events, orphans + {path}, at);
    assert after.Keys == before.Keys + {PurgedOrphan(path)};
    assert forall event <- before :: after[event] == before[event];
  }

  function PurgeStep(s: Store, at: int): Purged {
    var purged := PurgeRows(s, |s.rows|, at);
    Purged(RemoveOrphans(purged.store, at), purged.ids)
  }

  /** A purge removes a payload and then records it: a row it would do that for. */
  predicate WouldPurge(s: Store, row: Row, at: int) {
    IsDue(row, at) && PurgedCandidate(row.id) !in s.events
  }

  /** A purge that died at a row after removing its payload and before recording it. */
  function Interrupted(s: Store, n: nat, at: int): Store
    requires n < |s.rows| && s.rows[n].payload.Some?
  {
    var before := PurgeRows(s, n, at).store;
    before.(files := before.files - {s.rows[n].payload.value})
  }

  /** A purge comes to remove the payload of row n. */
  predicate Reaches(s: Store, n: nat, at: int) {
    n < |s.rows| && WouldPurge(PurgeRows(s, n, at).store, s.rows[n], at)
  }

  /** A purge that died after n rows; `unlinked`: the next payload, if its row would be purged, was removed. */
  function DyingPurge(s: Store, at: int, n: nat, unlinked: bool): Store {
    if n > |s.rows| then s
    else if unlinked && Reaches(s, n, at) then Interrupted(s, n, at)
    else PurgeRows(s, n, at).store
  }

  /** One that died in the directory, after some files; `lost`: an orphan removed and not recorded. */
  function DyingCleanup(s: Store, at: int, done: set<PayloadPath>, lost: Option<PayloadPath>): Store {
    DyingRemoval(PurgeRows(s, |s.rows|, at).store, at, done, lost)
  }

  function DyingRemoval(s: Store, at: int, done: set<PayloadPath>, lost: Option<PayloadPath>): Store {
    var before := RemoveAmong(s, done, at);
    if lost.Some? && IsOrphan(before, lost.value, at) then before.(files := before.files - {lost.value}) else before
  }

  // ---------------------------------------------------------------- the store

  class PersonalContextIngestion {
    var rows: seq<Row>
    var events: map<EventId, int>
    var files: map<PayloadPath, File>

    function State(): Store
      reads this
    {
      Store(rows, events, files)
    }

    constructor ()
      ensures State() == Store([], map[], map[])
    {
      rows, events, files := [], map[], map[];
    }

    method FindRow(id: CandidateId) returns (row: Option<Row>)
      ensures row == RowOf(rows, id)
    {
      var n := |rows|;
      assert rows[..n] == rows;
      while n > 0
        invariant 0 <= n <= |rows| && RowOf(rows[..n], id) == RowOf(rows, id)
      {
        assert rows[..n][..n - 1] == rows[..n - 1];
        if rows[n - 1].id == id {
          return Some(rows[n - 1]);
        }
        n := n - 1;
      }
      row := None;
    }

    method FindPrevious(stream: Stream) returns (previous: Option<CandidateId>)
      ensures previous == LastOfStream(rows, stream)
    {
      var n := |rows|;
      assert rows[..n] == rows;
      while n > 0
        invariant 0 <= n <= |rows| && LastOfStream(rows[..n], stream) == LastOfStream(rows, stream)
      {
        assert rows[..n][..n - 1] == rows[..n - 1];
        if rows[n - 1].id.entry.stream == stream {
          return Some(rows[n - 1].id);
        }
        n := n - 1;
      }
      previous := None;
    }

    method Ingest(allowlist: seq<Approval>, entry: Entry, manifestValid: bool, source: Source, reasons: seq<string>, now: int, inserts: bool)
      returns (result: Result<Row, IngestError>)
      modifies this`rows, this`files
      ensures Ingested(State(), result) == IngestStep(old(State()), allowlist, entry, manifestValid, source, reasons, now, inserts)
    {
      if !manifestValid {
        return Err(InvalidManifest);
      }
      if !Approved(allowlist, entry) {
        return Err(NotAllowlisted);
      }
      var problem := CheckSource(entry, source);
      if problem.Some? {
        return Err(problem.value);
      }
      var id := IdOf(entry, source);
      var existing := FindRow(id);
      if existing.Some? {
        return Ok(existing.value);
      }
      var previous := FindPrevious(entry.stream);
      var payload := PayloadOf(id, reasons);
      var eligibleAt := AddRetention(now, entry.retention);
      if eligibleAt.Err? {
        return Err(BadRetention(eligibleAt.error));
      }
      var row := Row(id, now, previous, payload, reasons, eligibleAt.value);
      if payload.Some? {
        files := files[payload.value := File(source.content, now)];
      }
      if !inserts {
        if payload.Some? {
          files := files - {payload.value};
          assert files == old(files) - {payload.value};
        }
        return Err(InsertFailed);
      }
      rows := rows + [row];
      result := Ok(row);
    }

    /** One row at a time, and then every orphan in the directory. Recording a purge may raise, at a row or at
      * a file; what it was to record is gone by then. */
    method PurgeExpired(at: int, raisesAt: Option<nat>, raisesFor: Option<PayloadPath>)
      returns (ids: Option<seq<CandidateId>>, ghost done: set<PayloadPath>)
      modifies this`events, this`files
      ensures ids.Some? ==> Purged(State(), ids.value) == PurgeStep(old(State()), at)
      ensures ids.None? ==>
                || (raisesAt.Some? && Reaches(old(State()), raisesAt.value, at) && State() == Interrupted(old(State()), raisesAt.value, at))
                || (raisesFor.Some? && State() == DyingCleanup(old(State()), at, done, raisesFor))
      ensures raisesAt.Some? && Reaches(old(State()), raisesAt.value, at) ==> ids.None?
      ensures raisesAt.None? && raisesFor.None? ==> ids.Some?
    {
      done := {};
      var purged: seq<CandidateId> := [];
      for n := 0 to |rows|
        invariant Purged(State(), purged) == PurgeRows(old(State()), n, at)
        invariant raisesAt.Some? && raisesAt.value < n ==> !Reaches(old(State()), raisesAt.value, at)
      {
        var row := rows[n];
        if row.payload.Some? && row.purgeEligibleAt <= at && PurgedCandidate(row.id) !in events {
          files := files - {row.payload.value};
          if raisesAt == Some(n) {
            return None, done;
          }
          events := events[PurgedCandidate(row.id) := at];
          purged := purged + [row.id];
        }
      }
      var ok;
      ok, done := RemoveStrays(at, raisesFor);
      ids := if ok then Some(purged) else None;
    }

    method RemoveStrays(at: int, raisesFor: Option<PayloadPath>) returns (ok: bool, ghost done: set<PayloadPath>)
      modifies this`events, this`files
      ensures ok ==> State() == RemoveOrphans(old(State()), at)
      ensures !ok ==> raisesFor.Some? && State() == DyingRemoval(old(State()), at, done, raisesFor)
    {
      var left := files.Keys;
      ghost var before := State();
      done := {};
      NothingAmongNone(before, at);
      while left != {}
        invariant done !! left && done + left == before.files.Keys
        invariant State() == RemoveAmong(before, done, at)
        decreases |left|
      {
        var path :| path in left;
        left := left - {path};
        OneMoreOrphan(before, done, path, at);
        if IsOrphan(State(), path, at) {
          files := files - {path};
          if PurgedOrphan(path) !in events {
            if raisesFor == Some(path) {
              return false, done;
            }
            events := events[PurgedOrphan(path) := at];
          }
        }
        done := done + {path};
      }
      assert done == before.files.Keys;
      ok := true;
    }
  }
}
