/** What every run of the Exception Notice rhythm keeps: one passing admission per open group, and no
  * held notice lost.
  */
module NoticeConservation {
  import opened ExceptionNotices
  import opened OperatingClock
  import opened Sequences
  import opened TelegramOutbox
  import opened Wrappers

  datatype Op =
    | Admit(notice: Notice, now: Instant, transport: Transport)
    | Release(now: Instant, transports: nat -> Transport)
    | Recover(signature: string, text: string, key: string, now: Instant, admittedAt: Instant, transport: Transport)

  const EMPTY: Tables := Tables(map[], map[], [], map[])

  function Step(t: Tables, op: Op): Tables {
    match op
    case Admit(notice, now, transport) => AdmitStep(t, notice, now, transport).tables
    case Release(now, transports) => Sweep(t, Batch(t.held, now), now, transports).tables
    case Recover(signature, text, key, now, admittedAt, transport) => RecoverStep(t, signature, text, key, now, admittedAt, transport).tables
  }

  function Run(ops: seq<Op>): Tables {
    if ops == [] then EMPTY else Step(Run(ops[..|ops| - 1]), ops[|ops| - 1])
  }

  // ---------------------------------------------------------------- one passing admission per group

  /** An admission of a signature that grouping lets through. */
  predicate Passes(t: Tables, op: Op, signature: string) {
    && op.Admit? && op.notice.signature == Some(signature)
    && !(IsWeekend(OperatingDayOf(op.now)) && WeekendSuppressed(op.notice.kind))
    && PassesGrouping(t, signature)
  }

  /** A step that ends an open incident: its recovery, or its reopening after a dead delivery. */
  predicate Closes(t: Tables, op: Op, signature: string) {
    Open(t, signature) && (Passes(t, op, signature) || (op.Recover? && op.signature == signature))
  }

  /** Delivering or sweeping never touches the groups. */
  lemma {:induction false} SweepKeepsGroups(t: Tables, batch: seq<HeldNotice>, now: Instant, transports: nat -> Transport)
    ensures Sweep(t, batch, now, transports).tables.groups == t.groups
  {
    if batch != [] {
      SweepKeepsGroups(t, batch[..|batch| - 1], now, transports);
    }
  }

  lemma DeliverKeepsGroups(t: Tables, notice: Notice, now: Instant, transport: Transport)
    ensures Deliver(t, notice, now, transport).tables.groups == t.groups
  {
  }

  lemma AdmitOpens(t: Tables, notice: Notice, now: Instant, transport: Transport, signature: string)
    ensures Open(AdmitStep(t, notice, now, transport).tables, signature) <==>
            Passes(t, Admit(notice, now, transport), signature) || Open(t, signature)
  {
    DeliverKeepsGroups(t, notice, now, transport);
    if notice.signature.Some? {
      DeliverKeepsGroups(Grouping(t, notice.signature.value), notice, now, transport);
    }
  }

  lemma RecoverCloses(t: Tables, incident: string, text: string, key: string, now: Instant, admittedAt: Instant, transport: Transport, signature: string)
    ensures Open(RecoverStep(t, incident, text, key, now, admittedAt, transport).tables, signature) <==> Open(t, signature) && incident != signature
  {
    if Open(t, incident) && !ClearsUnseen(t, incident) {
      var seen := if incident in t.deliveries then Record(CloseGroup(t, incident), incident, t.deliveries[incident].key, Delivered)
                  else CloseGroup(t, incident);
      AdmitOpens(seen, Notice(RecoveryNotice, text, key, false, None), admittedAt, transport, signature);
    }
  }

  /** A group is open after a step exactly when the step opened it, or found it open and did not recover
    * it. */
  lemma OpenAfterStep(t: Tables, op: Op, signature: string)
    ensures Open(Step(t, op), signature) <==>
            Passes(t, op, signature) || (Open(t, signature) && !Closes(t, op, signature))
  {
    match op
    case Admit(notice, now, transport) => AdmitOpens(t, notice, now, transport, signature);
    case Release(now, transports) => SweepKeepsGroups(t, Batch(t.held, now), now, transports);
    case Recover(incident, text, key, now, admittedAt, transport) => RecoverCloses(t, incident, text, key, now, admittedAt, transport, signature);
  }

  lemma OpenAfterOneMore(ops: seq<Op>, signature: string, j: nat)
    requires j < |ops|
    ensures Open(Run(ops[..j + 1]), signature) <==>
            Passes(Run(ops[..j]), ops[j], signature) || (Open(Run(ops[..j]), signature) && !Closes(Run(ops[..j]), ops[j], signature))
  {
    assert ops[..j + 1][..j] == ops[..j];
    OpenAfterStep(Run(ops[..j]), ops[j], signature);
  }

  predicate ClosesAt(ops: seq<Op>, signature: string, k: nat) {
    k < |ops| && Closes(Run(ops[..k]), ops[k], signature)
  }

  /** An incident opened at one point of a run is still open later unless something in between ended it. */
  lemma {:induction false} OpenUntilClosed(ops: seq<Op>, signature: string, i: nat, j: nat)
    requires i < j <= |ops| && Passes(Run(ops[..i]), ops[i], signature)
    requires forall k: nat :: i < k < j ==> !ClosesAt(ops, signature, k)
    ensures Open(Run(ops[..j]), signature)
    decreases j
  {
    OpenAfterOneMore(ops, signature, j - 1);
    if i < j - 1 {
      OpenUntilClosed(ops, signature, i, j - 1);
      assert !ClosesAt(ops, signature, j - 1);
    }
  }

  /** Within one open group exactly one admission passes grouping: between any two that pass, the
    * incident recovered or was reopened because its delivery was dead. */
  lemma OnePassPerOpenGroup(ops: seq<Op>, signature: string, i: nat, j: nat)
    requires i < j < |ops| && Passes(Run(ops[..i]), ops[i], signature) && Passes(Run(ops[..j]), ops[j], signature)
    ensures exists k: nat :: i < k <= j && ClosesAt(ops, signature, k)
  {
    if forall k: nat :: i < k < j ==> !ClosesAt(ops, signature, k) {
      OpenUntilClosed(ops, signature, i, j);
      assert ClosesAt(ops, signature, j);
    }
  }

  /** Every further occurrence is counted, and delivers nothing. */
  lemma GroupedOccurrenceOnlyCounts(t: Tables, notice: Notice, signature: string, now: Instant, transport: Transport)
    requires notice.signature == Some(signature) && !PassesGrouping(t, signature)
    requires !(IsWeekend(OperatingDayOf(now)) && WeekendSuppressed(notice.kind))
    ensures var admitted := AdmitStep(t, notice, now, transport);
            var before := t.groups[signature].occurrences;
            && admitted.admission.Grouped? && admitted.admission.occurrences == before + 1
            && admitted.tables == t.(groups := t.groups[signature := Group(before + 1, false)])
  {
  }

  // ---------------------------------------------------------------- held notices are conserved

  ghost predicate DistinctKeys(held: seq<HeldNotice>) {
    forall i, j :: 0 <= i < j < |held| ==> held[i].key != held[j].key
  }

  /** Rows are told apart by key, wait for the end of the window they were held in, and a recorded
    * delivery that says held has a pending row. */
  ghost predicate Coherent(t: Tables) {
    && DistinctKeys(t.held)
    && (forall row <- t.held :: IsDoNotDisturb(row.heldAt) && row.releaseAt == ReleaseAtFor(row.heldAt))
    && (forall signature <- t.deliveries ::
          t.deliveries[signature].state == HeldBack ==> IsPending(t.held, t.deliveries[signature].key))
  }

  lemma HoldMakesPending(held: seq<HeldNotice>, notice: Notice, now: Instant, releaseAt: Instant)
    ensures var after := Hold(held, notice, now, releaseAt);
            && IsPending(after, notice.key)
            && (forall row <- held :: row.releasedAt == None ==> row in after)
            && (DistinctKeys(held) ==> DistinctKeys(after))
            && (forall row <- after :: row in held || (row.heldAt == now && row.releaseAt == releaseAt))
  {
    var after := Hold(held, notice, now, releaseAt);
    if HasKey(held, notice.key) {
      var row :| row in held && row.key == notice.key;
      var i :| 0 <= i < |held| && held[i] == row;
      assert after[i] in after && after[i].key == notice.key && after[i].releasedAt == None;
      forall r | r in held && r.releasedAt == None
        ensures r in after
      {
        var k :| 0 <= k < |held| && held[k] == r;
        assert after[k] == r;
      }
      forall r | r in after
        ensures r in held || (r.heldAt == now && r.releaseAt == releaseAt)
      {
        var k :| 0 <= k < |after| && after[k] == r;
        assert held[k] in held;
      }
    } else {
      assert after[|held|].key == notice.key;
      forall i, j | DistinctKeys(held) && 0 <= i < j < |after|
        ensures after[i].key != after[j].key
      {
        assert held[i] in held;
      }
    }
  }

  lemma ReleaseFindsRow(held: seq<HeldNotice>, key: string, now: Instant, row: HeldNotice)
    requires row in held
    ensures (if row.key == key && row.releasedAt == None then row.(releasedAt := Some(now)) else row)
            in ExceptionNotices.Release(held, key, now)
  {
    var k :| 0 <= k < |held| && held[k] == row;
    assert ExceptionNotices.Release(held, key, now)[k] == if row.key == key && row.releasedAt == None then row.(releasedAt := Some(now)) else row;
  }

  lemma ReleaseInventsNoRow(held: seq<HeldNotice>, key: string, now: Instant, row: HeldNotice)
    requires row in ExceptionNotices.Release(held, key, now)
    ensures row in held || (row.key == key && row.releasedAt == Some(now) && row.(releasedAt := None) in held)
  {
    var k :| 0 <= k < |held| && ExceptionNotices.Release(held, key, now)[k] == row;
    assert held[k] in held;
  }

  /** Releasing a key ends what was pending under it, and nothing else. */
  lemma ReleaseOnlyItsKey(held: seq<HeldNotice>, key: string, now: Instant, other: string)
    ensures IsPending(ExceptionNotices.Release(held, key, now), other) <==> other != key && IsPending(held, other)
  {
    var after := ExceptionNotices.Release(held, key, now);
    if other != key && IsPending(held, other) {
      var row :| row in held && row.key == other && row.releasedAt == None;
      ReleaseFindsRow(held, key, now, row);
    }
    if IsPending(after, other) {
      var row :| row in after && row.key == other && row.releasedAt == None;
      var k :| 0 <= k < |held| && after[k] == row;
      assert held[k] in held;
    }
  }

  lemma ReleaseKeepsKeysDistinct(held: seq<HeldNotice>, key: string, now: Instant)
    requires DistinctKeys(held)
    ensures DistinctKeys(ExceptionNotices.Release(held, key, now))
  {
    assert forall k :: 0 <= k < |held| ==> ExceptionNotices.Release(held, key, now)[k].key == held[k].key;
  }

  /** Releasing a key whose recorded deliveries no longer say held keeps the tables coherent. */
  lemma ReleaseIsCoherent(t: Tables, key: string, now: Instant)
    requires Coherent(t)
    requires forall signature <- t.deliveries :: t.deliveries[signature].state == HeldBack ==> t.deliveries[signature].key != key
    ensures Coherent(t.(held := ExceptionNotices.Release(t.held, key, now)))
  {
    var after := ExceptionNotices.Release(t.held, key, now);
    ReleaseKeepsKeysDistinct(t.held, key, now);
    forall row | row in after
      ensures IsDoNotDisturb(row.heldAt) && row.releaseAt == ReleaseAtFor(row.heldAt)
    {
      ReleaseInventsNoRow(t.held, key, now, row);
    }
    forall signature | signature in t.deliveries && t.deliveries[signature].state == HeldBack
      ensures IsPending(after, t.deliveries[signature].key)
    {
      ReleaseOnlyItsKey(t.held, key, now, t.deliveries[signature].key);
    }
  }

  lemma DeliverIsCoherent(t: Tables, notice: Notice, now: Instant, transport: Transport)
    requires Coherent(t)
    ensures Coherent(Deliver(t, notice, now, transport).tables)
    ensures forall row <- t.held :: row.releasedAt == None ==> row in Deliver(t, notice, now, transport).tables.held
  {
    if IsDoNotDisturb(now) && !Bypasses(notice) {
      HoldMakesPending(t.held, notice, now, ReleaseAtFor(now));
      var after := Deliver(t, notice, now, transport).tables;
      forall signature | signature in after.deliveries && after.deliveries[signature].state == HeldBack
        ensures IsPending(after.held, after.deliveries[signature].key)
      {
        if notice.signature != Some(signature) {
          var row :| row in t.held && row.key == t.deliveries[signature].key && row.releasedAt == None;
          assert row in after.held;
        }
      }
    }
  }

  lemma AdmitIsCoherent(t: Tables, notice: Notice, now: Instant, transport: Transport)
    requires Coherent(t)
    ensures Coherent(AdmitStep(t, notice, now, transport).tables)
    ensures forall row <- t.held :: row.releasedAt == None ==> row in AdmitStep(t, notice, now, transport).tables.held
  {
    if notice.signature.Some? {
      DeliverIsCoherent(Grouping(t, notice.signature.value), notice, now, transport);
    } else {
      DeliverIsCoherent(t, notice, now, transport);
    }
  }

  /** Notifying a held notice under its own kind, text and key does not fail. */
  predicate LetGo(outbox: Outbox, row: HeldNotice, now: Instant, transport: Transport) {
    var delivery := Notify(outbox, row.kind, row.text, row.key, now, transport).delivery;
    delivery == Reached || delivery == StoodDown
  }

  /** At its turn in the sweep, the notice was let go. */
  predicate SweptAway(t: Tables, batch: seq<HeldNotice>, now: Instant, transports: nat -> Transport, row: HeldNotice) {
    batch != [] &&
    var n := |batch| - 1;
    || SweptAway(t, batch[..n], now, transports, row)
    || (batch[n] == row && LetGo(Sweep(t, batch[..n], now, transports).tables.outbox, row, now, transports(n)))
  }

  function Released(row: HeldNotice, now: Instant): HeldNotice {
    row.(releasedAt := Some(now))
  }

  lemma SweepOneIsCoherent(s: Swept, row: HeldNotice, now: Instant, transport: Transport)
    requires Coherent(s.tables)
    ensures Coherent(SweepOne(s, row, now, transport).tables)
  {
    var notified := Notify(s.tables.outbox, row.kind, row.text, row.key, now, transport);
    if notified.delivery == Reached || notified.delivery == StoodDown {
      ReleaseIsCoherent(MarkByKey(s.tables.(outbox := notified.outbox), row.key, Delivered), row.key, now);
    }
  }

  lemma {:induction false} SweepIsCoherent(t: Tables, batch: seq<HeldNotice>, now: Instant, transports: nat -> Transport)
    requires Coherent(t)
    ensures Coherent(Sweep(t, batch, now, transports).tables)
  {
    if batch != [] {
      var n := |batch| - 1;
      SweepIsCoherent(t, batch[..n], now, transports);
      SweepOneIsCoherent(Sweep(t, batch[..n], now, transports), batch[n], now, transports(n));
    }
  }

  lemma SweepOneMovesRow(s: Swept, row: HeldNotice, now: Instant, transport: Transport, r: HeldNotice)
    requires r in s.tables.held
    ensures (if LetGo(s.tables.outbox, row, now, transport) && r.key == row.key && r.releasedAt == None then Released(r, now) else r)
            in SweepOne(s, row, now, transport).tables.held
  {
    ReleaseFindsRow(s.tables.held, row.key, now, r);
  }

  lemma {:induction false} SweptAwayWasTaken(t: Tables, batch: seq<HeldNotice>, now: Instant, transports: nat -> Transport, row: HeldNotice)
    requires SweptAway(t, batch, now, transports, row)
    ensures row in batch
  {
    var n := |batch| - 1;
    if SweptAway(t, batch[..n], now, transports, row) {
      SweptAwayWasTaken(t, batch[..n], now, transports, row);
    }
  }

  /** A sweep releases exactly the notices it let go; every other pending one stays as it was. */
  lemma {:induction false} SweepReleasesWhatItLetGo(t: Tables, batch: seq<HeldNotice>, now: Instant, transports: nat -> Transport, r: HeldNotice)
    requires DistinctKeys(t.held) && forall row <- batch :: row in t.held
    requires r in t.held && r.releasedAt == None
    ensures (if SweptAway(t, batch, now, transports, r) then Released(r, now) else r) in Sweep(t, batch, now, transports).tables.held
  {
    if batch != [] {
      var n := |batch| - 1;
      assert batch == batch[..n] + [batch[n]];
      SweepReleasesWhatItLetGo(t, batch[..n], now, transports, r);
      var s := Sweep(t, batch[..n], now, transports);
      if SweptAway(t, batch[..n], now, transports, r) {
        SweepOneMovesRow(s, batch[n], now, transports(n), Released(r, now));
      } else {
        SweepOneMovesRow(s, batch[n], now, transports(n), r);
      }
      if r.key == batch[n].key {
        SameKeySameRow(t.held, r, batch[n]);
      }
    }
  }

  lemma SameKeySameRow(held: seq<HeldNotice>, row: HeldNotice, other: HeldNotice)
    requires DistinctKeys(held) && row in held && other in held && row.key == other.key
    ensures row == other
  {
    var i :| 0 <= i < |held| && held[i] == row;
    var j :| 0 <= j < |held| && held[j] == other;
  }

  lemma RecoverIsCoherent(t: Tables, signature: string, text: string, key: string, now: Instant, admittedAt: Instant, transport: Transport)
    requires Coherent(t)
    ensures Coherent(RecoverStep(t, signature, text, key, now, admittedAt, transport).tables)
    ensures forall r <- t.held :: r.releasedAt == None ==>
              (if ClearsUnseen(t, signature) && r.key == t.deliveries[signature].key then Released(r, now) else r)
              in RecoverStep(t, signature, text, key, now, admittedAt, transport).tables.held
  {
    if ClearsUnseen(t, signature) {
      var lost := t.deliveries[signature].key;
      var closed := CloseGroup(t, signature);
      var withdrawn := MarkByKey(closed.(outbox := Cancel(closed.outbox, lost, now)), lost, Withdrawn);
      ReleaseIsCoherent(Record(withdrawn, signature, lost, Withdrawn), lost, now);
      forall r | r in t.held
        ensures (if r.key == lost && r.releasedAt == None then Released(r, now) else r) in ExceptionNotices.Release(t.held, lost, now)
      {
        ReleaseFindsRow(t.held, lost, now, r);
      }
    } else if Open(t, signature) {
      var closed := CloseGroup(t, signature);
      var seen := if signature in t.deliveries then Record(closed, signature, t.deliveries[signature].key, Delivered) else closed;
      AdmitIsCoherent(seen, Notice(RecoveryNotice, text, key, false, None), admittedAt, transport);
    }
  }

  /** What ends a pending notice's wait: a sweep that notified it without failing, or the recovery of an
    * unseen incident recorded under its key. */
  ghost predicate EndsWait(t: Tables, op: Op, row: HeldNotice) {
    match op
    case Admit(_, _, _) => false
    case Release(now, transports) => SweptAway(t, Batch(t.held, now), now, transports, row)
    case Recover(signature, _, _, _, _, _) => ClearsUnseen(t, signature) && t.deliveries[signature].key == row.key
  }

  /** One step: a pending notice is released, at the step's time, exactly when the step ends its wait, and
    * otherwise stays pending under its key, kind, text and release time. A sweep ends no wait early. */
  lemma HeldNoticeIsConserved(t: Tables, op: Op, row: HeldNotice)
    requires Coherent(t) && row in t.held && row.releasedAt == None
    ensures Coherent(Step(t, op))
    ensures (if EndsWait(t, op, row) then Released(row, op.now) else row) in Step(t, op).held
    ensures op.Release? && EndsWait(t, op, row) ==> row.releaseAt <= op.now
  {
    StepIsCoherent(t, op);
    match op
    case Admit(notice, now, transport) => AdmitIsCoherent(t, notice, now, transport);
    case Release(now, transports) =>
      BatchIsDue(t.held, now);
      SweepReleasesWhatItLetGo(t, Batch(t.held, now), now, transports, row);
      if SweptAway(t, Batch(t.held, now), now, transports, row) {
        SweptAwayWasTaken(t, Batch(t.held, now), now, transports, row);
      }
    case Recover(signature, text, key, now, admittedAt, transport) => RecoverIsCoherent(t, signature, text, key, now, admittedAt, transport);
  }

  lemma StepIsCoherent(t: Tables, op: Op)
    requires Coherent(t)
    ensures Coherent(Step(t, op))
  {
    match op
    case Admit(notice, now, transport) => AdmitIsCoherent(t, notice, now, transport);
    case Release(now, transports) => SweepIsCoherent(t, Batch(t.held, now), now, transports);
    case Recover(signature, text, key, now, admittedAt, transport) => RecoverIsCoherent(t, signature, text, key, now, admittedAt, transport);
  }

  /** Over every run, tables stay coherent. */
  lemma {:induction false} EveryRunIsCoherent(ops: seq<Op>)
    ensures Coherent(Run(ops))
  {
    if ops != [] {
      EveryRunIsCoherent(ops[..|ops| - 1]);
      StepIsCoherent(Run(ops[..|ops| - 1]), ops[|ops| - 1]);
    }
  }

  lemma HeldAfterOneMore(ops: seq<Op>, j: nat, row: HeldNotice)
    requires j < |ops| && row in Run(ops[..j]).held && row.releasedAt == None && !EndsWait(Run(ops[..j]), ops[j], row)
    ensures row in Run(ops[..j + 1]).held
  {
    assert ops[..j + 1][..j] == ops[..j];
    EveryRunIsCoherent(ops[..j]);
    HeldNoticeIsConserved(Run(ops[..j]), ops[j], row);
  }

  /** Over every run, a pending notice stays pending until a step ends its wait. */
  lemma {:induction false} HeldUntilWaitEnds(ops: seq<Op>, i: nat, j: nat, row: HeldNotice)
    requires i <= j <= |ops| && row in Run(ops[..i]).held && row.releasedAt == None
    requires forall k :: i <= k < j ==> !EndsWait(Run(ops[..k]), ops[k], row)
    ensures row in Run(ops[..j]).held
    decreases j
  {
    if i < j {
      HeldUntilWaitEnds(ops, i, j - 1, row);
      HeldAfterOneMore(ops, j - 1, row);
    }
  }

  // ---------------------------------------------------------------- the sweep's order and count

  ghost predicate Sorted(rows: seq<HeldNotice>) {
    forall i, j :: 0 <= i < j < |rows| ==> rows[i].releaseAt <= rows[j].releaseAt
  }

  lemma {:induction false} InsertAddsOne(rows: seq<HeldNotice>, row: HeldNotice)
    ensures multiset(InsertByRelease(rows, row)) == multiset(rows) + multiset{row}
  {
    if rows != [] && rows[|rows| - 1].releaseAt > row.releaseAt {
      InsertAddsOne(rows[..|rows| - 1], row);
      assert rows == rows[..|rows| - 1] + [rows[|rows| - 1]];
    }
  }

  ghost predicate NoneLater(rows: seq<HeldNotice>, time: Instant) {
    forall i :: 0 <= i < |rows| ==> rows[i].releaseAt <= time
  }

  lemma {:induction false} InsertKeepsSorted(rows: seq<HeldNotice>, row: HeldNotice)
    requires Sorted(rows)
    ensures Sorted(InsertByRelease(rows, row))
    ensures forall time :: NoneLater(rows, time) && row.releaseAt <= time ==> NoneLater(InsertByRelease(rows, row), time)
  {
    if rows != [] && rows[|rows| - 1].releaseAt > row.releaseAt {
      var earlier := rows[..|rows| - 1];
      InsertKeepsSorted(earlier, row);
      assert NoneLater(earlier, rows[|rows| - 1].releaseAt);
      assert forall time :: NoneLater(rows, time) ==> NoneLater(earlier, time) && rows[|rows| - 1].releaseAt <= time;
    }
  }

  /** Due notices are taken in the order of their release. */
  lemma {:induction false} ByReleaseSorts(rows: seq<HeldNotice>)
    ensures Sorted(ByRelease(rows)) && multiset(ByRelease(rows)) == multiset(rows)
  {
    if rows != [] {
      ByReleaseSorts(rows[..|rows| - 1]);
      InsertKeepsSorted(ByRelease(rows[..|rows| - 1]), rows[|rows| - 1]);
      InsertAddsOne(ByRelease(rows[..|rows| - 1]), rows[|rows| - 1]);
      assert rows == rows[..|rows| - 1] + [rows[|rows| - 1]];
    }
  }

  /** A prefix of a sorted rearrangement: of what it rearranges, and none left out comes before one taken. */
  lemma PrefixOfSorted(due: seq<HeldNotice>, sorted: seq<HeldNotice>, n: nat)
    requires Sorted(sorted) && multiset(sorted) == multiset(due) && n <= |sorted|
    ensures multiset(sorted[..n]) <= multiset(due)
    ensures forall row <- sorted[..n] :: row in due
    ensures forall row <- sorted[..n], other <- due :: other !in sorted[..n] ==> row.releaseAt <= other.releaseAt
  {
    assert sorted == sorted[..n] + sorted[n..];
    forall row | row in sorted[..n]
      ensures row in due
    {
      assert row in multiset(sorted);
    }
    forall row, other | row in sorted[..n] && other in due && other !in sorted[..n]
      ensures row.releaseAt <= other.releaseAt
    {
      assert other in multiset(sorted);
      var i :| 0 <= i < n && sorted[..n][i] == row;
      var j :| 0 <= j < |sorted| && sorted[j] == other;
      assert forall k :: 0 <= k < n ==> sorted[..n][k] == sorted[k];
    }
  }

  lemma DueRowsAreDue(held: seq<HeldNotice>, now: Instant)
    ensures forall row :: row in DueRows(held, now) <==> row in held && IsDue(row, now)
  {
    FilterKeeps(held, (row: HeldNotice) => IsDue(row, now));
  }

  /** The batch holds due notices only, and none left out is released before one taken. */
  lemma BatchIsDue(held: seq<HeldNotice>, now: Instant)
    ensures var batch, due := Batch(held, now), DueRows(held, now);
            && |batch| == (if |due| < RELEASE_BATCH_LIMIT then |due| else RELEASE_BATCH_LIMIT)
            && multiset(batch) <= multiset(due)
            && (forall row <- batch :: row in held && IsDue(row, now))
            && (forall row <- batch, other <- due :: other !in batch ==> row.releaseAt <= other.releaseAt)
  {
    var due := DueRows(held, now);
    DueRowsAreDue(held, now);
    ByReleaseSorts(due);
    var sorted, n := ByRelease(due), |Batch(held, now)|;
    assert |sorted| == |multiset(sorted)| == |due|;
    PrefixOfSorted(due, sorted, n);
    assert Batch(held, now) == sorted[..n];
  }

  lemma {:induction false} SweepCounts(t: Tables, batch: seq<HeldNotice>, now: Instant, transports: nat -> Transport)
    ensures var swept := Sweep(t, batch, now, transports); swept.released + swept.failed == |batch|
  {
    if batch != [] {
      SweepCounts(t, batch[..|batch| - 1], now, transports);
    }
  }

  /** A sweep accounts for every notice it takes: released and failed add up to the due ones, at most
    * fifty. */
  lemma SweepAccountsForBatch(t: Tables, now: Instant, transports: nat -> Transport)
    ensures var swept, due := Sweep(t, Batch(t.held, now), now, transports), |DueRows(t.held, now)|;
            swept.released + swept.failed == if due < RELEASE_BATCH_LIMIT then due else RELEASE_BATCH_LIMIT
  {
    SweepCounts(t, Batch(t.held, now), now, transports);
    BatchIsDue(t.held, now);
  }

  // ---------------------------------------------------------------- recovery

  /** A recovery whose recorded notice never reached the CEO admits no notice: it sends nothing, holds
    * nothing, and withdraws what was recorded, held and waiting to be retried. */
  lemma UnseenRecoveryAdmitsNothing(t: Tables, signature: string, text: string, key: string, now: Instant, admittedAt: Instant, transport: Transport)
    requires ClearsUnseen(t, signature)
    ensures var lost := t.deliveries[signature].key;
            var recovered := RecoverStep(t, signature, text, key, now, admittedAt, transport);
            && recovered.admission == RecoveredWithoutDelivery
            && recovered.tables.outbox.Keys == t.outbox.Keys
            && (forall k <- t.outbox :: recovered.tables.outbox[k] == t.outbox[k] ||
                  (k == lost && recovered.tables.outbox[k] == t.outbox[k].(state := Cancelled, updatedAt := now)))
            && |recovered.tables.held| == |t.held| && !IsPending(recovered.tables.held, lost)
            && (forall s <- recovered.tables.deliveries ::
                  recovered.tables.deliveries[s].key == lost ==> recovered.tables.deliveries[s].state == Withdrawn)
            && !Open(recovered.tables, signature)
  {
    ReleaseOnlyItsKey(t.held, t.deliveries[signature].key, now, t.deliveries[signature].key);
  }

  lemma AdmissionIsNoRecovery(t: Tables, notice: Notice, now: Instant, transport: Transport)
    ensures var admission := AdmitStep(t, notice, now, transport).admission;
            admission != AlreadyRecovered && admission != RecoveredWithoutDelivery
  {
  }

  /** A recovery notice is admitted exactly when an incident was open and its notice was seen, may have
    * been, or was never recorded. */
  lemma RecoveryAnswers(t: Tables, signature: string, text: string, key: string, now: Instant, admittedAt: Instant, transport: Transport)
    ensures var admission := RecoverStep(t, signature, text, key, now, admittedAt, transport).admission;
            && (admission == AlreadyRecovered <==> !Open(t, signature))
            && (admission == RecoveredWithoutDelivery <==> ClearsUnseen(t, signature))
  {
    if Open(t, signature) && !ClearsUnseen(t, signature) {
      var closed := CloseGroup(t, signature);
      var seen := if signature in t.deliveries then Record(closed, signature, t.deliveries[signature].key, Delivered) else closed;
      AdmissionIsNoRecovery(seen, Notice(RecoveryNotice, text, key, false, None), admittedAt, transport);
    }
  }

  /** A second recovery changes nothing, whatever the first one did. */
  lemma RecoveryIsIdempotent(t: Tables, signature: string, text: string, key: string, now: Instant, admittedAt: Instant, transport: Transport,
                             again: string, later: Instant, laterStill: Instant, answer: Transport)
    ensures var recovered := RecoverStep(t, signature, text, key, now, admittedAt, transport).tables;
            RecoverStep(recovered, signature, text, again, later, laterStill, answer) == Admitted(recovered, AlreadyRecovered)
  {
    var recovered := RecoverStep(t, signature, text, key, now, admittedAt, transport).tables;
    RecoverCloses(t, signature, text, key, now, admittedAt, transport, signature);
    assert !Open(recovered, signature);
  }
}
