/** The Exception Notice rhythm of src/operations/exception-notice-rhythm.ts over its four tables
  * (src/operations/operations-state.ts): incident groups, recorded deliveries, held notices and the
  * delivery outbox. Each operation is given the clock it reads and the transport's answers.
  */
module ExceptionNotices {
  import opened OperatingClock
  import opened Sequences
  import opened TelegramOutbox
  import opened Wrappers

  datatype Notice = Notice(kind: Kind, text: string, key: string, urgentDeadline: bool, signature: Option<string>)

  datatype Group = Group(occurrences: nat, recovered: bool)
  datatype DeliveryState = HeldBack | Pending | Delivered | Withdrawn
  datatype Recorded = Recorded(key: string, state: DeliveryState)

  /** A held notice; it is pending until it is released or cancelled. */
  datatype HeldNotice = HeldNotice(key: string, kind: Kind, text: string, heldAt: Instant, releaseAt: Instant, releasedAt: Option<Instant>)

  /** The held notices are listed in row order. */
  datatype Tables = Tables(
    groups: map<string, Group>,
    deliveries: map<string, Recorded>,
    held: seq<HeldNotice>,
    outbox: Outbox)

  datatype Admission =
    | DeliveredNow
    | FailedNow(retryable: bool)
    | HeldUntil(releaseAt: Instant)
    | SuppressedForWeekend
    | SuppressedByFrontDoor
    | Grouped(occurrences: nat, delivered: bool)
    | RecoveredWithoutDelivery
    | AlreadyRecovered
    | AdmissionRaised

  const RELEASE_BATCH_LIMIT: nat := 50

  // ---------------------------------------------------------------- the tables

  predicate Open(t: Tables, signature: string) {
    signature in t.groups && !t.groups[signature].recovered
  }

  /** The first occurrence opens the group; a later one is counted into it. */
  function ClaimGroup(t: Tables, signature: string): Tables {
    var group := if Open(t, signature) then Group(t.groups[signature].occurrences + 1, false) else Group(1, false);
    t.(groups := t.groups[signature := group])
  }

  function CloseGroup(t: Tables, signature: string): Tables
    requires signature in t.groups
  {
    t.(groups := t.groups[signature := t.groups[signature].(recovered := true)])
  }

  function Record(t: Tables, signature: string, key: string, state: DeliveryState): Tables {
    t.(deliveries := t.deliveries[signature := Recorded(key, state)])
  }

  /** Every delivery recorded under a key moves to a state. */
  function MarkByKey(t: Tables, key: string, state: DeliveryState): Tables {
    t.(deliveries := map signature | signature in t.deliveries ::
         if t.deliveries[signature].key == key then Recorded(key, state) else t.deliveries[signature])
  }

  predicate IsPending(held: seq<HeldNotice>, key: string) {
    exists row :: row in held && row.key == key && row.releasedAt == None
  }

  predicate HasKey(held: seq<HeldNotice>, key: string) {
    exists row :: row in held && row.key == key
  }

  /** A new key is appended; a released one is held again under its first kind and text; a pending one is
    * left alone. */
  function Hold(held: seq<HeldNotice>, notice: Notice, now: Instant, releaseAt: Instant): seq<HeldNotice> {
    if HasKey(held, notice.key) then
      seq(|held|, i requires 0 <= i < |held| =>
        if held[i].key == notice.key && held[i].releasedAt.Some?
        then held[i].(heldAt := now, releaseAt := releaseAt, releasedAt := None)
        else held[i])
    else held + [HeldNotice(notice.key, notice.kind, notice.text, now, releaseAt, None)]
  }

  function Release(held: seq<HeldNotice>, key: string, now: Instant): (after: seq<HeldNotice>)
    ensures |after| == |held|
  {
    seq(|held|, i requires 0 <= i < |held| =>
      if held[i].key == key && held[i].releasedAt == None then held[i].(releasedAt := Some(now)) else held[i])
  }

  // ---------------------------------------------------------------- admission

  predicate WeekendSuppressed(kind: Kind) {
    kind == EntertainmentDigest || kind == RoutineProgress || kind == CompletedOutcomeReport
  }

  predicate Bypasses(notice: Notice) {
    notice.kind == CriticalIncident || (notice.kind == ApprovalNotice && notice.urgentDeadline)
  }

  /** A recorded delivery that can never reach the CEO any more. */
  predicate Dead(t: Tables, signature: string) {
    && signature in t.deliveries
    && t.deliveries[signature].state != HeldBack && t.deliveries[signature].state != Delivered
    && var status := StatusOf(t.outbox, t.deliveries[signature].key);
       status == Missing || status == Terminal || status == WasCancelled
  }

  /** Whether an occurrence of a signature is delivered on its own: it opens its group, or reopens one
    * whose recorded delivery is dead. */
  predicate PassesGrouping(t: Tables, signature: string) {
    !Open(t, signature) || Dead(t, signature)
  }

  /** The group claim, counted twice for a dead one: once into the old group, once as the first of the
    * reopened one. */
  function Grouping(t: Tables, signature: string): Tables {
    if Open(t, signature) && Dead(t, signature) then ClaimGroup(CloseGroup(ClaimGroup(t, signature), signature), signature)
    else ClaimGroup(t, signature)
  }

  function RecordIfSigned(t: Tables, notice: Notice, state: DeliveryState): Tables {
    match notice.signature
    case Some(signature) => Record(t, signature, notice.key, state)
    case None => t
  }

  datatype Admitted = Admitted(tables: Tables, admission: Admission)

  /** Holding or delivering a notice that passed grouping. */
  function Deliver(t: Tables, notice: Notice, now: Instant, transport: Transport): Admitted {
    if IsDoNotDisturb(now) && !Bypasses(notice) then
      var releaseAt := ReleaseAtFor(now);
      var kept := t.(held := Hold(t.held, notice, now, releaseAt));
      Admitted(RecordIfSigned(kept, notice, HeldBack), HeldUntil(releaseAt))
    else
      var notified := Notify(t.outbox, notice.kind, notice.text, notice.key, now, transport);
      var sent := t.(outbox := notified.outbox);
      match notified.delivery
      case Reached => Admitted(RecordIfSigned(sent, notice, Delivered), DeliveredNow)
      case StoodDown => Admitted(RecordIfSigned(sent, notice, Withdrawn), SuppressedByFrontDoor)
      case NotReached(retryable) =>
        Admitted(RecordIfSigned(sent, notice, if retryable then Pending else Withdrawn), FailedNow(retryable))
      case Raised => Admitted(sent, AdmissionRaised)
  }

  function AdmitStep(t: Tables, notice: Notice, now: Instant, transport: Transport): Admitted {
    if IsWeekend(OperatingDayOf(now)) && WeekendSuppressed(notice.kind) then Admitted(t, SuppressedForWeekend)
    else match notice.signature
      case None => Deliver(t, notice, now, transport)
      case Some(signature) =>
        var grouped := Grouping(t, signature);
        if PassesGrouping(t, signature) then Deliver(grouped, notice, now, transport)
        else
          Admitted(grouped, Grouped(grouped.groups[signature].occurrences,
                                    signature in t.deliveries && t.deliveries[signature].state == Delivered))
  }

  // ---------------------------------------------------------------- the sweep

  predicate IsDue(row: HeldNotice, now: Instant) {
    row.releasedAt == None && row.releaseAt <= now
  }

  function DueRows(held: seq<HeldNotice>, now: Instant): seq<HeldNotice> {
    Filter(held, (row: HeldNotice) => IsDue(row, now))
  }

  /** Inserts a row behind those released no later. */
  function InsertByRelease(rows: seq<HeldNotice>, row: HeldNotice): seq<HeldNotice> {
    if rows == [] || rows[|rows| - 1].releaseAt <= row.releaseAt then rows + [row]
    else InsertByRelease(rows[..|rows| - 1], row) + [rows[|rows| - 1]]
  }

  function ByRelease(rows: seq<HeldNotice>): seq<HeldNotice> {
    if rows == [] then [] else InsertByRelease(ByRelease(rows[..|rows| - 1]), rows[|rows| - 1])
  }

  /** The notices a sweep takes: the due ones, earliest release first, at most the batch limit. */
  function Batch(held: seq<HeldNotice>, now: Instant): seq<HeldNotice> {
    var due := ByRelease(DueRows(held, now));
    if |due| > RELEASE_BATCH_LIMIT then due[..RELEASE_BATCH_LIMIT] else due
  }

  datatype Swept = Swept(tables: Tables, released: nat, failed: nat)

  function SweepOne(s: Swept, row: HeldNotice, now: Instant, transport: Transport): Swept {
    var notified := Notify(s.tables.outbox, row.kind, row.text, row.key, now, transport);
    var sent := s.tables.(outbox := notified.outbox);
    match notified.delivery
    case NotReached(_) => Swept(MarkByKey(sent, row.key, Pending), s.released, s.failed + 1)
    case Raised => Swept(sent, s.released, s.failed + 1)
    case _ =>
      var released := sent.(held := Release(sent.held, row.key, now));
      Swept(MarkByKey(released, row.key, Delivered), s.released + 1, s.failed)
  }

  function Sweep(t: Tables, batch: seq<HeldNotice>, now: Instant, transports: nat -> Transport): Swept {
    if batch == [] then Swept(t, 0, 0)
    else
      var n := |batch| - 1;
      SweepOne(Sweep(t, batch[..n], now, transports), batch[n], now, transports(n))
  }

  // ---------------------------------------------------------------- recovery

  /** A recorded delivery the CEO has seen, or may have. */
  predicate ReachedCeo(t: Tables, signature: string)
    requires signature in t.deliveries
  {
    var status := StatusOf(t.outbox, t.deliveries[signature].key);
    t.deliveries[signature].state == Delivered || status == WasSent || status == IsInFlight || status == IsUncertain
  }

  /** The open incident was recorded and never reached the CEO. */
  predicate ClearsUnseen(t: Tables, signature: string) {
    Open(t, signature) && signature in t.deliveries && !ReachedCeo(t, signature)
  }

  /** Recovery reads the clock, and admitting its notice reads it again. */
  function RecoverStep(t: Tables, signature: string, text: string, key: string, now: Instant, admittedAt: Instant, transport: Transport): Admitted {
    if !Open(t, signature) then Admitted(t, AlreadyRecovered)
    else
      var closed := CloseGroup(t, signature);
      if signature in t.deliveries && !ReachedCeo(t, signature) then
        var lost := t.deliveries[signature].key;
        var withdrawn := MarkByKey(closed.(outbox := Cancel(closed.outbox, lost, now)), lost, Withdrawn);
        Admitted(Record(withdrawn.(held := Release(withdrawn.held, lost, now)), signature, lost, Withdrawn), RecoveredWithoutDelivery)
      else
        var seen := if signature in t.deliveries then Record(closed, signature, t.deliveries[signature].key, Delivered) else closed;
        AdmitStep(seen, Notice(RecoveryNotice, text, key, false, None), admittedAt, transport)
  }

  // ---------------------------------------------------------------- the rhythm

  class ExceptionNoticeRhythm {
    var groups: map<string, Group>
    var deliveries: map<string, Recorded>
    var held: seq<HeldNotice>
    var outbox: Outbox

    function State(): Tables
      reads this
    {
      Tables(groups, deliveries, held, outbox)
    }

    constructor ()
      ensures State() == Tables(map[], map[], [], map[])
    {
      groups, deliveries, held, outbox := map[], map[], [], map[];
    }

    /** Claims the group and says whether this occurrence passes; a dead group is reopened. */
    method ClaimSignature(signature: string) returns (passes: bool, occurrences: nat)
      modifies this`groups
      ensures State() == Grouping(old(State()), signature)
      ensures passes == PassesGrouping(old(State()), signature)
      ensures signature in groups && occurrences == groups[signature].occurrences
    {
      var open := signature in groups && !groups[signature].recovered;
      occurrences := if open then groups[signature].occurrences + 1 else 1;
      groups := groups[signature := Group(occurrences, false)];
      passes := !open;
      if open && signature in deliveries {
        var prior := deliveries[signature];
        var status := StatusOf(outbox, prior.key);
        if prior.state != HeldBack && prior.state != Delivered && (status == Missing || status == Terminal || status == WasCancelled) {
          groups := groups[signature := groups[signature].(recovered := true)];
          occurrences := 1;
          groups := groups[signature := Group(occurrences, false)];
          passes := true;
        }
      }
    }

    method RecordDelivery(signature: Option<string>, key: string, state: DeliveryState)
      modifies this`deliveries
      ensures deliveries == match signature
                            case Some(s) => old(deliveries)[s := Recorded(key, state)]
                            case None => old(deliveries)
    {
      if signature.Some? {
        deliveries := deliveries[signature.value := Recorded(key, state)];
      }
    }

    method Admit(notice: Notice, now: Instant, transport: Transport) returns (admission: Admission)
      modifies this
      ensures Admitted(State(), admission) == AdmitStep(old(State()), notice, now, transport)
    {
      if IsWeekend(OperatingDayOf(now)) && WeekendSuppressed(notice.kind) {
        return SuppressedForWeekend;
      }
      if notice.signature.Some? {
        var signature := notice.signature.value;
        var passes, occurrences := ClaimSignature(signature);
        if !passes {
          return Grouped(occurrences, signature in deliveries && deliveries[signature].state == Delivered);
        }
      }
      if IsDoNotDisturb(now) && !Bypasses(notice) {
        var releaseAt := ReleaseAtFor(now);
        held := Hold(held, notice, now, releaseAt);
        RecordDelivery(notice.signature, notice.key, HeldBack);
        return HeldUntil(releaseAt);
      }
      var notified := Notify(outbox, notice.kind, notice.text, notice.key, now, transport);
      outbox := notified.outbox;
      match notified.delivery
      case Reached =>
        RecordDelivery(notice.signature, notice.key, Delivered);
        admission := DeliveredNow;
      case StoodDown =>
        RecordDelivery(notice.signature, notice.key, Withdrawn);
        admission := SuppressedByFrontDoor;
      case NotReached(retryable) =>
        RecordDelivery(notice.signature, notice.key, if retryable then Pending else Withdrawn);
        admission := FailedNow(retryable);
      case Raised =>
        admission := AdmissionRaised;
    }

    method ReleaseHeld(now: Instant, transports: nat -> Transport) returns (released: nat, failed: nat)
      modifies this
      ensures Swept(State(), released, failed) == Sweep(old(State()), Batch(old(held), now), now, transports)
    {
      var batch := Batch(held, now);
      released, failed := 0, 0;
      for i := 0 to |batch|
        invariant Swept(State(), released, failed) == Sweep(old(State()), batch[..i], now, transports)
      {
        assert batch[..i + 1][..i] == batch[..i];
        var row := batch[i];
        var notified := Notify(outbox, row.kind, row.text, row.key, now, transports(i));
        outbox := notified.outbox;
        match notified.delivery
        case NotReached(_) =>
          deliveries := MarkByKey(State(), row.key, Pending).deliveries;
          failed := failed + 1;
        case Raised =>
          failed := failed + 1;
        case _ =>
          held := Release(held, row.key, now);
          deliveries := MarkByKey(State(), row.key, Delivered).deliveries;
          released := released + 1;
      }
      assert batch[..|batch|] == batch;
    }

    method RecordRecovery(signature: string, text: string, key: string, now: Instant, admittedAt: Instant, transport: Transport)
      returns (admission: Admission)
      modifies this
      ensures Admitted(State(), admission) == RecoverStep(old(State()), signature, text, key, now, admittedAt, transport)
    {
      if signature !in groups || groups[signature].recovered {
        return AlreadyRecovered;
      }
      groups := groups[signature := groups[signature].(recovered := true)];
      if signature in deliveries {
        var delivery := deliveries[signature];
        var status := StatusOf(outbox, delivery.key);
        if !(delivery.state == Delivered || status == WasSent || status == IsInFlight || status == IsUncertain) {
          outbox := Cancel(outbox, delivery.key, now);
          deliveries := MarkByKey(State(), delivery.key, Withdrawn).deliveries;
          held := Release(held, delivery.key, now);
          RecordDelivery(Some(signature), delivery.key, Withdrawn);
          return RecoveredWithoutDelivery;
        }
        RecordDelivery(Some(signature), delivery.key, Delivered);
      }
      admission := Admit(Notice(RecoveryNotice, text, key, false, None), admittedAt, transport);
    }
  }
}
