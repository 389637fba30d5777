/** The front door's durable delivery ledger: `claimTelegramDelivery` and its completions in
  * src/operations/operations-state.ts, driven by `notify` and `sendDurably` in
  * src/telegram/telegram-front-door.ts. What the transport does with a message is a parameter.
  */
module TelegramOutbox {
  import opened Wrappers

  datatype Kind =
    | Brief | ApprovalNotice | MaterialBlocker | CriticalIncident | CompletedOutcomeReport
    | RecoveryNotice | EntertainmentDigest | RoutineProgress

  datatype SendState = InFlight | Sent | Failed | Uncertain | Cancelled

  /** `retryAfterMs` is how long after the row was last updated the provider asked not to be tried again. */
  datatype OutboxRow = OutboxRow(text: string, state: SendState, attempts: nat, retryable: bool, retryAfterMs: Option<nat>, updatedAt: int)

  type Outbox = map<string, OutboxRow>

  const MAX_ATTEMPTS: nat := 3

  datatype Claim = Conflict | AlreadySent | StatusUncertain | Exhausted | Deferred | Send

  /** What the transport does, and when it has done it. */
  datatype Transport = Accepts(at: int) | Rejects(retryable: bool, retryAfterMs: Option<nat>, at: int) | Throws(at: int)

  datatype Delivery = Reached | StoodDown | NotReached(retryable: bool) | Raised

  /** What one notification leaves: the outbox, the answer, and whether the transport accepted it. */
  datatype Notified = Notified(outbox: Outbox, delivery: Delivery, accepted: bool)

  predicate Allowed(kind: Kind) {
    kind != RoutineProgress
  }

  function ClaimDelivery(outbox: Outbox, key: string, text: string, now: int): Claim {
    if key !in outbox then Send
    else
      var row := outbox[key];
      if row.text != text then Conflict
      else if row.state == Sent then AlreadySent
      else if row.state == InFlight || row.state == Uncertain then StatusUncertain
      else if !row.retryable || row.attempts >= MAX_ATTEMPTS then Exhausted
      else if row.retryAfterMs.Some? && now < row.updatedAt + row.retryAfterMs.value then Deferred
      else Send
  }

  /** A claim to send starts a row or an attempt. Only a failed row is updated, so a cancelled one keeps
    * its state although the claim says to send. */
  function Claimed(outbox: Outbox, key: string, text: string, now: int): Outbox {
    if key !in outbox then outbox[key := OutboxRow(text, InFlight, 1, false, None, now)]
    else if outbox[key].state == Failed then
      outbox[key := OutboxRow(outbox[key].text, InFlight, outbox[key].attempts + 1, false, None, now)]
    else outbox
  }

  /** The transport's answer is recorded on an in-flight row; on any other the recording raises. */
  function Transmit(outbox: Outbox, key: string, transport: Transport): Notified
    requires key in outbox
  {
    var row := outbox[key];
    if row.state != InFlight then Notified(outbox, Raised, transport.Accepts?)
    else match transport
      case Accepts(at) => Notified(outbox[key := row.(state := Sent, updatedAt := at)], Reached, true)
      case Rejects(retryable, retryAfterMs, at) =>
        Notified(outbox[key := row.(state := Failed, retryable := retryable, retryAfterMs := retryAfterMs, updatedAt := at)],
                 NotReached(retryable), false)
      case Throws(at) =>
        Notified(outbox[key := row.(state := Uncertain, retryable := false, retryAfterMs := None, updatedAt := at)], NotReached(false), false)
  }

  function Notify(outbox: Outbox, kind: Kind, text: string, key: string, now: int, transport: Transport): Notified {
    if !Allowed(kind) then Notified(outbox, StoodDown, false)
    else match ClaimDelivery(outbox, key, text, now)
      case Conflict => Notified(outbox, NotReached(false), false)
      case AlreadySent => Notified(outbox, Reached, false)
      case StatusUncertain => Notified(outbox, NotReached(false), false)
      case Exhausted => Notified(outbox, NotReached(false), false)
      case Deferred => Notified(outbox, NotReached(true), false)
      case Send => Transmit(Claimed(outbox, key, text, now), key, transport)
  }

  datatype Status = Missing | WasSent | Retryable | Terminal | IsUncertain | IsInFlight | WasCancelled

  function StatusOf(outbox: Outbox, key: string): Status {
    if key !in outbox then Missing
    else match outbox[key].state
      case Sent => WasSent
      case Uncertain => IsUncertain
      case InFlight => IsInFlight
      case Cancelled => WasCancelled
      case Failed => if outbox[key].retryable && outbox[key].attempts < MAX_ATTEMPTS then Retryable else Terminal
  }

  /** A cancelled row counts as updated then, which puts off its retry time. */
  function Cancel(outbox: Outbox, key: string, now: int): Outbox {
    if key in outbox && (outbox[key].state == Failed || outbox[key].state == InFlight)
    then outbox[key := outbox[key].(state := Cancelled, updatedAt := now)]
    else outbox
  }

  // ---------------------------------------------------------------- at most once

  /** A delivery that was cancelled but could still be claimed. */
  predicate Revivable(outbox: Outbox, key: string) {
    key in outbox && outbox[key].state == Cancelled && outbox[key].retryable && outbox[key].attempts < MAX_ATTEMPTS
  }

  datatype OutboxStep =
    | NotifyStep(kind: Kind, text: string, key: string, now: int, transport: Transport)
    | CancelStep(key: string, now: int)

  function After(outbox: Outbox, step: OutboxStep): Outbox {
    match step
    case NotifyStep(kind, text, key, now, transport) => Notify(outbox, kind, text, key, now, transport).outbox
    case CancelStep(key, now) => Cancel(outbox, key, now)
  }

  predicate Accepted(outbox: Outbox, step: OutboxStep, key: string) {
    step.NotifyStep? && step.key == key && Notify(outbox, step.kind, step.text, key, step.now, step.transport).accepted
  }

  function RunOutbox(steps: seq<OutboxStep>): Outbox {
    if steps == [] then map[] else After(RunOutbox(steps[..|steps| - 1]), steps[|steps| - 1])
  }

  /** How often the transport accepted a key over a run. */
  function AcceptedCount(steps: seq<OutboxStep>, key: string): nat {
    if steps == [] then 0
    else
      var earlier := steps[..|steps| - 1];
      AcceptedCount(earlier, key) + if Accepted(RunOutbox(earlier), steps[|steps| - 1], key) then 1 else 0
  }

  /** How often it accepted one that was cancelled but could still be claimed. */
  function RevivedCount(steps: seq<OutboxStep>, key: string): nat {
    if steps == [] then 0
    else
      var earlier := steps[..|steps| - 1];
      RevivedCount(earlier, key) +
      if Accepted(RunOutbox(earlier), steps[|steps| - 1], key) && Revivable(RunOutbox(earlier), key) then 1 else 0
  }

  function SentCount(outbox: Outbox, key: string): nat {
    if key in outbox && outbox[key].state == Sent then 1 else 0
  }

  /** A row moves to sent exactly by an acceptance that did not find it cancelled, and a sent one is final. */
  lemma OneAcceptance(outbox: Outbox, step: OutboxStep, key: string)
    ensures SentCount(After(outbox, step), key) ==
            SentCount(outbox, key) + if Accepted(outbox, step, key) && !Revivable(outbox, key) then 1 else 0
  {
  }

  /** Over every run, a key is accepted once if its row says sent, and besides once for each acceptance that
    * found it cancelled but still to be claimed: exactly as often as that, never more. */
  lemma {:induction false} AcceptedCountIsExact(steps: seq<OutboxStep>, key: string)
    ensures AcceptedCount(steps, key) == RevivedCount(steps, key) + SentCount(RunOutbox(steps), key)
  {
    if steps != [] {
      AcceptedCountIsExact(steps[..|steps| - 1], key);
      OneAcceptance(RunOutbox(steps[..|steps| - 1]), steps[|steps| - 1], key);
    }
  }

  lemma OneMoreAttempt(outbox: Outbox, step: OutboxStep, key: string)
    requires key in outbox ==> 1 <= outbox[key].attempts <= MAX_ATTEMPTS
    ensures key in After(outbox, step) ==> 1 <= After(outbox, step)[key].attempts <= MAX_ATTEMPTS
  {
  }

  /** No row is tried more than three times. */
  lemma {:induction false} TriedAtMostThreeTimes(steps: seq<OutboxStep>, key: string)
    ensures key in RunOutbox(steps) ==> 1 <= RunOutbox(steps)[key].attempts <= MAX_ATTEMPTS
  {
    if steps != [] {
      TriedAtMostThreeTimes(steps[..|steps| - 1], key);
      OneMoreAttempt(RunOutbox(steps[..|steps| - 1]), steps[|steps| - 1], key);
    }
  }

  /** So a key is accepted twice or more only by way of a cancelled row: one that is not cancelled says how
    * often, and for a cancelled one it is the acceptances that found it so. */
  lemma {:induction false} AcceptedAtMostOnce(steps: seq<OutboxStep>, key: string)
    ensures RevivedCount(steps, key) > 0 ==> Revivable(RunOutbox(steps), key)
    ensures AcceptedCount(steps, key) <= 1 <==> RevivedCount(steps, key) <= 1
  {
    AcceptedCountIsExact(steps, key);
    if steps != [] {
      var earlier := steps[..|steps| - 1];
      AcceptedAtMostOnce(earlier, key);
      RevivableStays(RunOutbox(earlier), steps[|steps| - 1], key);
    }
  }

  lemma RevivableStays(outbox: Outbox, step: OutboxStep, key: string)
    ensures Revivable(outbox, key) ==> Revivable(After(outbox, step), key)
  {
  }

  /** The transport accepts a cancelled delivery that can still be claimed every time it is notified, the row
    * stays as it is, and recording the acceptance raises. */
  lemma CancelledDeliveryIsSentAgain(outbox: Outbox, kind: Kind, key: string, now: int, at: int)
    requires Revivable(outbox, key) && Allowed(kind)
    requires outbox[key].retryAfterMs.Some? ==> outbox[key].updatedAt + outbox[key].retryAfterMs.value <= now
    ensures Notify(outbox, kind, outbox[key].text, key, now, Accepts(at)) == Notified(outbox, Raised, true)
  {
  }

  function RunOne(key: string, text: string, now: int, transport: Transport): OutboxStep {
    NotifyStep(Brief, text, key, now, transport)
  }

  /** A run that comes to it: refused for now, cancelled, notified and notified again. The transport accepts
    * the message twice. */
  lemma CancelledIsAcceptedTwice(key: string, text: string)
    ensures var refused, again := RunOne(key, text, 0, Rejects(true, None, 1)), RunOne(key, text, 3, Accepts(4));
            AcceptedCount([refused, CancelStep(key, 2), again, again], key) == 2
  {
    var refused, again := RunOne(key, text, 0, Rejects(true, None, 1)), RunOne(key, text, 3, Accepts(4));
    var cancelled: Outbox := map[key := OutboxRow(text, Cancelled, 1, true, None, 2)];
    var steps := [refused, CancelStep(key, 2), again, again];
    assert steps[..3][..2] == [refused, CancelStep(key, 2)] && steps[..3][2] == again;
    assert [refused, CancelStep(key, 2)][..1] == [refused];
    CancelledAfterRefusal(key, text);
    CancelledDeliveryIsSentAgain(cancelled, Brief, key, 3, 4);
    assert RunOutbox(steps[..3]) == cancelled;
  }

  lemma CancelledAfterRefusal(key: string, text: string)
    ensures var refused := RunOne(key, text, 0, Rejects(true, None, 1));
            && RunOutbox([refused, CancelStep(key, 2)]) == map[key := OutboxRow(text, Cancelled, 1, true, None, 2)]
            && AcceptedCount([refused, CancelStep(key, 2)], key) == 0
  {
    var refused := RunOne(key, text, 0, Rejects(true, None, 1));
    assert [refused, CancelStep(key, 2)][..1] == [refused];
    assert [refused][..0] == [];
    assert AcceptedCount([refused], key) == 0;
    assert RunOutbox([refused]) == map[key := OutboxRow(text, Failed, 1, true, None, 1)];
  }

  /** A replay of a sent notification under its key and text reaches the CEO without sending again. */
  lemma ReplayIsDeduplicated(outbox: Outbox, kind: Kind, text: string, key: string, now: int, transport: Transport, later: int, again: Transport)
    requires Notify(outbox, kind, text, key, now, transport).delivery == Reached
    ensures var after := Notify(outbox, kind, text, key, now, transport).outbox;
            Notify(after, kind, text, key, later, again) == Notified(after, Reached, false)
  {
  }
}
