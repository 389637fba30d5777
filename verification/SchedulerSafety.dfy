/** What every interleaving of ticks, timeouts, settling runners and native calls keeps. */
module SchedulerSafety {
  import opened OperatingClock
  import opened SchedulerLedger
  import opened SchedulerProtocol
  import opened Wrappers

  // ---------------------------------------------------------------- one runner for a job

  /** A job the tick is at is not fenced until its runner starts. */
  predicate AtUnfenced(s: State, cfg: Config) {
    (s.phase.Reporting? || s.phase.Retrying?) ==> s.phase.i < |cfg.jobs| && cfg.jobs[s.phase.i].name !in s.active
  }

  ghost predicate Fenced(s: State, cfg: Config) {
    && AtUnfenced(s, cfg)
    && (forall job :: s.unsettled[job] == if job in s.active then 1 else 0)
    && (s.phase.Running? && s.phase.settled == None ==> s.phase.hold.slot.job in s.active)
  }

  lemma StartIsFenced(s: State, cfg: Config, now: Instant, i: nat, slot: Slot)
    requires (forall job :: s.unsettled[job] == if job in s.active then 1 else 0) && slot.job !in s.active
    ensures Fenced(StartRunner(s, now, i, slot), cfg)
  {
  }

  lemma ClaimIsFenced(s: State, cfg: Config)
    requires Fenced(s, cfg)
    ensures s.phase.Reporting? ==> Fenced(ClaimOccurrence(s, cfg), cfg)
    ensures s.phase.Retrying? ==> Fenced(ClaimAgain(s, cfg), cfg)
  {
    if s.phase.Reporting? || s.phase.Retrying? {
      var c := TickClaim(cfg, cfg.jobs[s.phase.i], s.phase.now);
      StartIsFenced(s.(ledger := AfterClaim(s.ledger, c)), cfg, s.phase.now, s.phase.i, c.slot);
    }
  }

  lemma SettleIsFenced(s: State, cfg: Config, job: string, ok: bool)
    requires Fenced(s, cfg) && job in s.unsettled
    ensures Fenced(Settle(s, job, ok), cfg)
  {
  }

  lemma ApplyIsFenced(s: State, cfg: Config, e: Event)
    requires Fenced(s, cfg)
    ensures Fenced(Apply(s, cfg, e), cfg)
  {
    if Enabled(s, cfg, e) {
      match e
      case TickClaims(_) => ClaimIsFenced(s, cfg);
      case TickRetries(_) => ClaimIsFenced(s, cfg);
      case RunnerSettles(job, ok) => SettleIsFenced(s, cfg, job, ok);
      case NativeBegins(id, native, now, runId) => CallKeepsProcess(s, id, native, now, runId);
      case _ => {}
    }
  }

  lemma CallKeepsProcess(s: State, id: nat, native: Job, now: Instant, runId: string)
    ensures var after := CallNative(s, id, native, now, runId).state;
            after.phase == s.phase && after.active == s.active && after.unsettled == s.unsettled && after.tally == s.tally
  {
  }

  /** Over every interleaving, a process never has two unsettled runners of one job: not even after a
    * timeout, when the runner of the timed-out attempt lives on. */
  lemma {:induction false} AtMostOneRunner(l: Ledger, cfg: Config, events: seq<Event>)
    ensures Fenced(Run(l, cfg, events), cfg)
    ensures forall job :: Run(l, cfg, events).unsettled[job] <= 1
  {
    if events != [] {
      AtMostOneRunner(l, cfg, events[..|events| - 1]);
      ApplyIsFenced(Run(l, cfg, events[..|events| - 1]), cfg, events[|events| - 1]);
    }
  }

  // ---------------------------------------------------------------- a succeeded occurrence

  /** The holder of an occurrence that an event completes. */
  function CompletedHold(s: State, e: Event): Option<Hold> {
    match e
    case TickCompletes(_) => if s.phase.Running? && s.phase.settled.Some? then Some(s.phase.hold) else None
    case NativeEnds(id, _, _) => if id in s.natives then Some(s.natives[id].hold) else None
    case _ => None
  }

  lemma ClaimKeepsSuccess(l: Ledger, c: Claim, slot: Slot)
    requires HasSucceeded(l, slot)
    ensures slot in AfterClaim(l, c).runs && AfterClaim(l, c).runs[slot] == l.runs[slot]
  {
  }

  lemma MissedKeepsSuccess(l: Ledger, cfg: Config, job: Job, now: Instant, slot: Slot)
    requires HasSucceeded(l, slot)
    ensures slot in ReportMissed(l, cfg, job, now).runs && ReportMissed(l, cfg, job, now).runs[slot] == l.runs[slot]
  {
  }

  lemma ReclaimKeepsSuccess(l: Ledger, c: Claim, at: Instant, slot: Slot)
    requires HasSucceeded(l, slot) && KindOf(l, c) == StaleReclaimed
    ensures var failed := AfterComplete(AfterClaim(l, c), c.slot, at, Failed, None);
            && HasSucceeded(failed, slot) && failed.runs[slot] == l.runs[slot]
            && slot in AfterClaim(failed, c).runs && AfterClaim(failed, c).runs[slot] == l.runs[slot]
  {
  }

  /** No step of anyone starts a succeeded occurrence again; its row changes only when someone who still
    * holds the occurrence completes it. */
  lemma SucceededChangesOnlyByItsHolder(s: State, cfg: Config, e: Event, slot: Slot)
    requires HasSucceeded(s.ledger, slot)
    ensures var after := Apply(s, cfg, e).ledger;
            && slot in after.runs && after.runs[slot].claims == s.ledger.runs[slot].claims
            && (after.runs[slot] != s.ledger.runs[slot] ==> CompletedHold(s, e).Some? && CompletedHold(s, e).value.slot == slot)
  {
    if Enabled(s, cfg, e) {
      match e
      case TickConsiders =>
        if s.phase.i < |cfg.jobs| {
          MissedKeepsSuccess(s.ledger, cfg, cfg.jobs[s.phase.i], s.phase.now, slot);
        }
      case TickClaims(_) => {
        var c := TickClaim(cfg, cfg.jobs[s.phase.i], s.phase.now);
        ClaimKeepsSuccess(s.ledger, c, slot);
        if KindOf(s.ledger, c) == StaleReclaimed {
          ReclaimKeepsSuccess(s.ledger, c, s.phase.now, slot);
        }
      }
      case TickRetries(_) => ClaimKeepsSuccess(s.ledger, TickClaim(cfg, cfg.jobs[s.phase.i], s.phase.now), slot);
      case NativeBegins(id, native, now, runId) => {
        var c := NativeClaim(native, now, runId);
        ClaimKeepsSuccess(s.ledger, c, slot);
        if KindOf(s.ledger, c) == StaleReclaimed {
          ReclaimKeepsSuccess(s.ledger, c, now, slot);
        }
      }
      case _ => {}
    }
  }

  // ---------------------------------------------------------------- occurrences abandoned alive

  predicate SlotHeld(s: State, slot: Slot) {
    (s.phase.Running? && s.phase.hold.slot == slot) || (exists id <- s.natives :: s.natives[id].hold.slot == slot)
  }

  /** A job that the tick is looking at, and that is due. */
  predicate LooksAtDue(s: State, cfg: Config) {
    && s.phase.Selecting? && s.phase.i < |cfg.jobs|
    && var job := cfg.jobs[s.phase.i];
       job.name in cfg.runners && job.name !in s.active && OccurrenceAt(s.phase.now, job.hour, job.minute).scheduledAt <= s.phase.now
  }

  /** The running occurrence that an event takes over as stale, or records as missed. */
  function TakenOver(s: State, cfg: Config, e: Event): Option<Slot> {
    if !Enabled(s, cfg, e) then None
    else match e
      case TickConsiders =>
        if LooksAtDue(s, cfg) then IfRunning(s.ledger, SlotOf(cfg.jobs[s.phase.i], s.phase.now - MS_PER_DAY)) else None
      case TickClaims(ok) => if ok then IfStale(s.ledger, TickClaim(cfg, cfg.jobs[s.phase.i], s.phase.now)) else None
      case TickRetries(ok) => if ok then IfStale(s.ledger, TickClaim(cfg, cfg.jobs[s.phase.i], s.phase.now)) else None
      case NativeBegins(_, native, now, runId) => IfStale(s.ledger, NativeClaim(native, now, runId))
      case _ => None
  }

  function IfRunning(l: Ledger, slot: Slot): Option<Slot> {
    if IsRunning(l, slot) then Some(slot) else None
  }

  function IfStale(l: Ledger, c: Claim): Option<Slot> {
    if KindOf(l, c) == StaleReclaimed then Some(c.slot) else None
  }

  /** An event takes over an occurrence whose holder is still at work. */
  predicate Abandons(s: State, cfg: Config, e: Event) {
    TakenOver(s, cfg, e).Some? && SlotHeld(s, TakenOver(s, cfg, e).value)
  }

  ghost predicate NothingAbandoned(l: Ledger, cfg: Config, events: seq<Event>) {
    forall i :: 0 <= i < |events| ==> !Abandons(Run(l, cfg, events[..i]), cfg, events[i])
  }

  predicate Current(l: Ledger, h: Hold) {
    IsRunning(l, h.slot) && l.runs[h.slot].claims == h.claim
  }

  /** Whoever holds an occurrence holds it by its last claim, the occurrence is running, and nobody else
    * holds it. */
  ghost predicate HeldAlone(s: State) {
    && (s.phase.Running? ==> Current(s.ledger, s.phase.hold))
    && (forall id <- s.natives :: Current(s.ledger, s.natives[id].hold))
    && (s.phase.Running? ==> forall id <- s.natives :: s.natives[id].hold.slot != s.phase.hold.slot)
    && (forall id <- s.natives, other <- s.natives :: id != other ==> s.natives[id].hold.slot != s.natives[other].hold.slot)
  }

  /** Rows other than one stay as they were. */
  ghost predicate Elsewhere(l: Ledger, after: Ledger, slot: Slot) {
    forall other <- l.runs :: other != slot ==> other in after.runs && after.runs[other] == l.runs[other]
  }

  lemma ClaimIsElsewhere(l: Ledger, c: Claim)
    ensures Elsewhere(l, AfterClaim(l, c), c.slot)
    ensures Takes(KindOf(l, c)) ==> Current(AfterClaim(l, c), Hold(c.slot, ClaimsOf(AfterClaim(l, c), c.slot)))
    ensures KindOf(l, c) == Claimed ==> !IsRunning(l, c.slot)
  {
  }

  lemma ReclaimIsElsewhere(l: Ledger, c: Claim, at: Instant)
    requires KindOf(l, c) == StaleReclaimed
    ensures var failed := AfterComplete(AfterClaim(l, c), c.slot, at, Failed, None);
            && Elsewhere(l, failed, c.slot) && Elsewhere(l, AfterClaim(failed, c), c.slot)
            && !IsRunning(failed, c.slot)
            && (c.maxAttempts == None ==> KindOf(failed, c) == Claimed)
            && (Takes(KindOf(failed, c)) ==> Current(AfterClaim(failed, c), Hold(c.slot, ClaimsOf(AfterClaim(failed, c), c.slot))))
  {
  }

  lemma MissedIsElsewhere(l: Ledger, cfg: Config, job: Job, now: Instant)
    ensures var slot := SlotOf(job, now - MS_PER_DAY);
            && Elsewhere(l, ReportMissed(l, cfg, job, now), slot)
            && (slot in l.runs && !IsRunning(l, slot) ==> ReportMissed(l, cfg, job, now) == l)
  {
    var slot := SlotOf(job, now - MS_PER_DAY);
    assert slot in l.runs && !IsRunning(l, slot) ==> HasSucceeded(l, slot) || HasFailed(l, slot) by {
      if slot in l.runs && !IsRunning(l, slot) {
        assert l.runs[slot].outcome.value == Succeeded || l.runs[slot].outcome.value == Failed;
      }
    }
  }

  /** Ledger steps away from the held occurrences leave their holders alone. */
  lemma HoldersUndisturbed(s: State, after: Ledger, slot: Slot)
    requires HeldAlone(s) && Elsewhere(s.ledger, after, slot) && !SlotHeld(s, slot)
    ensures HeldAlone(s.(ledger := after))
  {
  }

  lemma StartIsAlone(s: State, after: Ledger, now: Instant, i: nat, slot: Slot)
    requires HeldAlone(s) && Elsewhere(s.ledger, after, slot) && !SlotHeld(s, slot) && !s.phase.Running?
    requires Current(after, Hold(slot, ClaimsOf(after, slot)))
    ensures HeldAlone(StartRunner(s.(ledger := after), now, i, slot))
  {
    HoldersUndisturbed(s, after, slot);
  }

  lemma ComposeIsAlone(s: State, id: nat, after: Ledger, slot: Slot, runId: string, now: Instant)
    requires HeldAlone(s) && Elsewhere(s.ledger, after, slot) && !SlotHeld(s, slot) && id !in s.natives
    requires Current(after, Hold(slot, ClaimsOf(after, slot)))
    ensures HeldAlone(Compose(s, id, after, slot, runId, now))
  {
    HoldersUndisturbed(s, after, slot);
  }

  lemma ClaimOccurrenceIsAlone(s: State, cfg: Config)
    requires HeldAlone(s) && s.phase.Reporting? && s.phase.i < |cfg.jobs| && !Abandons(s, cfg, TickClaims(true))
    ensures HeldAlone(ClaimOccurrence(s, cfg))
  {
    var c := TickClaim(cfg, cfg.jobs[s.phase.i], s.phase.now);
    ClaimIsElsewhere(s.ledger, c);
    match KindOf(s.ledger, c)
    case Claimed => StartIsAlone(s, AfterClaim(s.ledger, c), s.phase.now, s.phase.i, c.slot);
    case StaleReclaimed => {
      ReclaimIsElsewhere(s.ledger, c, s.phase.now);
      HoldersUndisturbed(s, AfterComplete(AfterClaim(s.ledger, c), c.slot, s.phase.now, Failed, None), c.slot);
    }
    case _ => {}
  }

  lemma ClaimAgainIsAlone(s: State, cfg: Config)
    requires HeldAlone(s) && s.phase.Retrying? && s.phase.i < |cfg.jobs| && !Abandons(s, cfg, TickRetries(true))
    ensures HeldAlone(ClaimAgain(s, cfg))
  {
    var c := TickClaim(cfg, cfg.jobs[s.phase.i], s.phase.now);
    ClaimIsElsewhere(s.ledger, c);
    if Takes(KindOf(s.ledger, c)) {
      StartIsAlone(s, AfterClaim(s.ledger, c), s.phase.now, s.phase.i, c.slot);
    }
  }

  lemma CallIsAlone(s: State, cfg: Config, id: nat, native: Job, now: Instant, runId: string)
    requires HeldAlone(s) && id !in s.natives && !Abandons(s, cfg, NativeBegins(id, native, now, runId))
    ensures HeldAlone(CallNative(s, id, native, now, runId).state)
  {
    var c := NativeClaim(native, now, runId);
    ClaimIsElsewhere(s.ledger, c);
    match KindOf(s.ledger, c)
    case Claimed => ComposeIsAlone(s, id, AfterClaim(s.ledger, c), c.slot, runId, now);
    case StaleReclaimed => {
      ReclaimIsElsewhere(s.ledger, c, now);
      ComposeIsAlone(s, id, AfterClaim(AfterComplete(AfterClaim(s.ledger, c), c.slot, now, Failed, None), c), c.slot, runId, now);
    }
    case _ => {}
  }

  lemma ConsiderIsAlone(s: State, cfg: Config)
    requires HeldAlone(s) && s.phase.Selecting? && !Abandons(s, cfg, TickConsiders)
    ensures HeldAlone(Consider(s, cfg))
  {
    if LooksAtDue(s, cfg) {
      var job := cfg.jobs[s.phase.i];
      var slot := SlotOf(job, s.phase.now - MS_PER_DAY);
      MissedIsElsewhere(s.ledger, cfg, job, s.phase.now);
      if !SlotHeld(s, slot) {
        HoldersUndisturbed(s, ReportMissed(s.ledger, cfg, job, s.phase.now), slot);
      }
    }
  }

  lemma CompletionIsAlone(s: State, cfg: Config, e: Event)
    requires HeldAlone(s) && Enabled(s, cfg, e) && (e.TickCompletes? || e.NativeEnds?)
    ensures HeldAlone(Apply(s, cfg, e))
  {
  }

  lemma ApplyIsAlone(s: State, cfg: Config, e: Event)
    requires HeldAlone(s) && !Abandons(s, cfg, e)
    ensures HeldAlone(Apply(s, cfg, e))
  {
    if Enabled(s, cfg, e) {
      match e
      case TickConsiders => ConsiderIsAlone(s, cfg);
      case TickClaims(ok) => if ok { ClaimOccurrenceIsAlone(s, cfg); }
      case TickRetries(ok) => if ok { ClaimAgainIsAlone(s, cfg); }
      case TickCompletes(_) => CompletionIsAlone(s, cfg, e);
      case NativeBegins(id, native, now, runId) => CallIsAlone(s, cfg, id, native, now, runId);
      case NativeEnds(_, _, _) => CompletionIsAlone(s, cfg, e);
      case _ => {}
    }
  }

  lemma RunOneMore(l: Ledger, cfg: Config, events: seq<Event>, j: nat)
    requires j < |events|
    ensures Run(l, cfg, events[..j + 1]) == Apply(Run(l, cfg, events[..j]), cfg, events[j])
  {
    assert events[..j + 1][..j] == events[..j];
  }

  /** Over every interleaving in which nobody takes over an occurrence from a holder still at work, every
    * occurrence has at most one holder, who holds it by its last claim. */
  lemma {:induction false} EveryHolderIsAlone(l: Ledger, cfg: Config, events: seq<Event>, j: nat)
    requires j <= |events| && NothingAbandoned(l, cfg, events)
    ensures HeldAlone(Run(l, cfg, events[..j]))
  {
    if j > 0 {
      EveryHolderIsAlone(l, cfg, events, j - 1);
      RunOneMore(l, cfg, events, j - 1);
      ApplyIsAlone(Run(l, cfg, events[..j - 1]), cfg, events[j - 1]);
    }
  }

  /** And an occurrence that has succeeded is neither started nor overwritten ever again, by either owner. */
  lemma {:induction false} SucceededForGood(l: Ledger, cfg: Config, events: seq<Event>, slot: Slot, i: nat, j: nat)
    requires i <= j <= |events| && NothingAbandoned(l, cfg, events) && HasSucceeded(Run(l, cfg, events[..i]).ledger, slot)
    ensures slot in Run(l, cfg, events[..j]).ledger.runs
    ensures Run(l, cfg, events[..j]).ledger.runs[slot] == Run(l, cfg, events[..i]).ledger.runs[slot]
    decreases j
  {
    if i < j {
      SucceededForGood(l, cfg, events, slot, i, j - 1);
      EveryHolderIsAlone(l, cfg, events, j - 1);
      RunOneMore(l, cfg, events, j - 1);
      SucceededHasNoHolder(Run(l, cfg, events[..j - 1]), events[j - 1], slot);
      SucceededChangesOnlyByItsHolder(Run(l, cfg, events[..j - 1]), cfg, events[j - 1], slot);
    }
  }

  lemma SucceededHasNoHolder(s: State, e: Event, slot: Slot)
    requires HeldAlone(s) && HasSucceeded(s.ledger, slot)
    ensures CompletedHold(s, e).Some? ==> CompletedHold(s, e).value.slot != slot
  {
  }
}
