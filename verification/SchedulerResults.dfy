/** What a tick reports, what a native call replays, and the two ways a holder at work loses its
  * occurrence to another.
  */
module SchedulerResults {
  import opened OperatingClock
  import opened SchedulerLedger
  import opened SchedulerProtocol
  import opened SchedulerSafety
  import opened Wrappers

  // ---------------------------------------------------------------- the tally of a tick

  /** How often a name is that of a job with a runner, among the first i jobs. */
  function WithRunner(cfg: Config, i: nat, name: string): nat
    requires i <= |cfg.jobs|
  {
    if i == 0 then 0
    else WithRunner(cfg, i - 1, name) + if cfg.jobs[i - 1].name == name && name in cfg.runners then 1 else 0
  }

  function Times(list: seq<string>, name: string): nat {
    multiset(list)[name]
  }

  /** How often a tick has put a name into its four lists. */
  function Counted(t: Tally, name: string): nat {
    Times(t.ran, name) + Times(t.failed, name) + Times(t.notYetDue, name) + Times(t.alreadyRun, name)
  }

  /** The jobs a tick has dealt with are counted once each; the one it is at has a runner. */
  predicate Accounted(s: State, cfg: Config, name: string) {
    match s.phase
    case Resting => true
    case Selecting(_, i) => i <= |cfg.jobs| && Counted(s.tally, name) == WithRunner(cfg, i, name)
    case Reporting(_, i) => AccountedAt(s, cfg, i, name)
    case Retrying(_, i) => AccountedAt(s, cfg, i, name)
    case Running(_, i, _, _) => AccountedAt(s, cfg, i, name)
    case Closing(_, i, _) => AccountedAt(s, cfg, i, name)
  }

  predicate AccountedAt(s: State, cfg: Config, i: nat, name: string) {
    i < |cfg.jobs| && cfg.jobs[i].name in cfg.runners && Counted(s.tally, name) == WithRunner(cfg, i, name)
  }

  lemma AddedIsCounted(list: seq<string>, added: string, name: string)
    ensures Times(list + [added], name) == Times(list, name) + if added == name then 1 else 0
  {
  }

  lemma AnyListCounts(t: Tally, added: string, name: string)
    ensures var more := Counted(t, name) + if added == name then 1 else 0;
            && Counted(t.(ran := t.ran + [added]), name) == more
            && Counted(t.(failed := t.failed + [added]), name) == more
            && Counted(t.(notYetDue := t.notYetDue + [added]), name) == more
            && Counted(t.(alreadyRun := t.alreadyRun + [added]), name) == more
  {
    AddedIsCounted(t.ran, added, name);
    AddedIsCounted(t.failed, added, name);
    AddedIsCounted(t.notYetDue, added, name);
    AddedIsCounted(t.alreadyRun, added, name);
  }

  lemma ConsiderAccounts(s: State, cfg: Config, name: string)
    requires s.phase.Selecting? && Accounted(s, cfg, name)
    ensures Accounted(Consider(s, cfg), cfg, name)
  {
    if s.phase.i < |cfg.jobs| {
      AnyListCounts(s.tally, cfg.jobs[s.phase.i].name, name);
    }
  }

  lemma ClaimAccounts(s: State, cfg: Config, name: string)
    requires s.phase.Reporting? && Accounted(s, cfg, name)
    ensures Accounted(ClaimOccurrence(s, cfg), cfg, name)
  {
    AnyListCounts(s.tally, cfg.jobs[s.phase.i].name, name);
  }

  lemma ClaimAgainAccounts(s: State, cfg: Config, name: string)
    requires s.phase.Retrying? && Accounted(s, cfg, name)
    ensures Accounted(ClaimAgain(s, cfg), cfg, name)
  {
    AnyListCounts(s.tally, cfg.jobs[s.phase.i].name, name);
  }

  lemma CloseAccounts(s: State, cfg: Config, name: string)
    requires s.phase.Closing? && Accounted(s, cfg, name)
    ensures Accounted(Close(s, cfg), cfg, name)
  {
    AnyListCounts(s.tally, cfg.jobs[s.phase.i].name, name);
  }

  lemma ApplyAccounts(s: State, cfg: Config, e: Event, name: string)
    requires Accounted(s, cfg, name)
    ensures Accounted(Apply(s, cfg, e), cfg, name)
  {
    if Enabled(s, cfg, e) {
      match e
      case TickConsiders => ConsiderAccounts(s, cfg, name);
      case TickClaims(ok) => if ok { ClaimAccounts(s, cfg, name); }
      case TickRetries(ok) => if ok { ClaimAgainAccounts(s, cfg, name); }
      case TickCloses(ok) => if ok { CloseAccounts(s, cfg, name); }
      case NativeBegins(id, native, now, runId) => CallKeepsProcess(s, id, native, now, runId);
      case _ => {}
    }
  }

  lemma {:induction false} EveryRunAccounts(l: Ledger, cfg: Config, events: seq<Event>, name: string)
    ensures Accounted(Run(l, cfg, events), cfg, name)
  {
    if events != [] {
      EveryRunAccounts(l, cfg, events[..|events| - 1], name);
      ApplyAccounts(Run(l, cfg, events[..|events| - 1]), cfg, events[|events| - 1], name);
    }
  }

  lemma AccountedAtTheEnd(s: State, cfg: Config, name: string)
    requires Accounted(s, cfg, name) && s.phase.Selecting? && s.phase.i >= |cfg.jobs|
    ensures Counted(s.tally, name) == WithRunner(cfg, |cfg.jobs|, name)
  {
  }

  /** Over every interleaving, a tick that comes to its end has put a name into ran, failed, not yet due and
    * already run together exactly as often as it names a job with a runner: every such job into exactly one
    * of them, and nothing else. */
  lemma CompletedTickCountsEveryJob(l: Ledger, cfg: Config, events: seq<Event>, name: string)
    requires Run(l, cfg, events).phase.Selecting? && Run(l, cfg, events).phase.i >= |cfg.jobs|
    ensures Counted(Run(l, cfg, events).tally, name) == WithRunner(cfg, |cfg.jobs|, name)
  {
    EveryRunAccounts(l, cfg, events, name);
    AccountedAtTheEnd(Run(l, cfg, events), cfg, name);
  }

  /** What the lists mean: a job not yet due is looked at before its time today; one already run is fenced,
    * or its occurrence could not be claimed; one ran, or failed, as its run was completed. */
  lemma ListsMeanWhatTheySay(s: State, cfg: Config, e: Event)
    requires !e.TickBegins? && !e.ProcessRestarts?
    ensures var after := Apply(s, cfg, e);
            && (after.tally.notYetDue != s.tally.notYetDue ==>
                  s.phase.Selecting? && s.phase.i < |cfg.jobs| &&
                  var job := cfg.jobs[s.phase.i];
                  after.tally.notYetDue == s.tally.notYetDue + [job.name] &&
                  s.phase.now < InstantAtLocalTime(OperatingDayOf(s.phase.now), job.hour, job.minute))
            && (after.tally.alreadyRun != s.tally.alreadyRun ==>
                  !s.phase.Resting? && s.phase.i < |cfg.jobs| &&
                  var job := cfg.jobs[s.phase.i];
                  after.tally.alreadyRun == s.tally.alreadyRun + [job.name] &&
                  (job.name in s.active || !Takes(KindOf(s.ledger, TickClaim(cfg, job, s.phase.now)))))
            && (after.tally.ran != s.tally.ran ==> s.phase.Closing? && !s.phase.failed)
            && (after.tally.failed != s.tally.failed ==> s.phase.Closing? && s.phase.failed)
  {
    if Enabled(s, cfg, e) && e.NativeBegins? {
      CallKeepsProcess(s, e.id, e.native, e.now, e.runId);
    }
  }

  /** A run is closed as failed exactly when its runner failed or timed out, and its occurrence says so. */
  lemma CompletionRecordsTheAnswer(s: State, cfg: Config, completedAt: Instant)
    requires s.phase.Running? && s.phase.settled.Some? && s.phase.hold.slot in s.ledger.runs
    ensures var after := Apply(s, cfg, TickCompletes(completedAt));
            && after.phase == Closing(s.phase.now, s.phase.i, s.phase.settled != Some(true))
            && (HasSucceeded(after.ledger, s.phase.hold.slot) <==> s.phase.settled == Some(true))
            && (HasFailed(after.ledger, s.phase.hold.slot) <==> s.phase.settled == Some(false))
            && after.ledger.runs[s.phase.hold.slot].completedAt == Some(completedAt)
            && FailuresOf(after.ledger, s.phase.hold.slot) ==
               FailuresOf(s.ledger, s.phase.hold.slot) + if s.phase.settled == Some(true) then 0 else 1
  {
  }

  // ---------------------------------------------------------------- replays

  /** Only a succeeded occurrence has outputs. */
  ghost predicate OutputsOfSuccess(l: Ledger) {
    forall slot <- l.outputs :: l.outputs[slot] != [] ==> HasSucceeded(l, slot)
  }

  /** A step that completes nobody's hold of an occurrence leaves its outputs alone. */
  lemma OutputsKept(s: State, cfg: Config, e: Event, slot: Slot)
    requires CompletedHold(s, e).Some? ==> CompletedHold(s, e).value.slot != slot
    ensures OutputsOf(Apply(s, cfg, e).ledger, slot) == OutputsOf(s.ledger, slot)
  {
    if Enabled(s, cfg, e) && e.TickConsiders? && s.phase.i < |cfg.jobs| {
      MissedKeepsOutputs(s.ledger, cfg, cfg.jobs[s.phase.i], s.phase.now);
    }
  }

  lemma MissedKeepsOutputs(l: Ledger, cfg: Config, job: Job, now: Instant)
    ensures ReportMissed(l, cfg, job, now).outputs == l.outputs
  {
  }

  lemma OutputsStayOfSuccess(s: State, cfg: Config, e: Event, slot: Slot)
    requires HeldAlone(s) && (OutputsOf(s.ledger, slot) != [] ==> HasSucceeded(s.ledger, slot))
    ensures OutputsOf(Apply(s, cfg, e).ledger, slot) != [] ==> HasSucceeded(Apply(s, cfg, e).ledger, slot)
  {
    if CompletedHold(s, e).Some? && CompletedHold(s, e).value.slot == slot {
      assert IsRunning(s.ledger, slot);
    } else {
      OutputsKept(s, cfg, e, slot);
      if HasSucceeded(s.ledger, slot) {
        SucceededChangesOnlyByItsHolder(s, cfg, e, slot);
      }
    }
  }

  lemma {:induction false} RunKeepsOutputsOfSuccess(l: Ledger, cfg: Config, events: seq<Event>, j: nat, slot: Slot)
    requires j <= |events| && NothingAbandoned(l, cfg, events) && OutputsOfSuccess(l)
    ensures OutputsOf(Run(l, cfg, events[..j]).ledger, slot) != [] ==> HasSucceeded(Run(l, cfg, events[..j]).ledger, slot)
  {
    if j > 0 {
      RunKeepsOutputsOfSuccess(l, cfg, events, j - 1, slot);
      EveryHolderIsAlone(l, cfg, events, j - 1);
      RunOneMore(l, cfg, events, j - 1);
      OutputsStayOfSuccess(Run(l, cfg, events[..j - 1]), cfg, events[j - 1], slot);
    }
  }

  lemma OutputsOneMore(l: Ledger, cfg: Config, events: seq<Event>, slot: Slot, j: nat)
    requires j < |events| && NothingAbandoned(l, cfg, events) && HasSucceeded(Run(l, cfg, events[..j]).ledger, slot)
    ensures OutputsOf(Run(l, cfg, events[..j + 1]).ledger, slot) == OutputsOf(Run(l, cfg, events[..j]).ledger, slot)
  {
    EveryHolderIsAlone(l, cfg, events, j);
    RunOneMore(l, cfg, events, j);
    SucceededHasNoHolder(Run(l, cfg, events[..j]), events[j], slot);
    OutputsKept(Run(l, cfg, events[..j]), cfg, events[j], slot);
  }

  lemma StillSucceeded(l: Ledger, cfg: Config, events: seq<Event>, slot: Slot, i: nat, j: nat)
    requires i <= j <= |events| && NothingAbandoned(l, cfg, events) && HasSucceeded(Run(l, cfg, events[..i]).ledger, slot)
    ensures HasSucceeded(Run(l, cfg, events[..j]).ledger, slot)
  {
    SucceededForGood(l, cfg, events, slot, i, j);
  }

  lemma {:induction false} OutputsForGood(l: Ledger, cfg: Config, events: seq<Event>, slot: Slot, i: nat, j: nat)
    requires i <= j <= |events| && NothingAbandoned(l, cfg, events) && HasSucceeded(Run(l, cfg, events[..i]).ledger, slot)
    ensures OutputsOf(Run(l, cfg, events[..j]).ledger, slot) == OutputsOf(Run(l, cfg, events[..i]).ledger, slot)
    decreases j
  {
    if i < j {
      OutputsForGood(l, cfg, events, slot, i, j - 1);
      StillSucceeded(l, cfg, events, slot, i, j - 1);
      OutputsOneMore(l, cfg, events, slot, j - 1);
    }
  }

  lemma EndStoresText(s: State, id: nat, text: string, completedAt: Instant)
    requires HeldAlone(s) && id in s.natives && OutputsOf(s.ledger, s.natives[id].hold.slot) == []
    ensures var slot, after := s.natives[id].hold.slot, EndNative(s, id, Some(text), completedAt).ledger;
            HasSucceeded(after, slot) && OutputsOf(after, slot) == [Output(NATIVE_OWNER, s.natives[id].runId, text, completedAt)]
  {
    assert IsRunning(s.ledger, s.natives[id].hold.slot);
  }

  lemma KeptTextIsReplayed(s: State, again: nat, job: Job, now: Instant, runId: string, output: Output)
    requires HasSucceeded(s.ledger, SlotOf(job, now)) && OutputsOf(s.ledger, SlotOf(job, now)) == [output]
    ensures CallNative(s, again, job, now, runId) == Called(s, Composed(output.text, output.runId, true))
  {
    var outputs := OutputsOf(s.ledger, SlotOf(job, now));
    assert outputs[..|outputs| - 1] == [];
    assert Latest(outputs) == Some(output);
  }

  /** Over every interleaving in which nobody takes over an occurrence from a holder still at work: once a
    * native call has composed a text, every later native call for the occurrence replays that text under
    * that call's run id, and changes nothing. */
  lemma ComposedTextIsReplayed(l: Ledger, cfg: Config, events: seq<Event>, i: nat, j: nat, id: nat, text: string, completedAt: Instant,
                               again: nat, job: Job, now: Instant, runId: string)
    requires i < j <= |events| && NothingAbandoned(l, cfg, events) && OutputsOfSuccess(l)
    requires events[i] == NativeEnds(id, Some(text), completedAt) && id in Run(l, cfg, events[..i]).natives
    requires SlotOf(job, now) == Run(l, cfg, events[..i]).natives[id].hold.slot
    ensures CallNative(Run(l, cfg, events[..j]), again, job, now, runId) ==
            Called(Run(l, cfg, events[..j]), Composed(text, Run(l, cfg, events[..i]).natives[id].runId, true))
  {
    var s := Run(l, cfg, events[..i]);
    var slot := s.natives[id].hold.slot;
    EveryHolderIsAlone(l, cfg, events, i);
    RunKeepsOutputsOfSuccess(l, cfg, events, i, slot);
    EndStoresText(s, id, text, completedAt);
    RunOneMore(l, cfg, events, i);
    SucceededForGood(l, cfg, events, slot, i + 1, j);
    OutputsForGood(l, cfg, events, slot, i + 1, j);
    KeptTextIsReplayed(Run(l, cfg, events[..j]), again, job, now, runId, Output(NATIVE_OWNER, s.natives[id].runId, text, completedAt));
  }

  // ---------------------------------------------------------------- missed occurrences

  /** For a due job the occurrence of the day before is always another day's and at least a whole day old:
    * neither the same-day guard nor the hour of grace ever holds a report back. */
  lemma MissedGraceNeverApplies(now: Instant, hour: int, minute: int)
    requires now >= OccurrenceAt(now, hour, minute).scheduledAt
    ensures var previous := OccurrenceAt(now - MS_PER_DAY, hour, minute);
            previous.day != OperatingDayOf(now) && now - previous.scheduledAt >= MS_PER_DAY > MISSED_GRACE_MS
  {
    PreviousOccurrenceIsYesterday(now, hour, minute);
  }

  /** Considering a due job leaves its previous occurrence failed unless it succeeded, or was never seen
    * and the job is routine. It is recorded as failed at most once. */
  lemma MissedIsRecordedOnce(l: Ledger, cfg: Config, job: Job, now: Instant)
    requires now >= OccurrenceAt(now, job.hour, job.minute).scheduledAt
    ensures var slot := SlotOf(job, now - MS_PER_DAY);
            var after := ReportMissed(l, cfg, job, now);
            && (HasFailed(after, slot) <==> !HasSucceeded(l, slot) && (slot in l.runs || job.critical))
            && FailuresOf(after, slot) == FailuresOf(l, slot) + (if HasFailed(after, slot) && !HasFailed(l, slot) then 1 else 0)
            && ReportMissed(after, cfg, job, now) == after
  {
    MissedGraceNeverApplies(now, job.hour, job.minute);
    MissedIsElsewhere(l, cfg, job, now);
    MissedIsElsewhere(ReportMissed(l, cfg, job, now), cfg, job, now);
  }

  // ---------------------------------------------------------------- how a holder loses its occurrence

  /** A tick that began before a composition did takes it over, however young it is: its claim is dated to
    * the beginning of the tick. */
  lemma OlderTickTakesOver(s: State, cfg: Config, id: nat, later: Instant, runId: string)
    requires s.phase.Reporting? && s.phase.i < |cfg.jobs| && id !in s.natives
    requires var job := cfg.jobs[s.phase.i];
             s.phase.now < later && SlotOf(job, later) == SlotOf(job, s.phase.now) && SlotOf(job, later) !in s.ledger.runs
    ensures Abandons(Apply(s, cfg, NativeBegins(id, cfg.jobs[s.phase.i], later, runId)), cfg, TickClaims(true))
  {
    var after := Apply(s, cfg, NativeBegins(id, cfg.jobs[s.phase.i], later, runId));
    assert after.natives[id].hold.slot == SlotOf(cfg.jobs[s.phase.i], later);
  }

  /** A run that a tick starts can be taken over by a native call five minutes after the tick began, however
    * late in the tick it was started. */
  lemma LateRunIsStaleAtOnce(s: State, cfg: Config, id: nat, now: Instant, runId: string)
    requires s.phase.Reporting? && s.phase.i < |cfg.jobs| && id !in s.natives
    requires var job := cfg.jobs[s.phase.i];
             && KindOf(s.ledger, TickClaim(cfg, job, s.phase.now)) == Claimed
             && SlotOf(job, now) == SlotOf(job, s.phase.now) && now >= s.phase.now + NATIVE_STALE_AFTER_MS
    ensures Abandons(Apply(s, cfg, TickClaims(true)), cfg, NativeBegins(id, cfg.jobs[s.phase.i], now, runId))
  {
  }
}
