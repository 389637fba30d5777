/** When a succeeded occurrence is safe: the scheduler leaves the native jobs to native cron, and native
  * calls keep to their time. Both can be told before a call, from the configuration, the clock and the
  * calls still at work.
  */
module SchedulerOwnership {
  import opened OperatingClock
  import opened SchedulerLedger
  import opened SchedulerProtocol
  import opened SchedulerResults
  import opened SchedulerSafety
  import opened Wrappers

  /** The scheduler runs a job that is in its list and has a runner. */
  predicate TickRuns(cfg: Config, name: string) {
    name in cfg.runners && exists job <- cfg.jobs :: job.name == name
  }

  /** A native call is for a job that the scheduler leaves alone. */
  predicate LeftToNative(cfg: Config, e: Event) {
    e.NativeBegins? ==> !TickRuns(cfg, e.native.name)
  }

  ghost predicate AllLeftToNative(cfg: Config, events: seq<Event>) {
    forall e <- events :: LeftToNative(cfg, e)
  }

  /** A native call begins within five minutes of every native call still at work on its occurrence, and
    * not before it. */
  predicate OnTime(s: State, e: Event) {
    e.NativeBegins? && e.id !in s.natives ==>
      forall id <- s.natives :: s.natives[id].hold.slot == SlotOf(e.native, e.now) ==>
        0 <= e.now - s.natives[id].startedAt < NATIVE_STALE_AFTER_MS
  }

  ghost predicate OnTimeUpTo(l: Ledger, cfg: Config, events: seq<Event>, j: nat)
    requires j <= |events|
  {
    forall i :: 0 <= i < j ==> OnTime(Run(l, cfg, events[..i]), events[i])
  }

  ghost predicate AllOnTime(l: Ledger, cfg: Config, events: seq<Event>) {
    OnTimeUpTo(l, cfg, events, |events|)
  }

  /** The tick is at jobs it runs, native calls at jobs it does not, and the rows that native calls hold
    * bear the time those calls began. */
  ghost predicate Dated(s: State, cfg: Config) {
    && HeldAlone(s)
    && (s.phase.Running? ==> TickRuns(cfg, s.phase.hold.slot.job))
    && (s.phase.Reporting? || s.phase.Retrying? ==> s.phase.i < |cfg.jobs| && cfg.jobs[s.phase.i].name in cfg.runners)
    && (forall id <- s.natives ::
          !TickRuns(cfg, s.natives[id].hold.slot.job) &&
          s.ledger.runs[s.natives[id].hold.slot].startedAt == s.natives[id].startedAt)
  }

  lemma JobIsRun(cfg: Config, i: nat)
    requires i < |cfg.jobs| && cfg.jobs[i].name in cfg.runners
    ensures TickRuns(cfg, cfg.jobs[i].name)
  {
    assert cfg.jobs[i] in cfg.jobs;
  }

  /** No step of the scheduler takes over an occurrence whose holder is at work. */
  lemma TicksTakeNothingOver(s: State, cfg: Config, e: Event)
    requires Dated(s, cfg) && !e.NativeBegins?
    ensures !Abandons(s, cfg, e)
  {
    if TakenOver(s, cfg, e).Some? {
      JobIsRun(cfg, s.phase.i);
    }
  }

  /** A native call takes one over exactly when it is not on time. */
  lemma CallTakesOverExactlyWhenLate(s: State, cfg: Config, e: Event)
    requires Dated(s, cfg) && e.NativeBegins? && LeftToNative(cfg, e)
    ensures Abandons(s, cfg, e) <==> !OnTime(s, e)
  {
    if e.id !in s.natives {
      var c := NativeClaim(e.native, e.now, e.runId);
      forall id | id in s.natives && s.natives[id].hold.slot == c.slot
        ensures KindOf(s.ledger, c) == StaleReclaimed <==> !(0 <= e.now - s.natives[id].startedAt < NATIVE_STALE_AFTER_MS)
      {
        assert Current(s.ledger, s.natives[id].hold);
      }
    }
  }

  lemma AbandonsExactlyWhenLate(s: State, cfg: Config, e: Event)
    requires Dated(s, cfg) && LeftToNative(cfg, e)
    ensures Abandons(s, cfg, e) <==> !OnTime(s, e)
  {
    if e.NativeBegins? {
      CallTakesOverExactlyWhenLate(s, cfg, e);
    } else {
      TicksTakeNothingOver(s, cfg, e);
    }
  }

  // ---------------------------------------------------------------- rows keep their start

  /** A running row that is still running under the same claim is the same row. */
  ghost predicate SameIfStillRunning(l: Ledger, after: Ledger, slot: Slot) {
    IsRunning(l, slot) && IsRunning(after, slot) && after.runs[slot].claims == l.runs[slot].claims ==>
      after.runs[slot] == l.runs[slot]
  }

  lemma ClaimKeepsStart(l: Ledger, c: Claim, at: Instant, slot: Slot)
    ensures SameIfStillRunning(l, AfterClaim(l, c), slot)
    ensures KindOf(l, c) == StaleReclaimed ==>
              var failed := AfterComplete(AfterClaim(l, c), c.slot, at, Failed, None);
              SameIfStillRunning(l, failed, slot) && SameIfStillRunning(l, AfterClaim(failed, c), slot)
  {
  }

  lemma MissedKeepsStart(l: Ledger, cfg: Config, job: Job, now: Instant, slot: Slot)
    ensures SameIfStillRunning(l, ReportMissed(l, cfg, job, now), slot)
  {
  }

  lemma ApplyKeepsStart(s: State, cfg: Config, e: Event, slot: Slot)
    ensures SameIfStillRunning(s.ledger, Apply(s, cfg, e).ledger, slot)
  {
    if Enabled(s, cfg, e) {
      match e
      case TickConsiders =>
        if s.phase.i < |cfg.jobs| {
          MissedKeepsStart(s.ledger, cfg, cfg.jobs[s.phase.i], s.phase.now, slot);
        }
      case TickClaims(_) => ClaimKeepsStart(s.ledger, TickClaim(cfg, cfg.jobs[s.phase.i], s.phase.now), s.phase.now, slot);
      case TickRetries(_) => ClaimKeepsStart(s.ledger, TickClaim(cfg, cfg.jobs[s.phase.i], s.phase.now), s.phase.now, slot);
      case NativeBegins(_, native, now, runId) => ClaimKeepsStart(s.ledger, NativeClaim(native, now, runId), now, slot);
      case _ => {}
    }
  }

  /** A native call already at work stays as it is; a new one holds the row it has just started. */
  lemma NativesStay(s: State, cfg: Config, e: Event, id: nat)
    requires id in Apply(s, cfg, e).natives
    ensures var after := Apply(s, cfg, e);
            || (id in s.natives && after.natives[id] == s.natives[id])
            || (e.NativeBegins? && e.id == id && id !in s.natives && after.natives[id].hold.slot == SlotOf(e.native, e.now) &&
                after.natives[id].startedAt == e.now && after.natives[id].hold.slot in after.ledger.runs &&
                after.ledger.runs[after.natives[id].hold.slot].startedAt == e.now)
  {
  }

  /** Where a step leaves the tick: at a job it runs. */
  lemma TickStaysAtItsJobs(s: State, cfg: Config, e: Event)
    requires s.phase.Running? ==> TickRuns(cfg, s.phase.hold.slot.job)
    requires s.phase.Reporting? || s.phase.Retrying? ==> s.phase.i < |cfg.jobs| && cfg.jobs[s.phase.i].name in cfg.runners
    ensures var after := Apply(s, cfg, e);
            && (after.phase.Running? ==> TickRuns(cfg, after.phase.hold.slot.job))
            && (after.phase.Reporting? || after.phase.Retrying? ==>
                  after.phase.i < |cfg.jobs| && cfg.jobs[after.phase.i].name in cfg.runners)
  {
    if Enabled(s, cfg, e) {
      if e.NativeBegins? {
        CallKeepsProcess(s, e.id, e.native, e.now, e.runId);
      } else if s.phase.Reporting? || s.phase.Retrying? {
        JobIsRun(cfg, s.phase.i);
      }
    }
  }

  lemma DatedStep(s: State, cfg: Config, e: Event)
    requires Dated(s, cfg) && LeftToNative(cfg, e) && !Abandons(s, cfg, e)
    ensures Dated(Apply(s, cfg, e), cfg)
  {
    var after := Apply(s, cfg, e);
    ApplyIsAlone(s, cfg, e);
    TickStaysAtItsJobs(s, cfg, e);
    forall id | id in after.natives
      ensures !TickRuns(cfg, after.natives[id].hold.slot.job)
      ensures after.ledger.runs[after.natives[id].hold.slot].startedAt == after.natives[id].startedAt
    {
      NativesStay(s, cfg, e, id);
      assert Current(after.ledger, after.natives[id].hold);
      if id in s.natives {
        assert Current(s.ledger, s.natives[id].hold);
        ApplyKeepsStart(s, cfg, e, s.natives[id].hold.slot);
      }
    }
  }

  // ---------------------------------------------------------------- over every run

  lemma {:induction false} EveryRunIsDated(l: Ledger, cfg: Config, events: seq<Event>, j: nat)
    requires j <= |events| && NothingAbandoned(l, cfg, events[..j]) && AllLeftToNative(cfg, events)
    ensures Dated(Run(l, cfg, events[..j]), cfg)
  {
    if j > 0 {
      NothingAbandonedBefore(l, cfg, events, j);
      EveryRunIsDated(l, cfg, events, j - 1);
      RunOneMore(l, cfg, events, j - 1);
      assert events[j - 1] in events;
      DatedStep(Run(l, cfg, events[..j - 1]), cfg, events[j - 1]);
    }
  }

  lemma NothingAbandonedBefore(l: Ledger, cfg: Config, events: seq<Event>, j: nat)
    requires 0 < j <= |events|
    ensures NothingAbandoned(l, cfg, events[..j]) <==>
            NothingAbandoned(l, cfg, events[..j - 1]) && !Abandons(Run(l, cfg, events[..j - 1]), cfg, events[j - 1])
  {
    var longer, shorter := events[..j], events[..j - 1];
    forall i | 0 <= i < j - 1
      ensures longer[..i] == shorter[..i] && longer[i] == shorter[i]
    {
    }
    assert longer[..j - 1] == shorter && longer[j - 1] == events[j - 1];
  }

  lemma NextAbandonsExactlyWhenLate(l: Ledger, cfg: Config, events: seq<Event>, j: nat)
    requires j < |events| && NothingAbandoned(l, cfg, events[..j]) && AllLeftToNative(cfg, events)
    ensures Abandons(Run(l, cfg, events[..j]), cfg, events[j]) <==> !OnTime(Run(l, cfg, events[..j]), events[j])
  {
    EveryRunIsDated(l, cfg, events, j);
    assert events[j] in events;
    AbandonsExactlyWhenLate(Run(l, cfg, events[..j]), cfg, events[j]);
  }

  lemma OnTimeOneMore(l: Ledger, cfg: Config, events: seq<Event>, j: nat)
    requires j < |events|
    ensures OnTimeUpTo(l, cfg, events, j + 1) <==>
            OnTimeUpTo(l, cfg, events, j) && OnTime(Run(l, cfg, events[..j]), events[j])
  {
  }

  lemma UpToOneMore(l: Ledger, cfg: Config, events: seq<Event>, j: nat)
    requires 0 < j <= |events| && AllLeftToNative(cfg, events)
    requires NothingAbandoned(l, cfg, events[..j - 1]) <==> OnTimeUpTo(l, cfg, events, j - 1)
    ensures NothingAbandoned(l, cfg, events[..j]) <==> OnTimeUpTo(l, cfg, events, j)
  {
    NothingAbandonedBefore(l, cfg, events, j);
    OnTimeOneMore(l, cfg, events, j - 1);
    if NothingAbandoned(l, cfg, events[..j - 1]) {
      NextAbandonsExactlyWhenLate(l, cfg, events, j - 1);
    }
  }

  lemma {:induction false} NothingAbandonedUpTo(l: Ledger, cfg: Config, events: seq<Event>, j: nat)
    requires j <= |events| && AllLeftToNative(cfg, events)
    ensures NothingAbandoned(l, cfg, events[..j]) <==> OnTimeUpTo(l, cfg, events, j)
  {
    if j > 0 {
      NothingAbandonedUpTo(l, cfg, events, j - 1);
      UpToOneMore(l, cfg, events, j);
    }
  }

  /** Over every interleaving in which native calls are for jobs the scheduler leaves alone, nobody takes
    * over an occurrence from a holder at work exactly when every native call is on time. */
  lemma NothingAbandonedExactlyWhenOnTime(l: Ledger, cfg: Config, events: seq<Event>)
    requires AllLeftToNative(cfg, events)
    ensures NothingAbandoned(l, cfg, events) <==> AllOnTime(l, cfg, events)
  {
    NothingAbandonedUpTo(l, cfg, events, |events|);
    assert events[..|events|] == events;
  }

  /** In such an interleaving with every native call on time, a succeeded occurrence is neither started nor
    * overwritten again by either owner. */
  lemma OnTimeSuccessIsForGood(l: Ledger, cfg: Config, events: seq<Event>, slot: Slot, i: nat, j: nat)
    requires i <= j <= |events| && AllLeftToNative(cfg, events) && AllOnTime(l, cfg, events)
    requires HasSucceeded(Run(l, cfg, events[..i]).ledger, slot)
    ensures slot in Run(l, cfg, events[..j]).ledger.runs
    ensures Run(l, cfg, events[..j]).ledger.runs[slot] == Run(l, cfg, events[..i]).ledger.runs[slot]
  {
    NothingAbandonedExactlyWhenOnTime(l, cfg, events);
    SucceededForGood(l, cfg, events, slot, i, j);
  }

  /** And every later native call replays the text that was composed. */
  lemma OnTimeTextIsReplayed(l: Ledger, cfg: Config, events: seq<Event>, i: nat, j: nat, id: nat, text: string, completedAt: Instant,
                             again: nat, job: Job, now: Instant, runId: string)
    requires i < j <= |events| && AllLeftToNative(cfg, events) && AllOnTime(l, cfg, events) && OutputsOfSuccess(l)
    requires events[i] == NativeEnds(id, Some(text), completedAt) && id in Run(l, cfg, events[..i]).natives
    requires SlotOf(job, now) == Run(l, cfg, events[..i]).natives[id].hold.slot
    ensures CallNative(Run(l, cfg, events[..j]), again, job, now, runId) ==
            Called(Run(l, cfg, events[..j]), Composed(text, Run(l, cfg, events[..i]).natives[id].runId, true))
  {
    NothingAbandonedExactlyWhenOnTime(l, cfg, events);
    ComposedTextIsReplayed(l, cfg, events, i, j, id, text, completedAt, again, job, now, runId);
  }
}
