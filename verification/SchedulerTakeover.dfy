/** What comes of taking over an occurrence from a holder still at work: a success can be overwritten, by
  * either owner, from wherever it happens.
  */
module SchedulerTakeover {
  import opened OperatingClock
  import opened SchedulerLedger
  import opened SchedulerOwnership
  import opened SchedulerProtocol
  import opened SchedulerResults
  import opened SchedulerSafety
  import opened Wrappers

  lemma UnusedId(used: set<nat>) returns (id: nat)
    ensures forall u <- used :: u < id
  {
    if used == {} {
      id := 0;
    } else {
      var u :| u in used;
      var above := UnusedId(used - {u});
      id := if above <= u then u + 1 else above;
      assert forall v <- used :: v == u || v in used - {u};
    }
  }

  /** Everything an occurrence goes through from a state: it succeeds, and its success is overwritten. */
  ghost predicate Overwritten(s: State, cfg: Config, slot: Slot, until: seq<Event>, then_: seq<Event>) {
    HasSucceeded(After(s, cfg, until).ledger, slot) && HasFailed(After(After(s, cfg, until), cfg, then_).ledger, slot)
  }

  // ---------------------------------------------------------------- two holders of one occurrence

  lemma EndedSucceeds(s: State, cfg: Config, id: nat)
    requires id in s.natives && s.natives[id].hold.slot in s.ledger.runs
    ensures var after := Apply(s, cfg, NativeEnds(id, Some(""), 0));
            && HasSucceeded(after.ledger, s.natives[id].hold.slot)
            && after.natives == s.natives - {id} && after.phase == s.phase
  {
  }

  lemma EndedFails(s: State, cfg: Config, id: nat)
    requires id in s.natives && s.natives[id].hold.slot in s.ledger.runs
    ensures HasFailed(Apply(s, cfg, NativeEnds(id, None, 0)).ledger, s.natives[id].hold.slot)
  {
  }

  lemma CompletedAsSettled(s: State, cfg: Config)
    requires s.phase.Running? && s.phase.settled.Some? && s.phase.hold.slot in s.ledger.runs
    ensures var after := Apply(s, cfg, TickCompletes(0));
            && (if s.phase.settled.value then HasSucceeded(after.ledger, s.phase.hold.slot) else HasFailed(after.ledger, s.phase.hold.slot))
            && after.natives == s.natives
  {
  }

  /** Two native calls hold an occurrence: one succeeds, the other fails after it. */
  lemma TwoNativesOverwrite(s: State, cfg: Config, slot: Slot, one: nat, other: nat)
    requires slot in s.ledger.runs && one != other && one in s.natives && other in s.natives
    requires s.natives[one].hold.slot == slot == s.natives[other].hold.slot
    ensures Overwritten(s, cfg, slot, [NativeEnds(one, Some(""), 0)], [NativeEnds(other, None, 0)])
  {
    EndedSucceeds(s, cfg, one);
    EndedFails(Apply(s, cfg, NativeEnds(one, Some(""), 0)), cfg, other);
  }

  /** A run and a native call hold an occurrence: the run overwrites the call's success, unless it has
    * settled well; then the call overwrites the run's. */
  lemma RunAndNativeOverwrite(s: State, cfg: Config, slot: Slot, id: nat) returns (until: seq<Event>, then_: seq<Event>)
    requires slot in s.ledger.runs && s.phase.Running? && s.phase.hold.slot == slot
    requires id in s.natives && s.natives[id].hold.slot == slot
    ensures Overwritten(s, cfg, slot, until, then_)
  {
    if s.phase.settled == Some(true) {
      until, then_ := [TickCompletes(0)], [NativeEnds(id, None, 0)];
      CompletedAsSettled(s, cfg);
      EndedFails(Apply(s, cfg, TickCompletes(0)), cfg, id);
    } else {
      var ended := Apply(s, cfg, NativeEnds(id, Some(""), 0));
      until := [NativeEnds(id, Some(""), 0)];
      EndedSucceeds(s, cfg, id);
      if s.phase.settled == None {
        then_ := [RunnerTimesOut, TickCompletes(0)];
        AfterTwo(ended, cfg, RunnerTimesOut, TickCompletes(0));
        CompletedAsSettled(Apply(ended, cfg, RunnerTimesOut), cfg);
      } else {
        then_ := [TickCompletes(0)];
        CompletedAsSettled(ended, cfg);
      }
    }
  }

  /** A failed occurrence is composed anew beside a native call that still holds it. */
  lemma FailedIsComposedAnew(s: State, cfg: Config, slot: Slot, holder: nat) returns (until: seq<Event>, then_: seq<Event>)
    requires HasFailed(s.ledger, slot) && holder in s.natives && s.natives[holder].hold.slot == slot
    ensures Overwritten(s, cfg, slot, until, then_)
  {
    var id := UnusedId(s.natives.Keys);
    var job, now := Job(slot.job, 0, 0, false), InstantAtLocalTime(slot.day, 0, 0);
    LocalTimeRoundTrip(slot.day, 0, 0);
    var begins, ends, fails := NativeBegins(id, job, now, ""), NativeEnds(id, Some(""), 0), NativeEnds(holder, None, 0);
    BeginsAnew(s, cfg, slot, id, job, now);
    until, then_ := [begins, ends], [fails];
    AfterTwo(s, cfg, begins, ends);
    TwoNativesOverwrite(Apply(s, cfg, begins), cfg, slot, id, holder);
  }

  lemma BeginsAnew(s: State, cfg: Config, slot: Slot, id: nat, job: Job, now: Instant)
    requires HasFailed(s.ledger, slot) && id !in s.natives && SlotOf(job, now) == slot
    ensures var after := Apply(s, cfg, NativeBegins(id, job, now, ""));
            && slot in after.ledger.runs && id in after.natives && after.natives[id].hold.slot == slot
            && (forall other <- s.natives :: other in after.natives && after.natives[other] == s.natives[other])
  {
  }

  // ---------------------------------------------------------------- every takeover

  lemma CallTakesOver(s: State, cfg: Config, e: Event)
    requires e.NativeBegins? && TakenOver(s, cfg, e).Some?
    ensures var slot, after := TakenOver(s, cfg, e).value, Apply(s, cfg, e);
            && slot in after.ledger.runs && after.phase == s.phase && e.id !in s.natives
            && e.id in after.natives && after.natives[e.id].hold.slot == slot
            && (forall other <- s.natives :: other in after.natives && after.natives[other] == s.natives[other])
  {
    ReclaimIsElsewhere(s.ledger, NativeClaim(e.native, e.now, e.runId), e.now);
    CallKeepsProcess(s, e.id, e.native, e.now, e.runId);
  }

  lemma CallLeadsToOverwrite(s: State, cfg: Config, e: Event) returns (until: seq<Event>, then_: seq<Event>)
    requires e.NativeBegins? && Abandons(s, cfg, e)
    ensures Overwritten(Apply(s, cfg, e), cfg, TakenOver(s, cfg, e).value, until, then_)
  {
    var slot, after := TakenOver(s, cfg, e).value, Apply(s, cfg, e);
    CallTakesOver(s, cfg, e);
    if s.phase.Running? && s.phase.hold.slot == slot {
      until, then_ := RunAndNativeOverwrite(after, cfg, slot, e.id);
    } else {
      var holder :| holder in s.natives && s.natives[holder].hold.slot == slot;
      until, then_ := [NativeEnds(e.id, Some(""), 0)], [NativeEnds(holder, None, 0)];
      TwoNativesOverwrite(after, cfg, slot, e.id, holder);
    }
  }

  /** The tick records the occurrence it takes over as failed, while the native call lives on. */
  lemma TickFailsTheHeld(s: State, cfg: Config, e: Event)
    requires (e.TickConsiders? || e.TickClaims?) && Abandons(s, cfg, e)
    ensures HasFailed(Apply(s, cfg, e).ledger, TakenOver(s, cfg, e).value) && Apply(s, cfg, e).natives == s.natives
  {
    if e.TickConsiders? {
      var job := cfg.jobs[s.phase.i];
      MissedGraceNeverApplies(s.phase.now, job.hour, job.minute);
    }
  }

  lemma RetryStartsBesideTheHolder(s: State, cfg: Config, ok: bool)
    requires Abandons(s, cfg, TickRetries(ok))
    ensures var slot, after := TakenOver(s, cfg, TickRetries(ok)).value, Apply(s, cfg, TickRetries(ok));
            && slot in after.ledger.runs && after.natives == s.natives
            && after.phase.Running? && after.phase.hold.slot == slot
  {
  }

  /** Wherever an event takes over an occurrence from a holder still at work, whether a tick or a native call
    * holds it and whichever of them takes it, the occurrence can go on to succeed and have its success
    * overwritten. */
  lemma TakeoverLeadsToOverwrite(s: State, cfg: Config, e: Event) returns (until: seq<Event>, then_: seq<Event>)
    requires Abandons(s, cfg, e)
    ensures Overwritten(Apply(s, cfg, e), cfg, TakenOver(s, cfg, e).value, until, then_)
  {
    var slot, after := TakenOver(s, cfg, e).value, Apply(s, cfg, e);
    if e.NativeBegins? {
      until, then_ := CallLeadsToOverwrite(s, cfg, e);
    } else {
      var holder :| holder in s.natives && s.natives[holder].hold.slot == slot;
      if e.TickRetries? {
        RetryStartsBesideTheHolder(s, cfg, e.ok);
        until, then_ := RunAndNativeOverwrite(after, cfg, slot, holder);
      } else {
        TickFailsTheHeld(s, cfg, e);
        until, then_ := FailedIsComposedAnew(after, cfg, slot, holder);
      }
    }
  }

  /** So where native calls are for jobs the scheduler leaves alone, one late call is enough: from there the
    * process can come to overwrite a success. */
  lemma OneLateCallIsEnough(l: Ledger, cfg: Config, events: seq<Event>) returns (i: nat, slot: Slot, until: seq<Event>, then_: seq<Event>)
    requires AllLeftToNative(cfg, events) && !AllOnTime(l, cfg, events)
    ensures i <= |events|
    ensures HasSucceeded(Run(l, cfg, events[..i] + until).ledger, slot)
    ensures HasFailed(Run(l, cfg, events[..i] + until + then_).ledger, slot)
  {
    NothingAbandonedExactlyWhenOnTime(l, cfg, events);
    var k: nat :| k < |events| && Abandons(Run(l, cfg, events[..k]), cfg, events[k]);
    i, slot := k + 1, TakenOver(Run(l, cfg, events[..k]), cfg, events[k]).value;
    until, then_ := TakeoverLeadsToOverwrite(Run(l, cfg, events[..k]), cfg, events[k]);
    RunOneMore(l, cfg, events, k);
    RunGoesOn(l, cfg, events[..i], until);
    RunGoesOn(l, cfg, events[..i] + until, then_);
  }

  /** And a native call then composes it anew. */
  lemma OverwrittenIsComposedAnew(s: State, slot: Slot, id: nat, job: Job, now: Instant, runId: string)
    requires HasFailed(s.ledger, slot) && SlotOf(job, now) == slot
    ensures CallNative(s, id, job, now, runId).reply == Composing
  {
  }

  // ---------------------------------------------------------------- two such runs

  const HALF_PAST_SEVEN: Instant := -1_800_000

  /** One job, due at half past seven, with a runner; nothing has run yet. */
  function OneDailyJob(name: string): Config {
    Config([Job(name, 7, 30, false)], {name}, 300_000, None)
  }

  const NEW_LEDGER: Ledger := Ledger(map[], map[], map[])

  function TickLooks(name: string): (events: seq<Event>) {
    [TickBegins(0), TickConsiders]
  }

  lemma TickIsAtItsJob(name: string)
    ensures Run(NEW_LEDGER, OneDailyJob(name), TickLooks(name)) == Fresh(NEW_LEDGER).(phase := Reporting(0, 0))
  {
    var cfg, begun := OneDailyJob(name), Fresh(NEW_LEDGER).(phase := Selecting(0, 0));
    AfterTwo(Fresh(NEW_LEDGER), cfg, TickBegins(0), TickConsiders);
    assert OccurrenceAt(0, 7, 30) == DailyOccurrence(0, HALF_PAST_SEVEN);
    assert OccurrenceAt(0 - MS_PER_DAY, 7, 30).day == -1;
    assert Consider(begun, cfg) == begun.(phase := Reporting(0, 0));
  }

  /** The tick waits to claim; a native call composes meanwhile; the tick then takes the occurrence from it,
    * as its claim is older. */
  lemma TickTakesOverFromCall(name: string, runId: string)
    ensures var call := NativeBegins(0, Job(name, 7, 30, false), 1, runId);
            var s, slot := Run(NEW_LEDGER, OneDailyJob(name), TickLooks(name) + [call]), Slot(name, 0);
            && Abandons(s, OneDailyJob(name), TickClaims(true))
            && s.phase == Reporting(0, 0) && 0 in s.natives && s.natives[0].hold.slot == slot
            && Apply(s, OneDailyJob(name), TickClaims(true)).phase == Retrying(0, 0)
            && HasFailed(Apply(s, OneDailyJob(name), TickClaims(true)).ledger, slot)
  {
    var cfg, job := OneDailyJob(name), Job(name, 7, 30, false);
    var s, call := Fresh(NEW_LEDGER).(phase := Reporting(0, 0)), NativeBegins(0, job, 1, runId);
    TickIsAtItsJob(name);
    RunGoesOn(NEW_LEDGER, cfg, TickLooks(name), [call]);
    AfterTwo(s, cfg, call, call);
    assert SlotOf(job, 0) == Slot(name, 0) == SlotOf(job, 1);
    OlderTickTakesOver(s, cfg, 0, 1, runId);
  }

  /** A tick that is to try again runs the job well, and the call it took the occurrence from fails after it. */
  lemma RetriedRunIsOverwritten(s: State, cfg: Config, id: nat)
    requires s.phase.Retrying? && s.phase.i < |cfg.jobs| && cfg.maxAttempts == None
    requires var slot := SlotOf(cfg.jobs[s.phase.i], s.phase.now);
             HasFailed(s.ledger, slot) && id in s.natives && s.natives[id].hold.slot == slot
    ensures var job := cfg.jobs[s.phase.i];
            Overwritten(s, cfg, SlotOf(job, s.phase.now), [TickRetries(true), RunnerSettles(job.name, true), TickCompletes(0)],
                        [NativeEnds(id, None, 0)])
  {
    var name := cfg.jobs[s.phase.i].name;
    var retries, settles, completes := TickRetries(true), RunnerSettles(name, true), TickCompletes(0);
    var settled := Apply(Apply(s, cfg, retries), cfg, settles);
    AfterTwo(s, cfg, retries, settles);
    assert [retries, settles, completes][..2] == [retries, settles];
    CompletedAsSettled(settled, cfg);
    EndedFails(Apply(settled, cfg, completes), cfg, id);
  }

  /** The whole run, from a new ledger: the tick's success is overwritten by the call it overtook. */
  lemma TickSuccessIsOverwritten(name: string, runId: string)
    ensures var cfg, slot := OneDailyJob(name), Slot(name, 0);
            var taken := TickLooks(name) + [NativeBegins(0, Job(name, 7, 30, false), 1, runId)] + [TickClaims(true)];
            var succeeds := taken + [TickRetries(true), RunnerSettles(name, true), TickCompletes(0)];
            HasSucceeded(Run(NEW_LEDGER, cfg, succeeds).ledger, slot) &&
            HasFailed(Run(NEW_LEDGER, cfg, succeeds + [NativeEnds(0, None, 0)]).ledger, slot)
  {
    var cfg, job, slot := OneDailyJob(name), Job(name, 7, 30, false), Slot(name, 0);
    var called := TickLooks(name) + [NativeBegins(0, job, 1, runId)];
    var more, last := [TickRetries(true), RunnerSettles(name, true), TickCompletes(0)], [NativeEnds(0, None, 0)];
    TickTakesOverFromCall(name, runId);
    var s := Run(NEW_LEDGER, cfg, called);
    RunGoesOn(NEW_LEDGER, cfg, called, [TickClaims(true)]);
    AfterTwo(s, cfg, TickClaims(true), TickClaims(true));
    RetriedRunIsOverwritten(Apply(s, cfg, TickClaims(true)), cfg, 0);
    RunGoesOn(NEW_LEDGER, cfg, called + [TickClaims(true)], more);
    RunGoesOn(NEW_LEDGER, cfg, called + [TickClaims(true)] + more, last);
  }

  /** The tick runs the job; five minutes after it began a native call takes the occurrence from it. */
  lemma CallTakesOverFromRun(name: string, runId: string)
    ensures Abandons(Run(NEW_LEDGER, OneDailyJob(name), TickLooks(name) + [TickClaims(true)]), OneDailyJob(name),
                     NativeBegins(0, Job(name, 7, 30, false), 300_000, runId))
  {
    var cfg, job := OneDailyJob(name), Job(name, 7, 30, false);
    var s := Fresh(NEW_LEDGER).(phase := Reporting(0, 0));
    TickIsAtItsJob(name);
    RunGoesOn(NEW_LEDGER, cfg, TickLooks(name), [TickClaims(true)]);
    AfterTwo(s, cfg, TickClaims(true), TickClaims(true));
    assert SlotOf(job, 0) == Slot(name, 0) == SlotOf(job, 300_000);
    LateRunIsStaleAtOnce(s, cfg, 0, 300_000, runId);
  }
}
