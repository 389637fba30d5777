/** The daily scheduler of src/operations/daily-operations-scheduler.ts and the native reports of
  * src/operations/native-scheduled-reports.ts over one run ledger, as steps between which anything else
  * may happen: a tick gives way wherever it waits, a runner settles or times out on its own, and native
  * calls come and go. Ticks do not overlap.
  */
module SchedulerProtocol {
  import opened OperatingClock
  import opened SchedulerLedger
  import opened Wrappers

  datatype Job = Job(name: string, hour: int, minute: int, critical: bool)

  datatype Config = Config(jobs: seq<Job>, runners: set<string>, timeoutMs: nat, maxAttempts: Option<nat>)

  /** A claimed occurrence, and which of its claims it was. */
  datatype Hold = Hold(slot: Slot, claim: nat)

  /** Where a tick is: between jobs, waiting for a notice before it claims, waiting for the notice of a
    * stale attempt, waiting for its runner, or waiting for the notice of how the run ended. `now` is when
    * the tick began, `i` the job it is at. */
  datatype Phase =
    | Resting
    | Selecting(now: Instant, i: nat)
    | Reporting(now: Instant, i: nat)
    | Retrying(now: Instant, i: nat)
    | Running(now: Instant, i: nat, hold: Hold, settled: Option<bool>)
    | Closing(now: Instant, i: nat, failed: bool)

  datatype Tally = Tally(ran: seq<string>, failed: seq<string>, notYetDue: seq<string>, alreadyRun: seq<string>)

  const NO_TALLY: Tally := Tally([], [], [], [])

  /** A native call at work: what it holds, for which run, and the clock it read when it began. */
  datatype Composition = Composition(hold: Hold, runId: string, startedAt: Instant)

  /** `active` fences jobs whose runner has not settled; `unsettled` holds the runners themselves. */
  datatype State = State(
    ledger: Ledger,
    phase: Phase,
    tally: Tally,
    active: set<string>,
    unsettled: multiset<string>,
    natives: map<nat, Composition>)

  const REAL_MING: string := "real-ming"
  const NATIVE_OWNER: string := "native-hermes-cron"
  const NATIVE_STALE_AFTER_MS: nat := 5 * 60 * 1000
  const MISSED_GRACE_MS: nat := 60 * 60 * 1000

  // ---------------------------------------------------------------- the tick

  function SlotOf(job: Job, now: Instant): Slot {
    Slot(job.name, OperatingDayOf(now))
  }

  function TickClaim(cfg: Config, job: Job, now: Instant): Claim {
    Claim(SlotOf(job, now), OccurrenceAt(now, job.hour, job.minute).scheduledAt, now, cfg.timeoutMs, cfg.maxAttempts, REAL_MING, None)
  }

  /** The occurrence of the day before, if it was missed, is recorded as failed. */
  function ReportMissed(l: Ledger, cfg: Config, job: Job, now: Instant): Ledger {
    var previous := OccurrenceAt(now - MS_PER_DAY, job.hour, job.minute);
    var slot := Slot(job.name, previous.day);
    if previous.day == OperatingDayOf(now) || HasSucceeded(l, slot) || HasFailed(l, slot) then l
    else if slot !in l.runs && !job.critical then l
    else if now - previous.scheduledAt < MISSED_GRACE_MS then l
    else
      var c := Claim(slot, previous.scheduledAt, previous.scheduledAt, cfg.timeoutMs, cfg.maxAttempts, REAL_MING, None);
      if slot !in l.runs && KindOf(l, c) != Claimed then AfterClaim(l, c)
      else
        var claimed := if slot !in l.runs then AfterClaim(l, c) else l;
        AfterComplete(claimed, slot, now, Failed, None)
  }

  function Next(s: State, now: Instant, i: nat, tally: Tally): State {
    s.(phase := Selecting(now, i + 1), tally := tally)
  }

  function SkipAlreadyRun(s: State, now: Instant, i: nat, name: string): State {
    Next(s, now, i, s.tally.(alreadyRun := s.tally.alreadyRun + [name]))
  }

  /** Looks at the next job: without a runner it is passed over; a fenced one already runs; one that is not
    * due waits; for a due one a missed occurrence is reported first. At the end the tick is over. */
  function Consider(s: State, cfg: Config): (after: State)
    requires s.phase.Selecting?
    ensures s.phase.i < |cfg.jobs| ==>
              after.phase == Selecting(s.phase.now, s.phase.i + 1) || after.phase == Reporting(s.phase.now, s.phase.i)
  {
    var now, i := s.phase.now, s.phase.i;
    if i >= |cfg.jobs| then s.(phase := Resting)
    else
      var job := cfg.jobs[i];
      if job.name !in cfg.runners then Next(s, now, i, s.tally)
      else if job.name in s.active then SkipAlreadyRun(s, now, i, job.name)
      else if now < OccurrenceAt(now, job.hour, job.minute).scheduledAt then
        Next(s, now, i, s.tally.(notYetDue := s.tally.notYetDue + [job.name]))
      else s.(ledger := ReportMissed(s.ledger, cfg, job, now), phase := Reporting(now, i))
  }

  /** Fences the job and starts its runner under a claim just taken. */
  function StartRunner(s: State, now: Instant, i: nat, slot: Slot): State {
    s.(active := s.active + {slot.job},
       unsettled := s.unsettled + multiset{slot.job},
       phase := Running(now, i, Hold(slot, ClaimsOf(s.ledger, slot)), None))
  }

  /** Claims the occurrence. A stale one is first recorded as failed. */
  function ClaimOccurrence(s: State, cfg: Config): State
    requires s.phase.Reporting? && s.phase.i < |cfg.jobs|
  {
    var now, i := s.phase.now, s.phase.i;
    var job := cfg.jobs[i];
    var c := TickClaim(cfg, job, now);
    var claimed := s.(ledger := AfterClaim(s.ledger, c));
    match KindOf(s.ledger, c)
    case Claimed => StartRunner(claimed, now, i, c.slot)
    case StaleReclaimed => claimed.(ledger := AfterComplete(claimed.ledger, c.slot, now, Failed, None), phase := Retrying(now, i))
    case _ => SkipAlreadyRun(s, now, i, job.name)
  }

  /** Claims it again after a stale attempt. */
  function ClaimAgain(s: State, cfg: Config): State
    requires s.phase.Retrying? && s.phase.i < |cfg.jobs|
  {
    var now, i := s.phase.now, s.phase.i;
    var job := cfg.jobs[i];
    var c := TickClaim(cfg, job, now);
    if Takes(KindOf(s.ledger, c)) then StartRunner(s.(ledger := AfterClaim(s.ledger, c)), now, i, c.slot)
    else SkipAlreadyRun(s, now, i, job.name)
  }

  function CompleteRun(s: State, completedAt: Instant): State
    requires s.phase.Running? && s.phase.settled.Some?
  {
    var outcome := if s.phase.settled.value then Succeeded else Failed;
    s.(ledger := AfterComplete(s.ledger, s.phase.hold.slot, completedAt, outcome, None),
       phase := Closing(s.phase.now, s.phase.i, !s.phase.settled.value))
  }

  function Close(s: State, cfg: Config): State
    requires s.phase.Closing? && s.phase.i < |cfg.jobs|
  {
    var name := cfg.jobs[s.phase.i].name;
    Next(s, s.phase.now, s.phase.i,
         if s.phase.failed then s.tally.(failed := s.tally.failed + [name]) else s.tally.(ran := s.tally.ran + [name]))
  }

  // ---------------------------------------------------------------- runners

  /** A runner settles: its fence falls, and a tick still waiting for it learns how it went. */
  function Settle(s: State, job: string, ok: bool): State {
    var waiting := s.phase.Running? && s.phase.hold.slot.job == job && s.phase.settled == None;
    s.(active := s.active - {job},
       unsettled := s.unsettled - multiset{job},
       phase := if waiting then s.phase.(settled := Some(ok)) else s.phase)
  }

  // ---------------------------------------------------------------- native calls

  function NativeClaim(job: Job, now: Instant, runId: string): Claim {
    Claim(SlotOf(job, now), OccurrenceAt(now, job.hour, job.minute).scheduledAt, now, NATIVE_STALE_AFTER_MS, None, NATIVE_OWNER, Some(runId))
  }

  datatype Reply = Composing | Composed(text: string, runId: string, replayed: bool) | Skipped | RefusedRunning | RefusedLimit | CompositionFailed

  datatype Called = Called(state: State, reply: Reply)

  /** A native call: a succeeded occurrence is replayed, or skipped if the old scheduler ran it; a stale
    * attempt is recorded as failed and claimed afresh. */
  function CallNative(s: State, id: nat, job: Job, now: Instant, runId: string): Called {
    var c := NativeClaim(job, now, runId);
    var claimed := AfterClaim(s.ledger, c);
    match KindOf(s.ledger, c)
    case AlreadySucceeded =>
      (match Latest(OutputsOf(s.ledger, c.slot))
       case None => Called(s, Skipped)
       case Some(output) => Called(s, Composed(output.text, output.runId, true)))
    case AlreadyRunning => Called(s, RefusedRunning)
    case TerminalFailure => Called(s, RefusedLimit)
    case Claimed => Called(Compose(s, id, claimed, c.slot, runId, now), Composing)
    case StaleReclaimed =>
      var failed := AfterComplete(claimed, c.slot, now, Failed, None);
      var retried := AfterClaim(failed, c);
      if KindOf(failed, c) == Claimed then Called(Compose(s, id, retried, c.slot, runId, now), Composing)
      else Called(s.(ledger := retried), CompositionFailed)
  }

  function Compose(s: State, id: nat, l: Ledger, slot: Slot, runId: string, now: Instant): State {
    s.(ledger := l, natives := s.natives[id := Composition(Hold(slot, ClaimsOf(l, slot)), runId, now)])
  }

  function EndNative(s: State, id: nat, text: Option<string>, completedAt: Instant): State
    requires id in s.natives
  {
    var composition := s.natives[id];
    var output := if text.Some? then Some(Output(NATIVE_OWNER, composition.runId, text.value, completedAt)) else None;
    s.(ledger := AfterComplete(s.ledger, composition.hold.slot, completedAt, if text.Some? then Succeeded else Failed, output),
       natives := s.natives - {id})
  }

  // ---------------------------------------------------------------- events

  /** `Ok` is false where persisting a notice raises, which ends the tick. */
  datatype Event =
    | TickBegins(now: Instant)
    | TickConsiders
    | TickClaims(ok: bool)
    | TickRetries(ok: bool)
    | TickCompletes(completedAt: Instant)
    | TickCloses(ok: bool)
    | RunnerSettles(job: string, ok: bool)
    | RunnerTimesOut
    | NativeBegins(id: nat, native: Job, now: Instant, runId: string)
    | NativeEnds(id: nat, text: Option<string>, completedAt: Instant)
    | ProcessRestarts

  predicate Enabled(s: State, cfg: Config, e: Event) {
    match e
    case TickBegins(_) => s.phase.Resting?
    case TickConsiders => s.phase.Selecting?
    case TickClaims(_) => s.phase.Reporting? && s.phase.i < |cfg.jobs|
    case TickRetries(_) => s.phase.Retrying? && s.phase.i < |cfg.jobs|
    case TickCompletes(_) => s.phase.Running? && s.phase.settled.Some?
    case TickCloses(_) => s.phase.Closing? && s.phase.i < |cfg.jobs|
    case RunnerSettles(job, _) => job in s.unsettled
    case RunnerTimesOut => s.phase.Running? && s.phase.settled == None
    case NativeBegins(id, _, _, _) => id !in s.natives
    case NativeEnds(id, _, _) => id in s.natives
    case ProcessRestarts => true
  }

  /** A step; an event that is not enabled does nothing. */
  function Apply(s: State, cfg: Config, e: Event): State {
    if !Enabled(s, cfg, e) then s
    else match e
      case TickBegins(now) => s.(phase := Selecting(now, 0), tally := NO_TALLY)
      case TickConsiders => Consider(s, cfg)
      case TickClaims(ok) => if ok then ClaimOccurrence(s, cfg) else s.(phase := Resting)
      case TickRetries(ok) => if ok then ClaimAgain(s, cfg) else s.(phase := Resting)
      case TickCompletes(completedAt) => CompleteRun(s, completedAt)
      case TickCloses(ok) => if ok then Close(s, cfg) else s.(phase := Resting)
      case RunnerSettles(job, ok) => Settle(s, job, ok)
      case RunnerTimesOut => s.(phase := s.phase.(settled := Some(false)))
      case NativeBegins(id, native, now, runId) => CallNative(s, id, native, now, runId).state
      case NativeEnds(id, text, completedAt) => EndNative(s, id, text, completedAt)
      case ProcessRestarts => Fresh(s.ledger)
  }

  /** A process that has just started over a ledger. */
  function Fresh(l: Ledger): State {
    State(l, Resting, NO_TALLY, {}, multiset{}, map[])
  }

  /** What a process does next, from any state. */
  function After(s: State, cfg: Config, events: seq<Event>): State {
    if events == [] then s else Apply(After(s, cfg, events[..|events| - 1]), cfg, events[|events| - 1])
  }

  lemma {:induction false} AfterMore(s: State, cfg: Config, events: seq<Event>, more: seq<Event>)
    ensures After(s, cfg, events + more) == After(After(s, cfg, events), cfg, more)
  {
    if more == [] {
      assert events + more == events;
    } else {
      AfterMore(s, cfg, events, more[..|more| - 1]);
      assert (events + more)[..|events + more| - 1] == events + more[..|more| - 1];
    }
  }

  lemma AfterTwo(s: State, cfg: Config, first: Event, second: Event)
    ensures After(s, cfg, [first]) == Apply(s, cfg, first)
    ensures After(s, cfg, [first, second]) == Apply(Apply(s, cfg, first), cfg, second)
  {
    assert [first, second][..1] == [first];
  }

  function Run(l: Ledger, cfg: Config, events: seq<Event>): State {
    After(Fresh(l), cfg, events)
  }

  lemma RunGoesOn(l: Ledger, cfg: Config, events: seq<Event>, more: seq<Event>)
    ensures Run(l, cfg, events + more) == After(Run(l, cfg, events), cfg, more)
  {
    AfterMore(Fresh(l), cfg, events, more);
  }

  // ---------------------------------------------------------------- the scheduler

  /** How many runs failed in a row up to the last. */
  method CountFailureStreak(outcomes: seq<Option<Outcome>>) returns (streak: nat)
    ensures streak <= |outcomes|
    ensures forall k :: |outcomes| - streak <= k < |outcomes| ==> outcomes[k] == Some(Failed)
    ensures streak < |outcomes| ==> outcomes[|outcomes| - 1 - streak] != Some(Failed)
  {
    streak := 0;
    var index := |outcomes| - 1;
    while index >= 0
      invariant -1 <= index < |outcomes| && streak == |outcomes| - 1 - index
      invariant forall k :: index < k < |outcomes| ==> outcomes[k] == Some(Failed)
    {
      if outcomes[index] != Some(Failed) {
        break;
      }
      streak := streak + 1;
      index := index - 1;
    }
  }
}
