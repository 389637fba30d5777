/** `tick` of src/operations/daily-operations-scheduler.ts as it runs when nothing comes between its steps:
  * one loop over the jobs that updates the ledger, the fences and its four lists in place. Each pass is one
  * of the interleavings of the protocol.
  */
module DailyScheduler {
  import opened OperatingClock
  import opened SchedulerLedger
  import opened SchedulerProtocol
  import opened Wrappers

  /** How a started runner answers: it settles well or badly, or times out without settling. */
  datatype Answer = Answer(settled: Option<bool>, completedAt: Instant)

  predicate AnsweredWell(answer: Answer) {
    answer.settled == Some(true)
  }

  function Answered(s: State, answer: Answer): (after: State)
    requires s.phase.Running? && s.phase.settled == None
    ensures after.phase == s.phase.(settled := Some(AnsweredWell(answer)))
  {
    match answer.settled
    case Some(ok) => Settle(s, s.phase.hold.slot.job, ok)
    case None => s.(phase := s.phase.(settled := Some(false)))
  }

  predicate Started(phase: Phase, now: Instant, i: nat) {
    phase.Running? && phase.now == now && phase.i == i && phase.settled == None
  }

  function Claiming(s: State, cfg: Config): (after: State)
    requires s.phase.Reporting? && s.phase.i < |cfg.jobs|
    ensures after.phase == Selecting(s.phase.now, s.phase.i + 1) || Started(after.phase, s.phase.now, s.phase.i)
  {
    var claimed := ClaimOccurrence(s, cfg);
    if claimed.phase.Retrying? then ClaimAgain(claimed, cfg) else claimed
  }

  /** One job, from being looked at to the next. */
  function OneJob(s: State, cfg: Config, answer: Answer): State
    requires s.phase.Selecting? && s.phase.i < |cfg.jobs|
  {
    var considered := Consider(s, cfg);
    if considered.phase.Reporting? then ClaimedAndRun(considered, cfg, answer) else considered
  }

  lemma OneJobAdvances(s: State, cfg: Config, answer: Answer)
    requires s.phase.Selecting? && s.phase.i < |cfg.jobs|
    ensures OneJob(s, cfg, answer).phase == Selecting(s.phase.now, s.phase.i + 1)
  {
    var considered := Consider(s, cfg);
    if considered.phase.Reporting? {
      assert ClaimedAndRun(considered, cfg, answer).phase == Selecting(s.phase.now, s.phase.i + 1);
    }
  }

  /** The first i jobs of a tick. */
  function Jobs(s: State, cfg: Config, now: Instant, answers: nat -> Answer, i: nat): (after: State)
    requires i <= |cfg.jobs|
    ensures after.phase == Selecting(now, i)
  {
    if i == 0 then s.(phase := Selecting(now, 0), tally := NO_TALLY)
    else
      var before := Jobs(s, cfg, now, answers, i - 1);
      OneJobAdvances(before, cfg, answers(i - 1));
      OneJob(before, cfg, answers(i - 1))
  }

  function AnswerEvent(s: State, answer: Answer): Event
    requires s.phase.Running?
  {
    if answer.settled.Some? then RunnerSettles(s.phase.hold.slot.job, answer.settled.value) else RunnerTimesOut
  }

  function Finished(s: State, cfg: Config, answer: Answer): (after: State)
    requires s.phase.Running? && s.phase.settled == None && s.phase.i < |cfg.jobs|
    ensures after.phase == Selecting(s.phase.now, s.phase.i + 1)
  {
    Close(CompleteRun(Answered(s, answer), answer.completedAt), cfg)
  }

  lemma FinishedIsEvents(s: State, cfg: Config, answer: Answer)
    requires s.phase.Running? && s.phase.settled == None && s.phase.i < |cfg.jobs| && s.phase.hold.slot.job in s.unsettled
    ensures Finished(s, cfg, answer) ==
            Apply(Apply(Apply(s, cfg, AnswerEvent(s, answer)), cfg, TickCompletes(answer.completedAt)), cfg, TickCloses(true))
  {
    assert Apply(s, cfg, AnswerEvent(s, answer)) == Answered(s, answer);
  }

  lemma ClaimingIsEvents(s: State, cfg: Config)
    requires s.phase.Reporting? && s.phase.i < |cfg.jobs|
    ensures Claiming(s, cfg) == Apply(Apply(s, cfg, TickClaims(true)), cfg, TickRetries(true))
    ensures Claiming(s, cfg).phase.Running? ==> Claiming(s, cfg).phase.hold.slot.job in Claiming(s, cfg).unsettled
  {
    assert Apply(s, cfg, TickClaims(true)) == ClaimOccurrence(s, cfg);
  }

  /** The events of one job in an undisturbed tick. */
  lemma OneJobIsAnInterleaving(s: State, cfg: Config, answer: Answer)
    requires s.phase.Selecting? && s.phase.i < |cfg.jobs|
    ensures var considered := Apply(s, cfg, TickConsiders);
            if !considered.phase.Reporting? then OneJob(s, cfg, answer) == considered
            else
              var claimed := Apply(Apply(considered, cfg, TickClaims(true)), cfg, TickRetries(true));
              if !claimed.phase.Running? then OneJob(s, cfg, answer) == claimed
              else
                OneJob(s, cfg, answer) ==
                Apply(Apply(Apply(claimed, cfg, AnswerEvent(claimed, answer)), cfg, TickCompletes(answer.completedAt)), cfg, TickCloses(true))
  {
    assert Apply(s, cfg, TickConsiders) == Consider(s, cfg);
    if Consider(s, cfg).phase.Reporting? {
      ClaimingIsEvents(Consider(s, cfg), cfg);
      if Claiming(Consider(s, cfg), cfg).phase.Running? {
        FinishedIsEvents(Claiming(Consider(s, cfg), cfg), cfg, answer);
      }
    }
  }

  /** The same events as a list. */
  function JobEvents(s: State, cfg: Config, answer: Answer): seq<Event>
    requires s.phase.Selecting? && s.phase.i < |cfg.jobs|
  {
    var considered := Consider(s, cfg);
    if !considered.phase.Reporting? then [TickConsiders]
    else [TickConsiders] + ([TickClaims(true), TickRetries(true)] + RunEvents(Claiming(considered, cfg), answer))
  }

  function RunEvents(claimed: State, answer: Answer): seq<Event> {
    if claimed.phase.Running? then [AnswerEvent(claimed, answer), TickCompletes(answer.completedAt)] + [TickCloses(true)] else []
  }

  lemma OneJobIsItsEvents(s: State, cfg: Config, answer: Answer)
    requires s.phase.Selecting? && s.phase.i < |cfg.jobs|
    ensures OneJob(s, cfg, answer) == After(s, cfg, JobEvents(s, cfg, answer))
  {
    var considered := Apply(s, cfg, TickConsiders);
    OneJobIsAnInterleaving(s, cfg, answer);
    AfterTwo(s, cfg, TickConsiders, TickConsiders);
    if considered.phase.Reporting? {
      var claimed := Claiming(considered, cfg);
      var claims := [TickClaims(true), TickRetries(true)];
      ClaimingIsEvents(considered, cfg);
      AfterTwo(considered, cfg, TickClaims(true), TickRetries(true));
      AfterMore(s, cfg, [TickConsiders], claims + RunEvents(claimed, answer));
      AfterMore(considered, cfg, claims, RunEvents(claimed, answer));
      if claimed.phase.Running? {
        AfterTwo(claimed, cfg, AnswerEvent(claimed, answer), TickCompletes(answer.completedAt));
        AfterMore(claimed, cfg, [AnswerEvent(claimed, answer), TickCompletes(answer.completedAt)], [TickCloses(true)]);
        AfterTwo(After(claimed, cfg, [AnswerEvent(claimed, answer), TickCompletes(answer.completedAt)]), cfg, TickCloses(true), TickCloses(true));
      }
    }
  }

  function TickEvents(s: State, cfg: Config, now: Instant, answers: nat -> Answer, i: nat): seq<Event>
    requires i <= |cfg.jobs|
  {
    if i == 0 then [TickBegins(now)]
    else TickEvents(s, cfg, now, answers, i - 1) + JobEvents(Jobs(s, cfg, now, answers, i - 1), cfg, answers(i - 1))
  }

  lemma OneMoreJob(s: State, cfg: Config, events: seq<Event>, before: State, answer: Answer, after: State, more: seq<Event>)
    requires before == After(s, cfg, events) && before.phase.Selecting? && before.phase.i < |cfg.jobs|
    requires after == OneJob(before, cfg, answer) && more == events + JobEvents(before, cfg, answer)
    ensures after == After(s, cfg, more)
  {
    OneJobIsItsEvents(before, cfg, answer);
    AfterMore(s, cfg, events, JobEvents(before, cfg, answer));
  }

  lemma {:induction false} JobsAreTheirEvents(s: State, cfg: Config, now: Instant, answers: nat -> Answer, i: nat)
    requires s.phase.Resting? && i <= |cfg.jobs|
    ensures Jobs(s, cfg, now, answers, i) == After(s, cfg, TickEvents(s, cfg, now, answers, i))
  {
    if i == 0 {
      AfterTwo(s, cfg, TickBegins(now), TickBegins(now));
    } else {
      JobsAreTheirEvents(s, cfg, now, answers, i - 1);
      OneMoreJob(s, cfg, TickEvents(s, cfg, now, answers, i - 1), Jobs(s, cfg, now, answers, i - 1), answers(i - 1),
                 Jobs(s, cfg, now, answers, i), TickEvents(s, cfg, now, answers, i));
    }
  }

  /** A whole tick, from any state that a run reaches, is one more stretch of that run: what holds over every
    * interleaving holds of it. */
  lemma TickContinuesTheRun(l: Ledger, cfg: Config, events: seq<Event>, now: Instant, answers: nat -> Answer)
    requires Run(l, cfg, events).phase.Resting?
    ensures Jobs(Run(l, cfg, events), cfg, now, answers, |cfg.jobs|) ==
            Run(l, cfg, events + TickEvents(Run(l, cfg, events), cfg, now, answers, |cfg.jobs|))
  {
    JobsAreTheirEvents(Run(l, cfg, events), cfg, now, answers, |cfg.jobs|);
    RunGoesOn(l, cfg, events, TickEvents(Run(l, cfg, events), cfg, now, answers, |cfg.jobs|));
  }

  // ---------------------------------------------------------------- the loop

  datatype Taken = Taken(ledger: Ledger, taken: bool)

  /** What claiming does to the ledger: a stale attempt is recorded as failed and claimed again. */
  function Take(l: Ledger, c: Claim, now: Instant): Taken {
    if KindOf(l, c) == StaleReclaimed then
      var failed := AfterComplete(AfterClaim(l, c), c.slot, now, Failed, None);
      Taken(AfterClaim(failed, c), Takes(KindOf(failed, c)))
    else Taken(AfterClaim(l, c), KindOf(l, c) == Claimed)
  }

  lemma ClaimingTakes(s: State, cfg: Config)
    requires s.phase.Reporting? && s.phase.i < |cfg.jobs|
    ensures var job := cfg.jobs[s.phase.i];
            var c := TickClaim(cfg, job, s.phase.now);
            var taken := Take(s.ledger, c, s.phase.now);
            Claiming(s, cfg) ==
            if taken.taken then StartRunner(s.(ledger := taken.ledger), s.phase.now, s.phase.i, c.slot)
            else SkipAlreadyRun(s.(ledger := taken.ledger), s.phase.now, s.phase.i, job.name)
  {
  }

  /** How a started runner's answer leaves the process. */
  lemma FinishedRecords(s: State, cfg: Config, answer: Answer)
    requires s.phase.Running? && s.phase.settled == None && s.phase.i < |cfg.jobs|
    ensures var job, name, well := s.phase.hold.slot.job, cfg.jobs[s.phase.i].name, AnsweredWell(answer);
            Finished(s, cfg, answer) ==
            State(AfterComplete(s.ledger, s.phase.hold.slot, answer.completedAt, if well then Succeeded else Failed, None),
                  Selecting(s.phase.now, s.phase.i + 1),
                  if well then s.tally.(ran := s.tally.ran + [name]) else s.tally.(failed := s.tally.failed + [name]),
                  if answer.settled.Some? then s.active - {job} else s.active,
                  if answer.settled.Some? then s.unsettled - multiset{job} else s.unsettled,
                  s.natives)
  {
  }

  /** Claiming a job's occurrence and, if it is taken, running it to its end. */
  function ClaimedAndRun(s: State, cfg: Config, answer: Answer): (after: State)
    requires s.phase.Reporting? && s.phase.i < |cfg.jobs|
    ensures after.phase == Selecting(s.phase.now, s.phase.i + 1)
  {
    var claimed := Claiming(s, cfg);
    if claimed.phase.Running? then Finished(claimed, cfg, answer) else claimed
  }

  /** What a taken or refused occurrence and its answer come to, field by field. */
  function Recorded(s: State, name: string, slot: Slot, take: Taken, answer: Answer): State
    requires s.phase.Reporting?
  {
    var next := Selecting(s.phase.now, s.phase.i + 1);
    if take.taken then
      var well := AnsweredWell(answer);
      var active, unsettled := s.active + {name}, s.unsettled + multiset{name};
      State(AfterComplete(take.ledger, slot, answer.completedAt, if well then Succeeded else Failed, None),
            next,
            if well then s.tally.(ran := s.tally.ran + [name]) else s.tally.(failed := s.tally.failed + [name]),
            if answer.settled.Some? then active - {name} else active,
            if answer.settled.Some? then unsettled - multiset{name} else unsettled,
            s.natives)
    else State(take.ledger, next, s.tally.(alreadyRun := s.tally.alreadyRun + [name]), s.active, s.unsettled, s.natives)
  }

  lemma ClaimedAndRunRecords(s: State, cfg: Config, answer: Answer)
    requires s.phase.Reporting? && s.phase.i < |cfg.jobs|
    ensures var job := cfg.jobs[s.phase.i];
            var c := TickClaim(cfg, job, s.phase.now);
            ClaimedAndRun(s, cfg, answer) == Recorded(s, job.name, c.slot, Take(s.ledger, c, s.phase.now), answer)
  {
    ClaimingTakes(s, cfg);
    if Claiming(s, cfg).phase.Running? {
      FinishedRecords(Claiming(s, cfg), cfg, answer);
    }
  }

  class DailyOperationsScheduler {
    const cfg: Config
    var ledger: Ledger
    var active: set<string>
    var unsettled: multiset<string>
    var ran: seq<string>
    var failed: seq<string>
    var notYetDue: seq<string>
    var alreadyRun: seq<string>

    constructor (cfg: Config, ledger: Ledger)
      ensures this.cfg == cfg && At(Resting, map[]) == Fresh(ledger)
    {
      this.cfg, this.ledger := cfg, ledger;
      active, unsettled := {}, multiset{};
      ran, failed, notYetDue, alreadyRun := [], [], [], [];
    }

    /** The protocol state when the tick is at a phase and native calls are at work. */
    function At(phase: Phase, natives: map<nat, Composition>): State
      reads this
    {
      State(ledger, phase, Tally(ran, failed, notYetDue, alreadyRun), active, unsettled, natives)
    }

    /** Claims the occurrence, recording a stale attempt as failed first; when it is not to be run, the job
      * counts as already run. */
    method Claim(job: Job, now: Instant) returns (taken: bool)
      modifies this`ledger, this`alreadyRun, this`active, this`unsettled
      ensures Taken(ledger, taken) == Take(old(ledger), TickClaim(cfg, job, now), now)
      ensures alreadyRun == if taken then old(alreadyRun) else old(alreadyRun) + [job.name]
      ensures active == if taken then old(active) + {job.name} else old(active)
      ensures unsettled == if taken then old(unsettled) + multiset{job.name} else old(unsettled)
    {
      var c := TickClaim(cfg, job, now);
      var kind := KindOf(ledger, c);
      ledger := AfterClaim(ledger, c);
      if kind == StaleReclaimed {
        ledger := AfterComplete(ledger, c.slot, now, Failed, None);
        kind := KindOf(ledger, c);
        ledger := AfterClaim(ledger, c);
      }
      taken := Takes(kind);
      if taken {
        active := active + {job.name};
        unsettled := unsettled + multiset{job.name};
      } else {
        alreadyRun := alreadyRun + [job.name];
      }
    }

    /** Waits for the started runner, and completes its occurrence. */
    method Finish(job: Job, slot: Slot, answer: Answer)
      modifies this`ledger, this`ran, this`failed, this`active, this`unsettled
      ensures ledger == AfterComplete(old(ledger), slot, answer.completedAt, if AnsweredWell(answer) then Succeeded else Failed, None)
      ensures active == if answer.settled.Some? then old(active) - {job.name} else old(active)
      ensures unsettled == if answer.settled.Some? then old(unsettled) - multiset{job.name} else old(unsettled)
      ensures ran == if AnsweredWell(answer) then old(ran) + [job.name] else old(ran)
      ensures failed == if AnsweredWell(answer) then old(failed) else old(failed) + [job.name]
    {
      if answer.settled.Some? {
        active := active - {job.name};
        unsettled := unsettled - multiset{job.name};
      }
      if AnsweredWell(answer) {
        ledger := AfterComplete(ledger, slot, answer.completedAt, Succeeded, None);
        ran := ran + [job.name];
      } else {
        ledger := AfterComplete(ledger, slot, answer.completedAt, Failed, None);
        failed := failed + [job.name];
      }
    }

    /** Runs the due occurrence if it can be claimed. */
    method ClaimAndRun(job: Job, now: Instant, i: nat, answer: Answer, ghost natives: map<nat, Composition>)
      modifies this
      ensures At(Selecting(now, i + 1), natives) ==
              Recorded(old(At(Reporting(now, i), natives)), job.name, SlotOf(job, now), Take(old(ledger), TickClaim(cfg, job, now), now), answer)
    {
      ghost var before, slot := At(Reporting(now, i), natives), SlotOf(job, now);
      var taken := Claim(job, now);
      ghost var take := Taken(ledger, taken);
      if taken {
        Finish(job, SlotOf(job, now), answer);
      }
      assert At(Selecting(now, i + 1), natives) == Recorded(before, job.name, slot, take, answer);
    }

    method RunJob(now: Instant, i: nat, answer: Answer, ghost natives: map<nat, Composition>)
      requires i < |cfg.jobs|
      modifies this
      ensures At(Selecting(now, i + 1), natives) == OneJob(old(At(Selecting(now, i), natives)), cfg, answer)
    {
      var job := cfg.jobs[i];
      if job.name !in cfg.runners {
        return;
      }
      if job.name in active {
        alreadyRun := alreadyRun + [job.name];
        return;
      }
      if now < OccurrenceAt(now, job.hour, job.minute).scheduledAt {
        notYetDue := notYetDue + [job.name];
        return;
      }
      ledger := ReportMissed(ledger, cfg, job, now);
      ClaimedAndRunRecords(At(Reporting(now, i), natives), cfg, answer);
      ClaimAndRun(job, now, i, answer, natives);
    }

    /** A tick does to each job in turn what the protocol does to it undisturbed. */
    method Tick(now: Instant, answers: nat -> Answer, ghost natives: map<nat, Composition>)
      modifies this
      ensures At(Selecting(now, |cfg.jobs|), natives) == Jobs(old(At(Resting, natives)), cfg, now, answers, |cfg.jobs|)
    {
      ran, failed, notYetDue, alreadyRun := [], [], [], [];
      for i := 0 to |cfg.jobs|
        invariant At(Selecting(now, i), natives) == Jobs(old(At(Resting, natives)), cfg, now, answers, i)
      {
        RunJob(now, i, answers(i), natives);
      }
    }
  }
}
