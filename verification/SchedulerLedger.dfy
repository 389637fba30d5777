/** The run ledger of src/operations/operations-state.ts that the scheduler and the native reports share:
  * one row for each occurrence of a job, the failures it had and the texts it produced.
  */
module SchedulerLedger {
  import opened OperatingClock
  import opened Wrappers

  datatype Slot = Slot(job: string, day: OperatingDay)
  datatype Outcome = Succeeded | Failed

  /** `claims` counts how often the occurrence was claimed. The table has no such column: it tells the
    * holders of an occurrence apart here, and decides nothing. */
  datatype Row = Row(
    scheduledAt: Instant,
    startedAt: Instant,
    completedAt: Option<Instant>,
    outcome: Option<Outcome>,
    owner: string,
    runId: Option<string>,
    claims: nat)

  datatype Output = Output(owner: string, runId: string, text: string, createdAt: Instant)

  /** Outputs are listed in the order of their rows. */
  datatype Ledger = Ledger(runs: map<Slot, Row>, failures: map<Slot, nat>, outputs: map<Slot, seq<Output>>)

  datatype ClaimKind = Claimed | AlreadySucceeded | AlreadyRunning | StaleReclaimed | TerminalFailure

  datatype Claim = Claim(
    slot: Slot,
    scheduledAt: Instant,
    startedAt: Instant,
    staleAfterMs: nat,
    maxAttempts: Option<nat>,
    owner: string,
    runId: Option<string>)

  function FailuresOf(l: Ledger, slot: Slot): nat {
    if slot in l.failures then l.failures[slot] else 0
  }

  predicate IsRunning(l: Ledger, slot: Slot) {
    slot in l.runs && l.runs[slot].outcome == None
  }

  predicate HasSucceeded(l: Ledger, slot: Slot) {
    slot in l.runs && l.runs[slot].outcome == Some(Succeeded)
  }

  predicate HasFailed(l: Ledger, slot: Slot) {
    slot in l.runs && l.runs[slot].outcome == Some(Failed)
  }

  /** A claim finds a running occurrence still alive only if it was started within the stale time before
    * the claim's own start. */
  predicate StillAlive(l: Ledger, c: Claim) {
    IsRunning(l, c.slot) && 0 <= c.startedAt - l.runs[c.slot].startedAt < c.staleAfterMs
  }

  function KindOf(l: Ledger, c: Claim): ClaimKind {
    if HasSucceeded(l, c.slot) then AlreadySucceeded
    else if HasFailed(l, c.slot) && c.maxAttempts.Some? && FailuresOf(l, c.slot) >= c.maxAttempts.value then TerminalFailure
    else if StillAlive(l, c) then AlreadyRunning
    else if IsRunning(l, c.slot) then StaleReclaimed
    else Claimed
  }

  predicate Takes(kind: ClaimKind) {
    kind == Claimed || kind == StaleReclaimed
  }

  function ClaimsOf(l: Ledger, slot: Slot): nat {
    if slot in l.runs then l.runs[slot].claims else 0
  }

  /** A claim that takes the occurrence starts its row anew; any other leaves the ledger alone. */
  function AfterClaim(l: Ledger, c: Claim): Ledger {
    if Takes(KindOf(l, c)) then
      var scheduledAt := if c.slot in l.runs then l.runs[c.slot].scheduledAt else c.scheduledAt;
      l.(runs := l.runs[c.slot := Row(scheduledAt, c.startedAt, None, None, c.owner, c.runId, ClaimsOf(l, c.slot) + 1)])
    else l
  }

  function OutputsOf(l: Ledger, slot: Slot): seq<Output> {
    if slot in l.outputs then l.outputs[slot] else []
  }

  /** A text is kept once for an occurrence. */
  function WithOutput(outputs: seq<Output>, output: Output): seq<Output> {
    if exists kept <- outputs :: kept.text == output.text then outputs else outputs + [output]
  }

  function AfterComplete(l: Ledger, slot: Slot, completedAt: Instant, outcome: Outcome, output: Option<Output>): Ledger {
    Ledger(
      if slot in l.runs then l.runs[slot := l.runs[slot].(completedAt := Some(completedAt), outcome := Some(outcome))] else l.runs,
      if outcome == Failed then l.failures[slot := FailuresOf(l, slot) + 1] else l.failures,
      if outcome == Succeeded && output.Some? then l.outputs[slot := WithOutput(OutputsOf(l, slot), output.value)] else l.outputs)
  }

  /** The output created last; of several created together, the one kept last. */
  function Latest(outputs: seq<Output>): Option<Output> {
    if outputs == [] then None
    else
      var before, last := Latest(outputs[..|outputs| - 1]), outputs[|outputs| - 1];
      if before.Some? && before.value.createdAt > last.createdAt then before else Some(last)
  }

  /** The latest output is one that was kept, and none was created after it. */
  lemma {:induction false} LatestIsNewest(outputs: seq<Output>)
    ensures Latest(outputs) == None <==> outputs == []
    ensures Latest(outputs).Some? ==>
              Latest(outputs).value in outputs && forall output <- outputs :: output.createdAt <= Latest(outputs).value.createdAt
  {
    if outputs != [] {
      LatestIsNewest(outputs[..|outputs| - 1]);
      assert outputs == outputs[..|outputs| - 1] + [outputs[|outputs| - 1]];
    }
  }

  class RunLedger {
    var runs: map<Slot, Row>
    var failures: map<Slot, nat>
    var outputs: map<Slot, seq<Output>>

    function State(): Ledger
      reads this
    {
      Ledger(runs, failures, outputs)
    }

    constructor ()
      ensures State() == Ledger(map[], map[], map[])
    {
      runs, failures, outputs := map[], map[], map[];
    }

    method ClaimSchedulerRun(c: Claim) returns (kind: ClaimKind)
      modifies this`runs
      ensures State() == AfterClaim(old(State()), c) && kind == KindOf(old(State()), c)
    {
      if c.slot in runs && runs[c.slot].outcome == Some(Succeeded) {
        return AlreadySucceeded;
      }
      if c.slot in runs && runs[c.slot].outcome == Some(Failed) && c.maxAttempts.Some? {
        if FailuresOf(State(), c.slot) >= c.maxAttempts.value {
          return TerminalFailure;
        }
      }
      var staleReclaimed := false;
      if c.slot in runs && runs[c.slot].outcome == None {
        var elapsed := c.startedAt - runs[c.slot].startedAt;
        if 0 <= elapsed < c.staleAfterMs {
          return AlreadyRunning;
        }
        staleReclaimed := true;
      }
      var scheduledAt := if c.slot in runs then runs[c.slot].scheduledAt else c.scheduledAt;
      runs := runs[c.slot := Row(scheduledAt, c.startedAt, None, None, c.owner, c.runId, ClaimsOf(State(), c.slot) + 1)];
      kind := if staleReclaimed then StaleReclaimed else Claimed;
    }

    method CompleteSchedulerRun(slot: Slot, completedAt: Instant, outcome: Outcome, output: Option<Output>)
      modifies this
      ensures State() == AfterComplete(old(State()), slot, completedAt, outcome, output)
    {
      if outcome == Failed {
        failures := failures[slot := FailuresOf(State(), slot) + 1];
      }
      if slot in runs {
        runs := runs[slot := runs[slot].(completedAt := Some(completedAt), outcome := Some(outcome))];
      }
      if output.Some? && outcome == Succeeded {
        outputs := outputs[slot := WithOutput(OutputsOf(State(), slot), output.value)];
      }
    }
  }
}
