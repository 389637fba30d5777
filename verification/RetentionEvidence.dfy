/** The retention job of src/knowledge/knowledge-operations.ts: it reconciles what was purged elsewhere with
  * the central purge evidence, records a tombstone for every raw candidate whose retention has ended, and
  * drops that candidate's staged payload. Evidence is append-only
  * (src/operations/operations-state.ts), and may refuse a write.
  */
module RetentionEvidence {

  datatype Kind = PersonalPayload | RawCandidate | CompiledGeneration | BackupCopy

  /** What is recorded of a purge besides its time. */
  datatype Fact = Fact(kind: Kind, recordId: string, domain: string, contentHash: string, eligibleAt: int, policy: string)

  datatype Key = Key(kind: Kind, recordId: string)
  datatype Evidence = Evidence(fact: Fact, purgedAt: int)

  /** `staged` holds the payloads of raw candidates that wait in memory. */
  datatype State = State(events: map<Key, Evidence>, staged: map<string, string>)

  /** Evidence to reconcile, a raw candidate to retain or drop, or a backup said to be deleted. */
  datatype Task = Reconcile(fact: Fact) | Retain(fact: Fact) | Deleted(fact: Fact, proven: bool)

  datatype Outcome = Outcome(state: State, ok: bool)

  function KeyOf(fact: Fact): Key {
    Key(fact.kind, fact.recordId)
  }

  /** Records a fact once; a recorded fact that drifted, or a refused write, fails. */
  function Record(s: State, fact: Fact, at: int, accepts: Evidence -> bool): Outcome {
    if KeyOf(fact) in s.events then Outcome(s, s.events[KeyOf(fact)].fact == fact)
    else if accepts(Evidence(fact, at)) then Outcome(s.(events := s.events[KeyOf(fact) := Evidence(fact, at)]), true)
    else Outcome(s, false)
  }

  /** The raw candidates that have a tombstone. */
  function Tombstones(events: map<Key, Evidence>): set<string> {
    set key | key in events && key.kind == RawCandidate :: key.recordId
  }

  /** A raw candidate is due when its retention has ended and it had no tombstone before the run. */
  predicate IsDue(task: Task, at: int, known: set<string>) {
    task.Retain? && task.fact.recordId !in known && task.fact.eligibleAt <= at
  }

  function Perform(s: State, task: Task, at: int, known: set<string>, accepts: Evidence -> bool): Outcome {
    match task
    case Reconcile(fact) => Record(s, fact, at, accepts)
    case Deleted(fact, proven) => if proven then Record(s, fact, at, accepts) else Outcome(s, false)
    case Retain(fact) =>
      if !IsDue(task, at, known) then Outcome(s, true)
      else
        var recorded := Record(s, fact, at, accepts);
        if recorded.ok then Outcome(recorded.state.(staged := recorded.state.staged - {fact.recordId}), true) else recorded
  }

  /** All of them in order, up to the first that fails. */
  function PerformAll(s: State, tasks: seq<Task>, at: int, known: set<string>, accepts: Evidence -> bool): Outcome {
    if tasks == [] then Outcome(s, true)
    else
      var before := PerformAll(s, tasks[..|tasks| - 1], at, known, accepts);
      if before.ok then Perform(before.state, tasks[|tasks| - 1], at, known, accepts) else before
  }

  function Retention(s: State, tasks: seq<Task>, at: int, accepts: Evidence -> bool): Outcome {
    PerformAll(s, tasks, at, Tombstones(s.events), accepts)
  }

  /** Facts are of the kind their task is about. */
  ghost predicate WellFormed(tasks: seq<Task>) {
    forall task <- tasks :: task.Retain? <==> task.fact.kind == RawCandidate
  }

  // ---------------------------------------------------------------- the job

  class KnowledgeRetention {
    var events: map<Key, Evidence>
    var staged: map<string, string>

    function Contents(): State
      reads this
    {
      State(events, staged)
    }

    constructor ()
      ensures Contents() == State(map[], map[])
    {
      events, staged := map[], map[];
    }

    method RecordOnce(fact: Fact, at: int, accepts: Evidence -> bool) returns (ok: bool)
      modifies this`events
      ensures Outcome(Contents(), ok) == Record(old(Contents()), fact, at, accepts)
    {
      var key := KeyOf(fact);
      if key in events {
        return events[key].fact == fact;
      }
      if !accepts(Evidence(fact, at)) {
        return false;
      }
      events := events[key := Evidence(fact, at)];
      ok := true;
    }

    /** The payload goes only after its tombstone is recorded. */
    method PerformOne(task: Task, at: int, known: set<string>, accepts: Evidence -> bool) returns (ok: bool)
      modifies this
      ensures Outcome(Contents(), ok) == Perform(old(Contents()), task, at, known, accepts)
    {
      if task.Deleted? && !task.proven {
        return false;
      }
      if task.Retain? && (task.fact.recordId in known || task.fact.eligibleAt > at) {
        return true;
      }
      ok := RecordOnce(task.fact, at, accepts);
      if ok && task.Retain? {
        staged := staged - {task.fact.recordId};
      }
    }

    method Run(tasks: seq<Task>, at: int, accepts: Evidence -> bool) returns (ok: bool)
      modifies this
      ensures Outcome(Contents(), ok) == Retention(old(Contents()), tasks, at, accepts)
    {
      var known := Tombstones(events);
      ok := true;
      ghost var before := Contents();
      for i := 0 to |tasks|
        invariant ok && Outcome(Contents(), true) == PerformAll(before, tasks[..i], at, known, accepts)
      {
        assert tasks[..i + 1][..i] == tasks[..i];
        ok := PerformOne(tasks[i], at, known, accepts);
        if !ok {
          StaysFailed(before, tasks, i + 1, at, known, accepts);
          return;
        }
      }
      assert tasks[..|tasks|] == tasks;
    }
  }

  lemma {:induction false} StaysFailed(s: State, tasks: seq<Task>, i: nat, at: int, known: set<string>, accepts: Evidence -> bool)
    requires i <= |tasks| && !PerformAll(s, tasks[..i], at, known, accepts).ok
    ensures PerformAll(s, tasks, at, known, accepts) == PerformAll(s, tasks[..i], at, known, accepts)
    decreases |tasks|
  {
    if i == |tasks| {
      assert tasks[..i] == tasks;
    } else {
      assert tasks[..|tasks| - 1][..i] == tasks[..i];
      StaysFailed(s, tasks[..|tasks| - 1], i, at, known, accepts);
    }
  }

  // ---------------------------------------------------------------- evidence

  ghost predicate Extends(events: map<Key, Evidence>, after: map<Key, Evidence>) {
    forall key <- events :: key in after && after[key] == events[key]
  }

  /** Whatever becomes of a run, recorded evidence is never changed, removed or recorded again. */
  lemma {:induction false} EvidenceIsAppendOnly(s: State, tasks: seq<Task>, at: int, known: set<string>, accepts: Evidence -> bool)
    ensures Extends(s.events, PerformAll(s, tasks, at, known, accepts).state.events)
  {
    if tasks != [] {
      EvidenceIsAppendOnly(s, tasks[..|tasks| - 1], at, known, accepts);
    }
  }

  /** Done with a task: a due raw candidate, and any other fact, has its own evidence; a deletion was
    * proven. */
  predicate IsDone(task: Task, events: map<Key, Evidence>, at: int, known: set<string>) {
    (task.Retain? && !IsDue(task, at, known)) ||
    (KeyOf(task.fact) in events && events[KeyOf(task.fact)].fact == task.fact && (task.Deleted? ==> task.proven))
  }

  /** A run that succeeds is done with every task: in particular no fact drifted from what an earlier run
    * recorded under its key. */
  lemma {:induction false} SuccessIsDone(s: State, tasks: seq<Task>, at: int, known: set<string>, accepts: Evidence -> bool)
    requires PerformAll(s, tasks, at, known, accepts).ok
    ensures forall task <- tasks :: IsDone(task, PerformAll(s, tasks, at, known, accepts).state.events, at, known)
  {
    if tasks != [] {
      var earlier, last := tasks[..|tasks| - 1], tasks[|tasks| - 1];
      SuccessIsDone(s, earlier, at, known, accepts);
      assert tasks == earlier + [last];
    }
  }

  /** A drifting key fails the run. */
  lemma DriftFails(s: State, tasks: seq<Task>, at: int, accepts: Evidence -> bool, task: Task)
    requires task in tasks && !task.Retain? && KeyOf(task.fact) in s.events && s.events[KeyOf(task.fact)].fact != task.fact
    ensures !Retention(s, tasks, at, accepts).ok
  {
    if Retention(s, tasks, at, accepts).ok {
      SuccessIsDone(s, tasks, at, Tombstones(s.events), accepts);
      EvidenceIsAppendOnly(s, tasks, at, Tombstones(s.events), accepts);
    }
  }

  /** A run that succeeds leaves a tombstone for every eligible raw candidate. */
  lemma EveryEligibleCandidateIsRecorded(s: State, tasks: seq<Task>, at: int, accepts: Evidence -> bool, task: Task)
    requires Retention(s, tasks, at, accepts).ok && WellFormed(tasks)
    requires task in tasks && task.Retain? && task.fact.eligibleAt <= at
    ensures task.fact.recordId in Tombstones(Retention(s, tasks, at, accepts).state.events)
  {
    SuccessIsDone(s, tasks, at, Tombstones(s.events), accepts);
    EvidenceIsAppendOnly(s, tasks, at, Tombstones(s.events), accepts);
    var events := Retention(s, tasks, at, accepts).state.events;
    if task.fact.recordId in Tombstones(s.events) {
      var key :| key in s.events && key.kind == RawCandidate && key.recordId == task.fact.recordId;
      assert key in events;
    } else {
      assert KeyOf(task.fact) in events;
    }
  }

  lemma {:induction false} DoneTasksDoNothing(s: State, tasks: seq<Task>, at: int, known: set<string>, accepts: Evidence -> bool)
    requires forall task <- tasks :: IsDone(task, s.events, at, known) && (task.Retain? ==> !IsDue(task, at, known))
    ensures PerformAll(s, tasks, at, known, accepts) == Outcome(s, true)
  {
    if tasks != [] {
      var earlier, last := tasks[..|tasks| - 1], tasks[|tasks| - 1];
      assert tasks == earlier + [last];
      DoneTasksDoNothing(s, earlier, at, known, accepts);
      assert IsDone(last, s.events, at, known);
    }
  }

  /** Rerun at the same time on the same facts, a run that succeeded succeeds again and adds nothing, even
    * if no further evidence would be accepted. */
  lemma RerunAddsNothing(s: State, tasks: seq<Task>, at: int, accepts: Evidence -> bool, acceptsAgain: Evidence -> bool)
    requires Retention(s, tasks, at, accepts).ok && WellFormed(tasks)
    ensures var after := Retention(s, tasks, at, accepts).state; Retention(after, tasks, at, acceptsAgain) == Outcome(after, true)
  {
    var after := Retention(s, tasks, at, accepts).state;
    SuccessIsDone(s, tasks, at, Tombstones(s.events), accepts);
    forall task | task in tasks
      ensures IsDone(task, after.events, at, Tombstones(after.events)) && (task.Retain? ==> !IsDue(task, at, Tombstones(after.events)))
    {
      if task.Retain? && task.fact.eligibleAt <= at {
        EveryEligibleCandidateIsRecorded(s, tasks, at, accepts, task);
      }
    }
    DoneTasksDoNothing(after, tasks, at, Tombstones(after.events), acceptsAgain);
  }

  // ---------------------------------------------------------------- staged payloads

  /** Whatever becomes of a run, a payload is dropped only if its candidate's tombstone is recorded. */
  lemma {:induction false} PayloadDropsAfterTombstone(s: State, tasks: seq<Task>, at: int, known: set<string>, accepts: Evidence -> bool, id: string)
    requires WellFormed(tasks) && id in s.staged
    ensures var after := PerformAll(s, tasks, at, known, accepts).state;
            id in after.staged || (Key(RawCandidate, id) in after.events && id !in known)
  {
    if tasks != [] {
      var earlier, last := tasks[..|tasks| - 1], tasks[|tasks| - 1];
      assert tasks == earlier + [last];
      PayloadDropsAfterTombstone(s, earlier, at, known, accepts, id);
    }
  }

  /** A run that succeeds drops exactly the payloads of the candidates it recorded: those due without a
    * tombstone before. */
  lemma {:induction false} SuccessDropsDuePayloads(s: State, tasks: seq<Task>, at: int, known: set<string>, accepts: Evidence -> bool, id: string)
    requires PerformAll(s, tasks, at, known, accepts).ok
    ensures id in PerformAll(s, tasks, at, known, accepts).state.staged <==>
            id in s.staged && forall task <- tasks :: IsDue(task, at, known) ==> task.fact.recordId != id
  {
    if tasks != [] {
      var earlier, last := tasks[..|tasks| - 1], tasks[|tasks| - 1];
      assert tasks == earlier + [last];
      SuccessDropsDuePayloads(s, earlier, at, known, accepts, id);
    }
  }

  /** So a payload that is staged again after its candidate's tombstone was recorded is kept by every later
    * run. */
  lemma RestagedPayloadIsKept(s: State, tasks: seq<Task>, at: int, accepts: Evidence -> bool, id: string)
    requires WellFormed(tasks) && id in s.staged && Key(RawCandidate, id) in s.events
    ensures id in Retention(s, tasks, at, accepts).state.staged
  {
    assert Key(RawCandidate, id).recordId in Tombstones(s.events);
    PayloadDropsAfterTombstone(s, tasks, at, Tombstones(s.events), accepts, id);
  }
}
