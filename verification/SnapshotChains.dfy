/** The table of Financial Snapshots (src/operations/financial-snapshot.ts) as a value: artifacts in
  * supersession chains, each row written back through `put`.
  */
module SnapshotChains {
  import opened Sequences
  import opened Text
  import opened Wrappers

  datatype State = Prepared | Validated | Approved | Superseded

  /** The hash of a text; hashing is taken to be injective. */
  datatype Digest = Sha256(text: string)

  datatype Snapshot = Snapshot(
    id: string,
    period: string,
    version: nat,
    digest: Digest,
    workbook: string,
    sourceExports: seq<string>,
    reconciliationReference: string,
    validatedByCfo: bool,
    approvalId: Option<string>,
    supersedes: Option<string>,
    state: State,
    createdAt: int)

  datatype Row = Row(snapshot: Snapshot, workItemId: Option<string>)

  type Table = map<string, Row>

  function DigestOf(workbook: string, period: string, version: nat): Digest {
    Sha256(period + "|" + Decimal(version) + "|" + workbook)
  }

  /** Inserts a snapshot, or rewrites the three columns a conflict may update. */
  function Put(rows: Table, snapshot: Snapshot): Table {
    if snapshot.id in rows then
      var row := rows[snapshot.id];
      rows[snapshot.id := row.(snapshot := row.snapshot.(
        validatedByCfo := snapshot.validatedByCfo, approvalId := snapshot.approvalId, state := snapshot.state))]
    else rows[snapshot.id := Row(snapshot, None)]
  }

  /** The columns no update may change. */
  predicate SameArtifact(left: Snapshot, right: Snapshot) {
    left == right.(validatedByCfo := left.validatedByCfo, approvalId := left.approvalId, state := left.state)
  }

  predicate Succeeds(rows: Table, successor: string, id: string) {
    successor in rows && rows[successor].snapshot.supersedes == Some(id)
  }

  ghost predicate HasSuccessor(rows: Table, id: string) {
    exists successor :: Succeeds(rows, successor, id)
  }

  ghost predicate Follows(rows: Table, id: string)
    requires id in rows
  {
    match rows[id].snapshot.supersedes
    case None => rows[id].snapshot.version == 1
    case Some(before) => before in rows && rows[id].snapshot.version == rows[before].snapshot.version + 1
  }

  /** Every snapshot follows the version before it, and none has two successors. */
  ghost predicate Linked(rows: Table) {
    && (forall id <- rows :: rows[id].snapshot.id == id)
    && (forall id <- rows :: Follows(rows, id))
    && (forall id, left, right :: Succeeds(rows, left, id) && Succeeds(rows, right, id) ==> left == right)
  }

  /** The superseded snapshots are exactly those that have a successor. */
  ghost predicate StatesTell(rows: Table) {
    forall id <- rows :: rows[id].snapshot.state == Superseded <==> HasSuccessor(rows, id)
  }

  ghost predicate Chained(rows: Table) {
    Linked(rows) && StatesTell(rows)
  }

  // ---------------------------------------------------------------- steps keep the chains

  /** Only columns that say nothing about chains differ. */
  ghost predicate SameLinks(rows: Table, after: Table) {
    && after.Keys == rows.Keys
    && forall id <- rows ::
         && after[id].snapshot.id == rows[id].snapshot.id
         && after[id].snapshot.version == rows[id].snapshot.version
         && after[id].snapshot.supersedes == rows[id].snapshot.supersedes
  }

  lemma SameLinksStayLinked(rows: Table, after: Table)
    requires Linked(rows) && SameLinks(rows, after)
    ensures Linked(after)
    ensures forall id :: HasSuccessor(after, id) <==> HasSuccessor(rows, id)
  {
    assert forall s, id :: Succeeds(after, s, id) <==> Succeeds(rows, s, id);
    forall id | id in after
      ensures Follows(after, id)
    {
      assert Follows(rows, id);
    }
  }

  /** Inserting a first version, or a successor of a snapshot that has none, adds one link. */
  lemma InsertStaysLinked(rows: Table, snapshot: Snapshot)
    requires Linked(rows) && snapshot.id !in rows
    requires match snapshot.supersedes
             case None => snapshot.version == 1
             case Some(before) => before in rows && !HasSuccessor(rows, before) &&
                                  snapshot.version == rows[before].snapshot.version + 1
    ensures Linked(Put(rows, snapshot))
    ensures forall id :: HasSuccessor(Put(rows, snapshot), id) <==> HasSuccessor(rows, id) || snapshot.supersedes == Some(id)
    ensures !HasSuccessor(Put(rows, snapshot), snapshot.id)
  {
    var after := Put(rows, snapshot);
    forall s, id
      ensures Succeeds(after, s, id) <==> Succeeds(rows, s, id) || (s == snapshot.id && snapshot.supersedes == Some(id))
    {
    }
    forall id | id in after
      ensures Follows(after, id)
    {
      assert id in rows ==> Follows(rows, id);
    }
    assert snapshot.supersedes.Some? ==> Succeeds(after, snapshot.id, snapshot.supersedes.value);
    forall s
      ensures !Succeeds(rows, s, snapshot.id)
    {
      assert s in rows ==> Follows(rows, s);
    }
  }

  /** A fresh first version starts a chain of its own. */
  lemma FirstVersionKeepsChains(rows: Table, snapshot: Snapshot)
    requires Chained(rows) && snapshot.id !in rows
    requires snapshot.supersedes == None && snapshot.version == 1 && snapshot.state != Superseded
    ensures Chained(Put(rows, snapshot))
  {
    InsertStaysLinked(rows, snapshot);
  }

  /** Superseding the head of a chain and inserting its successor, as one step. */
  function PutSuccessor(rows: Table, predecessor: Snapshot, successor: Snapshot): Table {
    Put(Put(rows, predecessor.(state := Superseded)), successor)
  }

  lemma SuccessorKeepsChains(rows: Table, predecessor: Snapshot, successor: Snapshot)
    requires Chained(rows) && predecessor.id in rows && rows[predecessor.id].snapshot == predecessor
    requires predecessor.state != Superseded
    requires successor.id !in rows && successor.supersedes == Some(predecessor.id)
    requires successor.version == predecessor.version + 1 && successor.state != Superseded
    ensures Chained(PutSuccessor(rows, predecessor, successor))
  {
    var between := Put(rows, predecessor.(state := Superseded));
    SameLinksStayLinked(rows, between);
    InsertStaysLinked(between, successor);
  }

  /** Writing back a copy read earlier, in a state other than superseded, keeps the chains exactly when
    * the row has not been superseded in the meantime. */
  lemma WriteBackKeepsChainsExactlyUnlessSuperseded(rows: Table, copy: Snapshot)
    requires Chained(rows) && copy.id in rows && copy.state != Superseded
    ensures Chained(Put(rows, copy)) <==> rows[copy.id].snapshot.state != Superseded
  {
    SameLinksStayLinked(rows, Put(rows, copy));
  }

  /** What goes wrong otherwise: a completion that read its snapshot before a successor was prepared
    * reopens the superseded snapshot, and a second successor can then be prepared beside the first. */
  lemma StaleWriteBackLetsAChainBranch(rows: Table, head: Snapshot, first: Snapshot, second: Snapshot)
    requires Chained(rows) && head.id in rows && rows[head.id].snapshot == head && head.state == Validated
    requires first.id !in rows && second.id !in rows && first.id != second.id
    requires first.supersedes == second.supersedes == Some(head.id)
    ensures var reopened := Put(PutSuccessor(rows, head, first), head.(state := Approved));
            && reopened[head.id].snapshot.state != Superseded
            && !Linked(PutSuccessor(reopened, reopened[head.id].snapshot, second))
  {
    var reopened := Put(PutSuccessor(rows, head, first), head.(state := Approved));
    var branched := PutSuccessor(reopened, reopened[head.id].snapshot, second);
    assert Succeeds(branched, first.id, head.id) && Succeeds(branched, second.id, head.id);
  }

  lemma WorkItemKeepsChains(rows: Table, id: string, workItemId: string)
    requires Chained(rows) && id in rows
    ensures Chained(rows[id := rows[id].(workItemId := Some(workItemId))])
  {
    SameLinksStayLinked(rows, rows[id := rows[id].(workItemId := Some(workItemId))]);
  }

  // ---------------------------------------------------------------- what chains are

  /** A snapshot and everything it supersedes, newest first. */
  ghost function Chain(rows: Table, id: string): (chain: seq<string>)
    requires Linked(rows) && id in rows
    ensures |chain| == rows[id].snapshot.version && |chain| >= 1 && chain[0] == id
    decreases rows[id].snapshot.version
  {
    assert Follows(rows, id);
    match rows[id].snapshot.supersedes
    case None => [id]
    case Some(before) => [id] + Chain(rows, before)
  }

  /** The version is the position in the chain; each link succeeds the next, and the last is a first
    * version. */
  lemma {:induction false} ChainLinks(rows: Table, id: string, i: nat)
    requires Linked(rows) && id in rows && i < |Chain(rows, id)|
    ensures var chain := Chain(rows, id);
            && chain[i] in rows
            && rows[chain[i]].snapshot.version == |chain| - i
            && Chain(rows, chain[i]) == chain[i..]
            && if i + 1 < |chain| then Succeeds(rows, chain[i], chain[i + 1])
               else rows[chain[i]].snapshot.supersedes == None
    decreases i
  {
    assert Follows(rows, id);
    if i > 0 {
      var before := rows[id].snapshot.supersedes.value;
      ChainLinks(rows, before, i - 1);
      assert Chain(rows, id)[i..] == Chain(rows, before)[i - 1..];
    }
  }

  /** So a chain never comes back to a snapshot. */
  lemma ChainIsAcyclic(rows: Table, id: string, i: nat, j: nat)
    requires Linked(rows) && id in rows && i < j < |Chain(rows, id)|
    ensures Chain(rows, id)[i] != Chain(rows, id)[j]
  {
    ChainLinks(rows, id, i);
    ChainLinks(rows, id, j);
  }

  /** Two chains that meet are one chain: the snapshot of the lower version is a link of the other, and
    * its chain the end of the other's. */
  lemma {:induction false} ChainsThatMeetAreOne(rows: Table, low: string, high: string, shared: string) returns (i: nat)
    requires Linked(rows) && low in rows && high in rows
    requires shared in Chain(rows, low) && shared in Chain(rows, high)
    requires rows[low].snapshot.version <= rows[high].snapshot.version
    ensures i < |Chain(rows, high)| && Chain(rows, high)[i] == low && Chain(rows, low) == Chain(rows, high)[i..]
    decreases rows[low].snapshot.version
  {
    if low == shared {
      i :| 0 <= i < |Chain(rows, high)| && Chain(rows, high)[i] == low;
    } else {
      assert Follows(rows, low);
      var before := rows[low].snapshot.supersedes.value;
      var j := ChainsThatMeetAreOne(rows, before, high, shared);
      assert j > 0;
      i := j - 1;
      ChainLinks(rows, high, i);
      assert Succeeds(rows, low, before);
    }
    ChainLinks(rows, high, i);
  }

  /** Every snapshot leads up to a snapshot that is not superseded. */
  lemma {:induction false} HeadOfChain(rows: Table, id: string) returns (head: string)
    requires Chained(rows) && id in rows
    ensures head in rows && rows[head].snapshot.state != Superseded && id in Chain(rows, head)
    decreases |rows| - rows[id].snapshot.version
  {
    if rows[id].snapshot.state != Superseded {
      head := id;
    } else {
      var successor :| Succeeds(rows, successor, id);
      assert Follows(rows, successor);
      VersionsFit(rows, successor);
      head := HeadOfChain(rows, successor);
      var chain := Chain(rows, head);
      var i :| 0 <= i < |chain| && chain[i] == successor;
      ChainLinks(rows, head, i);
      assert Chain(rows, successor)[1] == id;
      assert chain[i..][1] == chain[i + 1];
    }
  }

  /** And to only one. */
  lemma HeadIsUnique(rows: Table, id: string, head: string, other: string)
    requires Chained(rows) && id in rows && head in rows && other in rows
    requires rows[head].snapshot.state != Superseded && id in Chain(rows, head)
    requires rows[other].snapshot.state != Superseded && id in Chain(rows, other)
    ensures head == other
  {
    var low, high := head, other;
    if rows[high].snapshot.version < rows[low].snapshot.version {
      low, high := other, head;
    }
    var i := ChainsThatMeetAreOne(rows, low, high, id);
    if i > 0 {
      ChainLinks(rows, high, i - 1);
      assert HasSuccessor(rows, low);
    }
  }

  /** A chain has no more links than the table has rows. */
  lemma VersionsFit(rows: Table, id: string)
    requires Linked(rows) && id in rows
    ensures rows[id].snapshot.version <= |rows|
  {
    var chain := Chain(rows, id);
    forall i | 0 <= i < |chain|
      ensures chain[i] in rows && forall j :: i < j < |chain| ==> chain[i] != chain[j]
    {
      ChainLinks(rows, id, i);
      forall j | i < j < |chain|
        ensures chain[i] != chain[j]
      {
        ChainIsAcyclic(rows, id, i, j);
      }
    }
    DistinctBySize(chain);
    ContainedOfSameSize(ToSet(chain), rows.Keys);
  }

  // ---------------------------------------------------------------- digests

  /** Two artifacts share a digest only if they agree on period, version and workbook, as long as no
    * period holds the separator. */
  lemma DigestIdentifiesArtifact(workbook: string, period: string, version: nat, otherWorkbook: string, otherPeriod: string, otherVersion: nat)
    requires '|' !in period && '|' !in otherPeriod
    requires DigestOf(workbook, period, version) == DigestOf(otherWorkbook, otherPeriod, otherVersion)
    ensures workbook == otherWorkbook && period == otherPeriod && version == otherVersion
  {
    var left, right := Decimal(version) + "|" + workbook, Decimal(otherVersion) + "|" + otherWorkbook;
    assert period + "|" + Decimal(version) + "|" + workbook == period + "|" + left;
    assert otherPeriod + "|" + Decimal(otherVersion) + "|" + otherWorkbook == otherPeriod + "|" + right;
    SameCut(period, left, otherPeriod, right, '|');
    DecimalDigits(version);
    DecimalDigits(otherVersion);
    SameCut(Decimal(version), workbook, Decimal(otherVersion), otherWorkbook, '|');
    DecimalIsInjective(version, otherVersion);
  }

  /** With the separator in a period they need not. */
  lemma DigestsMayCollide()
    ensures DigestOf("w", "p|1", 2) == DigestOf("2|w", "p", 1)
  {
    assert Decimal(1) == "1" && Decimal(2) == "2";
    assert "p|1" + "|" + "2" + "|" + "w" == "p|1|2|w" == "p" + "|" + "1" + "|" + "2|w";
  }
}
