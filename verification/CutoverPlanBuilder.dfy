/** The positional join of src/migration/cutover-plan-builder.ts: digest rows, already parsed, are
  * placed on the backup records of their batch by index, and a batch whose rows cannot all be placed
  * by title is accepted only if the unplaced rows carry one and the same decision. Title normalisation
  * is a parameter, so what is proved holds for every normalisation.
  */
module CutoverPlanBuilder {
  import opened Contracts
  import opened CutoverPlan
  import opened Sequences
  import opened Wrappers

  datatype Prefix = CC | MS | AC | JL

  datatype DigestRow = DigestRow(
    prefix: Prefix,
    ref: string,
    index: int,
    title: string,
    lifecycle: Lifecycle,
    workstream: Workstream,
    executive: Executive,
    provenance: Provenance,
    disposition: Disposition)

  datatype EvidenceRecord = EvidenceRecord(pageId: string, title: string, payloadHash: string)
  datatype EvidenceSource = EvidenceSource(dataSourceId: string, records: seq<EvidenceRecord>)
  datatype TitleMatches = TitleMatches(exact: int, blankSource: int, descriptiveLabel: int)
  datatype BuildResult = BuildResult(plan: Plan, titleMatches: TitleMatches, descriptiveLabelRefs: seq<string>)

  datatype BuildError =
    | RowCount
    | NoBoundSource(prefix: Prefix)
    | MissingSource(dataSourceId: string)
    | BatchSize(prefix: Prefix)
    | OutsideBatch(ref: string)
    | RepeatsPosition(ref: string)
    | Ambiguous(prefix: Prefix)
    | TitleDrift
    | RepeatedPage
    | ResultShape(problem: Problem)

  /** What a row decides, apart from which record it decides it for. */
  type Identity = (Disposition, Lifecycle, Workstream, Executive, Provenance)

  /** What the rows of a batch have added so far. */
  datatype Join = Join(
    seen: set<int>,
    unproven: seq<Identity>,
    decisions: seq<Decision>,
    labels: seq<string>,
    exact: int,
    blank: int)

  const NOTHING: Join := Join({}, [], [], [], 0, 0)
  const PREFIX_ORDER: seq<Prefix> := [CC, MS, AC, JL]

  function DecisionIdentity(row: DigestRow): Identity {
    (row.disposition, row.lifecycle, row.workstream, row.executive, row.provenance)
  }

  function InBatch(prefix: Prefix): DigestRow -> bool {
    (row: DigestRow) => row.prefix == prefix
  }

  function Batch(rows: seq<DigestRow>, prefix: Prefix): seq<DigestRow> {
    Filter(rows, InBatch(prefix))
  }

  predicate InRange(row: DigestRow, source: EvidenceSource) {
    1 <= row.index <= |source.records|
  }

  function Decide(row: DigestRow, source: EvidenceSource): Decision
    requires InRange(row, source)
  {
    var record := source.records[row.index - 1];
    Decision(source.dataSourceId, record.pageId, record.payloadHash, row.disposition, row.lifecycle,
             row.workstream, row.executive, row.provenance)
  }

  predicate BlankSource(row: DigestRow, source: EvidenceSource, normalize: string -> string)
    requires InRange(row, source)
  {
    normalize(source.records[row.index - 1].title) == ""
  }

  /** A title proves a row's position when it is not blank and the same on both sides. */
  predicate Proven(row: DigestRow, source: EvidenceSource, normalize: string -> string)
    requires InRange(row, source)
  {
    !BlankSource(row, source, normalize) && normalize(source.records[row.index - 1].title) == normalize(row.title)
  }

  function JoinRow(join: Join, row: DigestRow, source: EvidenceSource, normalize: string -> string): Result<Join, BuildError> {
    if !InRange(row, source) then Err(OutsideBatch(row.ref))
    else if row.index in join.seen then Err(RepeatsPosition(row.ref))
    else
      var placed := join.(seen := join.seen + {row.index}, decisions := join.decisions + [Decide(row, source)]);
      if BlankSource(row, source, normalize) then
        Ok(placed.(blank := join.blank + 1, unproven := join.unproven + [DecisionIdentity(row)]))
      else if Proven(row, source, normalize) then
        Ok(placed.(exact := join.exact + 1))
      else
        Ok(placed.(labels := join.labels + [row.ref], unproven := join.unproven + [DecisionIdentity(row)]))
  }

  function JoinRows(start: Join, rows: seq<DigestRow>, source: EvidenceSource, normalize: string -> string): Result<Join, BuildError> {
    if rows == [] then Ok(start)
    else
      match JoinRows(start, rows[..|rows| - 1], source, normalize)
      case Err(error) => Err(error)
      case Ok(join) => JoinRow(join, rows[|rows| - 1], source, normalize)
  }

  /** The last source given under an id. */
  function SourceOf(sources: seq<EvidenceSource>, id: string): Option<EvidenceSource> {
    if sources == [] then None
    else if sources[|sources| - 1].dataSourceId == id then Some(sources[|sources| - 1])
    else SourceOf(sources[..|sources| - 1], id)
  }

  /** One batch: the positions seen and the unproven rows start afresh, the rest accumulates. */
  function JoinBatch(before: Join, batch: seq<DigestRow>, prefix: Prefix, source: EvidenceSource, normalize: string -> string): Result<Join, BuildError> {
    if |batch| != |source.records| then Err(BatchSize(prefix))
    else
      match JoinRows(before.(seen := {}, unproven := []), batch, source, normalize)
      case Err(error) => Err(error)
      case Ok(join) => if |ToSet(join.unproven)| > 1 then Err(Ambiguous(prefix)) else Ok(join)
  }

  function JoinBatches(n: nat, rows: seq<DigestRow>, sources: seq<EvidenceSource>, bindings: Bindings, normalize: string -> string): Result<Join, BuildError>
    requires n <= |PREFIX_ORDER|
  {
    if n == 0 then Ok(NOTHING)
    else
      match JoinBatches(n - 1, rows, sources, bindings, normalize)
      case Err(error) => Err(error)
      case Ok(before) =>
        var prefix := PREFIX_ORDER[n - 1];
        if n > |bindings.sources| then Err(NoBoundSource(prefix))
        else match SourceOf(sources, bindings.sources[n - 1].dataSourceId)
          case None => Err(MissingSource(bindings.sources[n - 1].dataSourceId))
          case Some(source) => JoinBatch(before, Batch(rows, prefix), prefix, source, normalize)
  }

  function Finish(join: Join, bindings: Bindings, expected: TitleMatches): Result<BuildResult, BuildError> {
    var matches := TitleMatches(join.exact, join.blank, |join.labels|);
    var plan := Plan(bindings, join.decisions);
    if matches != expected then Err(TitleDrift)
    else if !Distinct(References(join.decisions)) then Err(RepeatedPage)
    else if Problems(plan) != [] then Err(ResultShape(Problems(plan)[0]))
    else Ok(BuildResult(plan, matches, join.labels))
  }

  function Build(rows: seq<DigestRow>, sources: seq<EvidenceSource>, bindings: Bindings, expected: TitleMatches, normalize: string -> string): Result<BuildResult, BuildError> {
    if |rows| != bindings.reviewedRecordCount then Err(RowCount)
    else match JoinBatches(|PREFIX_ORDER|, rows, sources, bindings, normalize)
      case Err(error) => Err(error)
      case Ok(join) => Finish(join, bindings, expected)
  }

  method BuildCutoverPlan(rows: seq<DigestRow>, sources: seq<EvidenceSource>, bindings: Bindings,
                          expected: TitleMatches, normalize: string -> string)
    returns (result: Result<BuildResult, BuildError>)
    ensures result == Build(rows, sources, bindings, expected, normalize)
    ensures result.Ok? ==> PlanHolds(result.value.plan)
  {
    if |rows| != bindings.reviewedRecordCount {
      return Err(RowCount);
    }
    var joined := PlaceBatches(rows, sources, bindings, normalize);
    if joined.Err? {
      return Err(joined.error);
    }
    result := FinishPlan(joined.value, bindings, expected);
  }

  method FinishPlan(join: Join, bindings: Bindings, expected: TitleMatches) returns (result: Result<BuildResult, BuildError>)
    ensures result == Finish(join, bindings, expected)
    ensures result.Ok? ==> PlanHolds(result.value.plan)
  {
    var matches := TitleMatches(join.exact, join.blank, |join.labels|);
    if matches != expected {
      return Err(TitleDrift);
    }
    var references := References(join.decisions);
    DistinctBySize(references);
    if |ToSet(references)| != |join.decisions| {
      return Err(RepeatedPage);
    }
    var plan := Plan(bindings, join.decisions);
    var problems := ValidateCutoverPlan(plan);
    if |problems| > 0 {
      return Err(ResultShape(problems[0]));
    }
    result := Ok(BuildResult(plan, matches, join.labels));
  }

  method PlaceBatches(rows: seq<DigestRow>, sources: seq<EvidenceSource>, bindings: Bindings, normalize: string -> string)
    returns (result: Result<Join, BuildError>)
    ensures result == JoinBatches(|PREFIX_ORDER|, rows, sources, bindings, normalize)
  {
    var join := NOTHING;
    for position := 0 to |PREFIX_ORDER|
      invariant JoinBatches(position, rows, sources, bindings, normalize) == Ok(join)
    {
      var prefix := PREFIX_ORDER[position];
      if position >= |bindings.sources| {
        BatchesStopAtFirstError(position + 1, rows, sources, bindings, normalize);
        return Err(NoBoundSource(prefix));
      }
      var id := bindings.sources[position].dataSourceId;
      var source := SourceOf(sources, id);
      if source.None? {
        BatchesStopAtFirstError(position + 1, rows, sources, bindings, normalize);
        return Err(MissingSource(id));
      }
      var joined := PlaceBatch(join, Batch(rows, prefix), prefix, source.value, normalize);
      if joined.Err? {
        BatchesStopAtFirstError(position + 1, rows, sources, bindings, normalize);
        return Err(joined.error);
      }
      join := joined.value;
    }
    result := Ok(join);
  }

  method PlaceBatch(before: Join, batch: seq<DigestRow>, prefix: Prefix, source: EvidenceSource, normalize: string -> string)
    returns (result: Result<Join, BuildError>)
    ensures result == JoinBatch(before, batch, prefix, source, normalize)
  {
    if |batch| != |source.records| {
      return Err(BatchSize(prefix));
    }
    var start := before.(seen := {}, unproven := []);
    var join := start;
    for i := 0 to |batch|
      invariant JoinRows(start, batch[..i], source, normalize) == Ok(join)
    {
      assert batch[..i + 1][..i] == batch[..i];
      var joined := JoinRow(join, batch[i], source, normalize);
      if joined.Err? {
        RowsStopAtFirstError(start, batch, source, normalize, i + 1);
        return Err(joined.error);
      }
      join := joined.value;
    }
    assert batch[..|batch|] == batch;
    result := if |ToSet(join.unproven)| > 1 then Err(Ambiguous(prefix)) else Ok(join);
  }

  lemma {:induction false} RowsStopAtFirstError(start: Join, rows: seq<DigestRow>, source: EvidenceSource, normalize: string -> string, n: nat)
    requires n <= |rows| && JoinRows(start, rows[..n], source, normalize).Err?
    ensures JoinRows(start, rows, source, normalize) == JoinRows(start, rows[..n], source, normalize)
  {
    if n == |rows| {
      assert rows[..n] == rows;
    } else {
      assert rows[..|rows| - 1][..n] == rows[..n];
      RowsStopAtFirstError(start, rows[..|rows| - 1], source, normalize, n);
    }
  }

  lemma {:induction false} BatchesStopAtFirstError(n: nat, rows: seq<DigestRow>, sources: seq<EvidenceSource>, bindings: Bindings, normalize: string -> string)
    requires n <= |PREFIX_ORDER| && JoinBatches(n, rows, sources, bindings, normalize).Err?
    ensures JoinBatches(|PREFIX_ORDER|, rows, sources, bindings, normalize) == JoinBatches(n, rows, sources, bindings, normalize)
    decreases |PREFIX_ORDER| - n
  {
    if n < |PREFIX_ORDER| {
      BatchesStopAtFirstError(n + 1, rows, sources, bindings, normalize);
    }
  }

  // ---------------------------------------------------------------- what a batch joins

  function Indices(rows: seq<DigestRow>): seq<int> {
    Map(rows, (row: DigestRow) => row.index)
  }

  /** The positions of a batch: inside it, and no two alike. */
  predicate Placed(rows: seq<DigestRow>, source: EvidenceSource) {
    (forall row <- rows :: InRange(row, source)) && Distinct(Indices(rows))
  }

  function Decisions(rows: seq<DigestRow>, source: EvidenceSource): seq<Decision>
    requires forall row <- rows :: InRange(row, source)
  {
    seq(|rows|, i requires 0 <= i < |rows| => Decide(rows[i], source))
  }

  /** The identities of the rows whose titles do not prove their positions. */
  ghost function Unproven(rows: seq<DigestRow>, source: EvidenceSource, normalize: string -> string): set<Identity>
    requires forall row <- rows :: InRange(row, source)
  {
    set row | row in rows && !Proven(row, source, normalize) :: DecisionIdentity(row)
  }

  lemma PlacedOneMore(earlier: seq<DigestRow>, last: DigestRow, source: EvidenceSource)
    ensures Indices(earlier + [last]) == Indices(earlier) + [last.index]
    ensures Placed(earlier + [last], source) <==> Placed(earlier, source) && InRange(last, source) && last.index !in Indices(earlier)
  {
    var rows := earlier + [last];
    assert Indices(rows) == Indices(earlier) + [last.index];
    assert forall row :: row in rows <==> row in earlier || row == last;
    assert forall i :: 0 <= i < |earlier| ==> Indices(rows)[i] == Indices(earlier)[i];
    assert Indices(rows)[|earlier|] == last.index;
  }

  lemma DecisionsOneMore(earlier: seq<DigestRow>, last: DigestRow, source: EvidenceSource)
    requires (forall row <- earlier :: InRange(row, source)) && InRange(last, source)
    requires forall row <- earlier + [last] :: InRange(row, source)
    ensures Decisions(earlier + [last], source) == Decisions(earlier, source) + [Decide(last, source)]
  {
  }

  lemma UnprovenOneMore(earlier: seq<DigestRow>, last: DigestRow, source: EvidenceSource, normalize: string -> string)
    requires (forall row <- earlier :: InRange(row, source)) && InRange(last, source)
    requires forall row <- earlier + [last] :: InRange(row, source)
    ensures Unproven(earlier + [last], source, normalize) ==
            Unproven(earlier, source, normalize) + if Proven(last, source, normalize) then {} else {DecisionIdentity(last)}
  {
    assert forall row :: row in earlier + [last] <==> row in earlier || row == last;
  }

  /** What a batch's rows have joined. */
  ghost predicate Joined(start: Join, join: Join, rows: seq<DigestRow>, source: EvidenceSource, normalize: string -> string)
    requires forall row <- rows :: InRange(row, source)
  {
    && join.seen == ToSet(Indices(rows))
    && join.decisions == start.decisions + Decisions(rows, source)
    && ToSet(join.unproven) == Unproven(rows, source, normalize)
    && join.exact + join.blank + |join.labels| == start.exact + start.blank + |start.labels| + |rows|
  }

  lemma RowJoins(start: Join, join: Join, earlier: seq<DigestRow>, last: DigestRow, source: EvidenceSource, normalize: string -> string)
    requires (forall row <- earlier :: InRange(row, source)) && Joined(start, join, earlier, source, normalize)
    ensures JoinRow(join, last, source, normalize).Ok? <==> InRange(last, source) && last.index !in Indices(earlier)
    ensures JoinRow(join, last, source, normalize).Ok? && (forall row <- earlier + [last] :: InRange(row, source)) ==>
              Joined(start, JoinRow(join, last, source, normalize).value, earlier + [last], source, normalize)
  {
    if InRange(last, source) && last.index !in Indices(earlier) && forall row <- earlier + [last] :: InRange(row, source) {
      DecisionsOneMore(earlier, last, source);
      UnprovenOneMore(earlier, last, source, normalize);
      PlacedOneMore(earlier, last, source);
      ToSetOneMore(join.unproven, DecisionIdentity(last));
      ToSetOneMore(Indices(earlier), last.index);
    }
  }

  /** The rows of a batch join exactly when they are placed, and then decide one row each. */
  lemma {:induction false} RowsJoinExactlyWhenPlaced(start: Join, rows: seq<DigestRow>, source: EvidenceSource, normalize: string -> string)
    requires start.seen == {} && start.unproven == []
    ensures JoinRows(start, rows, source, normalize).Ok? <==> Placed(rows, source)
    ensures Placed(rows, source) ==> Joined(start, JoinRows(start, rows, source, normalize).value, rows, source, normalize)
  {
    if rows != [] {
      var earlier, last := rows[..|rows| - 1], rows[|rows| - 1];
      assert rows == earlier + [last];
      RowsJoinExactlyWhenPlaced(start, earlier, source, normalize);
      PlacedOneMore(earlier, last, source);
      if Placed(earlier, source) {
        RowJoins(start, JoinRows(start, earlier, source, normalize).value, earlier, last, source, normalize);
      }
    }
  }

  /** The positions of n records. */
  ghost function Positions(n: nat): (positions: set<int>)
    ensures |positions| == n && forall k :: k in positions <==> 1 <= k <= n
  {
    if n == 0 then {} else Positions(n - 1) + {n}
  }

  /** As many placed rows as records: the positions are exactly those of the records, so each record
    * is decided by one row. */
  lemma PlacedRowsCoverEveryRecord(rows: seq<DigestRow>, source: EvidenceSource)
    requires Placed(rows, source) && |rows| == |source.records|
    ensures ToSet(Indices(rows)) == Positions(|source.records|)
  {
    DistinctBySize(Indices(rows));
    forall k | k in ToSet(Indices(rows))
      ensures k in Positions(|source.records|)
    {
      var i :| 0 <= i < |rows| && Indices(rows)[i] == k;
      assert rows[i] in rows;
    }
    ContainedOfSameSize(ToSet(Indices(rows)), Positions(|source.records|));
  }

  // ---------------------------------------------------------------- ambiguity

  /** The row on a position. */
  ghost function RowAt(rows: seq<DigestRow>, k: int): (row: DigestRow)
    requires k in Indices(rows)
    ensures row in rows && row.index == k
  {
    var i :| 0 <= i < |rows| && Indices(rows)[i] == k;
    rows[i]
  }

  /** The decision each position is given. */
  ghost function Given(rows: seq<DigestRow>): map<int, Identity> {
    map k | k in Indices(rows) :: DecisionIdentity(RowAt(rows, k))
  }

  /** The same rows on the same positions, with only unproven rows moved. */
  ghost predicate Reshuffled(rows: seq<DigestRow>, other: seq<DigestRow>, source: EvidenceSource, normalize: string -> string) {
    && Placed(rows, source) && Placed(other, source)
    && |other| == |rows| && ToSet(Indices(other)) == ToSet(Indices(rows))
    && (forall i :: 0 <= i < |rows| ==> other[i] == rows[i].(index := other[i].index))
    && (forall i :: 0 <= i < |rows| && Proven(rows[i], source, normalize) ==> other[i] == rows[i])
  }

  lemma GivenAt(rows: seq<DigestRow>, i: nat)
    requires Distinct(Indices(rows)) && i < |rows|
    ensures rows[i].index in Given(rows) && Given(rows)[rows[i].index] == DecisionIdentity(rows[i])
  {
    assert Indices(rows)[i] == rows[i].index;
    var row := RowAt(rows, rows[i].index);
    var j :| 0 <= j < |rows| && rows[j] == row;
    assert Indices(rows)[j] == Indices(rows)[i];
  }

  lemma GivenBy(rows: seq<DigestRow>, k: int) returns (i: nat)
    requires Distinct(Indices(rows)) && k in Indices(rows)
    ensures i < |rows| && rows[i].index == k && k in Given(rows) && Given(rows)[k] == DecisionIdentity(rows[i])
  {
    i :| 0 <= i < |rows| && Indices(rows)[i] == k;
    GivenAt(rows, i);
  }

  lemma UnambiguousIsInsensitive(rows: seq<DigestRow>, other: seq<DigestRow>, source: EvidenceSource, normalize: string -> string)
    requires Reshuffled(rows, other, source, normalize)
    requires |Unproven(rows, source, normalize)| <= 1
    ensures Given(other) == Given(rows)
  {
    assert forall k :: k in Indices(other) <==> k in ToSet(Indices(rows));
    forall k | k in Given(rows)
      ensures Given(other)[k] == Given(rows)[k]
    {
      var i := GivenBy(rows, k);
      var j := GivenBy(other, k);
      assert rows[i] in rows && rows[j] in rows;
      if i != j {
        assert Indices(rows)[i] != Indices(rows)[j] && Indices(other)[i] != Indices(other)[j];
        assert !Proven(rows[i], source, normalize) && !Proven(rows[j], source, normalize);
        OneElementAtMost(Unproven(rows, source, normalize), DecisionIdentity(rows[i]), DecisionIdentity(rows[j]));
      }
    }
  }

  lemma OneElementAtMost<T>(s: set<T>, x: T, y: T)
    requires |s| <= 1 && x in s && y in s
    ensures x == y
  {
    assert |s - {x}| == 0;
  }

  /** The rows with the positions of two of them exchanged. */
  ghost function Exchanged(rows: seq<DigestRow>, i: nat, j: nat): seq<DigestRow>
    requires i < |rows| && j < |rows|
  {
    rows[i := rows[i].(index := rows[j].index)][j := rows[j].(index := rows[i].index)]
  }

  lemma ExchangeIsReshuffle(rows: seq<DigestRow>, i: nat, j: nat, source: EvidenceSource, normalize: string -> string)
    requires Placed(rows, source) && i < |rows| && j < |rows| && i != j
    requires !Proven(rows[i], source, normalize) && !Proven(rows[j], source, normalize)
    ensures Reshuffled(rows, Exchanged(rows, i, j), source, normalize)
  {
    var other := Exchanged(rows, i, j);
    forall a | 0 <= a < |other|
      ensures InRange(other[a], source)
    {
      assert rows[i] in rows && rows[j] in rows && rows[a] in rows;
    }
    forall a, b | 0 <= a < b < |other|
      ensures Indices(other)[a] != Indices(other)[b]
    {
      var a' := if a == i then j else if a == j then i else a;
      var b' := if b == i then j else if b == j then i else b;
      assert Indices(rows)[a'] != Indices(rows)[b'];
    }
    assert Indices(other)[j] == Indices(rows)[i] && Indices(other)[i] == Indices(rows)[j];
    forall k
      ensures k in Indices(other) <==> k in Indices(rows)
    {
      if k in Indices(rows) {
        var a :| 0 <= a < |rows| && Indices(rows)[a] == k;
        assert Indices(other)[if a == i then j else if a == j then i else a] == k;
      }
      if k in Indices(other) {
        var a :| 0 <= a < |rows| && Indices(other)[a] == k;
        assert Indices(rows)[if a == i then j else if a == j then i else a] == k;
      }
    }
  }

  lemma ExchangeChangesGiven(rows: seq<DigestRow>, i: nat, j: nat, source: EvidenceSource, normalize: string -> string)
    requires Placed(rows, source) && i < |rows| && j < |rows|
    requires !Proven(rows[i], source, normalize) && !Proven(rows[j], source, normalize)
    requires DecisionIdentity(rows[i]) != DecisionIdentity(rows[j])
    ensures exists other :: Reshuffled(rows, other, source, normalize) && Given(other) != Given(rows)
  {
    ExchangeIsReshuffle(rows, i, j, source, normalize);
    var other := Exchanged(rows, i, j);
    GivenAt(rows, i);
    GivenAt(other, j);
    assert Given(other)[rows[i].index] != Given(rows)[rows[i].index];
  }

  /** The ambiguity check is exact: a batch passes it precisely when no way of moving its unproven rows
    * among themselves changes what any position is given. */
  lemma AmbiguityCheckIsExact(rows: seq<DigestRow>, source: EvidenceSource, normalize: string -> string)
    requires Placed(rows, source)
    ensures |Unproven(rows, source, normalize)| <= 1 <==>
            forall other :: Reshuffled(rows, other, source, normalize) ==> Given(other) == Given(rows)
  {
    var unproven := Unproven(rows, source, normalize);
    if |unproven| <= 1 {
      forall other | Reshuffled(rows, other, source, normalize)
        ensures Given(other) == Given(rows)
      {
        UnambiguousIsInsensitive(rows, other, source, normalize);
      }
    } else {
      var x :| x in unproven;
      assert |unproven - {x}| > 0;
      var y :| y in unproven - {x};
      var a :| a in rows && !Proven(a, source, normalize) && DecisionIdentity(a) == x;
      var b :| b in rows && !Proven(b, source, normalize) && DecisionIdentity(b) == y;
      var i :| 0 <= i < |rows| && rows[i] == a;
      var j :| 0 <= j < |rows| && rows[j] == b;
      ExchangeChangesGiven(rows, i, j, source, normalize);
    }
  }

  // ---------------------------------------------------------------- the whole digest

  /** The backup source of the n-th batch. */
  ghost predicate BatchSource(n: nat, sources: seq<EvidenceSource>, bindings: Bindings, source: EvidenceSource)
    requires n < |PREFIX_ORDER|
  {
    n < |bindings.sources| && SourceOf(sources, bindings.sources[n].dataSourceId) == Some(source)
  }

  ghost predicate ReshuffledDigest(rows: seq<DigestRow>, other: seq<DigestRow>, sources: seq<EvidenceSource>, bindings: Bindings, normalize: string -> string) {
    forall n: nat, source :: n < |PREFIX_ORDER| && BatchSource(n, sources, bindings, source) ==>
      Reshuffled(Batch(rows, PREFIX_ORDER[n]), Batch(other, PREFIX_ORDER[n]), source, normalize)
  }

  /** A row that decides for the same position with the same identity decides the same. */
  lemma SameDecisionElsewhere(rows: seq<DigestRow>, other: seq<DigestRow>, source: EvidenceSource, i: nat)
    requires Placed(rows, source) && Placed(other, source) && Given(rows) == Given(other) && i < |rows|
    ensures Decide(rows[i], source) in Decisions(other, source)
  {
    GivenAt(rows, i);
    assert rows[i].index in Given(other);
    var j := GivenBy(other, rows[i].index);
    assert Decisions(other, source)[j] == Decide(other[j], source);
    assert Decide(other[j], source) == Decide(rows[i], source);
  }

  /** What a batch decides depends only on what its positions are given. */
  lemma DecisionsFollowGiven(rows: seq<DigestRow>, other: seq<DigestRow>, source: EvidenceSource)
    requires Placed(rows, source) && Placed(other, source) && Given(rows) == Given(other)
    ensures ToSet(Decisions(rows, source)) <= ToSet(Decisions(other, source))
  {
    forall i | 0 <= i < |rows|
      ensures Decisions(rows, source)[i] in Decisions(other, source)
    {
      SameDecisionElsewhere(rows, other, source, i);
    }
  }

  /** Moving an unproven row may let a title prove it, but leaves no new identity unproven. */
  lemma ReshuffleProvesNoLess(rows: seq<DigestRow>, other: seq<DigestRow>, source: EvidenceSource, normalize: string -> string)
    requires Reshuffled(rows, other, source, normalize)
    ensures Unproven(other, source, normalize) <= Unproven(rows, source, normalize)
  {
    forall identity | identity in Unproven(other, source, normalize)
      ensures identity in Unproven(rows, source, normalize)
    {
      var row :| row in other && !Proven(row, source, normalize) && DecisionIdentity(row) == identity;
      var i :| 0 <= i < |other| && other[i] == row;
      assert rows[i] in rows && !Proven(rows[i], source, normalize);
    }
  }

  lemma BatchIsInsensitive(before: Join, otherBefore: Join, batch: seq<DigestRow>, otherBatch: seq<DigestRow>,
                           prefix: Prefix, source: EvidenceSource, normalize: string -> string)
    requires JoinBatch(before, batch, prefix, source, normalize).Ok?
    requires Reshuffled(batch, otherBatch, source, normalize)
    requires ToSet(before.decisions) == ToSet(otherBefore.decisions)
    ensures JoinBatch(otherBefore, otherBatch, prefix, source, normalize).Ok?
    ensures ToSet(JoinBatch(before, batch, prefix, source, normalize).value.decisions)
            == ToSet(JoinBatch(otherBefore, otherBatch, prefix, source, normalize).value.decisions)
  {
    RowsJoinExactlyWhenPlaced(before.(seen := {}, unproven := []), batch, source, normalize);
    RowsJoinExactlyWhenPlaced(otherBefore.(seen := {}, unproven := []), otherBatch, source, normalize);
    ReshuffleProvesNoLess(batch, otherBatch, source, normalize);
    ContainedOfSameSize(Unproven(otherBatch, source, normalize), Unproven(batch, source, normalize));
    UnambiguousIsInsensitive(batch, otherBatch, source, normalize);
    DecisionsFollowGiven(batch, otherBatch, source);
    DecisionsFollowGiven(otherBatch, batch, source);
    ToSetAppend(before.decisions, Decisions(batch, source));
    ToSetAppend(otherBefore.decisions, Decisions(otherBatch, source));
  }

  lemma {:induction false} BatchesAreInsensitive(n: nat, rows: seq<DigestRow>, other: seq<DigestRow>, sources: seq<EvidenceSource>,
                                                 bindings: Bindings, normalize: string -> string)
    requires n <= |PREFIX_ORDER| && JoinBatches(n, rows, sources, bindings, normalize).Ok?
    requires ReshuffledDigest(rows, other, sources, bindings, normalize)
    ensures JoinBatches(n, other, sources, bindings, normalize).Ok?
    ensures ToSet(JoinBatches(n, rows, sources, bindings, normalize).value.decisions)
            == ToSet(JoinBatches(n, other, sources, bindings, normalize).value.decisions)
  {
    if n > 0 {
      BatchesAreInsensitive(n - 1, rows, other, sources, bindings, normalize);
      var prefix := PREFIX_ORDER[n - 1];
      var source := SourceOf(sources, bindings.sources[n - 1].dataSourceId).value;
      assert BatchSource(n - 1, sources, bindings, source);
      BatchIsInsensitive(JoinBatches(n - 1, rows, sources, bindings, normalize).value,
                         JoinBatches(n - 1, other, sources, bindings, normalize).value,
                         Batch(rows, prefix), Batch(other, prefix), prefix, source, normalize);
    }
  }

  /** A built plan carries exactly what its batches joined, and holds. */
  lemma BuiltFromBatches(rows: seq<DigestRow>, sources: seq<EvidenceSource>, bindings: Bindings, expected: TitleMatches, normalize: string -> string)
    requires Build(rows, sources, bindings, expected, normalize).Ok?
    ensures JoinBatches(|PREFIX_ORDER|, rows, sources, bindings, normalize).Ok?
    ensures var built := Build(rows, sources, bindings, expected, normalize).value;
            var join := JoinBatches(|PREFIX_ORDER|, rows, sources, bindings, normalize).value;
            built.plan == Plan(bindings, join.decisions) && PlanHolds(built.plan) &&
            built.titleMatches == expected == TitleMatches(join.exact, join.blank, |join.labels|)
  {
    var join := JoinBatches(|PREFIX_ORDER|, rows, sources, bindings, normalize).value;
    assert Finish(join, bindings, expected).Ok?;
    NoProblemsExactlyWhenPlanHolds(Plan(bindings, join.decisions));
  }

  /** If the digest builds a plan, moving rows whose titles proved nothing joins as well and decides for every
    * page what the plan decides, whether or not the moved digest then passes validation. */
  lemma BuiltDecisionsAreInsensitive(rows: seq<DigestRow>, other: seq<DigestRow>, sources: seq<EvidenceSource>, bindings: Bindings,
                                     expected: TitleMatches, otherExpected: TitleMatches, normalize: string -> string)
    requires ReshuffledDigest(rows, other, sources, bindings, normalize)
    requires Build(rows, sources, bindings, expected, normalize).Ok?
    ensures JoinBatches(|PREFIX_ORDER|, other, sources, bindings, normalize).Ok?
    ensures ToSet(JoinBatches(|PREFIX_ORDER|, other, sources, bindings, normalize).value.decisions)
            == ToSet(Build(rows, sources, bindings, expected, normalize).value.plan.decisions)
    ensures Build(other, sources, bindings, otherExpected, normalize).Ok? ==>
              ToSet(Build(other, sources, bindings, otherExpected, normalize).value.plan.decisions)
              == ToSet(Build(rows, sources, bindings, expected, normalize).value.plan.decisions)
  {
    BuiltFromBatches(rows, sources, bindings, expected, normalize);
    BatchesAreInsensitive(|PREFIX_ORDER|, rows, other, sources, bindings, normalize);
    if Build(other, sources, bindings, otherExpected, normalize).Ok? {
      BuiltFromBatches(other, sources, bindings, otherExpected, normalize);
    }
  }

  /** The decision of a record, under whichever row decided it. */
  ghost predicate DecidesRecord(d: Decision, source: EvidenceSource, record: EvidenceRecord) {
    d.dataSourceId == source.dataSourceId && d.pageId == record.pageId && d.payloadHash == record.payloadHash
  }

  lemma PositionIsDecided(batch: seq<DigestRow>, source: EvidenceSource, k: nat)
    requires Placed(batch, source) && k < |source.records| && k + 1 in Indices(batch)
    ensures exists d <- Decisions(batch, source) :: DecidesRecord(d, source, source.records[k])
  {
    var i :| 0 <= i < |batch| && Indices(batch)[i] == k + 1;
    assert batch[i] in batch && DecidesRecord(Decisions(batch, source)[i], source, source.records[k]);
  }

  lemma BatchJoins(before: Join, batch: seq<DigestRow>, prefix: Prefix, source: EvidenceSource, normalize: string -> string)
    requires JoinBatch(before, batch, prefix, source, normalize).Ok?
    ensures var join := JoinBatch(before, batch, prefix, source, normalize).value;
            && Placed(batch, source) && |batch| == |source.records|
            && Joined(before.(seen := {}, unproven := []), join, batch, source, normalize)
  {
    RowsJoinExactlyWhenPlaced(before.(seen := {}, unproven := []), batch, source, normalize);
  }

  lemma BatchDecidesEveryRecord(before: Join, batch: seq<DigestRow>, prefix: Prefix, source: EvidenceSource, normalize: string -> string)
    requires JoinBatch(before, batch, prefix, source, normalize).Ok?
    ensures var join := JoinBatch(before, batch, prefix, source, normalize).value;
            && (forall d <- before.decisions :: d in join.decisions)
            && |join.decisions| == |before.decisions| + |source.records|
            && join.exact + join.blank + |join.labels| == before.exact + before.blank + |before.labels| + |source.records|
            && forall record <- source.records :: exists d <- join.decisions :: DecidesRecord(d, source, record)
  {
    BatchJoins(before, batch, prefix, source, normalize);
    PlacedRowsCoverEveryRecord(batch, source);
    var join := JoinBatch(before, batch, prefix, source, normalize).value;
    forall record | record in source.records
      ensures exists d <- join.decisions :: DecidesRecord(d, source, record)
    {
      var k :| 0 <= k < |source.records| && source.records[k] == record;
      assert k + 1 in ToSet(Indices(batch));
      PositionIsDecided(batch, source, k);
    }
  }

  lemma {:induction false} BatchesDecideEveryRecord(n: nat, rows: seq<DigestRow>, sources: seq<EvidenceSource>, bindings: Bindings, normalize: string -> string)
    requires n <= |PREFIX_ORDER| && JoinBatches(n, rows, sources, bindings, normalize).Ok?
    ensures var join := JoinBatches(n, rows, sources, bindings, normalize).value;
            && join.exact + join.blank + |join.labels| == |join.decisions|
            && forall m: nat, source :: m < n && BatchSource(m, sources, bindings, source) ==>
                 forall record <- source.records :: exists d <- join.decisions :: DecidesRecord(d, source, record)
  {
    if n > 0 {
      BatchesDecideEveryRecord(n - 1, rows, sources, bindings, normalize);
      var before := JoinBatches(n - 1, rows, sources, bindings, normalize).value;
      var source := SourceOf(sources, bindings.sources[n - 1].dataSourceId).value;
      BatchDecidesEveryRecord(before, Batch(rows, PREFIX_ORDER[n - 1]), PREFIX_ORDER[n - 1], source, normalize);
    }
  }

  /** A built plan holds, decides every record of every batch's source with the record's own page and
    * hash, and no source record twice. */
  lemma BuiltPlanDecidesEveryRecordOnce(rows: seq<DigestRow>, sources: seq<EvidenceSource>, bindings: Bindings,
                                        expected: TitleMatches, normalize: string -> string)
    requires Build(rows, sources, bindings, expected, normalize).Ok?
    ensures var built := Build(rows, sources, bindings, expected, normalize).value;
            && PlanHolds(built.plan)
            && built.titleMatches == expected
            && expected.exact + expected.blankSource + expected.descriptiveLabel == bindings.reviewedRecordCount
            && Distinct(References(built.plan.decisions))
            && forall n: nat, source :: n < |PREFIX_ORDER| && BatchSource(n, sources, bindings, source) ==>
                 forall record <- source.records ::
                   exists d <- built.plan.decisions :: DecidesRecord(d, source, record)
  {
    BuiltFromBatches(rows, sources, bindings, expected, normalize);
    BatchesDecideEveryRecord(|PREFIX_ORDER|, rows, sources, bindings, normalize);
  }
}
