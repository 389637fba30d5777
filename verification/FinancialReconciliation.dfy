/** The two-export join of src/operations/financial-reconciliation.ts: Moomoo rows are looked up in a
  * table of Money Manager rows, each hit is removed from the table, and what the table still holds at
  * the end is missing on the other side. Amounts are compared as text, as the source compares them.
  */
module FinancialReconciliation {
  import opened Sequences
  import opened Wrappers

  datatype ExportKind = MoomooHoldings | MoneyManagerActivity | Unsupported
  datatype Row = Row(identity: string, quantity: string, value: string, currency: string)
  datatype Source = Source(kind: ExportKind, rows: seq<Row>)

  datatype Field = Quantity | Value
  datatype Conflict = Conflict(identity: string, field: Field, moomoo: string, moneyManager: string)
  datatype MissingLine = MissingLine(identity: string, absentFrom: ExportKind)
  datatype Books = Books(agreed: seq<Row>, conflicts: seq<Conflict>, missing: seq<MissingLine>)

  datatype Reconciliation = Reconciled(books: Books) | Incomplete(missingKind: ExportKind)

  const NO_BOOKS: Books := Books([], [], [])

  /** The first source of a kind. */
  function Find(sources: seq<Source>, kind: ExportKind): Option<Source> {
    if sources == [] then None
    else if sources[0].kind == kind then Some(sources[0])
    else Find(sources[1..], kind)
  }

  function Identities(rows: seq<Row>): (ids: seq<string>)
    ensures |ids| == |rows| && forall i :: 0 <= i < |rows| ==> ids[i] == rows[i].identity
  {
    seq(|rows|, i requires 0 <= i < |rows| => rows[i].identity)
  }

  /** The table keyed by identity; a repeated identity keeps its last row. */
  function Table(rows: seq<Row>): map<string, Row> {
    if rows == [] then map[]
    else
      var last := rows[|rows| - 1];
      Table(rows[..|rows| - 1])[last.identity := last]
  }

  /** Where a table lists its keys: in the order they were first set. */
  function KeyOrder(rows: seq<Row>): seq<string> {
    FirstSeen(Identities(rows))
  }

  /** What one Moomoo row adds, against the table as it then stands. */
  function Judge(books: Books, table: map<string, Row>, row: Row): Books {
    if row.identity !in table then
      books.(missing := books.missing + [MissingLine(row.identity, MoneyManagerActivity)])
    else
      var other := table[row.identity];
      if other.quantity != row.quantity then
        books.(conflicts := books.conflicts + [Conflict(row.identity, Quantity, row.quantity, other.quantity)])
      else if other.value != row.value then
        books.(conflicts := books.conflicts + [Conflict(row.identity, Value, row.value, other.value)])
      else
        books.(agreed := books.agreed + [row])
  }

  function Judged(rows: seq<Row>, table: map<string, Row>): Books {
    if rows == [] then NO_BOOKS
    else
      var earlier := rows[..|rows| - 1];
      Judge(Judged(earlier, table), table - Seen(earlier), rows[|rows| - 1])
  }

  function Seen(rows: seq<Row>): set<string> {
    set i | 0 <= i < |rows| :: rows[i].identity
  }

  function Remaining(keys: seq<string>, table: map<string, Row>): seq<MissingLine> {
    if keys == [] then []
    else
      var before, last := Remaining(keys[..|keys| - 1], table), keys[|keys| - 1];
      if last in table then before + [MissingLine(table[last].identity, MoomooHoldings)] else before
  }

  /** The books of two exports. */
  function Settled(moomoo: seq<Row>, moneyManager: seq<Row>): Books {
    var table := Table(moneyManager);
    var judged := Judged(moomoo, table);
    judged.(missing := judged.missing + Remaining(KeyOrder(moneyManager), table - Seen(moomoo)))
  }

  method Reconcile(sources: seq<Source>) returns (result: Reconciliation)
    ensures result ==
      match (Find(sources, MoomooHoldings), Find(sources, MoneyManagerActivity))
      case (None, _) => Incomplete(MoomooHoldings)
      case (_, None) => Incomplete(MoneyManagerActivity)
      case (Some(moomoo), Some(moneyManager)) => Reconciled(Settled(moomoo.rows, moneyManager.rows))
  {
    var foundMoomoo := Find(sources, MoomooHoldings);
    var foundMoneyManager := Find(sources, MoneyManagerActivity);
    if foundMoomoo.None? {
      return Incomplete(MoomooHoldings);
    }
    if foundMoneyManager.None? {
      return Incomplete(MoneyManagerActivity);
    }
    var byIdentity, keys := IndexRows(foundMoneyManager.value.rows);
    var books, left := JudgeRows(foundMoomoo.value.rows, byIdentity);
    var missing := ListRemaining(keys, left);
    result := Reconciled(books.(missing := books.missing + missing));
  }

  method IndexRows(rows: seq<Row>) returns (byIdentity: map<string, Row>, keys: seq<string>)
    ensures byIdentity == Table(rows) && keys == KeyOrder(rows)
  {
    byIdentity, keys := map[], [];
    for i := 0 to |rows|
      invariant byIdentity == Table(rows[..i]) && keys == KeyOrder(rows[..i])
    {
      var row := rows[i];
      assert rows[..i + 1][..i] == rows[..i];
      assert Identities(rows[..i + 1])[..i] == Identities(rows[..i]);
      if row.identity !in keys {
        keys := keys + [row.identity];
      }
      byIdentity := byIdentity[row.identity := row];
    }
    assert rows[..|rows|] == rows;
  }

  /** Each row is looked up, and its hit is taken out of the table. */
  method JudgeRows(rows: seq<Row>, table: map<string, Row>) returns (books: Books, byIdentity: map<string, Row>)
    ensures books == Judged(rows, table) && byIdentity == table - Seen(rows)
  {
    byIdentity := table;
    var agreed: seq<Row> := [];
    var conflicts: seq<Conflict> := [];
    var missing: seq<MissingLine> := [];
    for i := 0 to |rows|
      invariant byIdentity == table - Seen(rows[..i])
      invariant Books(agreed, conflicts, missing) == Judged(rows[..i], table)
    {
      var row := rows[i];
      assert rows[..i + 1][..i] == rows[..i] && rows[..i + 1] == rows[..i] + [row];
      SeenOneMore(rows[..i], row);
      if row.identity !in byIdentity {
        missing := missing + [MissingLine(row.identity, MoneyManagerActivity)];
        assert byIdentity == table - Seen(rows[..i + 1]);
        continue;
      }
      var other := byIdentity[row.identity];
      byIdentity := byIdentity - {row.identity};
      if other.quantity != row.quantity {
        conflicts := conflicts + [Conflict(row.identity, Quantity, row.quantity, other.quantity)];
        continue;
      }
      if other.value != row.value {
        conflicts := conflicts + [Conflict(row.identity, Value, row.value, other.value)];
        continue;
      }
      agreed := agreed + [row];
    }
    assert rows[..|rows|] == rows;
    books := Books(agreed, conflicts, missing);
  }

  method ListRemaining(keys: seq<string>, byIdentity: map<string, Row>) returns (missing: seq<MissingLine>)
    ensures missing == Remaining(keys, byIdentity)
  {
    missing := [];
    for i := 0 to |keys|
      invariant missing == Remaining(keys[..i], byIdentity)
    {
      assert keys[..i + 1][..i] == keys[..i];
      if keys[i] in byIdentity {
        missing := missing + [MissingLine(byIdentity[keys[i]].identity, MoomooHoldings)];
      }
    }
    assert keys[..|keys|] == keys;
  }

  lemma SeenOneMore(rows: seq<Row>, row: Row)
    ensures Seen(rows + [row]) == Seen(rows) + {row.identity}
  {
    assert forall i :: 0 <= i < |rows| ==> (rows + [row])[i] == rows[i];
    assert (rows + [row])[|rows|] == row;
  }

  function ConflictIds(conflicts: seq<Conflict>): (ids: seq<string>)
    ensures |ids| == |conflicts|
  {
    seq(|conflicts|, i requires 0 <= i < |conflicts| => conflicts[i].identity)
  }

  function MissingIds(missing: seq<MissingLine>): (ids: seq<string>)
    ensures |ids| == |missing|
  {
    seq(|missing|, i requires 0 <= i < |missing| => missing[i].identity)
  }

  /** Every identity the books mention, as often as they do. */
  function Mentions(books: Books): multiset<string> {
    multiset(Identities(books.agreed)) + multiset(ConflictIds(books.conflicts)) + multiset(MissingIds(books.missing))
  }

  lemma {:induction false} TableKeys(rows: seq<Row>)
    ensures Table(rows).Keys == Seen(rows)
    ensures forall id <- Table(rows) :: Table(rows)[id].identity == id && Table(rows)[id] in rows
  {
    if rows != [] {
      var earlier := rows[..|rows| - 1];
      TableKeys(earlier);
      SeenOneMore(earlier, rows[|rows| - 1]);
      assert rows == earlier + [rows[|rows| - 1]];
    }
  }

  lemma KeyOrderListsKeys(rows: seq<Row>)
    ensures Distinct(KeyOrder(rows)) && forall id :: id in KeyOrder(rows) <==> id in Seen(rows)
  {
    FirstSeenListsEachOnce(Identities(rows));
    assert forall i :: 0 <= i < |rows| ==> Identities(rows)[i] == rows[i].identity;
  }

  /** Each Moomoo row adds exactly one mention: its own identity. */
  lemma {:induction false} JudgedMentions(rows: seq<Row>, table: map<string, Row>)
    ensures Mentions(Judged(rows, table)) == multiset(Identities(rows))
  {
    if rows != [] {
      var earlier, row := rows[..|rows| - 1], rows[|rows| - 1];
      JudgedMentions(earlier, table);
      JudgeMentions(Judged(earlier, table), table - Seen(earlier), row);
      assert Identities(rows) == Identities(earlier) + [row.identity];
    }
  }

  lemma JudgeMentions(books: Books, table: map<string, Row>, row: Row)
    ensures Mentions(Judge(books, table, row)) == Mentions(books) + multiset{row.identity}
  {
    var after := Judge(books, table, row);
    if after.agreed != books.agreed {
      assert Identities(after.agreed) == Identities(books.agreed) + [row.identity];
    } else if after.conflicts != books.conflicts {
      assert ConflictIds(after.conflicts) == ConflictIds(books.conflicts) + [row.identity];
    } else {
      assert MissingIds(after.missing) == MissingIds(books.missing) + [row.identity];
    }
  }

  lemma {:induction false} RemainingLists(keys: seq<string>, table: map<string, Row>)
    requires forall id <- table :: table[id].identity == id
    ensures forall line :: line in Remaining(keys, table) <==>
              line.absentFrom == MoomooHoldings && line.identity in keys && line.identity in table
  {
    if keys != [] {
      RemainingLists(keys[..|keys| - 1], table);
      assert keys == keys[..|keys| - 1] + [keys[|keys| - 1]];
    }
  }

  lemma {:induction false} RemainingMentions(keys: seq<string>, table: map<string, Row>)
    requires Distinct(keys) && forall id <- table :: table[id].identity == id
    ensures multiset(MissingIds(Remaining(keys, table))) == multiset(set id | id in keys && id in table)
  {
    if keys != [] {
      var earlier, last := keys[..|keys| - 1], keys[|keys| - 1];
      RemainingMentions(earlier, table);
      assert keys == earlier + [last];
      var before, after := (set id | id in earlier && id in table), set id | id in keys && id in table;
      if last in table {
        assert MissingIds(Remaining(keys, table)) == MissingIds(Remaining(earlier, table)) + [last];
        assert after == before + {last} && last !in before;
      } else {
        assert after == before;
      }
    }
  }

  lemma AppendMissing(books: Books, more: seq<MissingLine>)
    ensures Mentions(books.(missing := books.missing + more)) == Mentions(books) + multiset(MissingIds(more))
  {
    assert MissingIds(books.missing + more) == MissingIds(books.missing) + MissingIds(more);
  }

  /** The books mention every Moomoo row once, and every identity only Money Manager holds once. */
  lemma BooksMention(moomoo: seq<Row>, moneyManager: seq<Row>)
    ensures Mentions(Settled(moomoo, moneyManager))
            == multiset(Identities(moomoo)) + multiset(Seen(moneyManager) - Seen(moomoo))
  {
    var table := Table(moneyManager);
    var keys, left := KeyOrder(moneyManager), table - Seen(moomoo);
    TableKeys(moneyManager);
    KeyOrderListsKeys(moneyManager);
    JudgedMentions(moomoo, table);
    RemainingMentions(keys, left);
    AppendMissing(Judged(moomoo, table), Remaining(keys, left));
    assert (set id | id in keys && id in left) == Seen(moneyManager) - Seen(moomoo);
  }

  lemma SeenOfDistinct(rows: seq<Row>)
    ensures multiset(Identities(rows)) == multiset(Seen(rows)) <==> Distinct(Identities(rows))
  {
    var ids := Identities(rows);
    DistinctByMultiplicity(ids);
    forall id
      ensures id in Seen(rows) <==> id in multiset(ids)
    {
      if id in Seen(rows) {
        var i :| 0 <= i < |rows| && rows[i].identity == id;
        assert ids[i] == id;
      }
    }
    if multiset(ids) == multiset(Seen(rows)) {
      assert forall id :: multiset(ids)[id] == multiset(Seen(rows))[id] <= 1;
    }
  }

  /** Every identity of the union is mentioned exactly once, in exactly one of the three lists,
    * precisely when no Moomoo identity repeats. Money Manager may repeat: its last row counts. */
  lemma PartitionExactlyWhenDistinct(moomoo: seq<Row>, moneyManager: seq<Row>)
    ensures Mentions(Settled(moomoo, moneyManager)) == multiset(Seen(moomoo) + Seen(moneyManager))
            <==> Distinct(Identities(moomoo))
  {
    BooksMention(moomoo, moneyManager);
    SeenOfDistinct(moomoo);
    var only := multiset(Seen(moneyManager) - Seen(moomoo));
    assert multiset(Seen(moomoo) + Seen(moneyManager)) == multiset(Seen(moomoo)) + only;
    if multiset(Identities(moomoo)) + only == multiset(Seen(moomoo)) + only {
      assert multiset(Identities(moomoo)) + only - only == multiset(Identities(moomoo));
      assert multiset(Seen(moomoo)) + only - only == multiset(Seen(moomoo));
    }
  }

  ghost predicate Agrees(row: Row, table: map<string, Row>) {
    row.identity in table && table[row.identity].quantity == row.quantity && table[row.identity].value == row.value
  }

  /** A conflict names the first field that differs and carries both exports' text for it. */
  ghost predicate ConflictOf(conflict: Conflict, row: Row, table: map<string, Row>) {
    && conflict.identity == row.identity && row.identity in table
    && var other := table[row.identity];
       (conflict.field == Quantity && row.quantity != other.quantity &&
        conflict.moomoo == row.quantity && conflict.moneyManager == other.quantity) ||
       (conflict.field == Value && row.quantity == other.quantity &&
        row.value != other.value && conflict.moomoo == row.value && conflict.moneyManager == other.value)
  }

  ghost predicate ConflictIn(conflict: Conflict, rows: seq<Row>, table: map<string, Row>) {
    exists row :: row in rows && ConflictOf(conflict, row, table)
  }

  /** What the books of some rows list. */
  ghost predicate Lists(books: Books, rows: seq<Row>, table: map<string, Row>) {
    && (forall row :: row in books.agreed <==> row in rows && Agrees(row, table))
    && (forall c :: c in books.conflicts <==> ConflictIn(c, rows, table))
    && (forall line :: line in books.missing <==>
          line.absentFrom == MoneyManagerActivity && line.identity in Seen(rows) && line.identity !in table)
  }

  lemma ConflictOneMore(conflict: Conflict, earlier: seq<Row>, row: Row, table: map<string, Row>)
    ensures ConflictIn(conflict, earlier + [row], table) <==> ConflictIn(conflict, earlier, table) || ConflictOf(conflict, row, table)
  {
    assert forall other :: other in earlier + [row] <==> other in earlier || other == row;
  }

  /** Judging one more row, whose identity the table still holds if it ever did. */
  lemma JudgeLists(books: Books, earlier: seq<Row>, row: Row, table: map<string, Row>, left: map<string, Row>)
    requires Lists(books, earlier, table)
    requires (row.identity in left <==> row.identity in table) && (row.identity in table ==> left[row.identity] == table[row.identity])
    ensures Lists(Judge(books, left, row), earlier + [row], table)
  {
    SeenOneMore(earlier, row);
    assert forall other :: other in earlier + [row] <==> other in earlier || other == row;
    forall c
      ensures ConflictIn(c, earlier + [row], table) <==> ConflictIn(c, earlier, table) || ConflictOf(c, row, table)
    {
      ConflictOneMore(c, earlier, row, table);
    }
  }

  lemma {:induction false} JudgedLists(rows: seq<Row>, table: map<string, Row>)
    requires Distinct(Identities(rows))
    ensures Lists(Judged(rows, table), rows, table)
  {
    if rows != [] {
      var earlier, row := rows[..|rows| - 1], rows[|rows| - 1];
      assert forall i :: 0 <= i < |earlier| ==> Identities(rows)[i] == Identities(earlier)[i];
      JudgedLists(earlier, table);
      assert row.identity !in Seen(earlier) by {
        assert forall i :: 0 <= i < |earlier| ==> Identities(rows)[i] != Identities(rows)[|rows| - 1];
      }
      assert rows == earlier + [row];
      JudgeLists(Judged(earlier, table), earlier, row, table, table - Seen(earlier));
    }
  }

  /** Where each identity lands: agreed rows match in quantity and value, conflicts differ in the
    * named field, and a missing line names the side that lacks it. */
  lemma EachIdentityLandsWhereItShould(moomoo: seq<Row>, moneyManager: seq<Row>)
    requires Distinct(Identities(moomoo))
    ensures var books, table := Settled(moomoo, moneyManager), Table(moneyManager);
            (forall row :: row in books.agreed <==> row in moomoo && Agrees(row, table)) &&
            (forall c :: c in books.conflicts <==> ConflictIn(c, moomoo, table)) &&
            (forall line :: line in books.missing <==>
               match line.absentFrom
               case MoneyManagerActivity => line.identity in Seen(moomoo) - Seen(moneyManager)
               case MoomooHoldings => line.identity in Seen(moneyManager) - Seen(moomoo)
               case Unsupported => false)
  {
    TableKeys(moneyManager);
    KeyOrderListsKeys(moneyManager);
    JudgedLists(moomoo, Table(moneyManager));
    RemainingLists(KeyOrder(moneyManager), Table(moneyManager) - Seen(moomoo));
  }

  lemma {:induction false} TableOfDistinct(rows: seq<Row>)
    requires Distinct(Identities(rows))
    ensures forall row :: row in rows <==> row.identity in Table(rows) && Table(rows)[row.identity] == row
  {
    TableKeys(rows);
    if rows != [] {
      var earlier, last := rows[..|rows| - 1], rows[|rows| - 1];
      assert forall i :: 0 <= i < |earlier| ==> Identities(rows)[i] == Identities(earlier)[i];
      TableOfDistinct(earlier);
      assert rows == earlier + [last];
      assert forall i :: 0 <= i < |earlier| ==> Identities(rows)[i] != Identities(rows)[|rows| - 1];
    }
  }

  function SwapConflict(c: Conflict): Conflict {
    c.(moomoo := c.moneyManager, moneyManager := c.moomoo)
  }

  function SwapLine(line: MissingLine): MissingLine {
    line.(absentFrom := match line.absentFrom
                        case MoomooHoldings => MoneyManagerActivity
                        case MoneyManagerActivity => MoomooHoldings
                        case Unsupported => Unsupported)
  }

  /** Swapping the exports swaps the sides of every conflict and missing line, and the agreed
    * identities stay. */
  lemma SwappingExportsSwapsSides(moomoo: seq<Row>, moneyManager: seq<Row>)
    requires Distinct(Identities(moomoo)) && Distinct(Identities(moneyManager))
    ensures var books, swapped := Settled(moomoo, moneyManager), Settled(moneyManager, moomoo);
            (forall row <- books.agreed ::
               exists other :: other in swapped.agreed && other.identity == row.identity) &&
            (forall c :: c in books.conflicts <==> SwapConflict(c) in swapped.conflicts) &&
            (forall line :: line in books.missing <==> SwapLine(line) in swapped.missing)
  {
    EachIdentityLandsWhereItShould(moomoo, moneyManager);
    EachIdentityLandsWhereItShould(moneyManager, moomoo);
    TableOfDistinct(moomoo);
    TableOfDistinct(moneyManager);
    var books, swapped := Settled(moomoo, moneyManager), Settled(moneyManager, moomoo);
    forall row | row in books.agreed
      ensures exists other :: other in swapped.agreed && other.identity == row.identity
    {
      var other := Table(moneyManager)[row.identity];
      TableKeys(moneyManager);
      assert other in swapped.agreed;
    }
    forall c
      ensures c in books.conflicts <==> SwapConflict(c) in swapped.conflicts
    {
      if c in books.conflicts {
        ConflictSwaps(c, moomoo, moneyManager);
      }
      if SwapConflict(c) in swapped.conflicts {
        ConflictSwaps(SwapConflict(c), moneyManager, moomoo);
      }
    }
  }

  lemma ConflictSwaps(c: Conflict, moomoo: seq<Row>, moneyManager: seq<Row>)
    requires Distinct(Identities(moomoo)) && Distinct(Identities(moneyManager))
    requires ConflictIn(c, moomoo, Table(moneyManager))
    ensures ConflictIn(SwapConflict(c), moneyManager, Table(moomoo))
  {
    var row :| row in moomoo && ConflictOf(c, row, Table(moneyManager));
    TableOfDistinct(moomoo);
    TableKeys(moneyManager);
    var other := Table(moneyManager)[row.identity];
    assert other in moneyManager && ConflictOf(SwapConflict(c), other, Table(moomoo));
  }
}
