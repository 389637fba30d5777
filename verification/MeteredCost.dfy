/** Cost totals of src/operations/metered-cost.ts, which are rounded to whole cents at every addition.
  * Amounts are exact: the parsing and printing of decimals is outside.
  */
module MeteredCost {
  import opened Sequences

  datatype Observation = Observation(project: string, provider: string, service: string, period: string, amount: real)

  datatype Input = Input(observation: Observation, subscription: bool)

  datatype Recording = Excluded | Recorded(observation: Observation) | OverCap(observation: Observation, total: real)

  datatype Grouping = Grouping(key: string, amount: real)

  const MONTHLY_CAP: real := 250.0

  /** To the nearest cent, halves upwards. */
  function RoundToCents(amount: real): real {
    (amount * 100.0 + 0.5).Floor as real / 100.0
  }

  function AddAmounts(left: real, right: real): real {
    RoundToCents(left + right)
  }

  function Total(observations: seq<Observation>): real {
    if observations == [] then 0.0
    else AddAmounts(Total(observations[..|observations| - 1]), observations[|observations| - 1].amount)
  }

  function ExactTotal(observations: seq<Observation>): real {
    if observations == [] then 0.0
    else ExactTotal(observations[..|observations| - 1]) + observations[|observations| - 1].amount
  }

  function InPeriod(observations: seq<Observation>, period: string): seq<Observation> {
    Filter(observations, (o: Observation) => o.period == period)
  }

  // ---------------------------------------------------------------- groups

  /** A group's amount grows where the group stands; a new group is appended. */
  function AddToGroup(groups: seq<Grouping>, key: string, amount: real): seq<Grouping> {
    if groups == [] then [Grouping(key, AddAmounts(0.0, amount))]
    else if groups[0].key == key then [Grouping(key, AddAmounts(groups[0].amount, amount))] + groups[1..]
    else [groups[0]] + AddToGroup(groups[1..], key, amount)
  }

  function Grouped(observations: seq<Observation>, key: Observation -> string): seq<Grouping> {
    if observations == [] then []
    else
      var last := observations[|observations| - 1];
      AddToGroup(Grouped(observations[..|observations| - 1], key), key(last), last.amount)
  }

  function AmountOf(groups: seq<Grouping>, key: string): real {
    if groups == [] then 0.0 else if groups[0].key == key then groups[0].amount else AmountOf(groups[1..], key)
  }

  function SumOfGroups(groups: seq<Grouping>): real {
    if groups == [] then 0.0 else groups[0].amount + SumOfGroups(groups[1..])
  }

  // ---------------------------------------------------------------- the ledger

  class MeteredCostLedger {
    var observations: seq<Observation>

    constructor ()
      ensures observations == []
    {
      observations := [];
    }

    method TotalFor(period: string) returns (total: real)
      ensures total == Total(InPeriod(observations, period))
    {
      total := 0.0;
      for i := 0 to |observations|
        invariant total == Total(InPeriod(observations[..i], period))
      {
        assert observations[..i + 1][..i] == observations[..i];
        if observations[i].period == period {
          total := AddAmounts(total, observations[i].amount);
        }
      }
      assert observations[..|observations|] == observations;
    }

    /** Every metered observation is kept, over the cap or not; only a subscription is not. */
    method Record(input: Input) returns (recording: Recording)
      modifies this
      ensures input.subscription ==> recording == Excluded && observations == old(observations)
      ensures !input.subscription ==>
                var total := Total(InPeriod(observations, input.observation.period));
                && observations == old(observations) + [input.observation]
                && recording == if total > MONTHLY_CAP then OverCap(input.observation, total) else Recorded(input.observation)
    {
      if input.subscription {
        return Excluded;
      }
      observations := observations + [input.observation];
      var total := TotalFor(input.observation.period);
      recording := if total > MONTHLY_CAP then OverCap(input.observation, total) else Recorded(input.observation);
    }

    method Group(period: string, key: Observation -> string) returns (groups: seq<Grouping>)
      ensures groups == Grouped(InPeriod(observations, period), key)
    {
      groups := [];
      for i := 0 to |observations|
        invariant groups == Grouped(InPeriod(observations[..i], period), key)
      {
        assert observations[..i + 1][..i] == observations[..i];
        if observations[i].period == period {
          groups := AddToGroup(groups, key(observations[i]), observations[i].amount);
        }
      }
      assert observations[..|observations|] == observations;
    }
  }

  // ---------------------------------------------------------------- how far a total is off

  lemma RoundingIsWithinHalfACent(amount: real)
    ensures -0.005 <= RoundToCents(amount) - amount <= 0.005
  {
  }

  /** A running total is at most half a cent off for every observation. */
  lemma {:induction false} TotalIsWithinHalfACentEach(observations: seq<Observation>)
    ensures -0.005 * |observations| as real <= Total(observations) - ExactTotal(observations) <= 0.005 * |observations| as real
  {
    if observations != [] {
      TotalIsWithinHalfACentEach(observations[..|observations| - 1]);
      RoundingIsWithinHalfACent(Total(observations[..|observations| - 1]) + observations[|observations| - 1].amount);
    }
  }

  /** And can be off by that much: amounts below half a cent never add up to anything, so that no number of
    * them ever passes the cap. */
  lemma {:induction false} SmallAmountsNeverAddUp(observations: seq<Observation>)
    requires forall o <- observations :: 0.0 <= o.amount < 0.005
    ensures Total(observations) == 0.0
  {
    if observations != [] {
      var earlier, last := observations[..|observations| - 1], observations[|observations| - 1];
      assert observations == earlier + [last];
      SmallAmountsNeverAddUp(earlier);
      assert last in observations && (last.amount * 100.0 + 0.5).Floor == 0;
    }
  }

  predicate IsWholeCents(amount: real) {
    (amount * 100.0).Floor as real == amount * 100.0
  }

  ghost predicate WholeCents(observations: seq<Observation>) {
    forall o <- observations :: IsWholeCents(o.amount)
  }

  lemma NearestIsItself(cents: int)
    ensures (cents as real + 0.5).Floor == cents && (cents as real).Floor == cents
  {
  }

  lemma SumOfCents(left: int, right: int)
    ensures (left + right) as real == left as real + right as real
  {
  }

  lemma WholeCentsAddExactly(left: real, right: real)
    requires IsWholeCents(left) && IsWholeCents(right)
    ensures AddAmounts(left, right) == left + right && IsWholeCents(left + right)
  {
    var l, r := (left * 100.0).Floor, (right * 100.0).Floor;
    SumOfCents(l, r);
    NearestIsItself(l + r);
    var sum := (left + right) * 100.0;
    assert sum == left * 100.0 + right * 100.0 == (l + r) as real;
  }

  /** Whole-cent amounts are totalled exactly. */
  lemma {:induction false} WholeCentTotalsAreExact(observations: seq<Observation>)
    requires WholeCents(observations)
    ensures Total(observations) == ExactTotal(observations) && IsWholeCents(Total(observations))
  {
    if observations != [] {
      var earlier, last := observations[..|observations| - 1], observations[|observations| - 1];
      assert observations == earlier + [last];
      WholeCentTotalsAreExact(earlier);
      WholeCentsAddExactly(Total(earlier), last.amount);
    }
  }

  // ---------------------------------------------------------------- groups and totals

  lemma {:induction false} AddToGroupAddsThere(groups: seq<Grouping>, key: string, amount: real, other: string)
    ensures AmountOf(AddToGroup(groups, key, amount), other) ==
            if other == key then AddAmounts(AmountOf(groups, key), amount) else AmountOf(groups, other)
  {
    if groups != [] && groups[0].key != key {
      AddToGroupAddsThere(groups[1..], key, amount, other);
    }
  }

  /** A group's amount is the total of its own observations, rounded as that would be. */
  lemma {:induction false} GroupIsTotalOfItsObservations(observations: seq<Observation>, key: Observation -> string, group: string,
                                                         p: Observation -> bool)
    requires forall o :: p(o) <==> key(o) == group
    ensures AmountOf(Grouped(observations, key), group) == Total(Filter(observations, p))
  {
    if observations != [] {
      var earlier, last := observations[..|observations| - 1], observations[|observations| - 1];
      GroupIsTotalOfItsObservations(earlier, key, group, p);
      AddToGroupAddsThere(Grouped(earlier, key), key(last), last.amount, group);
      if p(last) {
        var kept := Filter(earlier, p) + [last];
        assert kept[..|kept| - 1] == Filter(earlier, p);
      }
    }
  }

  ghost predicate WholeGroups(groups: seq<Grouping>) {
    forall g <- groups :: IsWholeCents(g.amount)
  }

  lemma {:induction false} AddToGroupAddsAmount(groups: seq<Grouping>, key: string, amount: real)
    requires WholeGroups(groups) && IsWholeCents(amount)
    ensures WholeGroups(AddToGroup(groups, key, amount))
    ensures SumOfGroups(AddToGroup(groups, key, amount)) == SumOfGroups(groups) + amount
  {
    if groups == [] {
      WholeCentsAddExactly(0.0, amount);
    } else if groups[0].key == key {
      WholeCentsAddExactly(groups[0].amount, amount);
    } else {
      AddToGroupAddsAmount(groups[1..], key, amount);
    }
  }

  lemma {:induction false} GroupsOfWholeCents(observations: seq<Observation>, key: Observation -> string)
    requires WholeCents(observations)
    ensures WholeGroups(Grouped(observations, key)) && SumOfGroups(Grouped(observations, key)) == ExactTotal(observations)
  {
    if observations != [] {
      var earlier, last := observations[..|observations| - 1], observations[|observations| - 1];
      assert observations == earlier + [last];
      GroupsOfWholeCents(earlier, key);
      AddToGroupAddsAmount(Grouped(earlier, key), key(last), last.amount);
    }
  }

  /** For whole-cent amounts the groups by project, by provider and by service all add up to the total. */
  lemma GroupsAddUpToTotal(observations: seq<Observation>, key: Observation -> string)
    requires WholeCents(observations)
    ensures SumOfGroups(Grouped(observations, key)) == Total(observations)
  {
    GroupsOfWholeCents(observations, key);
    WholeCentTotalsAreExact(observations);
  }
}
