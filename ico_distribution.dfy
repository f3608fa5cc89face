/**
  The ICO vesting schedules of ICO_distribution.py. A participant holds a
  percentage of the ICO supply, bought at some price per token; it receives a
  TGE tranche at month 0, nothing during its cliff, and the rest in equal
  monthly tranches. The orchestrator gathers the participants and lays their
  release lists side by side as the columns of a table, right-padded with zeros
  to the longest list.

  `ReleaseSchedule` is the release list as a value, `PadTo` the padding, and
  `Build` the table: Python's `{description: plan}` dictionary, where a later
  participant with the same description overwrites the earlier column in place.
 */
module Vesting {
  import opened Wrappers
  import opened Series

  /** `total_supply * (tge_percent / 100)` */
  function TgeTokens(totalSupply: real, tgePercent: real): (tge: real)
    ensures tge * 100.0 == totalSupply * tgePercent
  {
    totalSupply * (tgePercent / 100.0)
  }

  /** What is left after the TGE tranche, split evenly over the distribution months (0 when there are none). */
  function MonthlyTranche(totalSupply: real, tgePercent: real, distributionMonths: nat): (m: real)
    ensures distributionMonths > 0 ==> m * distributionMonths as real == totalSupply - TgeTokens(totalSupply, tgePercent)
    ensures distributionMonths == 0 ==> m == 0.0
  {
    var remainingTokens := totalSupply - TgeTokens(totalSupply, tgePercent);
    if distributionMonths > 0 then remainingTokens / distributionMonths as real else 0.0
  }

  /**
    `distribute_with_cliff` as a value: month 0 releases the TGE tranche, months
    1..cliff release nothing, and the `distributionMonths` months after the
    cliff each release the same tranche.
   */
  function ReleaseSchedule(totalSupply: real, tgePercent: real, cliffMonths: nat, distributionMonths: nat): (plan: seq<real>)
    ensures |plan| == cliffMonths + distributionMonths + 1
    ensures plan[0] == TgeTokens(totalSupply, tgePercent)
    ensures forall i :: 1 <= i <= cliffMonths ==> plan[i] == 0.0
    ensures forall i :: cliffMonths < i < |plan| ==> plan[i] == MonthlyTranche(totalSupply, tgePercent, distributionMonths)
  {
    seq(cliffMonths + distributionMonths + 1, i =>
      if i == 0 then TgeTokens(totalSupply, tgePercent)
      else if i <= cliffMonths then 0.0
      else MonthlyTranche(totalSupply, tgePercent, distributionMonths))
  }

  /**
    The schedule releases the participant's whole allocation when it has
    distribution months, and only the TGE tranche when it has none.
   */
  lemma ReleaseScheduleSum(totalSupply: real, tgePercent: real, cliffMonths: nat, distributionMonths: nat)
    ensures distributionMonths > 0 ==> Sum(ReleaseSchedule(totalSupply, tgePercent, cliffMonths, distributionMonths)) == totalSupply
    ensures distributionMonths == 0 ==> Sum(ReleaseSchedule(totalSupply, tgePercent, cliffMonths, distributionMonths)) == TgeTokens(totalSupply, tgePercent)
  {
    var tge := TgeTokens(totalSupply, tgePercent);
    var monthly := MonthlyTranche(totalSupply, tgePercent, distributionMonths);
    ReleaseScheduleParts(totalSupply, tgePercent, cliffMonths, distributionMonths);
    SumAppend([tge] + Zeros(cliffMonths), Const(distributionMonths, monthly));
    SumAppend([tge], Zeros(cliffMonths));
    SumZeros(cliffMonths);
    SumConst(distributionMonths, monthly);
    assert Sum([tge]) == tge by {
      assert [tge][..0] == [];
    }
  }

  /** The schedule is the TGE tranche, then the cliff's zeros, then the equal tranches. */
  lemma ReleaseScheduleParts(totalSupply: real, tgePercent: real, cliffMonths: nat, distributionMonths: nat)
    ensures ReleaseSchedule(totalSupply, tgePercent, cliffMonths, distributionMonths)
         == [TgeTokens(totalSupply, tgePercent)] + Zeros(cliffMonths)
            + Const(distributionMonths, MonthlyTranche(totalSupply, tgePercent, distributionMonths))
  {
  }

  /**
    The multiplier: valuation over collected USD, or 0 when nothing was
    collected.
   */
  function ValuationMultiplier(valuation: real, collectedUsd: real): (m: real)
    ensures collectedUsd != 0.0 ==> m * collectedUsd == valuation
    ensures collectedUsd == 0.0 ==> m == 0.0
  {
    if collectedUsd != 0.0 then valuation / collectedUsd else 0.0
  }

  /**
    For a participant holding tokens and paying a non-zero price, the multiplier
    is the listing price over the price it paid; with no tokens it is 0.
   */
  lemma MultiplierIsPriceRatio(listingPrice: real, pricePerToken: real, totalSupply: real)
    ensures pricePerToken != 0.0 && totalSupply != 0.0 ==>
              ValuationMultiplier(listingPrice * totalSupply, pricePerToken * totalSupply) == listingPrice / pricePerToken
    ensures totalSupply == 0.0 ==> ValuationMultiplier(listingPrice * totalSupply, pricePerToken * totalSupply) == 0.0
  {
    if pricePerToken != 0.0 && totalSupply != 0.0 {
      var m := ValuationMultiplier(listingPrice * totalSupply, pricePerToken * totalSupply);
      assert m * pricePerToken * totalSupply == listingPrice * totalSupply;
      assert m * pricePerToken == listingPrice;
    }
  }

  /** A participant's computed figures, and the values that `calculate_financials` assigns them. */
  datatype Figures = Figures(totalSupply: real, valuation: real, collectedUsd: real, multiplier: real, plan: seq<real>)

  /** `[0] * (n - len(s))` appended to `s` when it is shorter than `n`. */
  function PadTo(s: seq<real>, n: int): (r: seq<real>)
    ensures |r| == Max(|s|, n)
    ensures r[..|s|] == s
    ensures forall i :: |s| <= i < |r| ==> r[i] == 0.0
  {
    if |s| < n then s + Zeros(n - |s|) else s
  }

  /** Padding adds nothing to the total released, and padding twice to the same length pads once. */
  lemma PadToSum(s: seq<real>, n: int)
    ensures Sum(PadTo(s, n)) == Sum(s)
    ensures PadTo(PadTo(s, n), n) == PadTo(s, n)
  {
    if |s| < n {
      SumAppend(s, Zeros(n - |s|));
      SumZeros(n - |s|);
    }
  }

  /** The longest list: Python's `max` over the lengths of a non-empty list of plans. */
  function MaxLength(plans: seq<seq<real>>): (m: nat)
    requires |plans| > 0
    ensures forall j :: 0 <= j < |plans| ==> |plans[j]| <= m
    ensures exists j :: 0 <= j < |plans| && |plans[j]| == m
  {
    if |plans| == 1 then |plans[0]|
    else
      var rest := MaxLength(plans[1..]);
      assert forall j :: 1 <= j < |plans| ==> plans[j] == plans[1..][j - 1];
      if |plans[0]| < rest then rest else |plans[0]|
  }

  /** A named column of the table. */
  datatype Column = Column(name: string, values: seq<real>)

  function Names(cols: seq<Column>): (names: seq<string>)
    ensures |names| == |cols| && forall i :: 0 <= i < |cols| ==> names[i] == cols[i].name
  {
    seq(|cols|, i requires 0 <= i < |cols| => cols[i].name)
  }

  predicate DistinctNames(cols: seq<Column>)
  {
    forall i, j :: 0 <= i < j < |cols| ==> cols[i].name != cols[j].name
  }

  /**
    Python's `d[name] = values` on an insertion-ordered dictionary: an existing
    column keeps its place and takes the new values, a new one goes last.
   */
  function Put(cols: seq<Column>, c: Column): seq<Column>
  {
    if c.name in Names(cols) then seq(|cols|, i requires 0 <= i < |cols| => if cols[i].name == c.name then c else cols[i])
    else cols + [c]
  }

  /**
    Putting a column replaces the one of the same name in place, or appends it
    when there is none; the names stay distinct.
   */
  lemma PutFacts(cols: seq<Column>, c: Column)
    ensures var r := Put(cols, c);
      && (c.name in Names(cols) ==> |r| == |cols|)
      && (c.name !in Names(cols) ==> r == cols + [c])
      && (forall i :: 0 <= i < |cols| ==> r[i] == if cols[i].name == c.name then c else cols[i])
      && Names(r) == (if c.name in Names(cols) then Names(cols) else Names(cols) + [c.name])
      && (DistinctNames(cols) ==> DistinctNames(r))
  {
  }

  /** `{c.name: c.values for c in entries}`: the dictionary that becomes the table. */
  function Build(entries: seq<Column>): seq<Column>
  {
    if |entries| == 0 then [] else Put(Build(entries[..|entries| - 1]), entries[|entries| - 1])
  }

  /** The table's columns have distinct names, and every entry's name is among them. */
  lemma {:induction false} BuildNames(entries: seq<Column>)
    ensures DistinctNames(Build(entries))
    ensures forall i :: 0 <= i < |entries| ==> entries[i].name in Names(Build(entries))
  {
    if |entries| > 0 {
      var prefix := entries[..|entries| - 1];
      BuildNames(prefix);
      PutFacts(Build(prefix), entries[|entries| - 1]);
      assert forall i :: 0 <= i < |prefix| ==> entries[i] == prefix[i];
    }
  }

  /** Every column of the table is one of the entries. */
  lemma {:induction false} BuildFromEntries(entries: seq<Column>)
    ensures forall k :: 0 <= k < |Build(entries)| ==> Build(entries)[k] in entries
  {
    if |entries| > 0 {
      var prefix := entries[..|entries| - 1];
      var last := entries[|entries| - 1];
      var before := Build(prefix);
      var cols := Put(before, last);
      BuildFromEntries(prefix);
      PutFacts(before, last);
      forall k | 0 <= k < |cols| ensures cols[k] in entries {
        if k < |before| {
          assert cols[k] == last || cols[k] == before[k];
          assert before[k] in prefix;
        } else {
          assert cols == before + [last];
        }
      }
    }
  }

  /** Putting a column keeps every column of another name. */
  lemma PutKeepsOthers(cols: seq<Column>, c: Column, x: Column)
    requires x in cols && x.name != c.name
    ensures x in Put(cols, c)
  {
    var k :| 0 <= k < |cols| && cols[k] == x;
    assert Put(cols, c)[k] == x;
  }

  /** The column just put is in the table. */
  lemma PutHasNew(cols: seq<Column>, c: Column)
    ensures c in Put(cols, c)
  {
    if c.name in Names(cols) {
      var k :| 0 <= k < |cols| && Names(cols)[k] == c.name;
      assert Put(cols, c)[k] == c;
    } else {
      assert Put(cols, c)[|cols|] == c;
    }
  }

  /** The column of a name holds the values of the last entry with that name. */
  lemma {:induction false} BuildLastWins(entries: seq<Column>, i: nat)
    requires i < |entries|
    requires forall j :: i < j < |entries| ==> entries[j].name != entries[i].name
    ensures entries[i] in Build(entries)
  {
    var n := |entries| - 1;
    var prefix := entries[..n];
    assert Build(entries) == Put(Build(prefix), entries[n]);
    if i < n {
      assert prefix[i] == entries[i];
      BuildLastWins(prefix, i);
      PutKeepsOthers(Build(prefix), entries[n], entries[i]);
    } else {
      PutHasNew(Build(prefix), entries[n]);
    }
  }

  /**
    An ICO participant. Its terms are fixed when it is created; the figures are
    assigned by `CalculateFinancials` and the plan is later padded in place.
   */
  class Participant {
    const description: string
    const percentOfTotSupply: real
    const pricePerToken: Option<real>
    const tgePercent: real
    const cliffMonths: nat
    const distributionMonths: nat

    var totalSupply: real
    var valuation: real
    var collectedUsd: real
    var multiplier: real
    var distributionPlan: seq<real>

    /** The dataclass defaults: no token price paid (0.0), no TGE, no cliff, no distribution months. */
    constructor(description: string, percentOfTotSupply: real, pricePerToken: Option<real> := Some(0.0),
                tgePercent: real := 0.0, cliffMonths: nat := 0, distributionMonths: nat := 0)
      ensures this.description == description && this.percentOfTotSupply == percentOfTotSupply
      ensures this.pricePerToken == pricePerToken && this.tgePercent == tgePercent
      ensures this.cliffMonths == cliffMonths && this.distributionMonths == distributionMonths
      ensures Computed() == Figures(0.0, 0.0, 0.0, 0.0, [])
    {
      this.description := description;
      this.percentOfTotSupply := percentOfTotSupply;
      this.pricePerToken := pricePerToken;
      this.tgePercent := tgePercent;
      this.cliffMonths := cliffMonths;
      this.distributionMonths := distributionMonths;
      totalSupply, valuation, collectedUsd, multiplier := 0.0, 0.0, 0.0, 0.0;
      distributionPlan := [];
    }

    function Computed(): Figures
      reads this
    {
      Figures(totalSupply, valuation, collectedUsd, multiplier, distributionPlan)
    }

    /**
      The figures `calculate_financials` assigns from the ICO supply and the
      listing price. Collected USD and the multiplier are recomputed only when
      the participant has a price; otherwise they keep their former values.
     */
    function Financials(before: Figures, totalIcoSupply: real, listingPrice: real): (f: Figures)
      ensures f.totalSupply * 100.0 == percentOfTotSupply * totalIcoSupply
      ensures f.valuation == listingPrice * f.totalSupply
      ensures pricePerToken.Some? ==> f.collectedUsd == pricePerToken.value * f.totalSupply
      ensures pricePerToken.Some? && f.collectedUsd != 0.0 ==> f.multiplier * f.collectedUsd == f.valuation
      ensures pricePerToken.Some? && f.collectedUsd == 0.0 ==> f.multiplier == 0.0
      ensures pricePerToken.None? ==> f.collectedUsd == before.collectedUsd && f.multiplier == before.multiplier
      ensures f.plan == ReleaseSchedule(f.totalSupply, tgePercent, cliffMonths, distributionMonths)
    {
      var supply := percentOfTotSupply / 100.0 * totalIcoSupply;
      var valuation := listingPrice * supply;
      var collected := if pricePerToken.Some? then pricePerToken.value * supply else before.collectedUsd;
      var multiplier := if pricePerToken.Some? then ValuationMultiplier(valuation, collected) else before.multiplier;
      Figures(supply, valuation, collected, multiplier, ReleaseSchedule(supply, tgePercent, cliffMonths, distributionMonths))
    }

    method CalculateFinancials(totalIcoSupply: real, listingPrice: real)
      modifies this
      ensures Computed() == Financials(old(Computed()), totalIcoSupply, listingPrice)
    {
      totalSupply := percentOfTotSupply / 100.0 * totalIcoSupply;
      valuation := listingPrice * totalSupply;
      if pricePerToken.Some? {
        collectedUsd := pricePerToken.value * totalSupply;
        multiplier := if collectedUsd != 0.0 then valuation / collectedUsd else 0.0;
      }
      distributionPlan := DistributeWithCliff();
    }

    /**
      `distribute_with_cliff`: fills a zeroed list with the TGE tranche and, after
      the cliff, the monthly tranches; it reads the participant and changes nothing.
     */
    method DistributeWithCliff() returns (plan: seq<real>)
      ensures plan == ReleaseSchedule(totalSupply, tgePercent, cliffMonths, distributionMonths)
    {
      var n := cliffMonths + distributionMonths + 1;
      var distribution := new real[n](_ => 0.0);
      var tgeTokens := totalSupply * (tgePercent / 100.0);
      var remainingTokens := totalSupply - tgeTokens;
      var monthlyDistribution := if distributionMonths > 0 then remainingTokens / distributionMonths as real else 0.0;
      distribution[0] := tgeTokens;
      var i := cliffMonths + 1;
      while i < n
        invariant cliffMonths + 1 <= i <= n
        invariant distribution[0] == tgeTokens
        invariant forall j :: 1 <= j <= cliffMonths ==> distribution[j] == 0.0
        invariant forall j :: cliffMonths < j < i ==> distribution[j] == monthlyDistribution
      {
        distribution[i] := monthlyDistribution;
        i := i + 1;
      }
      plan := distribution[..];
    }
  }

  /** `{p.description: p.distribution_plan for p in participants}` as the entries of the table. */
  function Entries(participants: seq<Participant>): (entries: seq<Column>)
    reads participants
    ensures |entries| == |participants|
    ensures forall j :: 0 <= j < |participants| ==>
              entries[j] == Column(participants[j].description, participants[j].distributionPlan)
  {
    seq(|participants|, j reads participants requires 0 <= j < |participants| =>
      Column(participants[j].description, participants[j].distributionPlan))
  }

  function Plans(participants: seq<Participant>): (plans: seq<seq<real>>)
    reads participants
    ensures |plans| == |participants|
    ensures forall j :: 0 <= j < |participants| ==> plans[j] == participants[j].distributionPlan
  {
    seq(|participants|, j reads participants requires 0 <= j < |participants| => participants[j].distributionPlan)
  }

  /** Every plan padded to `maxMonths`. */
  function Padded(plans: seq<seq<real>>, maxMonths: int): (padded: seq<seq<real>>)
    ensures |padded| == |plans|
    ensures forall j :: 0 <= j < |plans| ==> padded[j] == PadTo(plans[j], maxMonths)
  {
    seq(|plans|, j requires 0 <= j < |plans| => PadTo(plans[j], maxMonths))
  }

  /** The plans once the participants before `i` have been padded (a participant listed twice shares one plan). */
  ghost function PaddedUpTo(participants: seq<Participant>, plans0: seq<seq<real>>, i: nat, maxMonths: int): (plans: seq<seq<real>>)
    requires |plans0| == |participants| && i <= |participants|
    ensures |plans| == |participants|
  {
    seq(|participants|, j requires 0 <= j < |participants| =>
      if participants[j] in participants[..i] then PadTo(plans0[j], maxMonths) else plans0[j])
  }

  /** The plans after padding the plan of `participants[i]`, wherever that participant is listed. */
  ghost function PadEvery(participants: seq<Participant>, plans: seq<seq<real>>, i: nat, maxMonths: int): (plans': seq<seq<real>>)
    requires |plans| == |participants| && i < |participants|
  {
    seq(|participants|, j requires 0 <= j < |participants| =>
      if participants[j] == participants[i] then PadTo(plans[j], maxMonths) else plans[j])
  }

  lemma PaddedAll(participants: seq<Participant>, plans0: seq<seq<real>>, maxMonths: int)
    requires |plans0| == |participants|
    ensures PaddedUpTo(participants, plans0, |participants|, maxMonths) == Padded(plans0, maxMonths)
  {
    assert participants[..|participants|] == participants;
  }

  /** A participant listed twice has one plan. */
  ghost predicate SharedPlans(participants: seq<Participant>, plans: seq<seq<real>>)
    requires |plans| == |participants|
  {
    forall j, k :: 0 <= j < |participants| && 0 <= k < |participants| && participants[j] == participants[k] ==> plans[j] == plans[k]
  }

  lemma PadStep(participants: seq<Participant>, plans0: seq<seq<real>>, i: nat, maxMonths: int)
    requires |plans0| == |participants| && i < |participants|
    requires SharedPlans(participants, plans0)
    ensures PadEvery(participants, PaddedUpTo(participants, plans0, i, maxMonths), i, maxMonths)
         == PaddedUpTo(participants, plans0, i + 1, maxMonths)
  {
    assert participants[..i + 1] == participants[..i] + [participants[i]];
    forall j | 0 <= j < |participants| && participants[j] == participants[i] {
      PadToSum(plans0[j], maxMonths);
    }
  }

  /**
    Padding every plan to the longest gives them all exactly that length and
    leaves what each of them releases unchanged.
   */
  lemma PaddedEvenly(plans: seq<seq<real>>)
    requires |plans| > 0
    ensures forall j :: 0 <= j < |plans| ==> |Padded(plans, MaxLength(plans))[j]| == MaxLength(plans)
    ensures forall j :: 0 <= j < |plans| ==> Sum(Padded(plans, MaxLength(plans))[j]) == Sum(plans[j])
  {
    forall j | 0 <= j < |plans| ensures Sum(Padded(plans, MaxLength(plans))[j]) == Sum(plans[j]) {
      PadToSum(plans[j], MaxLength(plans));
    }
  }

  /** When every entry has `rows` values, so does every column of the table. */
  lemma TableRows(entries: seq<Column>, rows: nat)
    requires forall i :: 0 <= i < |entries| ==> |entries[i].values| == rows
    ensures forall k :: 0 <= k < |Build(entries)| ==> |Build(entries)[k].values| == rows
  {
    BuildFromEntries(entries);
  }

  /** The ICO: its supply, the listing price, and the participants in the order they were added. */
  class Orchestrator {
    const totalSupply: real
    const listingPrice: real
    var participants: seq<Participant>

    /** `participants` defaults to a fresh empty list. */
    constructor(totalSupply: real, listingPrice: real, participants: seq<Participant> := [])
      ensures this.totalSupply == totalSupply && this.listingPrice == listingPrice
      ensures this.participants == participants
    {
      this.totalSupply := totalSupply;
      this.listingPrice := listingPrice;
      this.participants := participants;
    }

    /** `add_participant`: computes the participant's figures, then appends it. */
    method AddParticipant(participant: Participant)
      modifies this, participant
      ensures participants == old(participants) + [participant]
      ensures participant.Computed() == participant.Financials(old(participant.Computed()), totalSupply, listingPrice)
    {
      participant.CalculateFinancials(totalSupply, listingPrice);
      participants := participants + [participant];
    }

    /** `extend_distribution_plan`: pads the plan with zeros up to `maxMonths`; only the plan changes. */
    method ExtendDistributionPlan(participant: Participant, maxMonths: int)
      modifies participant`distributionPlan
      ensures participant.distributionPlan == PadTo(old(participant.distributionPlan), maxMonths)
    {
      if |participant.distributionPlan| < maxMonths {
        participant.distributionPlan := participant.distributionPlan + Zeros(maxMonths - |participant.distributionPlan|);
      }
    }

    /** `extend_distribution_plan` seen from a list of participants: every position holding `participants[i]` changes. */
    method ExtendEvery(participants: seq<Participant>, i: nat, maxMonths: int)
      requires i < |participants|
      modifies {participants[i]}`distributionPlan
      ensures Plans(participants) == PadEvery(participants, old(Plans(participants)), i, maxMonths)
    {
      ExtendDistributionPlan(participants[i], maxMonths);
    }

    /**
      `create_participants_distribution_dataframe`: pads every participant's plan
      to the longest one, then lays the plans out as columns named by the
      participants' descriptions. A participant listed twice is padded once.
     */
    method CreateParticipantsDistributionDataframe() returns (table: seq<Column>)
      requires |participants| > 0
      modifies participants`distributionPlan
      ensures Plans(participants) == Padded(old(Plans(participants)), MaxLength(old(Plans(participants))))
      ensures table == Build(Entries(participants))
    {
      var maxMonths := MaxLength(Plans(participants));
      ghost var plans0 := Plans(participants);
      assert SharedPlans(participants, plans0);
      var i := 0;
      while i < |participants|
        invariant 0 <= i <= |participants|
        invariant Plans(participants) == PaddedUpTo(participants, plans0, i, maxMonths)
      {
        PadStep(participants, plans0, i, maxMonths);
        ExtendEvery(participants, i, maxMonths);
        i := i + 1;
      }
      PaddedAll(participants, plans0, maxMonths);
      table := Build(Entries(participants));
    }
  }
}
