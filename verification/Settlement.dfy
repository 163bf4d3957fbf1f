/** Apportioning a root budget over contributions (src/tokenshare/core/contribution.py:381-438). */
module Settlement {
  import opened Basics
  import opened Objects
  import opened Order
  import opened Contributions

  predicate Settleable(c: ContributionRecord, completionSeq: int) {
    c.state.Eligible? && c.sourceTerminalSeq <= completionSeq
  }

  function SettleableOf(cs: seq<ContributionRecord>, completionSeq: int): seq<ContributionRecord> {
    if cs == [] then []
    else
      var before := SettleableOf(cs[..|cs| - 1], completionSeq);
      var last := cs[|cs| - 1];
      if Settleable(last, completionSeq) then before + [last] else before
  }

  function TotalWeight(cs: seq<ContributionRecord>): nat {
    if cs == [] then 0 else cs[0].rewardWeight + TotalWeight(cs[1..])
  }

  function Sum(xs: seq<int>): int {
    if xs == [] then 0 else xs[0] + Sum(xs[1..])
  }

  /** The proportional share, rounded down. */
  function FloorShare(budget: nat, part: nat, weight: nat): nat
    requires weight > 0
  {
    ProductIsNatural(budget, part, weight);
    budget * part / weight
  }

  lemma {:induction false} ProductIsNatural(budget: nat, part: nat, weight: nat)
    requires weight > 0
    ensures budget * part / weight >= 0
  {
    assert budget * part >= 0;
  }

  function BaseRewards(cs: seq<ContributionRecord>, budget: nat, weight: nat): (base: seq<int>)
    requires weight > 0
    ensures |base| == |cs|
  {
    seq(|cs|, i requires 0 <= i < |cs| => FloorShare(budget, cs[i].rewardWeight, weight))
  }

  /** What the budget leaves over after every floor is paid. */
  function Remainder(cs: seq<ContributionRecord>, budget: nat): int
    requires TotalWeight(cs) > 0
  {
    budget - Sum(BaseRewards(cs, budget, TotalWeight(cs)))
  }

  function Reward(cs: seq<ContributionRecord>, budget: nat, i: nat): int
    requires TotalWeight(cs) > 0 && i < |cs|
  {
    FloorShare(budget, cs[i].rewardWeight, TotalWeight(cs)) + if i < Remainder(cs, budget) then 1 else 0
  }

  function EntryOf(c: ContributionRecord, reward: int, rank: int): SettlementEntry {
    SettlementEntry(c.contributionId, c.taskId, c.unitId, c.kind, c.sourceClientId, c.rewardWeight, reward, rank)
  }

  /** One entry for each contribution, in order; the first `Remainder` entries get the extra unit. */
  function EntriesFor(cs: seq<ContributionRecord>, budget: nat): (entries: seq<SettlementEntry>)
    requires TotalWeight(cs) > 0
    ensures |entries| == |cs|
  {
    seq(|cs|, i requires 0 <= i < |cs| => EntryOf(cs[i], Reward(cs, budget, i), i))
  }

  function BuildEntries(cs: seq<ContributionRecord>, completionSeq: int, budget: int): Result<seq<SettlementEntry>> {
    if completionSeq <= 0 then Err(NonPositiveSeq)
    else if budget < 0 then Err(NegativeBudget)
    else
      var sorted := Sort(SettleableOf(cs, completionSeq), ById);
      if sorted == [] then Err(ContributionMissing)
      else
        WeightIsPositive(sorted);
        Ok(EntriesFor(sorted, budget))
  }

  lemma {:induction false} WeightIsPositive(cs: seq<ContributionRecord>)
    ensures TotalWeight(cs) >= |cs|
  {
    if cs != [] { WeightIsPositive(cs[1..]); }
  }

  method BuildSettlementEntries(cs: seq<ContributionRecord>, completionSeq: int, budget: int)
    returns (r: Result<seq<SettlementEntry>>)
    ensures r == BuildEntries(cs, completionSeq, budget)
  {
    if completionSeq <= 0 { return Err(NonPositiveSeq); }
    if budget < 0 { return Err(NegativeBudget); }
    var sorted := Sort(SettleableOf(cs, completionSeq), ById);
    if sorted == [] { return Err(ContributionMissing); }
    WeightIsPositive(sorted);
    var entries := AppendEntries(sorted, budget);
    r := Ok(entries);
  }

  method AppendEntries(sorted: seq<ContributionRecord>, budget: nat) returns (entries: seq<SettlementEntry>)
    requires TotalWeight(sorted) > 0
    ensures entries == EntriesFor(sorted, budget)
  {
    var base := BaseRewards(sorted, budget, TotalWeight(sorted));
    var remainder := budget - Sum(base);
    entries := [];
    for i := 0 to |sorted|
      invariant |entries| == i
      invariant forall j :: 0 <= j < i ==>
        entries[j] == EntryOf(sorted[j], base[j] + (if j < remainder then 1 else 0), j)
    {
      entries := entries + [EntryOf(sorted[i], base[i] + (if i < remainder then 1 else 0), i)];
    }
  }

  // ---------------------------------------------------------------- the arithmetic of apportionment

  lemma {:induction false} Distribute(a: int, b: int, c: int)
    ensures a * (b + c) == a * b + a * c
  {
  }

  lemma {:induction false} StrictlyMore(w: nat, a: int, b: int)
    requires w > 0 && a < b
    ensures w * a < w * b
  {
    Distribute(w, a, b - a);
  }

  lemma {:induction false} MoreOrEqual(w: nat, a: int, b: int)
    requires a <= b
    ensures w * a <= w * b
  {
    Distribute(w, a, b - a);
  }

  /** A quotient is the number whose multiple leaves a remainder below the divisor. */
  lemma {:induction false} QuotientUnique(y: int, n: nat, q: int)
    requires n > 0 && n * q <= y < n * q + n
    ensures y / n == q
  {
    QuotientBounds(y, n);
    if y / n > q { Distribute(n, q, 1); MoreOrEqual(n, q + 1, y / n); }
    if y / n < q { Distribute(n, y / n, 1); MoreOrEqual(n, y / n + 1, q); }
  }

  lemma {:induction false} QuotientBounds(y: int, n: nat)
    requires n > 0
    ensures n * (y / n) <= y < n * (y / n) + n
  {
  }

  lemma {:induction false} ShareBounds(budget: nat, part: nat, weight: nat)
    requires weight > 0
    ensures var floor := FloorShare(budget, part, weight);
            weight * floor <= budget * part <= weight * floor + (weight - 1)
  {
    QuotientBounds(budget * part, weight);
  }

  /** Adding one more floor to a sum of `n` floors. */
  lemma {:induction false} FloorsAdd(weight: nat, floor: int, part: int, floors: int, parts: int, n: nat)
    requires weight * floor <= part <= weight * floor + (weight - 1)
    requires weight * floors <= parts <= weight * floors + (weight - 1) * n
    ensures weight * (floor + floors) <= part + parts <= weight * (floor + floors) + (weight - 1) * (n + 1)
  {
    Distribute(weight, floor, floors);
    Distribute(weight - 1, n, 1);
  }

  /** The floors together lose less than one unit each. */
  lemma {:induction false} FloorsAreClose(cs: seq<ContributionRecord>, budget: nat, weight: nat)
    requires weight > 0
    ensures var floors := Sum(BaseRewards(cs, budget, weight));
      weight * floors <= budget * TotalWeight(cs) <= weight * floors + (weight - 1) * |cs|
  {
    if cs != [] {
      var part, rest := cs[0].rewardWeight, cs[1..];
      FloorsAreClose(rest, budget, weight);
      ShareBounds(budget, part, weight);
      FloorsAdd(weight, FloorShare(budget, part, weight), budget * part,
                Sum(BaseRewards(rest, budget, weight)), budget * TotalWeight(rest), |rest|);
      Distribute(budget, part, TotalWeight(rest));
      assert BaseRewards(cs, budget, weight)[1..] == BaseRewards(rest, budget, weight);
    }
  }

  lemma {:induction false} SmallGap(w: nat, paid: int, budget: nat, n: nat)
    requires w > 0 && n > 0 && w * paid <= budget * w <= w * paid + (w - 1) * n
    ensures 0 <= budget - paid < n
  {
    if paid > budget { StrictlyMore(w, budget, paid); }
    Distribute(w, paid, budget - paid);
    if budget - paid >= n {
      MoreOrEqual(w, n, budget - paid);
      Distribute(n, w - 1, 1);
    }
  }

  /** The remainder is never negative and smaller than the number of contributions. */
  lemma {:induction false} RemainderIsSmall(cs: seq<ContributionRecord>, budget: nat)
    requires cs != []
    ensures TotalWeight(cs) > 0 && 0 <= Remainder(cs, budget) < |cs|
  {
    WeightIsPositive(cs);
    var w := TotalWeight(cs);
    FloorsAreClose(cs, budget, w);
    SmallGap(w, Sum(BaseRewards(cs, budget, w)), budget, |cs|);
  }

  function RewardsOf(entries: seq<SettlementEntry>): seq<int> {
    seq(|entries|, i requires 0 <= i < |entries| => entries[i].rewardUnits)
  }

  lemma {:induction false} SumWithBonus(base: seq<int>, rewards: seq<int>, bonus: int)
    requires |rewards| == |base| && 0 <= bonus <= |base|
    requires forall i :: 0 <= i < |base| ==> rewards[i] == base[i] + if i < bonus then 1 else 0
    ensures Sum(rewards) == Sum(base) + bonus
  {
    if base != [] {
      SumWithBonus(base[1..], rewards[1..], if bonus == 0 then 0 else bonus - 1);
    }
  }

  /**
   * Every unit of the budget is paid, no reward is negative, and each reward is the contribution's
   * proportional floor or one more.
   */
  lemma {:induction false} RewardsSumToBudget(cs: seq<ContributionRecord>, budget: nat)
    requires cs != []
    ensures TotalWeight(cs) > 0 && Sum(RewardsOf(EntriesFor(cs, budget))) == budget
    ensures forall i :: 0 <= i < |cs| ==>
      var floor := FloorShare(budget, cs[i].rewardWeight, TotalWeight(cs));
      var reward := EntriesFor(cs, budget)[i].rewardUnits;
      0 <= floor && (reward == floor || reward == floor + 1)
  {
    RemainderIsSmall(cs, budget);
    SumWithBonus(BaseRewards(cs, budget, TotalWeight(cs)), RewardsOf(EntriesFor(cs, budget)), Remainder(cs, budget));
  }

  ghost predicate EqualWeights(cs: seq<ContributionRecord>, w: Positive) {
    forall i :: 0 <= i < |cs| ==> cs[i].rewardWeight == w
  }

  lemma {:induction false} EqualTotal(cs: seq<ContributionRecord>, w: Positive)
    requires EqualWeights(cs, w)
    ensures TotalWeight(cs) == w * |cs|
  {
    if cs != [] {
      EqualTotal(cs[1..], w);
      Distribute(w, 1, |cs[1..]|);
    }
  }

  lemma {:induction false} SumOfEqual(xs: seq<int>, x: int)
    requires forall i :: 0 <= i < |xs| ==> xs[i] == x
    ensures Sum(xs) == |xs| * x
  {
    if xs != [] {
      SumOfEqual(xs[1..], x);
      Distribute(x, 1, |xs[1..]|);
    }
  }

  /** The weight cancels out of an equal share. */
  lemma {:induction false} EqualShare(budget: nat, w: Positive, n: nat)
    requires n > 0
    ensures w * n > 0 && FloorShare(budget, w, w * n) == budget / n
  {
    StrictlyMore(w, 0, n);
    QuotientBounds(budget, n);
    var q := budget / n;
    MoreOrEqual(w, n * q, budget);
    StrictlyMore(w, budget, n * q + n);
    Distribute(w, n * q, n);
    Regroup(w, n, q);
    QuotientUnique(budget * w, w * n, q);
  }

  lemma {:induction false} Regroup(a: int, b: int, c: int)
    ensures a * (b * c) == a * b * c
  {
  }

  /** Handing the remainder out from the front is rounding a shifted quotient. */
  lemma {:induction false} ShiftedQuotient(budget: nat, n: nat, i: nat)
    requires i < n
    ensures (budget + n - 1 - i) / n == budget / n + if i < budget - n * (budget / n) then 1 else 0
  {
    var q := budget / n;
    QuotientBounds(budget, n);
    Distribute(n, q, 1);
    QuotientUnique(budget + n - 1 - i, n, if i < budget - n * q then q + 1 else q);
  }

  lemma {:induction false} EqualBase(cs: seq<ContributionRecord>, w: Positive, budget: nat)
    requires EqualWeights(cs, w) && cs != []
    ensures TotalWeight(cs) > 0
    ensures forall i :: 0 <= i < |cs| ==> BaseRewards(cs, budget, TotalWeight(cs))[i] == budget / |cs|
  {
    EqualTotal(cs, w);
    EqualShare(budget, w, |cs|);
  }

  lemma {:induction false} RewardFromBase(cs: seq<ContributionRecord>, budget: nat, base: int, i: nat)
    requires TotalWeight(cs) > 0 && i < |cs|
    requires forall j :: 0 <= j < |cs| ==> BaseRewards(cs, budget, TotalWeight(cs))[j] == base
    ensures Reward(cs, budget, i) == base + if i < budget - |cs| * base then 1 else 0
  {
    SumOfEqual(BaseRewards(cs, budget, TotalWeight(cs)), base);
    assert BaseRewards(cs, budget, TotalWeight(cs))[i] == base;
  }

  /** The i-th of n equal-weight rewards. */
  function EqualReward(budget: nat, n: nat, i: nat): int
    requires i < n
  {
    (budget + n - 1 - i) / n
  }

  /** With equal weights the i-th of n contributions in id order gets the floor of (budget + n - 1 - i) / n. */
  lemma {:induction false} EqualWeightReward(cs: seq<ContributionRecord>, w: Positive, budget: nat, i: nat)
    requires EqualWeights(cs, w) && i < |cs|
    ensures TotalWeight(cs) > 0 && Reward(cs, budget, i) == EqualReward(budget, |cs|, i)
  {
    EqualBase(cs, w, budget);
    RewardFromBase(cs, budget, budget / |cs|, i);
    ShiftedQuotient(budget, |cs|, i);
  }

  lemma {:induction false} QuotientMonotone(x: int, y: int, n: nat)
    requires n > 0 && x <= y
    ensures x / n <= y / n
  {
    QuotientBounds(x, n);
    QuotientBounds(y, n);
    if y / n < x / n {
      Distribute(n, y / n, 1);
      MoreOrEqual(n, y / n + 1, x / n);
    }
  }

  /** The quotients of numbers less than `n` apart differ by at most one. */
  lemma {:induction false} QuotientsClose(x: int, y: int, n: nat)
    requires n > 0 && x <= y < x + n
    ensures x / n <= y / n <= x / n + 1
  {
    QuotientMonotone(x, y, n);
    QuotientMonotone(y, x + n, n);
    QuotientBounds(x, n);
    Distribute(n, x / n, 1);
    QuotientUnique(x + n, n, x / n + 1);
  }

  lemma {:induction false} EqualRewardsAreFair(budget: nat, more: nat, n: nat, i: nat, j: nat)
    requires i <= j < n && budget <= more
    ensures EqualReward(budget, n, j) <= EqualReward(budget, n, i) <= EqualReward(budget, n, j) + 1
    ensures EqualReward(budget, n, i) <= EqualReward(more, n, i)
  {
    QuotientsClose(budget + n - 1 - j, budget + n - 1 - i, n);
    QuotientMonotone(budget + n - 1 - i, more + n - 1 - i, n);
  }

  /** Equal-weight rewards differ by at most one, earlier ids never get less, and a larger budget never pays less. */
  lemma {:induction false} EqualWeightsAreFair(cs: seq<ContributionRecord>, w: Positive, budget: nat, more: nat,
                                               i: nat, j: nat)
    requires EqualWeights(cs, w) && i <= j < |cs| && budget <= more
    ensures TotalWeight(cs) > 0
    ensures Reward(cs, budget, j) <= Reward(cs, budget, i) <= Reward(cs, budget, j) + 1
    ensures Reward(cs, budget, i) <= Reward(cs, more, i)
  {
    EqualWeightReward(cs, w, budget, i);
    EqualWeightReward(cs, w, budget, j);
    EqualWeightReward(cs, w, more, i);
    EqualRewardsAreFair(budget, more, |cs|, i, j);
  }

  // ---------------------------------------------------------------- order and summary

  lemma {:induction false} SettleableMembers(cs: seq<ContributionRecord>, completionSeq: int)
    ensures forall c :: c in SettleableOf(cs, completionSeq) <==> c in cs && Settleable(c, completionSeq)
  {
    if cs != [] {
      SettleableMembers(cs[..|cs| - 1], completionSeq);
      assert cs == cs[..|cs| - 1] + [cs[|cs| - 1]];
    }
  }

  lemma {:induction false} SettleableMultiset(cs: seq<ContributionRecord>, completionSeq: int)
    ensures forall c ::
      multiset(SettleableOf(cs, completionSeq))[c] == (if Settleable(c, completionSeq) then multiset(cs)[c] else 0)
  {
    if cs != [] {
      SettleableMultiset(cs[..|cs| - 1], completionSeq);
      assert cs == cs[..|cs| - 1] + [cs[|cs| - 1]];
    }
  }

  ghost predicate IdsTellApart(cs: seq<ContributionRecord>) {
    forall a, b :: a in cs && b in cs && a.contributionId == b.contributionId ==> a == b
  }

  /** The entries do not depend on the order the contributions are supplied in. */
  lemma {:induction false} EntriesIgnoreOrder(cs: seq<ContributionRecord>, ds: seq<ContributionRecord>,
                                              completionSeq: int, budget: int)
    requires multiset(cs) == multiset(ds) && IdsTellApart(cs)
    ensures BuildEntries(cs, completionSeq, budget) == BuildEntries(ds, completionSeq, budget)
  {
    var xs, ys := SettleableOf(cs, completionSeq), SettleableOf(ds, completionSeq);
    SettleableMultiset(cs, completionSeq);
    SettleableMultiset(ds, completionSeq);
    assert multiset(xs) == multiset(ys);
    SettleableMembers(cs, completionSeq);
    ByIdIsTotal();
    forall a, b | a in xs && b in xs && ById(a, b) && ById(b, a) ensures a == b {
      StringLeAntisymmetric(a.contributionId, b.contributionId);
    }
    SortIgnoresOrder(xs, ys, ById);
  }

  /** What `client_reward_totals` reports for one client. */
  function ClientTotal(entries: seq<SettlementEntry>, client: string): int {
    if entries == [] then 0
    else (if entries[0].sourceClientId == client then entries[0].rewardUnits else 0) + ClientTotal(entries[1..], client)
  }

  function ClientTotals(entries: seq<SettlementEntry>, clients: seq<string>): seq<int> {
    seq(|clients|, i requires 0 <= i < |clients| => ClientTotal(entries, clients[i]))
  }

  lemma {:induction false} OneClientGrows(entries: seq<SettlementEntry>, clients: seq<string>)
    requires entries != [] && Distinct(clients)
    ensures Sum(ClientTotals(entries, clients))
      == Sum(ClientTotals(entries[1..], clients)) + if entries[0].sourceClientId in clients then entries[0].rewardUnits
        else 0
  {
    if clients != [] {
      OneClientGrows(entries, clients[1..]);
      assert ClientTotals(entries, clients)[1..] == ClientTotals(entries, clients[1..]);
      assert ClientTotals(entries[1..], clients)[1..] == ClientTotals(entries[1..], clients[1..]);
      if entries[0].sourceClientId == clients[0] {
        assert clients[0] !in clients[1..];
      }
    }
  }

  /** The per-client totals add up to what was paid. */
  lemma {:induction false} ClientTotalsAddUp(entries: seq<SettlementEntry>, clients: seq<string>)
    requires Distinct(clients)
    requires forall e :: e in entries ==> e.sourceClientId in clients
    ensures Sum(ClientTotals(entries, clients)) == Sum(RewardsOf(entries))
  {
    if entries == [] {
      AllZero(ClientTotals(entries, clients));
    } else {
      OneClientGrows(entries, clients);
      ClientTotalsAddUp(entries[1..], clients);
      assert RewardsOf(entries)[1..] == RewardsOf(entries[1..]);
    }
  }

  lemma {:induction false} AllZero(xs: seq<int>)
    requires forall i :: 0 <= i < |xs| ==> xs[i] == 0
    ensures Sum(xs) == 0
  {
    if xs != [] { AllZero(xs[1..]); }
  }
}
