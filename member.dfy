/** Member rank tables: the five loyalty tiers, the cumulative purchase amount
    each tier requires, and the discount rate (in percent) each tier grants. */
module MemberRank {

  /** The five tiers, named after their Korean labels:
      General = 일반, Silver = 실버, Gold = 골드, Platinum = 플래티넘, Diamond = 다이아몬드. */
  datatype Rank = General | Silver | Gold | Platinum | Diamond

  /** RANK: the tiers in ascending order. */
  const Ranks: seq<Rank> := [General, Silver, Gold, Platinum, Diamond]

  /** The label the application shows for a tier. */
  function Name(r: Rank): string
  {
    match r
    case General => "일반"
    case Silver => "실버"
    case Gold => "골드"
    case Platinum => "플래티넘"
    case Diamond => "다이아몬드"
  }

  function Pow10(k: nat): (p: nat)
    ensures p >= 1
  {
    if k == 0 then 1 else 10 * Pow10(k - 1)
  }

  /** MEMBER_RANK_PURCHASE_CONDITION: the base tier needs nothing, and the
      k-th tier above it needs 10^(k+5), one million for 실버 up to one
      billion for 다이아몬드. */
  function PurchaseCondition(r: Rank): (c: nat)
    ensures Tier(r) == 0 ==> c == 0
    ensures Tier(r) > 0 ==> c == Pow10(Tier(r) + 5)
  {
    match r
    case General => 0
    case Silver => assert Pow10(6) == 1_000_000; 1_000_000
    case Gold => assert Pow10(7) == 10_000_000; 10_000_000
    case Platinum => assert Pow10(8) == 100_000_000; 100_000_000
    case Diamond => assert Pow10(9) == 1_000_000_000; 1_000_000_000
  }

  /** MEMBER_DISCOUNT_RATE, in percent: five points per tier up to 플래티넘,
      and 30 for 다이아몬드. */
  function DiscountRate(r: Rank): (rate: nat)
    ensures rate <= 100
    ensures Tier(r) < 4 ==> rate == 5 * Tier(r)
    ensures Tier(r) == 4 ==> rate == 30
  {
    match r
    case General => 0
    case Silver => 5
    case Gold => 10
    case Platinum => 15
    case Diamond => 30
  }

  /** The position of a tier in RANK. */
  function Tier(r: Rank): (i: nat)
    ensures i < |Ranks| && Ranks[i] == r
  {
    match r
    case General => 0
    case Silver => 1
    case Gold => 2
    case Platinum => 3
    case Diamond => 4
  }

  /** RANK lists every tier exactly once, in the order 일반, 실버, 골드, 플래티넘, 다이아몬드. */
  lemma RanksListEachTierOnce()
    ensures |Ranks| == 5
    ensures forall r: Rank :: r in Ranks
    ensures forall i, j :: 0 <= i < j < |Ranks| ==> Ranks[i] != Ranks[j]
    ensures [Name(Ranks[0]), Name(Ranks[1]), Name(Ranks[2]), Name(Ranks[3]), Name(Ranks[4])]
         == ["일반", "실버", "골드", "플래티넘", "다이아몬드"]
  {
    forall r: Rank ensures r in Ranks {
      assert Ranks[Tier(r)] == r;
    }
  }

  /** The purchase thresholds strictly increase along RANK, starting from 0. */
  lemma PurchaseConditionsIncrease()
    ensures PurchaseCondition(Ranks[0]) == 0
    ensures forall i, j :: 0 <= i < j < |Ranks| ==> PurchaseCondition(Ranks[i]) < PurchaseCondition(Ranks[j])
  {
  }

  /** The discount rates strictly increase along RANK and are all percentages. */
  lemma DiscountRatesIncrease()
    ensures forall i, j :: 0 <= i < j < |Ranks| ==> DiscountRate(Ranks[i]) < DiscountRate(Ranks[j])
    ensures forall r: Rank :: 0 <= DiscountRate(r) <= 100
  {
  }

  /** The index of the highest tier among the first k whose threshold is at most amount. */
  function HighestTierWithin(amount: nat, k: nat): (i: nat)
    requires 1 <= k <= |Ranks|
    ensures i < k
    ensures PurchaseCondition(Ranks[i]) <= amount
    ensures forall j :: i < j < k ==> amount < PurchaseCondition(Ranks[j])
  {
    if k == 1 || PurchaseCondition(Ranks[k - 1]) <= amount then k - 1
    else HighestTierWithin(amount, k - 1)
  }

  /** rankFor: the highest tier whose purchase threshold is at most the amount.
      It is total because the base tier's threshold is 0. */
  function RankFor(amount: nat): (r: Rank)
    ensures PurchaseCondition(r) <= amount
    ensures forall s: Rank :: PurchaseCondition(s) <= amount ==> Tier(s) <= Tier(r)
  {
    var i := HighestTierWithin(amount, |Ranks|);
    assert forall s: Rank :: Ranks[Tier(s)] == s;
    Ranks[i]
  }

  /** A larger cumulative amount never yields a lower tier, nor a smaller discount rate. */
  lemma RankForMonotone(a: nat, b: nat)
    requires a <= b
    ensures Tier(RankFor(a)) <= Tier(RankFor(b))
    ensures DiscountRate(RankFor(a)) <= DiscountRate(RankFor(b))
  {
    var r, s := RankFor(a), RankFor(b);
    assert PurchaseCondition(r) <= b;
    assert Tier(r) <= Tier(s);
    DiscountRatesIncrease();
    if Tier(r) < Tier(s) {
      assert DiscountRate(Ranks[Tier(r)]) < DiscountRate(Ranks[Tier(s)]);
    }
  }
}
