/** What each field of a participant is worth to its trust score: the share of every component, the boundaries of every
    tier, and the exact price of disputes. All scores are before the cast to u16. */
module ScoreParts {
  import opened Types
  import opened TrustScore

  /** How much of its score a participant with so many transactions gets, in percent. */
  function Percent(totalTx: nat): nat {
    if totalTx < 10 then 30 else if totalTx < 50 then 60 else if totalTx < 100 then 80 else 100
  }

  // ── Adding to the weighted sum ──

  lemma ScaledOnce(x: nat)
    ensures x / 10000 / 100 == x / 1_000_000
  {
  }

  lemma ScoreOf(p: Participant)
    requires p.totalTx > 0
    ensures UncastScore(p) == RawTotal(p) * (100 * Percent(p.totalTx)) / 1_000_000
  {
    hide RawTotal;
    ScaledOnce(RawTotal(p) * Maturity(p.totalTx));
  }

  /** Raising the weighted sum by `points` hundreds raises the score by exactly that many points, scaled. */
  lemma PointsAdd(p: Participant, p': Participant, points: nat)
    requires p'.totalTx == p.totalTx > 0 && points % 10 == 0
    requires RawTotal(p') == RawTotal(p) + points * 100
    ensures UncastScore(p') == UncastScore(p) + points * Percent(p.totalTx) / 100
  {
    hide RawTotal, UncastScore, Percent;
    ScoreOf(p);
    ScoreOf(p');
    PercentIsRound(p.totalTx);
    var tens, share := points / 10, Percent(p.totalTx) / 10;
    Shift(RawTotal(p), tens, share);
    assert points * Percent(p.totalTx) == 100 * (tens * share);
  }

  lemma PercentIsRound(n: nat)
    ensures Percent(n) % 10 == 0
  {
  }

  lemma Shift(raw: nat, tens: nat, share: nat)
    ensures (raw + tens * 1000) * (1000 * share) / 1_000_000 == raw * (1000 * share) / 1_000_000 + tens * share
  {
    var c := tens * share;
    assert (raw + tens * 1000) * (1000 * share) == raw * (1000 * share) + c * 1_000_000;
    AddMultiple(raw * (1000 * share), c);
  }

  lemma AddMultiple(x: nat, c: nat)
    ensures (x + c * 1_000_000) / 1_000_000 == x / 1_000_000 + c
  {
  }

  // ── Shares of the components ──

  /** Succeeding in every transaction instead of none is worth 35 in a hundred. */
  lemma SuccessShare(p: Participant)
    requires p.totalTx > 0
    ensures UncastScore(p.(successTx := p.totalTx))
         == UncastScore(p.(successTx := 0)) + 3500 * Percent(p.totalTx) / 100
  {
    DivBound(p.totalTx * 10000, p.totalTx, 10000);
    DivAtLeast(p.totalTx * 10000, p.totalTx, 10000);
    Parts(p.(successTx := 0));
    Parts(p.(successTx := p.totalTx));
    hide DisputeScore, RatingScore, VolumeScore, LongevityScore, Days, UncastScore, Percent, RawTotal;
    PointsAdd(p.(successTx := 0), p.(successTx := p.totalTx), 3500);
  }

  lemma Parts(p: Participant)
    requires p.totalTx > 0
    ensures RawTotal(p) == 35 * SuccessScore(p.successTx, p.totalTx) + 25 * DisputeScore(p.disputeCount, p.totalTx)
                           + 20 * RatingScore(p.ratingSum, p.ratingCount) + 10 * VolumeScore(p.totalVolume)
                           + 10 * LongevityScore(Days(p.registeredAt, p.lastActivityAt))
  {
  }

  /** An average rating of 5 instead of no rating is worth 20 in a hundred. */
  lemma RatingShare(p: Participant, n: u64)
    requires p.totalTx > 0 && 0 < n && 5 * n < U64_LIMIT
    ensures UncastScore(p.(ratingSum := 5 * n, ratingCount := n))
         == UncastScore(p.(ratingCount := 0)) + 2000 * Percent(p.totalTx) / 100
  {
    DivBound(5 * n * 2000, n, 10000);
    DivAtLeast(5 * n * 2000, n, 10000);
    var none, some := p.(ratingCount := 0), p.(ratingSum := 5 * n, ratingCount := n);
    Parts(none);
    Parts(some);
    hide SuccessScore, DisputeScore, VolumeScore, LongevityScore, Days, UncastScore, Percent, RawTotal;
    PointsAdd(none, some, 2000);
  }

  // ── Tiers ──

  /** How many of these boundaries `x` has reached. */
  function Reached(bounds: seq<int>, x: int): nat {
    if bounds == [] then 0
    else Reached(bounds[..|bounds| - 1], x) + if bounds[|bounds| - 1] <= x then 1 else 0
  }

  const VOLUME_BOUNDS: seq<int> := [1, 100_001, 1_000_001, 10_000_001]

  lemma ReachedNext(bounds: seq<int>, bound: int, x: int)
    ensures Reached(bounds + [bound], x) == Reached(bounds, x) + if bound <= x then 1 else 0
  {
    assert (bounds + [bound])[..|bounds + [bound]| - 1] == bounds;
  }

  lemma ReachedOfFour(a: int, b: int, c: int, d: int, x: int)
    ensures Reached([a, b, c, d], x)
         == (if a <= x then 1 else 0) + (if b <= x then 1 else 0) + (if c <= x then 1 else 0) + if d <= x then 1 else 0
  {
    ReachedNext([], a, x);
    ReachedNext([a], b, x);
    ReachedNext([a, b], c, x);
    ReachedNext([a, b, c], d, x);
    assert [] + [a] == [a] && [a] + [b] == [a, b] && [a, b] + [c] == [a, b, c] && [a, b, c] + [d] == [a, b, c, d];
  }

  /** Each of the four volume boundaries that lies between two volumes is worth 250 points, and nothing else counts. */
  lemma VolumeTiers(p: Participant, more: u64)
    requires p.totalTx > 0 && p.totalVolume <= more
    ensures UncastScore(p.(totalVolume := more))
         == UncastScore(p)
            + 250 * (Reached(VOLUME_BOUNDS, more) - Reached(VOLUME_BOUNDS, p.totalVolume)) * Percent(p.totalTx) / 100
    ensures Reached(VOLUME_BOUNDS, more) >= Reached(VOLUME_BOUNDS, p.totalVolume)
  {
    ReachedOfFour(1, 100_001, 1_000_001, 10_000_001, more);
    ReachedOfFour(1, 100_001, 1_000_001, 10_000_001, p.totalVolume);
    var p' := p.(totalVolume := more);
    Parts(p);
    Parts(p');
    hide SuccessScore, DisputeScore, RatingScore, LongevityScore, Days, UncastScore, Percent, RawTotal, Reached;
    PointsAdd(p, p', 250 * (Reached(VOLUME_BOUNDS, more) - Reached(VOLUME_BOUNDS, p.totalVolume)));
  }

  const DAY: int := 86400
  const LONGEVITY_BOUNDS: seq<int> := [31 * DAY, 91 * DAY, 181 * DAY, 366 * DAY]

  lemma DaysReached(registered: i64, last: i64)
    requires last - registered < I64_LIMIT
    ensures LongevityScore(Days(registered, last)) == 2000 + 2000 * Reached(LONGEVITY_BOUNDS, last - registered)
  {
    ReachedOfFour(31 * DAY, 91 * DAY, 181 * DAY, 366 * DAY, last - registered);
    hide Reached;
  }

  /** The same for the four boundaries of the time between registration and the last activity, 200 points each, as long
      as that time fits an i64. */
  lemma LongevityTiers(p: Participant, later: i64)
    requires p.totalTx > 0 && p.lastActivityAt <= later && later - p.registeredAt < I64_LIMIT
    ensures var before := Reached(LONGEVITY_BOUNDS, p.lastActivityAt - p.registeredAt);
            var after := Reached(LONGEVITY_BOUNDS, later - p.registeredAt);
            && before <= after
            && UncastScore(p.(lastActivityAt := later))
               == UncastScore(p) + 200 * (after - before) * Percent(p.totalTx) / 100
  {
    DaysReached(p.registeredAt, p.lastActivityAt);
    DaysReached(p.registeredAt, later);
    ReachedOfFour(31 * DAY, 91 * DAY, 181 * DAY, 366 * DAY, p.lastActivityAt - p.registeredAt);
    ReachedOfFour(31 * DAY, 91 * DAY, 181 * DAY, 366 * DAY, later - p.registeredAt);
    var p' := p.(lastActivityAt := later);
    Parts(p);
    Parts(p');
    hide SuccessScore, DisputeScore, RatingScore, VolumeScore, LongevityScore, Days, UncastScore, Percent, RawTotal,
         Reached;
    PointsAdd(p, p', 200 * (Reached(LONGEVITY_BOUNDS, later - p.registeredAt)
                            - Reached(LONGEVITY_BOUNDS, p.lastActivityAt - p.registeredAt)));
  }

  /** Beyond that the difference wraps to a negative one, which counts as the longest: all but its last day. */
  lemma WrappedDays(registered: i64, last: i64)
    requires last - registered >= I64_LIMIT
    ensures LongevityScore(Days(registered, last)) == if last - registered <= U64_LIMIT - DAY then 10000 else 2000
  {
  }

  /** The maturity boundaries, seen on a participant with `n` transactions, all successful, and nothing else. */
  lemma MaturitySteps(registered: i64, n: u64)
    requires n > 0
    ensures UncastScore(Steady(registered, registered).(totalTx := n, successTx := n))
         == if n < 10 then 1860 else if n < 50 then 3720 else if n < 100 then 4960 else 6200
  {
    var p := Steady(registered, registered).(totalTx := n, successTx := n);
    assert SuccessScore(n, n) == 10000 by {
      DivBound(n * 10000, n, 10000);
      DivAtLeast(n * 10000, n, 10000);
    }
    hide SuccessScore;
    assert RawTotal(p) == 620_000;
  }

  // ── Disputes ──

  /** Disputes per ten thousand transactions, rounded down. */
  function DisputeRate(disputeCount: nat, totalTx: nat): nat
    requires totalTx > 0
  {
    disputeCount * 10000 / totalTx
  }

  /** What disputes take off the weighted sum. */
  function Price(rate: nat): nat {
    if rate >= 3334 then 250_000 else 75 * rate
  }

  lemma DisputesCost(p: Participant)
    requires p.totalTx > 0
    ensures RawTotal(p.(disputeCount := 0))
         == RawTotal(p) + Price(DisputeRate(p.disputeCount, p.totalTx))
  {
    Parts(p);
    Parts(p.(disputeCount := 0));
    hide SuccessScore, RatingScore, VolumeScore, LongevityScore, Days, RawTotal;
  }

  /** On the weighted sum, disputes cost a quarter of the scale if and only if their rate reaches 3334 in ten thousand,
      and nothing if and only if it rounds down to 0. */
  lemma DisputesCostIff(p: Participant)
    requires p.totalTx > 0
    ensures var rate := DisputeRate(p.disputeCount, p.totalTx);
            var loss := RawTotal(p.(disputeCount := 0)) - RawTotal(p);
            0 <= loss <= 250_000 && (loss == 250_000 <==> rate >= 3334) && (loss == 0 <==> rate == 0)
  {
    DisputesCost(p);
    hide RawTotal, DisputeRate;
  }

  /** All else equal, more disputes never raise a score. */
  lemma DisputesNeverRaiseScore(p: Participant, more: u64)
    requires p.disputeCount <= more
    ensures UncastScore(p.(disputeCount := more)) <= UncastScore(p)
  {
    if p.totalTx > 0 {
      DivLe(p.disputeCount * 10000, more * 10000, p.totalTx);
      DisputesCost(p);
      DisputesCost(p.(disputeCount := more));
      assert RawTotal(p.(disputeCount := more)) <= RawTotal(p) by {
        hide RawTotal;
      }
      ScaledGrows(RawTotal(p.(disputeCount := more)), Maturity(p.totalTx), RawTotal(p), Maturity(p.totalTx));
    }
  }

  lemma MatureScore(p: Participant)
    requires p.totalTx >= 100
    ensures UncastScore(p) == RawTotal(p) / 100
  {
    hide RawTotal;
    ScoreOf(p);
    AddMultiple(0, RawTotal(p));
  }

  lemma HundredthsLost(raw: nat, loss: nat)
    requires loss <= raw
    ensures raw / 100 - (raw - loss) / 100 == loss / 100 + if raw % 100 < loss % 100 then 1 else 0
  {
  }

  /** The points a mature participant loses to disputes. Because the sum is rounded down to whole points, what it was
      before decides about the last one. */
  lemma MatureLoss(p: Participant)
    requires p.totalTx >= 100
    ensures var raw := RawTotal(p.(disputeCount := 0));
            var price := Price(DisputeRate(p.disputeCount, p.totalTx));
            UncastScore(p.(disputeCount := 0)) - UncastScore(p)
            == price / 100 + if raw % 100 < price % 100 then 1 else 0
  {
    hide RawTotal, DisputeRate, UncastScore, Price;
    DisputesCost(p);
    MatureScore(p);
    MatureScore(p.(disputeCount := 0));
    HundredthsLost(RawTotal(p.(disputeCount := 0)), Price(DisputeRate(p.disputeCount, p.totalTx)));
  }

  /** When disputes cost a mature participant the full 2500 points, and when they cost none. One step of the rate is
      worth less than a point, so that at rates of 3333 and 1 it depends on how far the sum without disputes was above
      a whole point. */
  lemma MatureLossIff(p: Participant)
    requires p.totalTx >= 100
    ensures var rate := DisputeRate(p.disputeCount, p.totalTx);
            var raw := RawTotal(p.(disputeCount := 0));
            var loss := UncastScore(p.(disputeCount := 0)) - UncastScore(p);
            && 0 <= loss <= 2500
            && (loss == 2500 <==> rate >= 3334 || (rate == 3333 && raw % 100 < 75))
            && (loss == 0 <==> rate == 0 || (rate == 1 && raw % 100 >= 75))
  {
    hide RawTotal, DisputeRate, UncastScore;
    MatureLoss(p);
  }

  /** Both exceptions occur: a rate of 3333 that costs 2500 points, and a rate of 1 that costs none. */
  lemma RoundingExceptions()
    ensures var p := Steady(0, 0).(totalTx := 10000, successTx := 10000, disputeCount := 3333);
            UncastScore(p.(disputeCount := 0)) == 6200 && UncastScore(p) == 3700
    ensures var p := Steady(0, 0).(totalTx := 10000, successTx := 9985, disputeCount := 1);
            UncastScore(p.(disputeCount := 0)) == 6194 && UncastScore(p) == 6194
  {
  }

  /** A hundred successful transactions: twenty disputes cost 1500 points of 6200. */
  lemma TwentyDisputes()
    ensures ComputeTrustScore(Steady(0, 0)) == 6200 && ComputeTrustScore(Steady(0, 0).(disputeCount := 20)) == 4700
  {
  }
}
