/** `compute_trust_score` of rc-types: thresholds, truncating divisions and a final cast to u16. */
module TrustScore {
  import opened Types

  const W_SUCCESS: nat := 35
  const W_DISPUTE: nat := 25
  const W_RATING: nat := 20
  const W_VOLUME: nat := 10
  const W_LONGEVITY: nat := 10
  const U16_LIMIT: nat := 0x1_0000
  const U128_LIMIT: nat := U64_LIMIT * U64_LIMIT

  /** `a - b` on i64 in a release build. */
  function WrapSubSigned(a: i64, b: i64): i64 {
    if a - b >= I64_LIMIT then a - b - U64_LIMIT else if a - b < -I64_LIMIT then a - b + U64_LIMIT else a - b
  }

  /** i64 division by a positive constant truncates towards zero. */
  function TruncDiv(a: int, b: nat): int
    requires b > 0
  {
    if a >= 0 then a / b else -((-a) / b)
  }

  function SuccessScore(successTx: nat, totalTx: nat): nat
    requires totalTx > 0
  {
    successTx * 10000 / totalTx
  }

  function DisputeScore(disputeCount: nat, totalTx: nat): nat
    requires totalTx > 0
  {
    if disputeCount > 0 then
      var rate := disputeCount * 10000 / totalTx;
      if rate * 3 <= 10000 then 10000 - rate * 3 else 0
    else 10000
  }

  function RatingScore(ratingSum: nat, ratingCount: nat): nat {
    if ratingCount > 0 then ratingSum * 2000 / ratingCount else 0
  }

  function VolumeScore(totalVolume: nat): nat {
    if totalVolume == 0 then 0
    else if totalVolume <= 100_000 then 2500
    else if totalVolume <= 1_000_000 then 5000
    else if totalVolume <= 10_000_000 then 7500
    else 10000
  }

  function Days(registeredAt: i64, lastActivityAt: i64): int {
    if lastActivityAt > registeredAt then TruncDiv(WrapSubSigned(lastActivityAt, registeredAt), 86400) else 0
  }

  function LongevityScore(days: int): nat {
    if 0 <= days <= 30 then 2000
    else if 31 <= days <= 90 then 4000
    else if 91 <= days <= 180 then 6000
    else if 181 <= days <= 365 then 8000
    else 10000
  }

  function Maturity(totalTx: nat): nat {
    if totalTx <= 9 then 3000 else if totalTx <= 49 then 6000 else if totalTx <= 99 then 8000 else 10000
  }

  /** The weighted sum of the five component scores. */
  function RawTotal(p: Participant): nat
    requires p.totalTx > 0
  {
    SuccessScore(p.successTx, p.totalTx) * W_SUCCESS
    + DisputeScore(p.disputeCount, p.totalTx) * W_DISPUTE
    + RatingScore(p.ratingSum, p.ratingCount) * W_RATING
    + VolumeScore(p.totalVolume) * W_VOLUME
    + LongevityScore(Days(p.registeredAt, p.lastActivityAt)) * W_LONGEVITY
  }

  /** The score before the cast to u16. */
  function UncastScore(p: Participant): nat {
    if p.totalTx == 0 then 0 else RawTotal(p) * Maturity(p.totalTx) / 10000 / 100
  }

  function ComputeTrustScore(p: Participant): u16 {
    UncastScore(p) % U16_LIMIT
  }

  // ── Integer-division facts ──

  lemma MulLe(a: nat, b: nat, c: nat, d: nat)
    requires a <= b && c <= d
    ensures a * c <= b * d
  {
    assert a * c <= b * c <= b * d;
  }

  lemma DivAtLeast(a: nat, d: nat, k: nat)
    requires d > 0 && k * d <= a
    ensures k <= a / d
  {
    var q, r := a / d, a % d;
    assert a == q * d + r;
    if q + 1 <= k {
      MulLe(q + 1, k, d, d);
    }
  }

  lemma DivLe(a: nat, b: nat, d: nat)
    requires d > 0 && a <= b
    ensures a / d <= b / d
  {
    var q := a / d;
    assert q * d <= a;
    DivAtLeast(b, d, q);
  }

  lemma DivBound(a: nat, d: nat, k: nat)
    requires d > 0 && a <= k * d
    ensures a / d <= k
  {
  }

  /** Dividing the same amount by more gives no more. */
  lemma DivDenominator(a: nat, d: nat, e: nat)
    requires 0 < d <= e
    ensures a / e <= a / d
  {
    var q := a / e;
    assert q * e <= a;
    MulLe(q, q, d, e);
    DivAtLeast(a, d, q);
  }

  // ── Bounds ──

  /** What reachable participants satisfy (see `Scores.CountersHold`). */
  predicate CountersConsistent(p: Participant) {
    p.successTx <= p.totalTx && p.ratingSum <= 500 * p.ratingCount
  }

  lemma WeightedBound(success: nat, dispute: nat, rating: nat, volume: nat, longevity: nat, cap: nat, ratingCap: nat)
    requires success <= cap && dispute <= cap && volume <= cap && longevity <= cap && rating <= ratingCap
    ensures success * W_SUCCESS + dispute * W_DISPUTE + rating * W_RATING + volume * W_VOLUME + longevity * W_LONGEVITY
            <= 80 * cap + 20 * ratingCap
  {
  }

  lemma ComponentBounds(p: Participant)
    requires p.totalTx > 0
    ensures DisputeScore(p.disputeCount, p.totalTx) <= 10000 && VolumeScore(p.totalVolume) <= 10000
    ensures LongevityScore(Days(p.registeredAt, p.lastActivityAt)) <= 10000
  {
    hide Days;
  }

  lemma RawTotalBound(p: Participant, cap: nat, ratingCap: nat)
    requires p.totalTx > 0 && 10000 <= cap && SuccessScore(p.successTx, p.totalTx) <= cap
    requires RatingScore(p.ratingSum, p.ratingCount) <= ratingCap
    ensures RawTotal(p) <= 80 * cap + 20 * ratingCap
  {
    ComponentBounds(p);
    hide SuccessScore, DisputeScore, RatingScore, VolumeScore, LongevityScore, Days;
    WeightedBound(SuccessScore(p.successTx, p.totalTx), DisputeScore(p.disputeCount, p.totalTx),
                  RatingScore(p.ratingSum, p.ratingCount), VolumeScore(p.totalVolume),
                  LongevityScore(Days(p.registeredAt, p.lastActivityAt)), cap, ratingCap);
  }

  lemma ScaledBound(raw: nat, maturity: nat, cap: nat)
    requires maturity <= 10000 && raw <= cap * 100
    ensures raw * maturity / 10000 / 100 <= cap
  {
    assert raw * maturity <= raw * 10000;
    DivBound(raw * maturity, 10000, raw);
    DivBound(raw * maturity / 10000, 100, cap);
  }

  /** Without ratings the score is at most 8000 of 10000, and the cast changes nothing. */
  lemma UnratedScoreBound(p: Participant)
    requires CountersConsistent(p) && p.ratingCount == 0
    ensures ComputeTrustScore(p) == UncastScore(p) <= 8000
  {
    if p.totalTx > 0 {
      DivBound(p.successTx * 10000, p.totalTx, 10000);
      RawTotalBound(p, 10000, 0);
      ScaledBound(RawTotal(p), Maturity(p.totalTx), 8000);
    }
  }

  /** With ratings the value before the cast is at most 208000: more than a u16 can hold. */
  lemma RatedScoreBound(p: Participant)
    requires CountersConsistent(p)
    ensures UncastScore(p) <= 208_000
  {
    if p.totalTx > 0 {
      if p.ratingCount > 0 {
        DivBound(p.ratingSum * 2000, p.ratingCount, 1_000_000);
      }
      DivBound(p.successTx * 10000, p.totalTx, 10000);
      RawTotalBound(p, 10000, 1_000_000);
      ScaledBound(RawTotal(p), Maturity(p.totalTx), 208_000);
    }
  }

  /** Every intermediate value fits the u128 the code computes in, whatever the counters hold: the three products, the
      tripled dispute rate, each partial sum (none exceeds the whole) and the scaled total. */
  lemma NoIntermediateOverflow(p: Participant)
    requires p.totalTx > 0
    ensures p.successTx * 10000 < U128_LIMIT && p.disputeCount * 10000 < U128_LIMIT && p.ratingSum * 2000 < U128_LIMIT
    ensures SuccessScore(p.successTx, p.totalTx) * W_SUCCESS <= RawTotal(p)
    ensures RatingScore(p.ratingSum, p.ratingCount) * W_RATING <= RawTotal(p)
    ensures p.disputeCount * 10000 / p.totalTx * 3 < U128_LIMIT
    ensures RawTotal(p) * Maturity(p.totalTx) < U128_LIMIT
  {
    var cap: nat := U64_LIMIT * 10000;
    DivDenominator(p.successTx * 10000, 1, p.totalTx);
    DivDenominator(p.disputeCount * 10000, 1, p.totalTx);
    if p.ratingCount > 0 {
      DivDenominator(p.ratingSum * 2000, 1, p.ratingCount);
    }
    RawTotalBound(p, cap, cap);
    MulLe(RawTotal(p), 100 * cap, Maturity(p.totalTx), 10000);
  }

  // ── The cast ──

  /** A participant that has these ratings and the best of everything else: a hundred transactions, all of them
      successful, over ten million in volume, a year of activity and no dispute. */
  function Best(ratingSum: u64, ratingCount: u64): Participant {
    Participant(1, 1, [], 100, 100, 0, 0, ratingSum, ratingCount, 10_000_001, 0, 0, 366 * 86400, true)
  }

  /** The bound of `RatedScoreBound` is reached, and then the cast truncates: a single rating of 143 scores
      almost six times what a single rating of 500 does. */
  lemma CastTruncates()
    ensures CountersConsistent(Best(500, 1)) && CountersConsistent(Best(143, 1))
    ensures UncastScore(Best(500, 1)) == 208_000 && ComputeTrustScore(Best(500, 1)) == 11_392
    ensures ComputeTrustScore(Best(143, 1)) == 65_200
  {
    assert RawTotal(Best(500, 1)) == 20_800_000;
    assert RawTotal(Best(143, 1)) == 6_520_000;
  }

  lemma CastIsExactBelow(p: Participant)
    requires p.successTx <= p.totalTx && RatingScore(p.ratingSum, p.ratingCount) < 287_680
    ensures ComputeTrustScore(p) == UncastScore(p)
  {
    if p.totalTx > 0 {
      DivBound(p.successTx * 10000, p.totalTx, 10000);
      RawTotalBound(p, 10000, 287_679);
      var raw, maturity := RawTotal(p), Maturity(p.totalTx);
      MulLe(raw, 6_553_580, maturity, 10000);
      DivBound(raw * maturity, 10000, 6_553_580);
      DivLe(raw * maturity / 10000, 6_553_580, 100);
    }
  }

  lemma CastTruncatesFrom(ratingSum: u64, ratingCount: u64)
    requires RatingScore(ratingSum, ratingCount) >= 287_680
    ensures ComputeTrustScore(Best(ratingSum, ratingCount)) != UncastScore(Best(ratingSum, ratingCount))
  {
    var raw := RawTotal(Best(ratingSum, ratingCount));
    assert raw == 800_000 + RatingScore(ratingSum, ratingCount) * 20;
    DivAtLeast(raw * 10000, 10000, 6_553_600);
    DivAtLeast(raw * 10000 / 10000, 100, 65_536);
  }

  /** Exactly when ratings can never push a score past the u16: the rating component must stay below 287680,
      an average rating below 143.84 of the 500 that `record_rating` accepts. */
  lemma CastIsExactIff(ratingSum: u64, ratingCount: u64)
    ensures (forall p: Participant |
               p.ratingSum == ratingSum && p.ratingCount == ratingCount && p.successTx <= p.totalTx ::
               ComputeTrustScore(p) == UncastScore(p))
            <==> RatingScore(ratingSum, ratingCount) < 287_680
  {
    hide ComputeTrustScore, UncastScore;
    if RatingScore(ratingSum, ratingCount) < 287_680 {
      forall p: Participant | p.ratingSum == ratingSum && p.ratingCount == ratingCount && p.successTx <= p.totalTx
        ensures ComputeTrustScore(p) == UncastScore(p)
      {
        CastIsExactBelow(p);
      }
    } else {
      CastTruncatesFrom(ratingSum, ratingCount);
    }
  }

  // ── Monotonicity ──

  /** One more successful transaction among at least as many transactions never lowers the success ratio. */
  lemma SuccessScoreGrows(s: nat, t: nat, s': nat, t': nat)
    requires 0 < t && s <= t
    requires (s' == s + 1 && t' == t + 1) || (s <= s' && t' == t)
    ensures SuccessScore(s, t) <= SuccessScore(s', t')
  {
    if t' == t {
      DivLe(s * 10000, s' * 10000, t);
    } else {
      var k := SuccessScore(s, t);
      DivBound(s * 10000, t, 10000);
      assert k * t <= s * 10000;
      assert k * (t + 1) <= (s + 1) * 10000;
      DivAtLeast((s + 1) * 10000, t + 1, k);
    }
  }

  lemma DisputeScoreGrows(c: nat, t: nat, t': nat)
    requires 0 < t <= t'
    ensures DisputeScore(c, t) <= DisputeScore(c, t')
  {
    DivDenominator(c * 10000, t, t');
  }

  lemma DaysGrow(registered: i64, last: i64, later: i64)
    requires last <= later && later - registered < I64_LIMIT
    ensures 0 <= Days(registered, last) <= Days(registered, later)
  {
    if last > registered {
      DivLe(last - registered, later - registered, 86400);
    }
  }

  /** `p'` is `p` after one successful transaction at time `ts`, as settlement recording and escrow release book it. */
  predicate BooksSuccess(p: Participant, p': Participant, ts: i64) {
    && p'.totalTx == SatAdd(p.totalTx, 1)
    && p'.successTx == SatAdd(p.successTx, 1)
    && p'.totalVolume >= p.totalVolume
    && p'.lastActivityAt == ts
    && p'.disputeCount == p.disputeCount
    && p'.ratingSum == p.ratingSum && p'.ratingCount == p.ratingCount
    && p'.registeredAt == p.registeredAt
  }

  lemma ScaledGrows(raw: nat, maturity: nat, raw': nat, maturity': nat)
    requires raw <= raw' && maturity <= maturity'
    ensures raw * maturity / 10000 / 100 <= raw' * maturity' / 10000 / 100
  {
    assert raw * maturity <= raw' * maturity <= raw' * maturity';
    DivLe(raw * maturity, raw' * maturity', 10000);
    DivLe(raw * maturity / 10000, raw' * maturity' / 10000, 100);
  }

  /** Activity at `ts` does not lower the longevity component. */
  predicate LongevityKept(registered: i64, last: i64, ts: i64) {
    LongevityScore(Days(registered, last)) <= LongevityScore(Days(registered, ts))
  }

  /** Time that does not run backwards or overflow the i64 difference keeps it. */
  lemma TimelyKeepsLongevity(registered: i64, last: i64, ts: i64)
    requires last <= ts && ts - registered < I64_LIMIT
    ensures LongevityKept(registered, last, ts)
  {
    DaysGrow(registered, last, ts);
    hide Days;
  }

  /** As long as the longevity component is kept, a successful transaction never lowers the score before the cast, and
      so never lowers the score of an unrated participant. */
  lemma SuccessNeverLowersScore(p: Participant, p': Participant, ts: i64)
    requires CountersConsistent(p) && BooksSuccess(p, p', ts)
    requires LongevityKept(p.registeredAt, p.lastActivityAt, ts)
    ensures UncastScore(p) <= UncastScore(p')
    ensures p.ratingCount == 0 ==> ComputeTrustScore(p) <= ComputeTrustScore(p')
  {
    if p.totalTx > 0 {
      SuccessScoreGrows(p.successTx, p.totalTx, p'.successTx, p'.totalTx);
      DisputeScoreGrows(p.disputeCount, p.totalTx, p'.totalTx);
      assert RawTotal(p) <= RawTotal(p') by {
        hide SuccessScore, DisputeScore, RatingScore, LongevityScore, Days;
      }
      ScaledGrows(RawTotal(p), Maturity(p.totalTx), RawTotal(p'), Maturity(p'.totalTx));
    }
    if p.ratingCount == 0 {
      UnratedScoreBound(p);
      UnratedScoreBound(p');
    }
  }

  /** A participant with these dates, a hundred transactions, all successful, no dispute, no rating and no volume. */
  function Steady(registered: i64, last: i64): Participant {
    Participant(1, 1, [], 100, 100, 0, 0, 0, 0, 0, 0, registered, last, true)
  }

  lemma SteadyScore(registered: i64, last: i64, n: u64)
    requires n >= 100
    ensures var p := Steady(registered, last).(totalTx := n, successTx := n);
            UncastScore(p) == 6000 + LongevityScore(Days(registered, last)) / 10
  {
    var p := Steady(registered, last).(totalTx := n, successTx := n);
    assert SuccessScore(n, n) == 10000 by {
      DivBound(n * 10000, n, 10000);
      DivAtLeast(n * 10000, n, 10000);
    }
    hide Days, SuccessScore, LongevityScore;
    var longevity := LongevityScore(Days(registered, last));
    assert RawTotal(p) == 600_000 + longevity * 10;
    assert RawTotal(p) * Maturity(n) / 10000 == 600_000 + longevity * 10;
  }

  /** Which dates are safe: no success at `ts` lowers the score of anyone who registered at `registered` and was last
      active at `last`, if and only if the longevity component is kept. */
  lemma SuccessNeverLowersScoreIff(registered: i64, last: i64, ts: i64)
    ensures (forall p: Participant, p': Participant |
               p.registeredAt == registered && p.lastActivityAt == last && CountersConsistent(p)
               && BooksSuccess(p, p', ts) ::
               UncastScore(p) <= UncastScore(p'))
       <==> LongevityKept(registered, last, ts)
  {
    hide UncastScore, Days;
    if LongevityKept(registered, last, ts) {
      forall p: Participant, p': Participant |
        p.registeredAt == registered && p.lastActivityAt == last && CountersConsistent(p) && BooksSuccess(p, p', ts)
        ensures UncastScore(p) <= UncastScore(p')
      {
        SuccessNeverLowersScore(p, p', ts);
      }
    } else {
      var p := Steady(registered, last);
      var p' := Steady(registered, ts).(totalTx := 101, successTx := 101);
      SteadyScore(registered, last, 100);
      SteadyScore(registered, ts, 101);
      assert BooksSuccess(p, p', ts);
    }
  }

  /** The condition can fail: once the i64 difference wraps, more activity scores less. */
  lemma WrappedTimeLowersScore()
    ensures exists p: Participant, p': Participant, ts: i64 ::
              CountersConsistent(p) && p.ratingCount == 0 && BooksSuccess(p, p', ts) && p.lastActivityAt <= ts
              && ComputeTrustScore(p') < ComputeTrustScore(p)
  {
    var p := Steady(-I64_LIMIT, -1);
    var p' := p.(totalTx := 101, successTx := 101, lastActivityAt := I64_LIMIT - 1);
    assert Days(p.registeredAt, p.lastActivityAt) == 106_751_991_167_300 by {
      assert WrapSubSigned(-1, -I64_LIMIT) == I64_LIMIT - 1;
    }
    assert Days(p'.registeredAt, p'.lastActivityAt) == 0;
    assert BooksSuccess(p, p', I64_LIMIT - 1);
    SteadyScore(-I64_LIMIT, -1, 100);
    SteadyScore(-I64_LIMIT, I64_LIMIT - 1, 101);
    hide UncastScore, Days;
  }
}
