/** The counters behind trust scores over whole runs, and what that says about the scores. */
module Scores {
  import opened Types
  import opened Rules
  import opened Invariants
  import opened History
  import opened TrustScore

  /** When a rating keeps the counters consistent: `record_rating` adds without saturating. */
  predicate RatingFits(p: Participant, rating: u16, success: bool) {
    && (0 < rating <= 500 && p.ratingCount == MAX_U64 ==> WrapAdd(p.ratingSum, rating) == 0)
    && (!success && p.totalTx == MAX_U64 ==> p.successTx == 0)
  }

  lemma RatingKeepsCountersIff(p: Participant, rating: u16, success: bool, ts: i64)
    requires CountersConsistent(p)
    ensures CountersConsistent(Rated(p, rating, success, ts)) <==> RatingFits(p, rating, success)
  {
  }

  /** A failed transaction rated at the very top of the counter leaves more successes than transactions, and a
      participant with every transaction successful drops to a score of zero. */
  lemma OverflowingRatingBreaksCounters()
    ensures exists p: Participant :: CountersConsistent(p) && p.totalTx > 0
              && !CountersConsistent(Rated(p, 0, false, 0)) && ComputeTrustScore(Rated(p, 0, false, 0)) == 0
  {
    var p := Best(0, 0).(totalTx := MAX_U64, successTx := MAX_U64);
    assert Rated(p, 0, false, 0).totalTx == 0;
  }

  ghost predicate CountersHold(m: map<Id, Participant>) {
    forall id | id in m :: CountersConsistent(m[id])
  }

  predicate PayloadFits(t: Tables, payload: Payload) {
    payload.RecordRating? && payload.participantId in t.participants ==>
      RatingFits(t.participants[payload.participantId], payload.rating, payload.success)
  }

  lemma RatingStep(cfg: Config, t: Tables, sender: Id, payload: Payload, ts: i64)
    requires payload.RecordRating? && CountersHold(t.participants) && PayloadFits(t, payload)
    ensures CountersHold(Perform(cfg, t, sender, payload, ts).tables.participants)
  {
    hide Rated, Reward, ComputeTrustScore, ParticipantsEvolve, CountersConsistent, RatingFits;
    if payload.participantId in t.participants {
      RatingKeepsCountersIff(t.participants[payload.participantId], payload.rating, payload.success, ts);
    }
  }

  lemma OverflowBreaks(cfg: Config, t: Tables, sender: Id, payload: Payload, ts: i64)
    requires CountersHold(t.participants) && !PayloadFits(t, payload)
    ensures !CountersHold(Perform(cfg, t, sender, payload, ts).tables.participants)
  {
    hide Rated, Reward, ComputeTrustScore, ParticipantsEvolve, CountersConsistent, RatingFits;
    var id := payload.participantId;
    RatingKeepsCountersIff(t.participants[id], payload.rating, payload.success, ts);
    assert Perform(cfg, t, sender, payload, ts).tables.participants[id]
        == Rated(t.participants[id], payload.rating, payload.success, ts);
  }

  lemma CountersStep(cfg: Config, t: Tables, sender: Id, payload: Payload, ts: i64)
    requires CountersHold(t.participants) && PayloadFits(t, payload)
    ensures CountersHold(Perform(cfg, t, sender, payload, ts).tables.participants)
  {
    hide Perform, EscrowsEvolve;
    if payload.RecordRating? {
      RatingStep(cfg, t, sender, payload, ts);
    } else {
      PerformEvolves(cfg, t, sender, payload, ts);
    }
  }

  /** Transaction `k` of the run passes its nonce check, so that its payload executes. */
  predicate Executes(cfg: Config, ins: seq<Input>, k: nat)
    requires k < |ins|
  {
    ins[k].tx.nonce > RunFrom(cfg, GENESIS, ins[..k]).ledger.Nonce(ins[k].tx.sender)
  }

  /** No rating that executes overflows a counter of its participant. */
  ghost predicate RatingsFit(cfg: Config, ins: seq<Input>) {
    forall k | 0 <= k < |ins| :: FitsAt(cfg, ins, k)
  }

  predicate FitsAt(cfg: Config, ins: seq<Input>, k: nat)
    requires k < |ins|
  {
    Executes(cfg, ins, k) ==> PayloadFits(TablesAt(cfg, ins, k), ins[k].tx.payload)
  }

  lemma MomentStep(cfg: Config, ins: seq<Input>, k: nat)
    requires k < |ins| && CountersHold(TablesAt(cfg, ins, k).participants)
    ensures CountersHold(TablesAt(cfg, ins, k + 1).participants) <==> FitsAt(cfg, ins, k)
  {
    hide Perform, PayloadFits, CountersHold;
    TablesAfter(cfg, ins, k);
    if Executes(cfg, ins, k) {
      var t, tx := TablesAt(cfg, ins, k), ins[k].tx;
      if PayloadFits(t, tx.payload) {
        CountersStep(cfg, t, tx.sender, tx.payload, ins[k].ts);
      } else {
        OverflowBreaks(cfg, t, tx.sender, tx.payload, ins[k].ts);
      }
    }
  }

  /** No participant ever has more successes than transactions, or ratings above 500, if and only if no rating that
      executes overflows a counter. */
  lemma CountersHoldIff(cfg: Config, ins: seq<Input>)
    ensures (forall k | 0 <= k <= |ins| :: CountersHold(TablesAt(cfg, ins, k).participants)) <==> RatingsFit(cfg, ins)
  {
    hide TablesAt, FitsAt, CountersHold;
    if RatingsFit(cfg, ins) {
      forall k | 0 <= k <= |ins| ensures CountersHold(TablesAt(cfg, ins, k).participants) {
        CountersHoldAt(cfg, ins, k);
      }
    } else if forall k | 0 <= k <= |ins| :: CountersHold(TablesAt(cfg, ins, k).participants) {
      forall k | 0 <= k < |ins| ensures FitsAt(cfg, ins, k) {
        MomentStep(cfg, ins, k);
      }
    }
  }

  lemma {:induction false} CountersHoldAt(cfg: Config, ins: seq<Input>, k: nat)
    requires RatingsFit(cfg, ins) && k <= |ins|
    ensures CountersHold(TablesAt(cfg, ins, k).participants)
  {
    hide FitsAt;
    if k > 0 {
      CountersHoldAt(cfg, ins, k - 1);
      MomentStep(cfg, ins, k - 1);
    }
  }

  lemma CountersHoldInRuns(cfg: Config, ins: seq<Input>)
    requires RatingsFit(cfg, ins)
    ensures CountersHold(RunFrom(cfg, GENESIS, ins).ledger.tables.participants)
  {
    hide CountersHold, RatingsFit;
    CountersHoldAt(cfg, ins, |ins|);
    assert ins[..|ins|] == ins;
  }

  // ── Scores in reachable states ──

  lemma ReachableScores(cfg: Config, ins: seq<Input>, id: Id)
    requires RatingsFit(cfg, ins)
    ensures var m := RunFrom(cfg, GENESIS, ins).ledger.tables.participants;
            id in m ==>
              && UncastScore(m[id]) <= 208_000
              && (m[id].ratingCount == 0 ==> ComputeTrustScore(m[id]) == UncastScore(m[id]) <= 8000)
  {
    hide RunFrom, ComputeTrustScore, UncastScore;
    CountersHoldInRuns(cfg, ins);
    var m := RunFrom(cfg, GENESIS, ins).ledger.tables.participants;
    if id in m {
      RatedScoreBound(m[id]);
      if m[id].ratingCount == 0 {
        UnratedScoreBound(m[id]);
      }
    }
  }

  /** Activity at `ts` lowers nobody's longevity component: so it is when time has not run backwards for anyone and the
      i64 difference to their registration fits (`TrustScore.TimelyKeepsLongevity`). */
  ghost predicate Timely(m: map<Id, Participant>, ts: i64) {
    forall id | id in m :: LongevityKept(m[id].registeredAt, m[id].lastActivityAt, ts)
  }

  /** No participant scores less than before, and no unrated one after the cast either. */
  predicate ScoreKept(p: Participant, p': Participant) {
    UncastScore(p) <= UncastScore(p') && (p.ratingCount == 0 ==> ComputeTrustScore(p) <= ComputeTrustScore(p'))
  }

  lemma SucceededScores(p: Participant, volume: u64, ts: i64)
    requires CountersConsistent(p) && LongevityKept(p.registeredAt, p.lastActivityAt, ts)
    ensures ScoreKept(p, Succeeded(p, volume, ts)) && CountersConsistent(Succeeded(p, volume, ts))
  {
    hide ComputeTrustScore, UncastScore;
    SuccessNeverLowersScore(p, Succeeded(p, volume, ts), ts);
  }

  /** Releasing an escrow lowers nobody's score, not even when someone sells to themselves. */
  lemma ReleaseNeverLowersScores(t: Tables, sender: Id, eid: Id, evidence: Hash, ts: i64, reward: u64, id: Id)
    requires CountersHold(t.participants) && Timely(t.participants, ts) && id in t.participants
    ensures var m' := Release(t, sender, eid, evidence, ts, reward).tables.participants;
            id in m' && ScoreKept(t.participants[id], m'[id])
  {
    hide ScoreKept, CountersConsistent, LongevityKept, ParticipantsEvolve, EscrowsEvolve, Reports, Succeeded, Reward;
    var p := t.participants[id];
    Unmoved(p);
    if eid in t.escrows {
      var e := t.escrows[eid];
      SucceededScores(p, 0, ts);
      SucceededScores(p, e.amount, ts);
      TwiceSucceeded(p, e.amount, ts);
    }
  }

  lemma Unmoved(p: Participant)
    ensures ScoreKept(p, p)
  {
  }

  lemma TwiceSucceeded(p: Participant, volume: u64, ts: i64)
    requires CountersConsistent(p) && LongevityKept(p.registeredAt, p.lastActivityAt, ts)
    ensures ScoreKept(p, Succeeded(Succeeded(p, 0, ts), volume, ts))
  {
    hide ComputeTrustScore, UncastScore;
    var q := Succeeded(p, 0, ts);
    SucceededScores(p, 0, ts);
    SucceededScores(q, volume, ts);
  }

  /** Neither does recording a settlement. */
  lemma SettleNeverLowersScores(t: Tables, sender: Id, pid: Id, data: SettlementData, ts: i64, reward: u64, id: Id)
    requires CountersHold(t.participants) && Timely(t.participants, ts) && id in t.participants
    ensures var m' := Settle(t, sender, pid, data, ts, reward).tables.participants;
            id in m' && ScoreKept(t.participants[id], m'[id])
  {
    hide ComputeTrustScore, UncastScore, ParticipantsEvolve, Reports;
    var p := t.participants[id];
    var p' := Succeeded(p, data.grossAmount, ts).(totalSettled := SatAdd(p.totalSettled, data.netAmount));
    SuccessNeverLowersScore(p, p', ts);
  }
}
