# routinechain: a verified model

routinechain is a permissioned commerce chain: participants register, settle sales, open escrows, dispute them, rate
each other and hold RCW tokens; a fixed set of validators takes turns proposing blocks. This project models its state
machine, its store, its consensus and its node loop in Dafny and proves what they promise about each other.

`dafny verify dfyconfig.toml` checks everything.

## How the model is laid out

| layer | files | what it is |
|---|---|---|
| values | `Types.dfy`, `Sets.dfy` | machine integers with their overflow behaviour, records, payloads, events, blocks |
| pure rules | `Rules.dfy`, `TrustScore.dfy`, `Protocol.dfy`, `ViewChange.dfy`, `Rotation.dfy`, `Quorum.dfy` | what each operation does, as functions |
| imperative code | `Store.dfy`, `Modules.dfy`, `StateMachine.dfy`, `KvStore.dfy`, `Consensus.dfy`, `Node.dfy` | classes and methods in the shape of the Rust code, each proved equal to its rule or specified outright |
| laws of one step and of runs | `Invariants.dfy`, `History.dfy`, `Permissions.dfy`, `Provenance.dfy`, `Statistics.dfy`, `Totals.dfy`, `Disputes.dfy`, `Verdicts.dfy`, `Tokens.dfy`, `Accounts.dfy`, `Announcements.dfy`, `Scores.dfy`, `ScoreParts.dfy`, `Replays.dfy`, `Chain.dfy`, `Production.dfy` | what every reachable state satisfies, and how it follows from what was sent |
| laws across nodes | `Replication.dfy`, `Agreement.dfy`, `Ledgers.dfy`, `Forks.dfy` | leader against follower, all nodes against each other in blocks and in state, and why the assumptions are needed |
| bytes | `Bytes.dfy`, `Codec.dfy`, `Database.dfy`, `StateImage.dfy` | byte order, writing and reading of bincode records, the sorted database, the preimage of the state root |

A *run* is any list of transactions with any timestamps, executed from empty tables (`History.RunFrom`). A *network* is
a set of nodes and the proposals made so far; any node may take any enabled step at any time (`Agreement.Reach`).
Hashes, signatures and the clock are parameters: no theorem assumes that a hash is injective; where a collision
matters, the theorem names the two images that would have to collide.

Arithmetic follows a release build: `saturating_add` and `saturating_sub` saturate, a plain `+` or `-` on u64, i64 or u32
wraps, `as u16` truncates, `/` on signed numbers rounds towards zero. `usize` is 64 bits. Identifiers and hashes are
their 32 bytes read as one big-endian number, and `Bytes.BigEndianOrder` shows that this keeps the byte order.

## What turned out to differ from what one would expect

- A rejected transaction keeps its nonce used up, and nonces are under the state root. A leader that drops a rejected
  transaction from its block therefore proposes a root its followers cannot reproduce
  (`Replication.FollowerAcceptsIff`, `Replication.DoomedProposal`).
- `apply_block` leaves the tables changed when the root check fails, and a follower has signed by then
  (`StateMachine.StateMachine.ApplyBlock`, `Protocol.HandleProposal`).
- The comment on `is_finalized` promises unique valid signatures; ids the node does not know are counted unchecked. The
  node never stores such signatures in its pending block (`Quorum.CountSplits`, `Chain.FinalizedByQuorum`).
- Ratings of 1 to 500 are scaled by 2000, so that the cast to u16 truncates for averages from 143.84 on
  (`TrustScore.CastIsExactIff`). Timestamps are milliseconds, but the longevity component divides by 86400, and its i64
  difference can wrap; `TrustScore.SuccessNeverLowersScoreIff` says which dates are safe.
- The tally of a dispute counts in u32, so vote thresholds from 2^32 on are unsafe (`Disputes.ResolutionIsSignIff`).
- A follower checks the first signature of a proposal only if a known peer made it, and does not ask whose turn that
  peer has (`Consensus.AcceptsOnlySignedIff`).
- A settlement under an id in use replaces the stored one, even another participant's: `Provenance.SettlementTraced`
  names the last one recorded. Purchased tokens are never credited (`Accounts.AccountsMatchHistory`).
- Because the score is rounded down to whole points, one dispute in ten thousand transactions can be free, and a rate
  just below a third can cost the full quarter (`ScoreParts.MatureLossIff`, `ScoreParts.RoundingExceptions`).
- A follower that stores a proposal does not restart its view-change clock (`Production.ClockIff`).
- Votes for a view change are not checked to come from validators (`ViewChange.StrangersCount`).
- Raising a dispute under an id in use replaces the stored dispute, and neither a resolution nor anything else moves an
  escrow out of Disputed. Claims about one dispute hold between raises of its id (`Disputes.SameDispute`).
- Votes for view changes at one height commute; across heights they do not (`ViewChange.HeightsDoNotCommute`). A request
  at round 2^32 - 1 wraps to round 0 and can overtake a completed vote (`ViewChange.NeverOverdueIff`).
- A proposal discarded on timeout, or a pending block finalized after a view change, lets nodes store different blocks
  at one height, or one node replace a stored block, even though every root check passes (`Forks`,
  `Chain.LoopKeepsBlocksIff`).

## Model

| member | source | states |
|---|---|---|
| History.ReachableConsistent | crates/rc-state/src/modules/escrow.rs:21-49 | in every reachable state all escrow parties are registered, every dispute points to an escrow in state Disputed and was raised by one of its parties, and no escrow is ever Funded |
| History.FailureLeavesOnlyTheNonce | crates/rc-state/src/lib.rs:58-223 | in every reachable state a failing transaction changes no table and at most its sender's nonce; the not-found errors that follow writes in release and refund cannot occur |
| Invariants.PerformIsAtomic | crates/rc-state/src/modules/escrow.rs:76-98 | a failing payload leaves the tables untouched wherever escrow parties are registered |
| Invariants.PerformEvolves | crates/rc-state/src/lib.rs:62-222 | any payload, failing or not, keeps every participant and escrow, their identities, parties, amounts and dates; escrow states move forward only; counters move only under the payloads that own them |
| Invariants.PerformKeepsConsistent | crates/rc-state/src/modules/dispute.rs:15-57 | every payload keeps the references between participants, escrows and disputes |
| Permissions.SucceedsIff | crates/rc-state/src/lib.rs:62-222 | wherever references are consistent, each of the fourteen payloads succeeds if and only if its sender may do that at that time: who, on which record, in which phase, until when, with how many tokens |
| Permissions.SucceedsInRunsIff | crates/rc-state/src/lib.rs:58-223 | at every point of every run a transaction succeeds if and only if its nonce is above the stored one and its sender may |
| Permissions.ReleaseOrRefund | crates/rc-state/src/modules/escrow.rs:64-130 | for every escrow still Created in a reachable state and at every time: its buyer can release it if and only if it has not expired, a third party can refund it if and only if it has, exactly one of the two; the buyer can always refund it and nobody else can ever release it |
| Permissions.ExpiredIff | crates/rc-state/src/modules/escrow.rs:73-76 | a release is refused as expired if and only if its buyer sends it for an open escrow past its expiry |
| Permissions.SettledInTime | crates/rc-state/src/modules/escrow.rs:73-126 | no run reports a release after the expiry or by anyone but the buyer, nor a refund by anyone else before it |
| Permissions.SpendableIff | crates/rc-state/src/modules/token.rs:30-41 | while all mints fit 64 bits, tokens can be spent or sent if and only if they are held |
| Provenance.RecordsAreTraced | crates/rc-state/src/lib.rs:62-222 | in every reachable state every participant, settlement, escrow, dispute and anchor is, field by field, what the successful transactions of the run wrote: type, dates, metadata and activity; gross, fee, net and currency; parties, amount, expiry, evidence and dispute; reason, evidence and votes since the last raise; and there is none where none wrote one |
| Provenance.WrittenOnce | crates/rc-state/src/lib.rs:201-206 | over every run a participant registers at most once, an escrow is created at most once and a batch is anchored at most once, and exactly once if it is stored |
| History.EscrowLifecycle | crates/rc-state/src/modules/escrow.rs:69-139 | between any two moments of a run an escrow keeps its parties, amount and dates, and Released, Refunded and Disputed are never left |
| History.SettledOnce | crates/rc-state/src/modules/escrow.rs:69-139 | the event history holds one release or refund of an escrow if it is Released or Refunded now, and none otherwise |
| Statistics.SuccessesMatchHistory | crates/rc-state/src/modules/settlement.rs:35-47 | in every run the success counter equals, up to saturation, the number of the participant's settlement events plus the sides it holds in Released escrows, buyer and seller counted separately |
| Statistics.ReleaseCounts | crates/rc-state/src/modules/escrow.rs:83-98 | a release books one success per side, two for someone who sells to themselves |
| Totals.TotalsMatchHistory | crates/rc-state/src/modules/settlement.rs:35-79 | in every run volume and settled total are the saturated sums, rating sum and count the sums modulo 2^64, and transactions the plain sum (below 2^64), of what the successful settlements, ratings, releases and refunds are worth to the participant |
| Announcements.EventsDescribeRecords | crates/rc-state/src/lib.rs:62-222 | the events of every success describe the records it leaves: the type registered, the score now computed, the parties and amount of the escrow, the resolution stored, the batch anchored; beside them it reports nothing but mints for the reason of that payload |
| Announcements.EventsBalanceAccounts | crates/rc-state/src/modules/token.rs:15-99 | over every run the token events are a complete account book: what they say each account received and paid is what the payloads moved |
| Disputes.DisputesWellFormed | crates/rc-state/src/modules/dispute.rs:101-195 | in every reachable state: voters are distinct registered Arbiters, no votes before voting, fewer than the threshold while voting, and Resolved exactly with resolution and time set and exactly max(threshold, 1) votes |
| Disputes.ResolutionIsSign | crates/rc-state/src/modules/dispute.rs:134-156 | below 2^32 votes the resolution is the sign of FavorBuyer votes minus FavorSeller votes: Split votes cancel |
| Disputes.ResolutionIsSignIff | crates/rc-state/src/modules/dispute.rs:134-156 | every ballot of n different arbiters is resolved by that majority if and only if n is below 2^32: which vote thresholds are safe |
| Disputes.ResolvedByMajority | crates/rc-state/src/modules/dispute.rs:134-156 | with such a threshold every resolved dispute of every reachable state was resolved by majority |
| Verdicts.VerdictIsMajority | crates/rc-state/src/modules/dispute.rs:124-156 | with such a threshold a resolved dispute of any reachable state is resolved for the buyer if and only if more of the successful votes since its last raise said FavorBuyer than FavorSeller, for the seller if and only if fewer did, and else split |
| Verdicts.MajorityWins | crates/rc-state/src/modules/dispute.rs:162-193 | at the vote that closes a dispute, the party for whom that majority voted, and nobody else, has one more dispute won and is credited and reported the reward; a tie moves nothing |
| Verdicts.WinsMatchVerdicts | crates/rc-state/src/modules/dispute.rs:165-175 | at every moment of every run `dispute_won` is the number of disputes so decided for the participant, up to saturation |
| Verdicts.CodesReadBack | crates/rc-types/src/transaction.rs:99-147 | the type and the reason stored as codes in a reachable state read back as the constructors that the registration and the last raise named |
| Verdicts.VotersRegisteredAsArbiters | crates/rc-state/src/modules/dispute.rs:103-108 | whoever voted on a stored dispute registered with type Arbiter |
| Disputes.WrappedTallyElectsTheLoser | crates/rc-state/src/modules/dispute.rs:134-156 | the u32 counters do wrap: 2^32 different arbiters favor the buyer, one favors the seller, and the seller wins |
| Disputes.ResolutionIgnoresOrder | crates/rc-state/src/modules/dispute.rs:134-156 | the resolution depends on the multiset of votes only |
| Disputes.PenaltiesCovered | crates/rc-state/src/modules/dispute.rs:47-55 | in every reachable state a participant's dispute count is at least the number of unresolved disputes in which it is the party that did not raise them, so the subtraction at resolution never saturates |
| Disputes.PenaltiesReverseExactly | crates/rc-state/src/modules/dispute.rs:46-187 | a raise and the resolution it leads to, anywhere later in the run, change the loser's count by exactly two and the winner's by nothing, whoever raised the dispute |
| Disputes.SameDispute | crates/rc-state/src/modules/dispute.rs:31-44 | between raises of its id a dispute keeps its escrow and its raiser |
| Disputes.DecisionEffect | crates/rc-state/src/modules/dispute.rs:165-187 | the deciding vote finds at least one penalty to give back to the party that was charged at the raise |
| Tokens.TokensConserved | crates/rc-state/src/modules/token.rs:11-93 | over every run whose initial supply and mints fit 64 bits, no credit anywhere in the run wraps, supply plus spends equals initial supply plus mints, and every account total is exact |
| Tokens.RunConserves | crates/rc-state/src/modules/token.rs:11-13 | without that bound, exactly 2^64 tokens disappear for each credit of the run that wraps |
| Tokens.PerformConserves | crates/rc-state/src/lib.rs:62-222 | the same for each payload and its own credits, in their order |
| Tokens.DebitIsExact | crates/rc-state/src/modules/token.rs:35-50 | a debit the balance check let through never wraps, even where the check's own addition did |
| Accounts.EarnedGoFirst | crates/rc-state/src/modules/token.rs:43-50 | a debit takes purchased tokens only once nothing earned is left |
| Accounts.AccountsMatchHistory | crates/rc-state/src/modules/token.rs:5-100 | in every run without a wrapped credit every account holds exactly what the successful transactions paid to it (rewards by kind, both sides of a release, the winner of a dispute, transfers) less what it sent and spent; nothing ever credits purchased tokens, and each account is stored under its owner |
| Accounts.AccountsMatchWithinMints | crates/rc-state/src/modules/token.rs:5-100 | in particular while everything minted fits 64 bits |
| Tokens.TransferConserves | crates/rc-state/src/modules/token.rs:23-63 | a transfer, to oneself included, conserves tokens but for its credit if that wraps |
| Tokens.CreditWrapsIff | crates/rc-state/src/modules/token.rs:11-13 | a credit is exact if and only if the earned balance does not overflow |
| TrustScore.UnratedScoreBound | crates/rc-types/src/state.rs:117-178 | without ratings, and with consistent counters, the score is at most 8000 |
| TrustScore.RatedScoreBound | crates/rc-types/src/state.rs:117-178 | with ratings the value before the cast is at most 208000 |
| TrustScore.NoIntermediateOverflow | crates/rc-types/src/state.rs:128-177 | no intermediate result overflows u128, the products of the counters included |
| ScoreParts.DisputesNeverRaiseScore | crates/rc-types/src/state.rs:130-135 | all else equal, more disputes never raise the score before the cast |
| ScoreParts.DisputesCostIff | crates/rc-types/src/state.rs:130-135 | on the weighted sum disputes cost the whole quarter if and only if their truncated rate reaches 3334 of 10000, and nothing if and only if it is 0 |
| ScoreParts.MatureLossIff | crates/rc-types/src/state.rs:130-177 | in points of a mature participant the same, up to one step of the rate where the final rounding decides: the exact condition for a loss of 2500 and for a loss of 0 |
| ScoreParts.RoundingExceptions | crates/rc-types/src/state.rs:164-177 | both exceptions occur: a rate of 3333 that costs 2500 points and a rate of 1 that costs none |
| ScoreParts.SuccessShare | crates/rc-types/src/state.rs:128 | for anyone, succeeding always instead of never is worth 35 in a hundred, scaled by maturity |
| ScoreParts.RatingShare | crates/rc-types/src/state.rs:137-141 | an average rating of 5 instead of none is worth 20 in a hundred, scaled likewise |
| ScoreParts.VolumeTiers | crates/rc-types/src/state.rs:143-149 | more volume is worth 250 points, scaled, for each boundary 1, 100001, 1000001 and 10000001 passed, and nothing else |
| ScoreParts.LongevityTiers | crates/rc-types/src/state.rs:151-162 | later activity is worth 200 points, scaled, for each boundary of 31, 91, 181 and 366 days passed, and nothing else |
| ScoreParts.MaturitySteps | crates/rc-types/src/state.rs:170-175 | the maturity factor steps at exactly 10, 50 and 100 transactions |
| TrustScore.CastTruncates | crates/rc-types/src/state.rs:137-178 | the bound is reached, and a single rating of 143 then outscores a single rating of 500 |
| TrustScore.CastIsExactIff | crates/rc-types/src/state.rs:137-178 | the cast is exact for all participants with given ratings if and only if their rating component is below 287680 |
| TrustScore.SuccessNeverLowersScore | crates/rc-types/src/state.rs:117-178 | if activity at that time keeps the longevity component, one more success never lowers the score before the cast, nor the score of an unrated participant |
| TrustScore.SuccessNeverLowersScoreIff | crates/rc-types/src/state.rs:151-178 | for given dates no success lowers anyone's score if and only if the longevity component is kept |
| TrustScore.TimelyKeepsLongevity | crates/rc-types/src/state.rs:151-162 | it is kept when time does not run backwards and the i64 difference does not overflow |
| TrustScore.WrappedTimeLowersScore | crates/rc-types/src/state.rs:151-155 | once the i64 time difference wraps, more activity scores less |
| Scores.ReachableScores | crates/rc-types/src/state.rs:117-178 | both score bounds hold for every participant of every reachable state in which no executed rating overflowed a counter |
| Scores.CountersHoldIff | crates/rc-state/src/modules/settlement.rs:70-79 | over a run successes never exceed transactions and ratings never exceed 500 times their count if and only if no rating that executes overflows a counter |
| Scores.CountersHoldInRuns | crates/rc-state/src/modules/settlement.rs:70-79 | in particular both hold at the end of such a run |
| Scores.RatingKeepsCountersIff | crates/rc-state/src/modules/settlement.rs:70-79 | a rating keeps the counters consistent if and only if it does not overflow them |
| Scores.OverflowingRatingBreaksCounters | crates/rc-state/src/modules/settlement.rs:70-79 | a failed rating at the top of the counter breaks them and drops a perfect score to 0 |
| Scores.ReleaseNeverLowersScores | crates/rc-state/src/modules/escrow.rs:83-94 | a release lowers nobody's score |
| Scores.SettleNeverLowersScores | crates/rc-state/src/modules/settlement.rs:35-41 | recording a settlement lowers nobody's score |
| Replication.FollowerSimulatesLeader | crates/rc-node/src/main.rs:344-361 | for every drained list, a follower that replays the kept transactions reports the same events, ends with the same six tables, and has nonces behind the leader's exactly for senders whose last transaction past the nonce check was rejected |
| Replication.FollowerAcceptsIff | crates/rc-state/src/lib.rs:244-253 | from any reachable state the follower's ledger equals the leader's if and only if no sender was left behind; then the root check passes, and otherwise only a collision of the root could let it pass |
| Replication.FollowerAcceptsByImage | crates/rc-store/src/lib.rs:185-200 | the same with the root as the store computes it: short of a collision of those two images, the check passes if and only if no sender was left behind |
| Replication.DoomedProposal | crates/rc-state/src/lib.rs:45-60 | a rejected transfer of nothing before a valid registration leaves followers with another nonce table and otherwise the same state |
| StateMachine.StateMachine.CheckAndUpdateNonce | crates/rc-state/src/lib.rs:45-55 | passes exactly nonces above the stored one, stores them, and changes nothing else |
| Replays.NoncesIncrease | crates/rc-state/src/lib.rs:45-55 | in every run the transactions of one sender that pass the nonce check carry increasing nonces |
| Replays.StaleIsRefused | crates/rc-state/src/lib.rs:45-60 | a transaction is refused for its nonce, without any effect, if and only if its nonce is not above the stored one |
| StateMachine.StateMachine.RecordAnchor | crates/rc-state/src/lib.rs:194-222 | the anchor branch of the dispatch equals its rule |
| StateMachine.StateMachine.Dispatch | crates/rc-state/src/lib.rs:62-222 | the fourteen branches equal the rule of the payload, and touch neither nonces nor blocks nor the latest height |
| StateMachine.StateMachine.Execute | crates/rc-state/src/lib.rs:58-223 | equals the rule for one transaction on all seven tables, and touches neither blocks nor the latest height |
| StateMachine.StateMachine.ApplyBlock | crates/rc-state/src/lib.rs:226-259 | the loop equals the replay of the block, and that is the run of its signed transactions: every nonce it changes was signed for; the block is stored exactly when the root matches, the tables change in either case |
| Replays.ReplayIsSignedRun | crates/rc-state/src/lib.rs:229-242 | from any ledger, replaying a list is running its signed transactions in order: same ledger, same events |
| Replays.UnsignedIsIgnored | crates/rc-state/src/lib.rs:231-234 | an unsigned transaction inserted anywhere in a block changes neither ledger nor events |
| Replays.ReplayedNoncesAreBacked | crates/rc-state/src/lib.rs:231-242 | every nonce a replay changes only grows, and some signed transaction of the list has that sender and that nonce |
| Replays.LeadIsRun | crates/rc-node/src/main.rs:344-354 | production is the run of everything drained, signed or not, and keeps the transactions that succeed in it |
| TokenModule.Mint | crates/rc-state/src/modules/token.rs:5-20 | equals crediting the earned balance, and reports the mint |
| TokenModule.Transfer | crates/rc-state/src/modules/token.rs:23-63 | equals its rule, errors included |
| TokenModule.Spend | crates/rc-state/src/modules/token.rs:66-100 | equals its rule, errors included |
| ParticipantModule.Register | crates/rc-state/src/modules/participant.rs:4-45 | equals its rule, errors included |
| ParticipantModule.Update | crates/rc-state/src/modules/participant.rs:47-68 | equals its rule, errors included |
| ParticipantModule.Deactivate | crates/rc-state/src/modules/participant.rs:70-84 | equals its rule, errors included |
| SettlementModule.Record | crates/rc-state/src/modules/settlement.rs:5-55 | equals its rule, errors included |
| SettlementModule.RecordRating | crates/rc-state/src/modules/settlement.rs:57-98 | equals its rule, errors included |
| EscrowModule.Create | crates/rc-state/src/modules/escrow.rs:6-50 | equals its rule, errors included |
| EscrowModule.Release | crates/rc-state/src/modules/escrow.rs:52-109 | equals its rule, with the writes that precede each error |
| EscrowModule.Refund | crates/rc-state/src/modules/escrow.rs:111-144 | equals its rule, with the writes that precede each error |
| DisputeModule.Raise | crates/rc-state/src/modules/dispute.rs:5-61 | equals its rule, errors included |
| DisputeModule.SubmitEvidence | crates/rc-state/src/modules/dispute.rs:63-90 | equals its rule, errors included |
| DisputeModule.Tally | crates/rc-state/src/modules/dispute.rs:134-156 | the loop over two u32 counters computes the resolution |
| DisputeModule.Award | crates/rc-state/src/modules/dispute.rs:165-187 | books a resolution on winner and loser as its rule does |
| DisputeModule.Vote | crates/rc-state/src/modules/dispute.rs:92-198 | equals its rule, errors included |
| KvStore.KvStore.SetState | crates/rc-store/src/lib.rs:219-228 | on the byte-keyed database, writes one record of one table and disturbs no other table, no block and not the latest height |
| KvStore.KvStore.GetState | crates/rc-store/src/lib.rs:204-217 | reads and decodes exactly the record last written under that table and key, and finds nothing where none was written |
| KvStore.KvStore.GetNonce | crates/rc-store/src/lib.rs:131-139 | reads the stored nonce, and 0 where none is stored |
| KvStore.KvStore.PutBlock | crates/rc-store/src/lib.rs:45-57 | stores the block and makes its height the latest, even a lower one |
| KvStore.KvStore.GetBlock | crates/rc-store/src/lib.rs:59-68 | reads the block last stored at that height |
| KvStore.KvStore.GetLatestHeight | crates/rc-store/src/lib.rs:70-77 | reads the height stored last, and 0 where none is stored |
| KvStore.KvStore.ComputeStateRoot | crates/rc-store/src/lib.rs:185-200 | hashes an image that is a function of the seven state tables alone: not of the order of writes, the blocks or the latest height |
| KvStore.FeedTable | crates/rc-store/src/lib.rs:189-196 | the inner loop feeds keys and values of the entries from the lower bound of a prefix up to the first key without it |
| KvStore.ScanListsTable | crates/rc-store/src/lib.rs:189-196 | such a scan visits the rows of its table, each once, in the order of their identifiers |
| KvStore.EqualRootsIff | crates/rc-store/src/lib.rs:185-200 | unless the two images collide, roots are equal if and only if all seven tables are |
| StateImage.LedgerImageInjective | crates/rc-store/src/lib.rs:185-200 | images are equal if and only if the tables are, although keys and values are hashed without delimiters |
| StateImage.KeysDiffer | crates/rc-store/src/lib.rs:7-15 | no two keys of the eight tables and the latest height coincide |
| StateImage.OnlyItsTable | crates/rc-store/src/lib.rs:7-26 | a key has the prefix of a state table if and only if it belongs to it |
| Codec.DeserializeSerialized | crates/rc-store/src/lib.rs:204-228 | reading a written record of any of the seven tables gives it back, whatever bytes follow |
| Codec.SerializePrefixFree | crates/rc-store/src/lib.rs:219-228 | the bincode form of a record of a table is never a proper prefix of another's, and determines the record |
| Database.ScanIsExact | crates/rc-store/src/lib.rs:189-193 | in a sorted database a scan sees an entry if and only if its key has the prefix |
| Database.InsertMembers | crates/rc-store/src/lib.rs:219-228 | a put replaces the entry of its key and touches no other |
| Store.Store.GetBalance | crates/rc-store/src/lib.rs:105-113 | an absent account reads as an empty one of that owner |
| Store.Store.PutBlock | crates/rc-store/src/lib.rs:45-57 | the same on typed tables |
| Rotation.RotationIsFairIff | crates/rc-consensus/src/lib.rs:119-126 | with distinct ids, every validator leads exactly once among n consecutive heights or rounds if and only if the 64-bit sum does not wrap among them or n divides 2^64 |
| Rotation.StepsAreHeightsAndRounds | crates/rc-consensus/src/lib.rs:119-126 | consecutive heights at one round and consecutive rounds at one height are such consecutive steps |
| Rotation.LeaderIgnoresView | crates/rc-consensus/src/lib.rs:458-463 | nodes with the same validators list and elect them alike, whichever is self and in whatever order peers became known |
| Rotation.LeaderHasRank | crates/rc-consensus/src/lib.rs:119-126 | with distinct ids the leader is the validator with exactly (height + round) mod n others below it |
| Rotation.AllNodesDistinct | crates/rc-consensus/src/lib.rs:458-463 | sorting keeps distinct ids distinct |
| ViewChange.NeverOverdueIff | crates/rc-consensus/src/lib.rs:140-198 | over every run of requests, votes, new peers and resets, no retained vote set for a round above the current one is a majority at any moment, if and only if no request at the last round completes while a completed vote for a higher round is kept |
| ViewChange.StepKeepsNoneOverdueIff | crates/rc-consensus/src/lib.rs:140-198 | the same for one move from any state |
| ViewChange.WrapLeavesOverdue | crates/rc-consensus/src/lib.rs:141-153 | one of three nodes, voted into the last round by the other two, can be back in round 0 with their vote still standing |
| ViewChange.RoundGoesBackIff | crates/rc-consensus/src/lib.rs:140-177 | between resets the round goes back if and only if a request at the last round completes |
| ViewChange.ChangeIsBacked | crates/rc-consensus/src/lib.rs:150-176 | in every run, a round entered was voted for, at one height and since the last reset, by a majority of the nodes known at that moment |
| ViewChange.CompletedRoundsShareVoter | crates/rc-consensus/src/lib.rs:140-177 | two nodes that know the same number of validators and heard from validators only, and that have each entered a round, share a validator that voted for both |
| ViewChange.ThresholdIsLeast | crates/rc-consensus/src/lib.rs:143 | the threshold makes any two sets of that many validators meet, and no smaller number does |
| ViewChange.StrangersCount | crates/rc-consensus/src/lib.rs:165-176 | votes need not come from validators: two strangers move one of three nodes into another round |
| ViewChange.DeliveriesElectWinner | crates/rc-consensus/src/lib.rs:161-177 | after any deliveries at one height the round is the largest with a majority of distinct voters, or 0 |
| ViewChange.DeliveriesCommute | crates/rc-consensus/src/lib.rs:161-177 | the final round depends on which votes were delivered, not on their order or number |
| ViewChange.HeightsDoNotCommute | crates/rc-consensus/src/lib.rs:172 | across heights the order of delivery does matter |
| Consensus.SameVotesSameLeader | crates/rc-consensus/src/lib.rs:114-126 | nodes with the same validators that heard the same votes at a height name the same leader for it |
| Consensus.Consensus.RequestViewChange | crates/rc-consensus/src/lib.rs:140-157 | equals the tally step, wrap-around included; it completes if and only if its voters for the next round are more than half of the nodes known |
| Consensus.Consensus.ReceiveViewChange | crates/rc-consensus/src/lib.rs:161-177 | equals the tally step; it changes the round if and only if the voted round is higher and its voters are more than half of the nodes known |
| Consensus.Consensus.ResetRound | crates/rc-consensus/src/lib.rs:180-183 | back to round 0 without votes |
| Consensus.Consensus.AddPeer | crates/rc-consensus/src/lib.rs:187-198 | adds an id if and only if it is unknown, and keeps distinct ids distinct |
| Consensus.Consensus.VerifyAndSign | crates/rc-consensus/src/lib.rs:253-310 | signs if and only if proposer, previous hash, transaction hash and, if its signer is a known peer, the first signature are right |
| Consensus.Consensus.VerifyBlockSignature | crates/rc-consensus/src/lib.rs:313-326 | accepts exactly the signatures that verify under a known id's key |
| Consensus.Consensus.IsFinalized | crates/rc-consensus/src/lib.rs:329-355 | the loop counts each known id with at least one valid signature, and each unknown id, once, whatever the order and the duplicates |
| Consensus.AcceptsOnlySignedIff | crates/rc-consensus/src/lib.rs:272-292 | a follower signs only what its proposer validly signed if and only if the first signature names the leader of that height and the leader is a known peer |
| Consensus.Consensus.PushTxs | crates/rc-consensus/src/lib.rs:109-111 | appends to the pool |
| Consensus.Consensus.CollectPendingTxs | crates/rc-consensus/src/lib.rs:92-96 | appends what waits in the node's own channel, in order |
| Consensus.Consensus.DrainPendingTxs | crates/rc-consensus/src/lib.rs:104-106 | returns the pool and empties it |
| Quorum.VerifiedSignersCount | crates/rc-node/src/main.rs:216-217 | when every signature was verified on arrival, what is counted is the distinct validators that signed |
| Quorum.CountSplits | crates/rc-consensus/src/lib.rs:345-347 | in general the count is that of known ids with a valid signature plus that of unknown ids present |
| Quorum.QuorumsMeetIff | crates/rc-consensus/src/lib.rs:354 | any two sets of that many validators share one if and only if twice the number exceeds the validators |
| Quorum.FinalizedBlocksShareSigner | crates/rc-consensus/src/lib.rs:329-355 | two blocks finalized from verified signatures, by nodes with the same validators, share a signer of both headers |
| Node.Node.OnSign | crates/rc-node/src/main.rs:211-224 | keeps a signature for the pending block if and only if it verifies |
| Node.Node.OnViewChange | crates/rc-node/src/main.rs:226-231 | tallies the vote |
| Node.Node.OnHandshake | crates/rc-node/src/main.rs:232-246 | learns the peer unless it is known, and then answers it with a handshake |
| Node.Node.TryFinalize | crates/rc-node/src/main.rs:249-274 | stores and forgets the pending block when it has its quorum, discards it when it is too old |
| Node.Node.OnProposal | crates/rc-node/src/main.rs:430-479 | refuses, or signs and replays, as the rule for proposals does; the reply stands even if replay fails |
| Node.Node.FeedTransactions | crates/rc-node/src/main.rs:281-286 | adds the incoming transactions and then those of the node's own channel to the pool |
| Node.Node.CheckViewChangeTimeout | crates/rc-node/src/main.rs:293-311 | requests a view change for the next height once the timeout has passed |
| Node.Node.ExecuteAll | crates/rc-node/src/main.rs:344-355 | the production loop keeps exactly the successful transactions, in order, and all events |
| Node.Node.PublishBlock | crates/rc-node/src/main.rs:388-413 | stores the block, or keeps it pending for signatures |
| Node.Node.ProduceBlock | crates/rc-node/src/main.rs:313-425 | equals the rule for production |
| Node.Node.DrainMessages | crates/rc-node/src/main.rs:205-247 | reacts to each message in order, sends the answers, and sets proposals and transactions aside |
| Node.Node.HandleProposals | crates/rc-node/src/main.rs:276-279 | handles the proposals in order and broadcasts each signature |
| Node.Node.Receive | crates/rc-node/src/main.rs:205-279 | messages, pending block and proposals, in that order |
| Node.Node.Tick | crates/rc-node/src/main.rs:196-427 | one iteration is the sequence of its numbered steps, and sends exactly the handshakes, signatures, votes and blocks of those steps, in order |
| Chain.FollowerChain | crates/rc-node/src/main.rs:430-479 | for every list of proposals, valid or not, the stored heights stay exactly 0 to the latest, each block names its predecessor's hash, and no stored block changes |
| Chain.KeepsBlocksIff | crates/rc-node/src/main.rs:250-266 | in any state a step of the full loop loses a stored block if and only if it finalizes a pending block, or stores a new one at once, at a height that another block has taken |
| Chain.LoopKeepsBlocksIff | crates/rc-node/src/main.rs:250-413 | after any steps from a linked chain with nothing pending, short of 2^64 blocks, only the first of the two can happen: a new block never replaces one |
| Chain.HeightsStayGrounded | crates/rc-node/src/main.rs:326-332 | over every sequence of steps of the full loop the stored heights stay downward closed |
| Chain.PendingStaysVerified | crates/rc-node/src/main.rs:211-224 | over every sequence of steps the pending block holds verified signatures of known validators only |
| Chain.FinalizedByQuorum | crates/rc-node/src/main.rs:249-266 | finalizing it means that at least `min_signatures` distinct validators signed its header |
| Production.BodiesMatchHeaders | crates/rc-consensus/src/lib.rs:294-299 | over every sequence of steps, every stored or pending block carries the transactions its header commits to |
| Production.HeaderDecides | crates/rc-consensus/src/lib.rs:294-299 | two nodes that store one header at a height store the same transactions, unless those two lists collide |
| Production.TamperedIsRefused | crates/rc-consensus/src/lib.rs:294-299 | a proposal whose transactions are not those of its header gets no reply and changes nothing |
| Production.ReplyIsKept | crates/rc-node/src/main.rs:211-224 | the signature a follower replies with is kept by a proposer that still waits for that block and knows the follower, which then counts as a signer |
| Production.StoresProposalIff | crates/rc-state/src/lib.rs:226-259 | a follower runs the signed transactions of a proposal if and only if it replies, and then stores the block if and only if the header states no root or that of this run |
| Production.NewPeerIsKnownByKey | crates/rc-consensus/src/lib.rs:187-198 | signatures of a discovered peer verify exactly under the key it announced |
| Production.PendingOutcome | crates/rc-node/src/main.rs:249-274 | a pending block with its quorum is stored at its height, however old, and the node is back in round 0 without votes; without it, it is given up if and only if it is older than two block times, rounded down to an even number, and otherwise nothing changes |
| Production.ArrivedSignatureIsHeld | crates/rc-node/src/main.rs:205-247 | a valid signature for the pending block that arrives while messages are drained is held afterwards, whatever arrives before or after it |
| Production.FinalizedInTime | crates/rc-node/src/main.rs:205-279 | if valid signatures of enough different nodes are held or arrive among the messages, in whatever order, the pending block is stored in that iteration |
| Production.ProducesFromAllFed | crates/rc-node/src/main.rs:281-354 | production comes last in an iteration and finds in the pool what was left over and everything that arrived in it, in order |
| Production.MakesBlockIff | crates/rc-node/src/main.rs:288-358 | a node makes a block if and only if nothing is pending, it leads the next height, it has the block before, and some transaction of its pool succeeds |
| Production.NewBlockCarries | crates/rc-node/src/main.rs:360-386 | a new block lists exactly the transactions that succeeded, in order, with their number and hash, the root after the whole pool, its maker, the time, and the maker's valid signature alone |
| Production.LeadingDrainsPool | crates/rc-node/src/main.rs:334-358 | leading its turn a node executes its whole pool and empties it, whether or not that gives a block; otherwise it changes nothing |
| Production.PoolIsQueue | crates/rc-node/src/main.rs:281-286 | over any actions without production the pool is what it was, followed by everything fed, in order |
| Production.AsksIff | crates/rc-node/src/main.rs:293-311 | a node asks for a view change exactly when the timeout has passed with nothing pending and peers at the start, counts its own vote for the round it announces, and restarts the clock if and only if that vote made a majority |
| Production.ClockIff | crates/rc-node/src/main.rs:249-420 | the clock restarts exactly when the node finalizes a block, stores one it makes, or completes the view change it asks for; following another node's block does not restart it |
| Chain.ActIsMove | crates/rc-node/src/main.rs:226-402 | each action moves a node's view by exactly the view-change move that belongs to it, if any |
| Chain.ActsAreMoves | crates/rc-node/src/main.rs:226-402 | running the loop is a run of the view-change protocol |
| Chain.ActKeepsNoneOverdue | crates/rc-consensus/src/lib.rs:140-198 | one action of the loop keeps the view-change invariant if and only if its move does not overtake a completed vote |
| Chain.LoopNeverOverdueIff | crates/rc-consensus/src/lib.rs:140-198 | the same over every list of actions |
| Agreement.StoredBlocksAgree | crates/rc-node/src/main.rs:196-479 | in every interleaving of honest nodes with shared validators and genesis, with messages lost, reordered and duplicated, no completed view change and no discarded pending block, nodes that store a block at one height store the same header and transactions |
| Agreement.OneProposalPerHeight | crates/rc-node/src/main.rs:313-410 | in such a network two proposals for one height are the same |
| Agreement.ChainsOnlyGrow | crates/rc-node/src/main.rs:250-266 | in such a network every node's chain stays linked and only grows, a producer's included |
| Agreement.HappenKeepsSound | crates/rc-node/src/main.rs:196-479 | every step keeps what agreement rests on: a proposer has stored or keeps pending whatever it proposed, and the pending block is its next one |
| Ledgers.LedgersAgree | crates/rc-node/src/main.rs:344-361 | if moreover productions leave no sender behind and keep signed transactions only, every node's ledger is the replay of its stored blocks and its pending one, and two nodes at one height with nothing pending hold equal ledgers, nonces included |
| Ledgers.HappenStaysInStep | crates/rc-state/src/lib.rs:244-256 | every step keeps that, and every proposal states the root of what its followers replay, so that no root check fails |
| Ledgers.CleanLeadReplays | crates/rc-node/src/main.rs:344-361 | what such a leader executed is what its followers replay, nonces included |
| Forks.DiscardingForks | crates/rc-node/src/main.rs:268-273 | for any stated roots: a leader discards a pending block that one follower stored and proposes again, and another follower stores the second block at that height, root check passed |
| Forks.LateFinalizationReplaces | crates/rc-node/src/main.rs:253-265 | for any stated roots: a pending block finalized after a view change replaces the block stored at its height meanwhile, root check passed |

## Left out

- TCP framing, connection limits, timeouts of sends, channels, locks and async scheduling: a message is a value, and a step runs to its end.
- RPC, command line, configuration parsing, key files, logging and hex formatting.
- Ed25519 and blake3: `verify`, `sign` and the hashes are parameters; `Chain.KeysMatch` states the one property of signatures used.
- The bytes of stored blocks: a block is an opaque value in the byte-level store and a record in the typed one.
- The typed store under the state machine and the byte-level store are two models; both are specified by the same ledger, whose update `StateImage.With` is that of the typed setters.
- RocksDB failures, iterator snapshots and `StoreBatch`, which the state modules do not use.
- The clock: every timestamp is an argument; the two readings of one loop step are one argument.
- `trust_90_monthly` and `referral` rewards, which no code reads; memos, purposes and metadata are byte strings without UTF-8 rules.
- `Consensus.propose_block` and `has_pending_txs` as separate operations: the node loop builds blocks itself.
- Error texts: an error is a constructor, one per message.
- Overflow of the configured timeouts when cast to i64, and panics of a debug build on overflow.
- Creation of the genesis block at startup and loading of an existing database: a node starts with a store, and networks start with a shared genesis.
- Codec.DeserializeSerialized: says nothing about bytes that no record was written to, and takes vectors to be shorter than 2^64.
- KvStore.KvStore.GetState: makes that same restriction for a dispute's evidence and votes.
- Verdicts.VerdictIsMajority: needs a vote threshold below 2^32; `Disputes.ResolutionIsSignIff` shows that this is exact.
- Verdicts.MajorityWins: makes that same restriction, and so does `Verdicts.WinsMatchVerdicts`.
- ViewChange.CompletedRoundsShareVoter: needs votes by validators only; `ViewChange.StrangersCount` shows why.
- Accounts.AccountsMatchHistory: needs a run without a wrapped credit; `Tokens.RunConserves` counts what is lost otherwise.
- Totals.TotalsMatchHistory: says nothing about the transaction counter from 2^64 transactions on, where it saturates or wraps depending on the payload.
- ScoreParts.LongevityTiers: needs a time difference that fits an i64; `ScoreParts.WrappedDays` says what counts beyond.
- Disputes.ResolutionIsSign: needs fewer than 2^32 votes; `Disputes.ResolutionIsSignIff` shows that this is exact.
- Scores.ReachableScores: needs runs in which no executed rating overflows a counter; `Scores.CountersHoldIff` shows that this is exact.
- Chain.LoopKeepsBlocksIff: needs a chain shorter than 2^64 blocks, after which heights start over at 0.
- Ledgers.LedgersAgree: says nothing about a network in which a rejected transaction left a sender behind; `Replication.DoomedProposal` shows why.
- Agreement.StoredBlocksAgree: says nothing once a view change completes, a pending block is discarded or the validators change; `Forks.DiscardingForks` and `Forks.LateFinalizationReplaces` show why.
