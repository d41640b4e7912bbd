# Byzantine agreement and catchup, verified

This project models the core of the node's agreement protocol and of its block catchup, and
proves what every run of them keeps. It has four parts.

1. **Votes, quorums and bundles.** A vote tracker counts the weighted votes of one step. An
   account that votes for two values becomes an equivocator and from then on counts for every
   value. `Tally.dfy` says what a set of ballots means, without order. `VoteTracker.dfy` is the
   object with its maps, proved to hold exactly that tally after every vote. When a value first
   goes over the quorum the tracker emits one threshold event with a bundle (`GenBundle.dfy`,
   `Bundle.dfy`) that any other node can verify and replay (`VoteAggregator.dfy`).
   `ThresholdExample.dfy` shows the thresholds of one consensus version at work.
   `Freshness.dfy` orders the events of a round.
2. **The player and the network.** `Player.dfy` is the machine of rounds, periods and steps with
   its votes, timeouts and deadlines (`Deadlines.dfy`); `PlayerActions.dfy` says what its actions
   mean and `PlayerRun.dfy` proves what whole runs of one player promise. `ProposalStore.dfy` and
   `StoreMachine.dfy` are the proposal trackers and the payload store below it.
   `NodeProtocol.dfy` and `Network.dfy` put honest nodes and an adversary together and prove
   agreement over every run: one cert quorum fixes the value of the round for ever.
   `PlayerView.dfy`, `PlayerNetwork.dfy` and `PlayerWorld.dfy` connect the two: every handler of
   the player, one that ensures a block and leaves its round included, is a stretch of a network
   run, and a round just entered starts as a fresh node. `PlayerSystem.dfy` composes everything:
   players, their vote trackers and faulty accounts under an arbitrary schedule of deliveries never
   issue two ensures with different blocks for one round, and each ensure carries a certificate
   (`Certificate.dfy`) that authenticates its block. `NetworkExample.dfy` and `SystemExample.dfy`
   show that the assumptions can be met and a block ensured; `PlayerForks.dfy` shows, with three
   honest players, that one of the assumptions cannot be dropped.
3. **The router.** `Router.dfy` is the tree of sub-machines with its garbage collection, proved
   invisible to every disciplined driver. `MessageFilters.dfy` shows that the freshness filters
   on votes and the player's own reads stay within that discipline, and which bundles and which
   read do not.
4. **Catchup.** `Pipeline.dfy` is the pipelined block fetcher as a state machine over all
   interleavings of its main thread, its workers and their channels. `CatchpointBackfill.dfy` is
   the backward hash-chain download after a catchpoint.

Assumptions:

- A verified vote weighs at least 1, and its weight is a function of its sender within a step.
  Thresholds are at least 1. Total weight fits in 64 bits, so the counters, which never exceed it
  (`Tally.TotalForBounded`), are unbounded numbers here.
- Signature, VRF and hash functions are deterministic oracles. `CatchpointBackfill.ChainUnique`
  alone assumes collision-free hashing.
- Runs stop at the two safety panics of the vote tracker; both are outcomes of the model.
- Across periods: one weight per account and round, and for each threshold T, twice T exceeds the
  total weight plus the faulty weight. Fast-recovery votes are cast only from the first next step on.
- A node keeps the block of a cert vote while it is in the period of that vote. Only a proposal-vote
  can break this (`PlayerNetwork.DropsNoCertVote`), so the composed system only leaves out
  proposal-votes that would, by the exact condition of `ProposalStorage.SurvivesIff`. Without the
  assumption agreement fails for the players themselves (`PlayerForks.Fork`).
- A round interruption names a later round than the player's.

What the code does that its documentation does not promise:

- A threshold event for a block that is already assembled returns before the store marks the
  block relevant in that period. A staged, committable block can then be lost to a proposal-vote of
  the earlier period in which it is relevant (`ProposalStorage.EarlyReturnLosesBlock`). An event
  keeps an assembled block exactly when `ProposalStorage.SurvivesIff` says so. A block that is also
  relevant in the period it is staged in is safe until that period is dropped. A player can lose
  a block it has cert-voted that way, and next-vote bottom in the same period
  (`PlayerForks.CertVoterForgets`).
- The range of a next step doubles in signed 64-bit arithmetic. It is exact up to step next+31 and
  no further (`Deadlines.NoOverflowIff`). The vote of step next+32 sets a negative deadline
  (`Deadlines.DeadlineFalls`), so deadlines rise within a period exactly up to step next+31
  (`Deadlines.RisesIff`). From step next+54 the length of the range is zero modulo 2^64 and reducing
  random entropy by it panics, so a player that runs never reaches the fast-recovery step numbers.
- The comments beside the range computation speak of 2500 ms; the configured value is 2000 ms.
- The catchpoint back-fill also returns no error when it is stopped by a cancelled context. The
  model tells the two apart: the stage has been switched exactly when the back-fill completed.

## Model

| member | source | states |
|---|---|---|
| AgreementTypes.QuorumByStep | agreement/types.go:91-131 | each step reaches its quorum exactly at its own committee threshold, every unnamed step at the next threshold, the propose step never |
| Tally.OverByStep | agreement/voteTracker.go:256-310 | a value is over exactly when it has a direct supporter and its supporters and the equivocators weigh at least the threshold of the step, named step by step |
| Tally.OverPersists | agreement/voteTracker.go:193-228 | once over quorum, a value stays over and keeps a direct supporter in every larger vote set whose equivocators are no quorum |
| Tally.SafeInherits | agreement/voteTracker.go:179-187 | if a vote set meets neither panic condition, none of its parts does |
| Tally.ReportedPersists | agreement/voteTracker.go:230-234 | a safe extension of a vote set that has a value over quorum reports the same value |
| Tally.TotalForBounded | agreement/voteTracker.go:74-78 | the weight counted for any value never exceeds the weight of the distinct senders heard |
| TallyMaps.FirstVote | agreement/voteTracker.go:140-142 | storing a new sender's vote keeps Voters equal to the senders with one value |
| TallyMaps.FirstCount | agreement/voteTracker.go:144-154 | counting it keeps every counter equal to its supporters' votes and weight sum, with no empty counter |
| TallyMaps.SecondVote | agreement/voteTracker.go:214-215 | removing an equivocator keeps Voters equal to the senders with one value |
| TallyMaps.SecondPair | agreement/voteTracker.go:203-213 | the pair stored for an equivocator holds two different values it voted for, and Equivocators are exactly the senders with two or more |
| TallyMaps.SecondCount | agreement/voteTracker.go:189-201 | taking an equivocator out of its counter keeps every counter right, deleting the counter exactly when nobody else supports it |
| VoteTracking.VoteTracker.Count | agreement/voteTracker.go:74-78 | in a tallied state it is the weight of the value's supporters plus all equivocators |
| VoteTracking.VoteTracker.OverThreshold | agreement/voteTracker.go:299-310 | nothing, the one value, or two different values over the threshold, each answer exactly when it is so |
| VoteTracking.VoteTracker.OverMeansOver | agreement/voteTracker.go:299-310 | a counted value reaches the quorum exactly when the order-free tally says it is over |
| VoteTracking.VoteTracker.HandleVote | agreement/voteTracker.go:94-253 | after any vote the maps are the tally of the votes seen; an event is emitted exactly when a value goes over for the first time, with a provable bundle; the panics occur exactly when the vote set is unsafe |
| VoteTracking.VoteTracker.ReportsByStep | agreement/voteTracker.go:230-253 | what a tracker has reported is exactly the value whose weight reaches the threshold of its step, named step by step |
| ThresholdExample.OneVote | config/consensus.go:703-739 | with six different thresholds, one vote is reported and its bundle verified exactly from the weight its step demands |
| VoteTracking.VoteTracker.FilterVote | agreement/voteTracker.go:254-279 | a vote is filtered exactly when delivering it could not change the tally |
| VoteTracking.VoteTracker.Packable | agreement/voteTracker.go:236-251 | a value over quorum meets every precondition of bundle generation |
| VoteTracking.VoteTracker.NoVotersNothingOver | agreement/voteTracker.go:221-227 | when no plain voter is left nothing is over, so returning early loses no event |
| VoteAggregation.DeliverAll | agreement/voteTracker.go:94-253 | a run of votes halts exactly when the final vote set is unsafe, in whatever order, and yields an event exactly when a value newly went over |
| VoteAggregation.OrderIndependent | agreement/voteTracker.go:94-253 | two trackers that saw the same votes in any orders hold the same senders, counts and weights and have emitted the same |
| VoteAggregation.BundleDecides | agreement/voteAggregator.go:147-177 | a safe tally that contains a verified bundle is over quorum for the bundle's value |
| VoteAggregation.ReplayBundle | agreement/voteAggregator.go:147-177 | replaying a verified bundle into any reachable tracker leaves it over quorum for the bundle's value with one event emitted so far, for that value |
| Bundles.MakeBundle | agreement/bundle.go:88-147 | each of its three failures has its exact condition; a bundle takes the shortest prefix of votes, then of pairs, that reaches the quorum |
| Bundles.CheckDistinct | agreement/bundle.go:189-202 | accepts exactly the bundles whose senders, of votes and pairs together, are distinct |
| Bundles.Verify | agreement/bundle.go:174-283 | unless the version is unknown or the context cancelled, success exactly for bundles that authenticate, have distinct senders, are no larger than the threshold and reach the quorum, and returns those votes |
| Bundles.ProvesByStep | agreement/types.go:91-131 | a bundle of distinct authentic votes is proven exactly when the threshold of its step, named step by step, lies between its size and its weight |
| Bundles.VerifiesIff | agreement/vote.go:109-159 | the oracles apart, a vote verifies exactly unless it is for bottom before the next steps, or a proposal-vote for a value of a later period or of another proposer's in its own |
| Bundles.PairVerifiesIff | agreement/vote.go:206-236 | an equivocation pair verifies exactly if both votes do and differ in value |
| Certificates.Authenticate | agreement/certificate.go:39-64 | accepts exactly a cert-step bundle of the block's round and hash that is a quorum of authentic votes; each other error under its exact condition |
| Bundles.SortSenders | agreement/voteTracker.go:316-327 | lists every sender once, in descending order |
| Bundles.DescendingMeans | agreement/voteTracker.go:325-327 | that order is by weight, and among equal weights by larger address |
| Bundles.HeaviestFirst | agreement/voteTracker.go:318-333 | no set of n senders outweighs the first n of the heaviest-first listing |
| BundleGeneration.GenBundle | agreement/voteTracker.go:314-352 | never fails on a quorum; the bundle passes verification; pairs are used only if all votes together fall short, and a bundle without pairs has the fewest votes any quorum of supporters could have |
| BundleGeneration.ExactIsSmall | agreement/bundle.go:183-187 | a cut that stops at the quorum takes no more votes and pairs than the threshold |
| BundleGeneration.ExactIsThrifty | agreement/voteTracker.go:328-349 | cutting the heaviest-first listing at the quorum gives the minimal number of votes |
| HonestMajority.OverIsBacked | agreement/types.go:91-109 | a value over quorum on any node is supported by honest weight that with all faulty weight reaches the threshold |
| HonestMajority.BackedByStep | agreement/types.go:91-131 | that threshold is the one of the step, named step by step |
| HonestMajority.SoundIff | agreement/types.go:91-131 | the weight assumption is twice each of the six thresholds exceeding total plus faulty weight |
| HonestMajority.SameStepAgreement | agreement/voteTracker.go:299-310 | trackers fed any two parts of one vote set never have different values over quorum |
| HonestMajority.NoPanic | agreement/voteTracker.go:179-187 | with honest senders voting once, neither safety panic is reachable on any part of the votes |
| Freshness.FreshnessIsRank | agreement/events.go:673-729 | on events of one round, freshness is exactly the strict order of ranks: cert on top, else period, then soft, next for a value, next for bottom |
| Freshness.RankByKind | agreement/events.go:673-729 | the order itself: a certificate above all else, then the later period, then bottom above a value above a soft quorum |
| Freshness.AboveIsStrictOrder | agreement/voteAuxiliary.go:89-96 | the rank order is irreflexive, transitive and total on distinct ranks |
| Freshness.RecordsRise | agreement/voteAuxiliary.go:123-128 | the events passed up strictly increase in rank |
| Freshness.LastRecord | agreement/voteAuxiliary.go:141-147 | the last event passed up is the first one offered to reach the highest rank so far |
| Freshness.VoteTrackerRound.HandleThreshold | agreement/voteAuxiliary.go:141-147 | an event is passed up exactly when it outranks the freshest so far; the events passed are the running records of those offered |
| Freshness.VoteTrackerRound.FreshestBundle | agreement/voteAuxiliary.go:148-149 | answers with the first event that reached the highest rank, if any was seen |
| Freshness.VoteTrackerPeriod.HandleNextThreshold | agreement/voteAuxiliary.go:70-77 | the cache says whether bottom was among the next-thresholds and which value came last |
| Freshness.LastValueOnly | agreement/voteAuxiliary.go:70-79 | when all next-thresholds for a value agree, the cached value does not depend on their order |
| NodeProtocol.DoneIff | agreement/player.go:267-279 | a node is done with its round exactly when it ensures a block or leaves |
| NodeProtocol.Kept | agreement/player.go:145-351 | every reaction of an honest node keeps: one vote per period and step, each vote grounded in a quorum or in the cache, a cert-voted value committable in its period |
| NodeProtocol.KeptBySoftTimeout | agreement/player.go:145-181 | the soft timeout keeps the node invariant: a soft vote is prompted by a next quorum of the previous period, or a soft quorum of this one already exists |
| NodeProtocol.NextGround | agreement/player.go:189-249 | a next, late, redo or down vote follows a soft quorum, the previous period's value, or the absence of both, and never contradicts a cert vote of the period |
| Network.NextUnique | agreement/player.go:189-209 | in every state two next quorums of one period for values other than bottom are for the same value |
| Network.BottomFollowsBottom | agreement/player.go:189-209 | in any period after the first, a next quorum for bottom repeats a next quorum for bottom of the period before |
| Network.CertLocks | agreement/player.go:262-351 | after a cert quorum for v, every backed soft, cert or next quorum of that period or later is for v |
| Network.RunKeeps | agreement/player.go:145-351 | the network invariant holds in every state of every run of honest and faulty steps |
| Network.CertQuorumLocks | agreement/player.go:145-351 | in every state of every run: once a node could see a cert quorum for v in period p, any quorum a node can see in period p or later, bottom included, is for v |
| Network.Agreement | agreement/abstractions.go:190-194 | no two nodes ever ensure different blocks for a round |
| Network.NoHonestEquivocation | agreement/player.go:189-249 | no honest node ever votes for two values in one period and step, fast-recovery steps included |
| Network.TrackersStaySafe | agreement/voteTracker.go:179-187 | in every run, a tracker fed any part of the votes of a step meets neither safety panic |
| NetworkExample.SomeRunEnsures | agreement/player.go:262-279 | the assumptions can be met and some run ends with a block ensured |
| ProposalStorage.TrackerRemembers | agreement/proposalTracker.go:119-180 | after any events a proposal tracker knows all senders, the last staging value, and holds the first vote with the lowest credential among the first votes of each sender before staging or freezing |
| ProposalStorage.TrimAuthenticators | agreement/proposalStore.go:94-103 | keeps, in order, exactly the proposal-votes of the given period or later |
| ProposalStorage.RecentJoins | agreement/proposalStore.go:94-103 | trimming a list is trimming its parts, in order |
| ProposalStorage.RecentOne | agreement/proposalStore.go:94-103 | a single vote is kept exactly if it is of the period or later |
| ProposalStorage.TrimsByPeriod | agreement/proposalStore.go:354-364 | an accepted proposal-vote, a new period and a threshold for a missing block trim the cached votes of every value by the player's period, and touch no payload |
| ProposalStorage.PayloadOnly | agreement/proposalStore.go:52-79 | a payload changes nothing but its own assembler, and there only the field that was empty |
| ProposalStorage.Authenticator | agreement/proposalStore.go:83-90 | the first cached proposal-vote of the period, or none exactly when there is none |
| ProposalStorage.StoreKept | agreement/proposalStore.go:185-331 | every event keeps: assemblers exist exactly for the relevant and pinned values other than bottom, and payloads, pipelined payloads and authenticators match their key |
| ProposalStorage.RunKeeps | agreement/proposalStore.go:185-331 | the store invariant holds after every sequence of events |
| ProposalStorage.StagedPayload | agreement/proposalStore.go:333-339 | a committable staging value is not bottom and comes with a payload of exactly that value |
| ProposalStorage.SurvivesIff | agreement/proposalStore.go:194-331 | an assembled block survives an event, unchanged, exactly when it stays pinned or relevant, by a condition on the store before the event |
| ProposalStorage.SecuredUntilDropped | agreement/proposalStore.go:269-285 | a block assembled, staged in q and relevant in q stays so through every run until q is dropped |
| ProposalStorage.PinnedOnLeaving | agreement/proposalStore.go:269-285 | leaving the period in which a block is staged, with that value or bottom as starting value, pins the block and keeps its payload |
| ProposalStorage.PinnedIs | agreement/proposalStore.go:269-277 | a new period pins its starting value, else the value staged in the period left, else keeps the pinned one |
| ProposalStorage.LetGoIff | agreement/proposalStore.go:278-285 | it lets go exactly the periods before the one preceding it |
| ProposalStorage.AnchoredSurvives | agreement/proposalStore.go:194-331 | within a period, a block that is pinned, or relevant in a staged or frozen period, cannot be lost |
| ProposalStorage.AcceptedVote | agreement/proposalStore.go:197-208 | an accepted proposal-vote makes its value relevant in its period and, unless older than the player's period, is cached as its authenticator |
| ProposalStorage.ThresholdForMissingValue | agreement/proposalStore.go:322-331 | a threshold for a value without its block makes the value relevant in that period and gives it an assembler |
| ProposalStorage.ThresholdForHeldValue | agreement/proposalStore.go:308-321 | a threshold for an assembled value stages it and leaves the relevant and pinned values as they were |
| ProposalStorage.StagedBlockLost | agreement/proposalStore.go:194-208 | a staged block relevant in one other period only, and not pinned, is lost to any proposal-vote accepted for another value there |
| ProposalStorage.EarlyReturnLosesBlock | agreement/proposalStore.go:315-321 | a run from the empty store in which a committable block of the current period is lost that way |
| ProposalStorage.NextStoreHoldsOne | agreement/proposalManager.go:231-248 | whatever messages arrive while the player is in a round, the next round's store tracks at most one value, so the "too many assemblers" panic is unreachable |
| ProposalStorage.ForNextRoundIff | agreement/proposalManager.go:138-197 | exactly which messages reach the next round's store |
| ProposalStorage.ProposalFreshIff | agreement/proposalManager.go:231-248 | exactly which proposal-votes are fresh: of the player's round those of its period and the two next to it, of the next round those of period 0 |
| StoreMachine.ProposalStore.Trim | agreement/proposalStore.go:354-364 | rebuilds the assemblers for exactly the pinned and relevant values, trimming their authenticators |
| StoreMachine.ProposalStore.LastRelevant | agreement/proposalStore.go:368-380 | whether the value is pinned, and else the greatest period in which it is relevant |
| StoreMachine.ProposalStore.HandleVoteVerified | agreement/proposalStore.go:194-211 | the new store, whether the vote was accepted, and a payload whose value is the vote's |
| StoreMachine.ProposalStore.HandlePayloadPresent | agreement/proposalStore.go:213-239 | a payload is pipelined exactly when its value is tracked and neither assembled nor pipelined; the reply carries the pinned flag, else the last period it is relevant in, and the first proposal-vote of the player's period |
| StoreMachine.ProposalStore.HandlePayloadVerified | agreement/proposalStore.go:241-267 | rejected exactly when untracked or assembled; committable exactly when it is the staging value of the player's period; the reply carries the first proposal-vote of that period |
| StoreMachine.ProposalStore.ReadStaging | agreement/proposalStore.go:333-339 | the staging value, and a payload exactly when committable, of that very value |
| StoreMachine.ProposalStore.ReadPinned | agreement/proposalStore.go:340-346 | the pinned value with its payload, of that very value |
| StoreMachine.ProposalStore.HandleNewPeriod | agreement/proposalStore.go:269-285 | the new store, with the invariant kept |
| StoreMachine.ProposalStore.HandleThreshold | agreement/proposalStore.go:308-331 | stages the value and answers committable exactly when its payload is assembled |
| StoreMachine.ProposalStore.HandleNewRound | agreement/proposalStore.go:287-306 | panics exactly with two or more assemblers; otherwise returns the pipelined payload if there is one, with its pinned flag, its last relevant period and the first proposal-vote of the player's period |
| Deadlines.NextVoteRanges | agreement/types.go:72-87 | for step next+k returns D + E(2^k - 1) and D + E(2^(k+1) - 1), wrapped to signed 64 bits |
| Deadlines.RangesAbut | agreement/types.go:77-81 | each range starts where the one before ends and is twice as long |
| Deadlines.FirstRange | config/consensus.go:1108-1111 | the first next step lasts from 17 to 19 seconds, with the configured lambdas |
| Deadlines.NoOverflow | config/consensus.go:1108-1111 | with the configured lambdas nothing overflows for k up to 31 |
| Deadlines.NoOverflowIff | agreement/types.go:72-87 | the end of a step's range is exact if and only if k is at most 31 |
| Deadlines.RandomDeadline | agreement/player.go:105-114 | up to step next+31, for every random entropy, the nap ends within the step's range and not before the last deadline |
| Deadlines.DeadlineFalls | agreement/player.go:213-215 | step next+32 starts at a positive deadline and its vote sets a negative one, for every random entropy |
| Deadlines.RisesIff | agreement/player.go:101-115 | whatever the random entropies, the deadline never decreases through the steps up to s if and only if s is at most next+31 |
| Deadlines.SpanVanishes | agreement/player.go:109-110 | from k = 54 on the range has length zero modulo 2^64 |
| Deadlines.SpanPositive | agreement/player.go:109-110 | for every k below 54 the length is not zero |
| PlayerView.ViewThreshold | agreement/proposalStore.go:308-331 | to the network model a threshold stages its value, never adds a block, and is committable exactly when its block is held |
| PlayerView.ViewNewPeriod | agreement/proposalStore.go:269-285 | a new period keeps all staging values and the block of its starting value |
| PlayerView.ViewPayload | agreement/proposalStore.go:241-250 | a verified payload adds exactly its block, if tracked and not yet assembled, and else changes nothing |
| PlayerView.BlocksShrink | agreement/proposalStore.go:185-331 | no event but a verified payload ever adds a block |
| PlayerMachine.Player.HandleTimeout | agreement/player.go:79-115 | reacts as the network model does and stays in its round and period; attests exactly the vote that is due: at the soft timeout the value of a next quorum of the period before if no bottom quorum was seen, else the winning proposal if it is original to the period or had such a quorum, else nothing; in next steps a committable value, else that of a next quorum unless bottom was seen, else bottom; proposes and ensures nothing; up to step next+31 the deadline does not decrease if the filter timeout is at most D; panics exactly on entering step next+54 |
| PlayerMachine.Player.HandleFastTimeout | agreement/player.go:125-143 | the first timeout only sets a deadline; later ones vote late for a committable value, else redo for that of a next quorum unless bottom was seen, else down for bottom, and move the deadline to the next multiple of lambda plus the random share |
| PlayerMachine.Player.IssueSoftVote | agreement/player.go:145-181 | attests exactly the soft vote that the quorums seen and the winning proposal-vote call for, if any, and freezes the period's proposal |
| PlayerMachine.Player.IssueNextVote | agreement/player.go:189-217 | after resynchronisation messages attests exactly the value of the next rule, and sets the deadline to the end of the step's range |
| PlayerMachine.Player.PartitionPolicy | agreement/player.go:417-477 | nothing before step next+3 and period 3; from there on the freshest bundle and exactly the payload of the committable value of that bundle's period, or else of the pinned value |
| PlayerMachine.Player.StageThreshold | agreement/proposalManager.go:54-95 | what the proposal manager makes of a threshold: staging values, blocks kept, and whether the value is committable |
| PlayerMachine.Player.EnterPeriod | agreement/player.go:316-351 | moves to the later period at step soft with everything else as the model says; cert-votes exactly a committable value; after a next-threshold proposes exactly its value again, or a new block if it is for bottom, and nothing otherwise |
| PlayerActions.SoftIsDue | agreement/player.go:145-181 | the soft rule is that condition on quorums and winning proposal, in both directions |
| PlayerActions.NextIsDue | agreement/player.go:189-217 | so is the next rule |
| PlayerActions.FastIsDue | agreement/player.go:219-249 | so are the late, redo and down rules |
| PlayerMachine.HandlingPins | agreement/proposalManager.go:54-95 | a threshold of the player's period or later stages its value, and a period it starts pins the value it starts with |
| PlayerMachine.HandlingLetsGo | agreement/proposalManager.go:54-95 | what stays relevant is what is not older than the period before the one it starts, and the threshold's value if its block is missing |
| PlayerMachine.Player.HandleThreshold | agreement/player.go:262-314 | follows the network model and stages the event in the round's store, or leaves the round exactly when a certificate meets its block, then with one ensure of the payload it names on that very event; cert-votes exactly on a soft quorum whose block is there and whose period is ahead or not past step cert; proposes exactly what the event calls for; period, step and clocks change exactly if a period starts; the recursion ends |
| PlayerMachine.Player.HandleCertThreshold | agreement/player.go:267-286 | with the block: ensures it on that certificate and enters the next round; without: stages the value, asks for the block by digest and moves to the certificate's period if later |
| PlayerMachine.Player.HandleSoftThreshold | agreement/player.go:288-301 | stages the value, entering its period if later, and cert-votes exactly when committable at step cert or before |
| PlayerMachine.Player.HandleNextThreshold | agreement/player.go:303-310 | enters the period after the event's, or ignores a stale one, as the model does |
| PlayerMachine.Player.Leave | agreement/player.go:274-279 | issues exactly the one ensure and enters the next round |
| PlayerMachine.Player.StartRound | agreement/player.go:366-397 | the new round starts in period 0 at step soft with a proposal of a new block, as a fresh node of the model with the next-thresholds cached early; its one pipelined payload is sent to verification |
| PlayerMachine.Player.EnterRound | agreement/player.go:353-407 | enters the later round and there follows the model on the event that waits, if any, with exactly the proposals it calls for; it never votes and never leaves again |
| PlayerMachine.FewerAhead | agreement/player.go:399-405 | entering a round with a waiting event leaves fewer waiting rounds ahead, the measure of the recursion |
| PlayerMachine.FreshestKept | agreement/voteAuxiliary.go:141-147 | one more quorum keeps the tie between the player's period and the freshest event: of that period, of the one before, or a certificate, and of a period still kept if every quorum was when it arrived |
| PlayerMachine.Player.NoteQuorum | agreement/voteAuxiliary.go:56-149 | a next-threshold is cached and the event becomes the freshest exactly if it outranks it |
| PlayerMachine.Player.HandleQuorum | agreement/voteAggregator.go:107-117 | a quorum is noted and, if of the player's round and the freshest, handled as in the model with exactly the votes and proposals it calls for, an ensure being on that very quorum; otherwise store and deadline stay; one of the next round is a cached quorum of that round's node |
| PlayerMachine.Player.HandlePayloadVerified | agreement/player.go:587-604 | a late payload of a certified value is ensured with exactly the certificate that waited for it and ends the round, and no other payload does; it is cert-voted exactly if it was staged in the player's period and step cert is not past; as in the model; within the round the deadline stays |
| PlayerMachine.Player.HandleProposalVote | agreement/proposalManager.go:138-161 | the store after a fresh proposal-vote; to the model it only can cost blocks |
| PlayerMachine.Player.HandlePayloadPresent | agreement/proposalManager.go:163-197 | the store after an unverified payload; to the model nothing changes |
| PlayerMachine.Player.HandleRoundInterruption | agreement/player.go:116-117 | enters the later round without vote or ensure |
| PlayerMachine.NextLog | agreement/player.go:95-106 | a next attestation is never repeated in its round, period and step |
| PlayerRuns.Handle | agreement/player.go:66-123 | every input makes the player do what its handler promises; the position never goes back nor the deadline within a period, every ensure is certified for the round being left by the freshest event there, and the log grows by exactly the soft and next attestations among the actions |
| PlayerRuns.Run | agreement/player.go:66-123 | over any sequence of inputs: no soft or next attestation is made twice in a round, period and step; every ensure carries the payload its certificate names, for a round being left, on an event that waited at the start or was given; every proposal in a later period is of the value whose next quorum in the period before was given, or of a new block after one for bottom; the caches show exactly the next quorums heard; between any two moments the position never goes back, and within a period the deadline never decreases up to step next+31 if the filter timeouts are at most D; it stops early exactly on the panic |
| PlayerRuns.RunFromStart | agreement/player.go:66-123 | from the start of a player every ensure of the run is on a certificate that was given, every value proposed again had a next quorum given, and no soft or next attestation is made twice |
| PlayerNetwork.TrackerEventVisible | agreement/voteTracker.go:236-251 | an event of a tracker fed only votes cast in the network is a quorum the network makes visible |
| PlayerNetwork.TrackerEventProven | agreement/voteTracker.go:236-251 | the bundle of a tracker's event is of its round, period, step and value and passes verification |
| PlayerNetwork.NotedIsRemembered | agreement/voteAuxiliary.go:70-77 | where next quorums agree, the mark a next-threshold left in the cache is that threshold |
| PlayerNetwork.DropsNoCertVote | agreement/proposalStore.go:308-331 | no reaction to a threshold, payload or timeout costs a block that backs a cert vote of the period the player is then in |
| PlayerNetwork.FollowStep | agreement/player.go:66-123 | a handler that follows an enabled reaction takes its round's network to the state with its new node and its vote |
| PlayerWorld.StayStep | agreement/player.go:262-351 | a handler that stays in its round keeps every player tied to the networks of its own and all later rounds, with exactly its vote added |
| PlayerWorld.LeaveStep | agreement/player.go:267-279 | so does a handler that ensures a block and leaves; the ensure enters the network of the round left, on a cert-step event with a bundle that proves it |
| PlayerWorld.EnterStep | agreement/player.go:353-407 | so does entering a later round and handling what waits there |
| PlayerWorld.NoteStep | agreement/voteAggregator.go:112-117 | so does a quorum of the next round |
| PlayerWorld.DropStep | agreement/proposalStore.go:194-208 | so does a proposal-vote that costs no cert-voted block |
| PlayerWorld.EnsuredAgree | agreement/abstractions.go:190-194 | whatever the players did, no two of them ensured different blocks for one round |
| PlayerSystem.System.DeliverableIff | agreement/voteAggregator.go:75-117 | which votes a schedule may deliver: every verified vote of an account for the player's round or the next, any from a faulty account, and from an honest one those it cast |
| PlayerSystem.System.GiveVote | agreement/voteAggregator.go:89-117 | an authentic vote, cast by its honest sender or by a faulty account, is counted by the player's tracker and no other; an event comes out exactly when a value first goes over quorum, and exactly then the player handles it |
| PlayerSystem.System.Count | agreement/voteTracker.go:94-253 | no tracker of the system ever panics; an event comes out exactly when a value first goes over quorum, is borne out by the votes cast with a bundle of its own that verifies, and is for bottom only in next steps |
| PlayerSystem.System.Reach | agreement/player.go:66-123 | any other delivery: the player does what the handler of that input promises, its votes are sent and its actions recorded; exactly what the assumptions exclude is refused |
| PlayerSystem.System.RefusedIff | agreement/player.go:66-123 | what a schedule cannot do: let a player cast a fast-recovery vote at step soft or cert, or deliver a proposal-vote that costs it a block it has cert-voted in its period |
| PlayerSystem.KeepsAllIff | agreement/proposalStore.go:194-208 | a proposal-vote is refused exactly when it would cost the player a cert-voted block |
| PlayerSystem.System.Deliver | agreement/player.go:66-123 | whatever is delivered, the player's actions are recorded and no more; one without a player or refused has none |
| PlayerSystem.System.EnsuresAgree | agreement/abstractions.go:190-194 | no two ensures on record for one round carry different blocks |
| PlayerSystem.Run | agreement/abstractions.go:190-194 | for any sound weights, any fresh players and any schedule of votes, payloads, proposal-votes, timeouts and interruptions: no two ensures for one round carry different blocks, and each carries a cert-step certificate of that round, for the payload's value, that authenticates its block |
| SystemExample.SomeScheduleEnsures | agreement/player.go:267-279 | a schedule of the composed system with an ensure on record |
| PlayerForks.CertVoterForgets | agreement/proposalStore.go:315-321 | seven inputs to a fresh player after which it has cert-voted a block in period 1, lost it to a late proposal-vote of period 0 and next-voted bottom in period 1 |
| PlayerForks.Fork | agreement/abstractions.go:190-194 | three fresh honest players, any two of them a quorum and every quorum given of attestations made before, ensure two different blocks for one round once such a proposal-vote is let through |
| SystemExample.ForkRefused | agreement/proposalStore.go:194-208 | that proposal-vote is one the composed system refuses |
| Routing.LiveDispatch | agreement/router.go:157-257 | a dispatch to a live machine runs its handler on its state and leaves every other live machine as it was |
| Routing.AnswersIffLive | agreement/router.go:157-213 | through the root a dispatch meets a nil router exactly when it addresses a machine that is collected |
| Routing.CollectionInvisible | agreement/router.go:114-213 | for every driver that asks only for live machines, of later rounds only period 0, and whose player never goes back, the collecting tree gives the same replies as one that never collects |
| Routing.RouterMachine.Update | agreement/router.go:114-137 | creates the addressed round and keeps exactly the rounds not before the player's |
| Routing.RouterMachine.Dispatch | agreement/router.go:157-168 | the new tree and reply of a dispatch through the root |
| Routing.CollectPeriods | agreement/router.go:184-199 | keeps exactly the periods from the one before the player's on, and periods 0 and 1 |
| Routing.DispatchInRound | agreement/router.go:202-213 | the new round router and reply of a dispatch below the root |
| MessageFilters.VoteFreshIff | agreement/voteAggregator.go:223-271 | exactly which votes pass: of the player's round those of its period and the two next to it, by step, and of the next round those of period 0 that are always relayed |
| MessageFilters.FreshVoteIsAddressable | agreement/voteAggregator.go:244-271 | a vote that passes the filter is for a live tracker, at most one period away, and of the next round only for period 0 |
| MessageFilters.FreshProposalIsAddressable | agreement/proposalManager.go:231-248 | the same for proposal-votes |
| MessageFilters.BundleFreshIff | agreement/voteAggregator.go:274-288 | exactly which bundles are fresh: of the player's round, certificates or at most one period behind |
| MessageFilters.FreshBundleLiveIff | agreement/voteAggregator.go:274-288 | a fresh bundle is for a live tracker exactly unless it is a certificate of a period that is collected |
| MessageFilters.FreshVoteAnswered | agreement/voteAggregator.go:188-203 | dispatching a fresh vote through the root always reaches its tracker |
| MessageFilters.OwnReadsAddressable | agreement/player.go:145-249 | the player's reads of its round, its period and the period before, modulo 2^64, are of live machines |
| MessageFilters.EntryReadsAddressable | agreement/player.go:366-400 | so are those on entering a later round |
| MessageFilters.ResyncReadIff | agreement/player.go:447-454 | the staged value a resynchronising player reads is of a live period unless its freshest event is a certificate of a collected one, and then it is not |
| MessageFilters.AddressableIsKept | agreement/router.go:184-199 | a quorum's tracker is addressable when it arrives exactly if its period is still kept |
| MessageFilters.ResyncReadAllowed | agreement/player.go:454-454 | where every quorum the player handled was of a period still kept when it arrived, that read is one the router may be asked for |
| MessageFilters.NeighbouringSteps | agreement/voteAggregator.go:223-241 | exactly the votes up to the first next step, of fast recovery, and of the player's own step and its neighbours pass |
| Pipeline.Kept | catchup/service.go:455-567 | every step of every thread keeps the pipeline invariant: wiring, window and channels, each result reported once as what it was, and every write preceded by its checks |
| Pipeline.RunKeeps | catchup/service.go:455-567 | the invariant holds in every state of every interleaving |
| Pipeline.SlidingWindow | catchup/service.go:478-525 | at most N rounds are queued, running or reported and not yet received |
| Pipeline.FirstRoundsIssued | catchup/service.go:456-525 | at first exactly the first parallelBlocks or seedLookback many rounds, whichever are more, are issued without waiting |
| Pipeline.SendsNeverBlock | catchup/service.go:436-451 | no send on taskCh, a result channel or the completion channel ever waits, the drain after return included |
| Pipeline.LowestFindsValues | catchup/service.go:491-525 | the lowest unfinished round finds an unread value in each channel it has yet to read |
| Pipeline.LowestRoundRuns | catchup/service.go:481-489 | the lowest unfinished round can always make its next step; if queued it is first in line and a worker is free |
| Pipeline.LowestRoundAdvances | catchup/service.go:233-451 | each such step brings the round nearer to its report, at most ten of them when downloads and checks succeed |
| Pipeline.FetchesEnd | catchup/service.go:233-428 | whatever peers and certificates do, every step of a fetch uses up some of a fixed budget that no other thread touches, so each fetch ends |
| Pipeline.WritesInOrder | catchup/service.go:358-428 | a block is added only after every earlier round of the run returned success |
| Pipeline.AuthenticatesAfterLookback | catchup/service.go:329-350 | a block is authenticated only after its lookback round succeeded or if that round predates the run |
| Pipeline.FailureSpreads | catchup/service.go:362-428 | once a round failed every later round of the run fails |
| Pipeline.WritesAreChecked | catchup/service.go:305-350 | a block handed to the ledger was downloaded whole and authenticated in that attempt, unless certificates are not verified |
| Pipeline.SuccessWasWritten | catchup/service.go:389-423 | a round returns success only after the ledger took its block |
| Pipeline.RetriesAreBounded | catchup/service.go:243-265 | every download that brings a block is among the first 500 of its round |
| Pipeline.ReportsBalance | catchup/service.go:436-451 | over the completion channel every success is told exactly once under its round and every failure exactly once as 0 |
| Pipeline.ReportsAreReturns | catchup/service.go:436-451 | a 0 means that some round returned failure, any other entry is a round that returned success |
| Pipeline.StopsOnlyOn | catchup/service.go:528-565 | the main thread stops only on a catchpoint file, an unsupported round, a cancelled context or a round that failed |
| Pipeline.ReceiveStopsIff | catchup/service.go:530-543 | of what it is told it stops exactly on a failure or a catchpoint file |
| Pipeline.CancelStops | catchup/service.go:562-564 | a cancelled context stays cancelled and lets the main thread stop as soon as it waits |
| Pipeline.HoldsSuccesses | catchup/service.go:544-544 | until it stops, completedRounds holds exactly the successes received |
| Pipeline.SuccessRefills | catchup/service.go:547-561 | a received success of round r lets round r + N be issued, without waiting |
| CatchpointBackfill.LookbackStaysInRange | catchup/catchpointService.go:509-522 | no requested round number underflows exactly when the top round is at least 1 |
| CatchpointBackfill.FetchBlock | catchup/catchpointService.go:648-682 | a block, a retry, a stop and an abort, each under its exact condition |
| CatchpointBackfill.Backfill.TryBlock | catchup/catchpointService.go:566-634 | a block is stored exactly when it matches its successor's hash, has a known protocol and matching contents and the store succeeds; the statistics count exactly the stored blocks |
| CatchpointBackfill.Backfill.Pass | catchup/catchpointService.go:530-634 | one pass keeps a block exactly unless the attempt fails or the context is cancelled; it gives up only without peer or retry |
| CatchpointBackfill.Backfill.ProcessStageBlocksDownload | catchup/catchpointService.go:503-640 | ends for every behaviour of peers, ledger and store; below a top round of at least 1, on completion exactly the rounds from 1 on are stored that lie within MaxTxnLife or within MaxBalLookback of the top, in an unbroken hash chain; it aborts only if no peer is left for the next block, if one more pass failed than there are retries, or if the stage cannot be updated |
| CatchpointBackfill.ChainUnique | catchup/catchpointService.go:566-578 | whatever peers answered, two back-fills below one top block agree block by block |
| CatchpointBackfill.RoundsCovered | catchup/catchpointService.go:530-548 | the stored rounds are top-1 down to top-lookback, none below 1 |

## Left out

- Liveness and committee selection: sortition is probabilistic; only safety under weight assumptions is proved, and for the pipeline the absence of deadlock.
- Signatures, VRF, credentials, seeds and hashing: deterministic oracles.
- Network, disk and clock plumbing, the pseudonode, the crypto verifier, persistence and tracing: an arbitrary sequence of events stands for them.
- Relay, ignore, disconnect and verification-request actions of the player, and the table of pending payloads: they do not feed back into its state.
- The dump of late, redo and down votes during fast recovery: it only repeats stored votes.
- Peer selection, the block and ledger fetchers and the other stages of catchpoint catchup: peers answer arbitrarily.
- Bundles.Verify: reads the verification results in order, not in the order they arrive, because the verdict does not depend on that order; a cancelled context may show at any check.
- VoteTracking.VoteTracker.HandleVote: takes the consensus parameters as an argument, because the lookup of a version by name is a table.
- ProposalStorage.TrackerRemembers: proposal trackers are values inside the store, so sharing of the tracker object between the store and the router is not modelled.
- Routing.LiveDispatch: routers below the root are values; a handler that keeps a pointer to a router that has been collected is not modelled, because no live dispatch can hold one.
- Routing.CollectionInvisible: a certificate bundle of a period already collected is outside the hypothesis; `MessageFilters.FreshBundleLiveIff` says exactly when one occurs.
- PlayerMachine.Player.HandleThreshold: the machines below the player are values updated through the store's specification, and consensus parameters, such as the filter timeouts, do not change between events. For a next-threshold the reaction of the model is stated for caches in which next quorums agree; the composed system proves that they do.
- PlayerMachine.Player.HandleTimeout: deadlines are claimed up to step next+31, because they fall at step next+32.
- PlayerMachine.Player.HandleQuorum: one quorum at a time; that a bundle yields at most one event is stated by `VoteAggregation.ReplayBundle`.
- PlayerMachine.Player.HandleFastTimeout: the fast-recovery deadline is an unbounded number, because it overflows only after centuries in one period.
- PlayerSystem.Run: one account per player; votes reach trackers one by one, also those of a bundle; the timeouts of fast recovery that vote fire only from the first next step on, and proposal-votes that would cost a cert-voted block of the current period are not delivered.
- PlayerForks.Fork: the quorums given carry bundles without votes, because players do not read the bundles of quorums.
- Pipeline.LowestRoundRuns: shows that the next step is possible, not that a fair scheduler takes it.
