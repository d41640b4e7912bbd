/**
 The vote tracker of one (round, period, step): it counts votes in place, moves
 equivocators aside, and emits one threshold event with a proof bundle.
 */
module VoteTracking {
  import opened AgreementTypes
  import opened Weights
  import opened Tally
  import opened TallyMaps
  import opened Bundles
  import opened BundleGeneration

  datatype EventKind = SoftThreshold | CertThreshold | NextThreshold

  datatype ThresholdEvent = ThresholdEvent(
    kind: EventKind, round: Round, period: Period, step: Step, proposal: ProposalValue,
    bundle: UnauthenticatedBundle)

  function KindOf(s: Step): EventKind {
    if s == SOFT then SoftThreshold else if s == CERT then CertThreshold else NextThreshold
  }

  datatype OverResult = NothingOver | OneOver(proposal: ProposalValue) | TwoOver

  /** The two safety panics are outcomes: a run stops at either. */
  datatype Outcome = TooManyEquivocators | TwoValuesOver | NoEvent | Emitted(event: ThresholdEvent)
  {
    predicate Panicked() { TooManyEquivocators? || TwoValuesOver? }
  }

  /** The fixed surroundings of one tracker. */
  datatype Setting = Setting(round: Round, period: Period, c: Committee, vf: Verifier)
  {
    function TargetOf(p: ProposalValue): Target {
      Target(round, period, c.step, p, vf, c.weight)
    }

    /** A verified vote of this step. Its weight depends on the sender alone. */
    predicate Acceptable(v: Vote) {
      Countable(TargetOf(v.r.proposal), v)
    }

    ghost predicate Proper() {
      c.step != PROPOSE ==> Threshold(c.step, c.proto) >= 1
    }
  }

  ghost predicate StoredVotesOk(k: Setting, voters: map<Address, Vote>) {
    forall s :: s in voters ==> k.Acceptable(voters[s])
  }

  ghost predicate StoredPairsOk(k: Setting, pairs: map<Address, EquivocationVote>) {
    forall s :: s in pairs ==> k.Acceptable(pairs[s].V0()) && k.Acceptable(pairs[s].V1())
  }

  /** The pair made of two accepted votes of one sender is itself made of accepted votes. */
  function PairOf(o: Vote, v: Vote): (e: EquivocationVote) {
    EquivocationVote(o.r.sender, o.r.round, o.r.period, o.r.step, o.cred, o.r.proposal, v.r.proposal, o.sig, v.sig)
  }

  lemma PairOfAccepted(k: Setting, o: Vote, v: Vote)
    requires k.Acceptable(o) && k.Acceptable(v) && o.r.sender == v.r.sender
    ensures PairOf(o, v).V0() == o && k.Acceptable(PairOf(o, v).V1())
  {
  }

  class VoteTracker {
    ghost const k: Setting

    var voters: map<Address, Vote>
    var counts: map<ProposalValue, ProposalVoteCounter>
    var equivocators: map<Address, EquivocationVote>
    var equivocatorsCount: nat

    /** Every ballot delivered so far, and every value reported so far. */
    ghost var seen: set<Ballot>
    ghost var emitted: seq<ProposalValue>

    /** The maps are the declarative tally of the ballots seen. */
    ghost predicate Tallied()
      reads this
    {
      && VotersOk(k.c.weight, seen, voters)
      && PairsOk(seen, equivocators)
      && CountsOk(k.c.weight, seen, voters, counts)
      && equivocatorsCount == EquivocatorWeight(k.c, seen)
    }

    ghost predicate Stored()
      reads this
    {
      k.Proper() && StoredVotesOk(k, voters) && StoredPairsOk(k, equivocators)
    }

    ghost predicate Valid()
      reads this
    {
      Stored() && Tallied() && Safe(k.c, seen) && emitted == Reported(k.c, seen)
    }

    constructor (ghost k: Setting)
      requires k.Proper()
      ensures Valid() && seen == {} && emitted == [] && this.k == k
    {
      this.k := k;
      voters, counts, equivocators, equivocatorsCount := map[], map[], map[], 0;
      seen, emitted := {}, [];
    }

    /** The weight vouching for a proposal: zero direct weight when it has no counter. */
    function Count(p: ProposalValue): (n: nat)
      reads this
      ensures Tallied() ==> n == TotalFor(k.c, seen, p)
    {
      (if p in counts then counts[p].count else 0) + equivocatorsCount
    }

    /** Finds the proposal over the threshold; a second one is a panic. */
    method OverThreshold(proto: ConsensusParams, step: Step) returns (r: OverResult)
      ensures r.NothingOver? ==> forall p :: p in counts ==> !ReachesQuorum(step, proto, Count(p))
      ensures r.OneOver? ==>
                && r.proposal in counts && ReachesQuorum(step, proto, Count(r.proposal))
                && forall p :: p in counts && ReachesQuorum(step, proto, Count(p)) ==> p == r.proposal
      ensures r.TwoOver? ==>
                exists p, q :: p in counts && q in counts && p != q &&
                               ReachesQuorum(step, proto, Count(p)) && ReachesQuorum(step, proto, Count(q))
    {
      hide Tallied;
      r := NothingOver;
      var rest := counts.Keys;
      while rest != {}
        invariant rest <= counts.Keys
        invariant !r.TwoOver?
        invariant r.OneOver? ==> r.proposal in counts.Keys - rest && ReachesQuorum(step, proto, Count(r.proposal))
        invariant forall p :: p in counts.Keys - rest && ReachesQuorum(step, proto, Count(p)) ==> r == OneOver(p)
      {
        var p :| p in rest;
        if ReachesQuorum(step, proto, Count(p)) {
          if r.OneOver? {
            return TwoOver;
          }
          r := OneOver(p);
        }
        rest := rest - {p};
      }
    }

    /** A counted proposal reaches the quorum exactly when the declarative tally says it is over. */
    lemma OverMeansOver()
      requires Tallied()
      ensures forall p :: Over(k.c, seen, p) <==> p in counts && ReachesQuorum(k.c.step, k.c.proto, Count(p))
    {
      hide Weight, Supporters, Equivocators, CounterOk, VotersOk, PairsOk;
    }

    /** A sender's first vote: it enters Voters and the counter of its proposal. */
    method CountFirstVote(v: Vote)
      requires Tallied() && Stored() && k.Acceptable(v)
      requires v.r.sender !in voters && v.r.sender !in Senders(seen)
      modifies this`voters, this`counts, this`seen
      ensures seen == old(seen) + {BallotOf(v)} && Tallied() && Stored()
      ensures EquivocatorWeight(k.c, seen) == EquivocatorWeight(k.c, old(seen))
    {
      hide Weight, Equivocates, Supporters, Equivocators, Senders, VotersOk, PairsOk, CountsOk, Countable;
      assert v.cred.weight == k.c.weight(v.r.sender) >= 1 by { AcceptableParts(k, v); }
      var p := v.r.proposal;
      var counter := if p in counts then counts[p] else ProposalVoteCounter(0, map[]);
      AddFirstBallot(seen, BallotOf(v));
      OldPairs(seen, equivocators, BallotOf(v));
      FirstVote(k.c.weight, seen, voters, v);
      FirstCount(k.c.weight, seen, voters, counts, v, counter);
      voters := voters[v.r.sender := v];
      counts := counts[p := ProposalVoteCounter(counter.count + v.cred.weight, counter.votes[v.r.sender := v])];
      seen := seen + {BallotOf(v)};
    }

    /** A sender's second value: its vote leaves the counter and it becomes an equivocator. */
    method MarkEquivocator(v: Vote, oldVote: Vote)
      requires VotersOk(k.c.weight, seen, voters) && PairsOk(seen, equivocators)
      requires CountsOk(k.c.weight, seen, voters, counts) && Stored() && k.Acceptable(v)
      requires equivocatorsCount == EquivocatorWeight(k.c, seen + {BallotOf(v)})
      requires v.r.sender in voters && voters[v.r.sender] == oldVote && oldVote.r.proposal != v.r.proposal
      requires v.r.sender in Supporters(seen, oldVote.r.proposal) && oldVote.r.proposal in counts
      requires oldVote.r.sender == v.r.sender
      modifies this`voters, this`counts, this`equivocators, this`seen
      ensures seen == old(seen) + {BallotOf(v)} && Tallied() && Stored()
    {
      hide Weight, Equivocates, Supporters, Equivocators, Senders, VotersOk, PairsOk, CountsOk, Countable;
      var sender, p := v.r.sender, oldVote.r.proposal;
      SecondVote(k.c.weight, seen, voters, v);
      SecondPair(seen, equivocators, sender, PairOf(oldVote, v));
      SecondCount(k.c.weight, seen, voters, counts, v, oldVote);
      assert k.Acceptable(PairOf(oldVote, v).V0()) && k.Acceptable(PairOf(oldVote, v).V1()) by {
        PairOfAccepted(k, oldVote, v);
      }
      if counts[p].count <= oldVote.cred.weight {
        counts := counts - {p};
      } else {
        counts := counts[p := ProposalVoteCounter(counts[p].count - oldVote.cred.weight, counts[p].votes - {sender})];
      }
      equivocators := equivocators[sender := PairOf(oldVote, v)];
      voters := voters - {sender};
      seen := seen + {BallotOf(v)};
    }

    /** What an emitted event says: the value now over, and a bundle that proves it to any verifier. */
    ghost predicate EventOk(e: ThresholdEvent)
      reads this
    {
      && e.kind == KindOf(k.c.step) && e.round == k.round && e.period == k.period && e.step == k.c.step
      && Over(k.c, seen, e.proposal) && emitted == [e.proposal] && e.proposal in counts
      && Drawn(k.TargetOf(e.proposal), k.c.proto, counts[e.proposal].votes, equivocators, e.bundle)
      && Thrifty(k.TargetOf(e.proposal), k.c.proto, counts[e.proposal].votes.Keys, e.bundle)
    }

    /**
     Delivering ballot `b` after the ballots `prior`, with outcome `o`: a panic happens exactly
     when the new tally is unsafe, otherwise the maps are the new tally; an event comes out
     exactly when a value first crosses the threshold.
     */
    ghost predicate Delivered(prior: set<Ballot>, b: Ballot, o: Outcome)
      reads this
    {
      && seen == prior + {b}
      && (o.Panicked() <==> !Safe(k.c, seen))
      && (o.TooManyEquivocators? <==> k.c.Quorum(EquivocatorWeight(k.c, seen)))
      && (!o.Panicked() ==> Valid())
      && (o.Emitted? <==> Safe(k.c, seen) && AnyOver(k.c, seen) && !AnyOver(k.c, prior))
      && (o.Emitted? ==> EventOk(o.event))
    }

    /** What a tracker has reported, in the parameters of its step: the value whose weight reaches that threshold. */
    lemma ReportsByStep(p: ProposalValue, w: nat)
      requires Valid() && w == Weight(Supporters(seen, p), k.c.weight) + Weight(Equivocators(seen), k.c.weight)
      ensures k.c.step == PROPOSE ==> emitted == []
      ensures k.c.step == SOFT ==> (emitted == [p] <==> Supporters(seen, p) != {} && w >= k.c.proto.soft)
      ensures k.c.step == CERT ==> (emitted == [p] <==> Supporters(seen, p) != {} && w >= k.c.proto.cert)
      ensures k.c.step == LATE ==> (emitted == [p] <==> Supporters(seen, p) != {} && w >= k.c.proto.late)
      ensures k.c.step == REDO ==> (emitted == [p] <==> Supporters(seen, p) != {} && w >= k.c.proto.redo)
      ensures k.c.step == DOWN ==> (emitted == [p] <==> Supporters(seen, p) != {} && w >= k.c.proto.down)
      ensures NEXT <= k.c.step < LATE || k.c.step > DOWN ==>
                (emitted == [p] <==> Supporters(seen, p) != {} && w >= k.c.proto.next)
    {
      hide Stored, Tallied, Weight, Supporters, Equivocators;
      OverByStep(k.c, seen, p, w);
      hide Over;
      if k.c.step == PROPOSE {
        forall q ensures !Over(k.c, seen, q) { NothingProposed(k.c, seen, q); }
      }
    }

    lemma NoVotersNothingOver()
      requires Tallied() && voters.Keys == {}
      ensures !AnyOver(k.c, seen)
    {
      hide Weight, Equivocators, Supporters, PairsOk, VotersOk, CountsOk;
      forall p ensures !Over(k.c, seen, p) {
        SupportersVoted(k.c.weight, seen, voters, counts, p);
      }
    }

    /** A value over quorum meets every precondition of bundle generation. */
    lemma Packable(p: ProposalValue)
      requires Tallied() && Stored() && Over(k.c, seen, p) && p in counts
      ensures k.c.step != PROPOSE && counts[p].votes.Keys != {}
      ensures VotesFor(k.TargetOf(p), counts[p].votes) && PairsFor(k.TargetOf(p), equivocators)
      ensures counts[p].votes.Keys !! equivocators.Keys
      ensures ReachesQuorum(k.c.step, k.c.proto,
                Weight(counts[p].votes.Keys, k.c.weight) + Weight(equivocators.Keys, k.c.weight))
    {
      hide Weight, Supporters, Equivocators, Authentic, VotersOk, CountsOk;
      CounterHolds(k.c.weight, seen, voters, counts, p);
    }

    /** The end of a delivery: compare what is over now with what was over before. */
    method Report(proto: ConsensusParams, v: Vote, overBefore: bool, ghost prior: set<Ballot>) returns (o: Outcome)
      requires Tallied() && Stored() && proto == k.c.proto
      requires v.r.round == k.round && v.r.period == k.period && v.r.step == k.c.step
      requires seen == prior + {BallotOf(v)} && Safe(k.c, prior) && emitted == Reported(k.c, prior)
      requires overBefore <==> AnyOver(k.c, prior)
      requires !k.c.Quorum(EquivocatorWeight(k.c, seen))
      modifies this`emitted
      ensures Delivered(prior, BallotOf(v), o)
    {
      hide Weight, Supporters, Equivocators, VotersOk, PairsOk, CountsOk, Countable, Drawn, Thrifty, VotesFor,
           PairsFor;
      var after := OverThreshold(proto, v.r.step);
      OverMeansOver();
      if after.TwoOver? {
        return TwoValuesOver;
      }
      if overBefore || !after.OneOver? {
        if overBefore { OverPersists(k.c, prior, seen, Reported(k.c, prior)[0]); }
        ReportedPersists(k.c, prior, seen);
        return NoEvent;
      }
      var p := after.proposal;
      Packable(p);
      var bundle := GenBundle(proto, counts[p].votes, equivocators, k.TargetOf(p));
      emitted := [p];
      o := Emitted(ThresholdEvent(KindOf(v.r.step), v.r.round, v.r.period, v.r.step, p, bundle));
    }

    /** One more ballot of a known equivocator changes neither the maps nor what they mean. */
    lemma IgnoredBallot(b: Ballot)
      requires Valid() && Equivocates(seen, b.sender)
      ensures VotersOk(k.c.weight, seen + {b}, voters) && PairsOk(seen + {b}, equivocators)
      ensures CountsOk(k.c.weight, seen + {b}, voters, counts)
      ensures EquivocatorWeight(k.c, seen + {b}) == EquivocatorWeight(k.c, seen)
      ensures Safe(k.c, seen + {b}) && Reported(k.c, seen + {b}) == Reported(k.c, seen)
      ensures AnyOver(k.c, seen + {b}) <==> AnyOver(k.c, seen)
    {
      hide Weight, Equivocates, Supporters, Equivocators, Senders, VotersOk, PairsOk, CountsOk, Over;
      AddEquivocatorBallot(seen, b);
      SameTally(k.c, seen, seen + {b});
      OldPairs(seen, equivocators, b);
      SameVoters(k.c.weight, seen, seen + {b}, voters);
      SameCounts(k.c.weight, seen, seen + {b}, voters, counts);
      ReportedPersists(k.c, seen, seen + {b});
    }

    /** The equivocation branch: the sender has voted for another value before. */
    method HandleSecondValue(proto: ConsensusParams, v: Vote, oldVote: Vote, overBefore: bool) returns (o: Outcome)
      requires Valid() && k.Acceptable(v) && proto == k.c.proto
      requires v.r.round == k.round && v.r.period == k.period && v.r.step == k.c.step
      requires v.cred.weight == k.c.weight(v.r.sender)
      requires overBefore <==> AnyOver(k.c, seen)
      requires v.r.sender in voters && voters[v.r.sender] == oldVote && oldVote.r.proposal != v.r.proposal
      requires v.r.sender in Supporters(seen, oldVote.r.proposal) && oldVote.r.proposal in counts
      requires oldVote.r.sender == v.r.sender
      modifies this
      ensures Delivered(old(seen), BallotOf(v), o)
    {
      hide Weight, Equivocates, Supporters, Equivocators, Senders, VotersOk, PairsOk, CountsOk, Countable;
      hide Drawn, Thrifty, Over;
      ghost var b, prior := BallotOf(v), seen;
      AddConflictingBallot(seen, b, oldVote.r.proposal);
      WeightAdd(Equivocators(seen), v.r.sender, k.c.weight);
      equivocatorsCount := equivocatorsCount + v.cred.weight;
      if ReachesQuorum(v.r.step, proto, equivocatorsCount) {
        seen := seen + {b};
        return TooManyEquivocators;
      }
      MarkEquivocator(v, oldVote);
      if |voters| == 0 {
        NoVotersNothingOver();
        ReportedPersists(k.c, prior, seen);
        return NoEvent;
      }
      o := Report(proto, v, overBefore, prior);
    }

    /** A vote of a sender not heard before. */
    method HandleFirstVote(proto: ConsensusParams, v: Vote, overBefore: bool) returns (o: Outcome)
      requires Valid() && k.Acceptable(v) && proto == k.c.proto
      requires overBefore <==> AnyOver(k.c, seen)
      requires v.r.sender !in voters && v.r.sender !in Senders(seen)
      modifies this
      ensures Delivered(old(seen), BallotOf(v), o)
    {
      hide Weight, Equivocates, Supporters, Equivocators, Senders, VotersOk, PairsOk, CountsOk, Countable;
      hide Drawn, Thrifty, Over, EventOk;
      AcceptableParts(k, v);
      ghost var prior := seen;
      CountFirstVote(v);
      o := Report(proto, v, overBefore, prior);
    }

    /** A vote of a known equivocator is dropped. */
    method HandleEquivocator(v: Vote) returns (o: Outcome)
      requires Valid() && v.r.sender in equivocators && Equivocates(seen, v.r.sender)
      modifies this`seen
      ensures Delivered(old(seen), BallotOf(v), o) && o.NoEvent?
    {
      hide Weight, Equivocates, Supporters, Equivocators, Senders, VotersOk, PairsOk, CountsOk, Over, Countable;
      IgnoredBallot(BallotOf(v));
      seen := seen + {BallotOf(v)};
      o := NoEvent;
    }

    /** Delivers one verified vote. */
    method HandleVote(proto: ConsensusParams, v: Vote) returns (o: Outcome)
      requires Valid() && k.Acceptable(v) && proto == k.c.proto
      modifies this
      ensures Delivered(old(seen), BallotOf(v), o)
    {
      hide Weight, Equivocates, Supporters, Equivocators, Senders, VotersOk, PairsOk, CountsOk, Countable;
      hide Drawn, Thrifty, Over, EventOk;
      var sender := v.r.sender;
      Classified(k.c.weight, seen, voters, equivocators, counts, sender);
      if sender in equivocators {
        o := HandleEquivocator(v);
        return;
      }
      AcceptableParts(k, v);
      var before := OverThreshold(proto, v.r.step);
      OverMeansOver();
      if sender !in voters {
        o := HandleFirstVote(proto, v, before.OneOver?);
      } else if voters[sender].r.proposal == v.r.proposal {
        assert seen == seen + {BallotOf(v)};
        o := NoEvent;
      } else {
        o := HandleSecondValue(proto, v, voters[sender], before.OneOver?);
      }
    }

    /** A vote is filtered exactly when delivering it could not change the tally. */
    method FilterVote(rv: RawVote) returns (filtered: bool)
      requires Valid()
      ensures filtered <==> Equivocates(seen, rv.sender) || Ballot(rv.sender, rv.proposal) in seen
    {
      hide Weight, CountsOk, Safe, Stored, PairOk;
      if rv.sender in equivocators {
        return true;
      }
      if rv.sender in voters && voters[rv.sender].r.proposal == rv.proposal {
        return true;
      }
      return false;
    }
  }

  lemma NothingProposed(c: Committee, b: set<Ballot>, p: ProposalValue)
    requires c.step == PROPOSE
    ensures !Over(c, b, p)
  {
  }

  lemma AcceptableParts(k: Setting, v: Vote)
    requires k.Acceptable(v)
    ensures v.cred.weight == k.c.weight(v.r.sender) >= 1
    ensures v.r.round == k.round && v.r.period == k.period && v.r.step == k.c.step
  {
  }
}
