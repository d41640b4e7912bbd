/**
 The maps a vote tracker keeps (voters, counters, equivocators) described as the
 declarative tally of a set of ballots, and how one more vote moves them.
 */
module TallyMaps {
  import opened AgreementTypes
  import opened Weights
  import opened Tally

  datatype ProposalVoteCounter = ProposalVoteCounter(count: nat, votes: map<Address, Vote>)

  /** Senders with one value are the voters, each stored with a vote for that value. */
  ghost predicate VotersOk(w: Address -> nat, seen: set<Ballot>, voters: map<Address, Vote>) {
    && voters.Keys == Senders(seen) - Equivocators(seen)
    && forall s :: s in voters ==>
         && voters[s].r.sender == s && voters[s].cred.weight == w(s) >= 1
         && s in Supporters(seen, voters[s].r.proposal)
  }

  /** Senders with two or more values are the equivocators, each stored with two different ballots. */
  ghost predicate PairsOk(seen: set<Ballot>, pairs: map<Address, EquivocationVote>) {
    && pairs.Keys == Equivocators(seen)
    && forall s :: s in pairs ==> PairOk(seen, s, pairs[s])
  }

  ghost predicate PairOk(seen: set<Ballot>, s: Address, e: EquivocationVote) {
    && e.sender == s && e.proposal0 != e.proposal1
    && Ballot(s, e.proposal0) in seen && Ballot(s, e.proposal1) in seen
  }

  /** Each supported proposal has a counter holding its supporters' votes and their weight. */
  ghost predicate CountsOk(w: Address -> nat, seen: set<Ballot>, voters: map<Address, Vote>,
                           counts: map<ProposalValue, ProposalVoteCounter>)
  {
    && (forall p :: p in counts <==> Supporters(seen, p) != {})
    && forall p :: p in counts ==> CounterOk(w, Supporters(seen, p), voters, counts[p])
  }

  ghost predicate CounterOk(w: Address -> nat, supporters: set<Address>, voters: map<Address, Vote>,
                            n: ProposalVoteCounter)
  {
    && n.votes.Keys == supporters
    && n.count == Weight(supporters, w)
    && forall s :: s in n.votes ==> s in voters && n.votes[s] == voters[s]
  }

  /** The three branches of a tracker: unheard senders, senders with one value, equivocators. */
  lemma Classified(w: Address -> nat, seen: set<Ballot>, voters: map<Address, Vote>,
                   pairs: map<Address, EquivocationVote>, counts: map<ProposalValue, ProposalVoteCounter>, s: Address)
    requires VotersOk(w, seen, voters) && PairsOk(seen, pairs) && CountsOk(w, seen, voters, counts)
    ensures s !in voters && s !in pairs ==> s !in Senders(seen)
    ensures s in pairs ==> Equivocates(seen, s)
    ensures s in voters ==>
              && voters[s].r.sender == s && s in Supporters(seen, voters[s].r.proposal)
              && voters[s].r.proposal in counts && Ballot(s, voters[s].r.proposal) in seen
              && s !in Equivocators(seen)
  {
    hide Weight, CounterOk, PairOk;
  }

  /** A counter holds the votes of its proposal's supporters, none of whom equivocates. */
  lemma CounterHolds(w: Address -> nat, seen: set<Ballot>, voters: map<Address, Vote>,
                     counts: map<ProposalValue, ProposalVoteCounter>, p: ProposalValue)
    requires VotersOk(w, seen, voters) && CountsOk(w, seen, voters, counts) && p in counts
    ensures counts[p].votes.Keys == Supporters(seen, p) && Supporters(seen, p) !! Equivocators(seen)
    ensures forall a :: a in counts[p].votes ==>
              a in voters && counts[p].votes[a] == voters[a] && voters[a].r.sender == a && voters[a].r.proposal == p
  {
    assert Supporters(seen, p) !! Equivocators(seen);
    hide Weight, Equivocates, Equivocators, Senders, Supporters;
    assert CounterOk(w, Supporters(seen, p), voters, counts[p]);
    forall a | a in counts[p].votes ensures voters[a].r.proposal == p {
      SupportsOne(seen, a, p, voters[a].r.proposal);
    }
  }

  lemma SupportersVoted(w: Address -> nat, seen: set<Ballot>, voters: map<Address, Vote>,
                        counts: map<ProposalValue, ProposalVoteCounter>, p: ProposalValue)
    requires CountsOk(w, seen, voters, counts)
    ensures Supporters(seen, p) <= voters.Keys
  {
    hide Supporters, Weight;
    if p in counts { assert CounterOk(w, Supporters(seen, p), voters, counts[p]); }
  }

  // ---------------------------------------------------------------- a sender's first vote

  lemma FirstVote(w: Address -> nat, seen: set<Ballot>, voters: map<Address, Vote>, v: Vote)
    requires VotersOk(w, seen, voters) && v.cred.weight == w(v.r.sender) >= 1 && v.r.sender !in Senders(seen)
    ensures VotersOk(w, seen + {BallotOf(v)}, voters[v.r.sender := v])
  {
    var b := BallotOf(v);
    AddFirstBallot(seen, b);
    SendersAdd(seen, b);
    var voters' := voters[v.r.sender := v];
    assert v.r.sender !in Equivocators(seen);
    hide Equivocates, Equivocators, Supporters, Senders;
    assert voters'.Keys == Senders(seen + {b}) - Equivocators(seen + {b});
  }

  lemma FirstCount(w: Address -> nat, seen: set<Ballot>, voters: map<Address, Vote>,
                   counts: map<ProposalValue, ProposalVoteCounter>, v: Vote, n: ProposalVoteCounter)
    requires CountsOk(w, seen, voters, counts) && v.cred.weight == w(v.r.sender)
    requires v.r.sender !in Senders(seen) && v.r.sender !in voters
    requires n == if v.r.proposal in counts then counts[v.r.proposal] else ProposalVoteCounter(0, map[])
    ensures CountsOk(w, seen + {BallotOf(v)}, voters[v.r.sender := v],
                     counts[v.r.proposal := ProposalVoteCounter(n.count + v.cred.weight, n.votes[v.r.sender := v])])
  {
    hide Equivocates, Supporters, Equivocators, Senders;
    var b, p := BallotOf(v), v.r.proposal;
    AddFirstBallot(seen, b);
    WeightAdd(Supporters(seen, p), v.r.sender, w);
    assert CounterOk(w, Supporters(seen, p), voters, n);
    assert CounterOk(w, Supporters(seen + {b}, p), voters[v.r.sender := v],
                     ProposalVoteCounter(n.count + v.cred.weight, n.votes[v.r.sender := v]));
  }

  lemma OldPairs(seen: set<Ballot>, pairs: map<Address, EquivocationVote>, b: Ballot)
    requires PairsOk(seen, pairs) && Equivocators(seen + {b}) == Equivocators(seen)
    ensures PairsOk(seen + {b}, pairs)
  {
    hide Equivocators;
    forall s | s in pairs ensures PairOk(seen + {b}, s, pairs[s]) {}
  }

  /** Equal tallies are held by equal maps. */
  lemma SameVoters(w: Address -> nat, a: set<Ballot>, b: set<Ballot>, voters: map<Address, Vote>)
    requires VotersOk(w, a, voters) && Senders(a) == Senders(b) && Equivocators(a) == Equivocators(b)
    requires forall p :: Supporters(a, p) == Supporters(b, p)
    ensures VotersOk(w, b, voters)
  {
    hide Supporters, Equivocators, Senders;
  }

  lemma SameCounts(w: Address -> nat, a: set<Ballot>, b: set<Ballot>, voters: map<Address, Vote>,
                   counts: map<ProposalValue, ProposalVoteCounter>)
    requires CountsOk(w, a, voters, counts) && forall p :: Supporters(a, p) == Supporters(b, p)
    ensures CountsOk(w, b, voters, counts)
  {
    hide Supporters, CounterOk;
  }

  // ---------------------------------------------------------------- a sender's second value

  lemma SecondVote(w: Address -> nat, seen: set<Ballot>, voters: map<Address, Vote>, v: Vote)
    requires VotersOk(w, seen, voters)
    requires v.r.sender in voters && voters[v.r.sender].r.proposal != v.r.proposal
    ensures VotersOk(w, seen + {BallotOf(v)}, voters - {v.r.sender})
  {
    AddConflictingBallot(seen, BallotOf(v), voters[v.r.sender].r.proposal);
    SendersAdd(seen, BallotOf(v));
  }

  lemma SecondPair(seen: set<Ballot>, pairs: map<Address, EquivocationVote>, s: Address, e: EquivocationVote)
    requires PairsOk(seen, pairs)
    requires s in Supporters(seen, e.proposal0) && e.proposal1 != e.proposal0 && e.sender == s
    ensures PairsOk(seen + {Ballot(s, e.proposal1)}, pairs[s := e])
  {
    hide Equivocates, Equivocators, Supporters, PairOk;
    var b := Ballot(s, e.proposal1);
    AddConflictingBallot(seen, b, e.proposal0);
    NewPair(seen, s, e);
    forall x | x in pairs ensures PairOk(seen + {b}, x, pairs[x]) {
      OldPair(seen, b, x, pairs[x]);
    }
  }

  lemma NewPair(seen: set<Ballot>, s: Address, e: EquivocationVote)
    requires s in Supporters(seen, e.proposal0) && e.proposal1 != e.proposal0 && e.sender == s
    ensures PairOk(seen + {Ballot(s, e.proposal1)}, s, e)
  {
  }

  lemma OldPair(seen: set<Ballot>, b: Ballot, s: Address, e: EquivocationVote)
    requires PairOk(seen, s, e)
    ensures PairOk(seen + {b}, s, e)
  {
  }

  /** The counter an equivocator leaves: gone when it was alone, else smaller by its weight. */
  function Without(n: ProposalVoteCounter, o: Vote): Option<ProposalVoteCounter> {
    if n.count <= o.cred.weight then None
    else Some(ProposalVoteCounter(n.count - o.cred.weight, n.votes - {o.r.sender}))
  }

  lemma LeaveCounter(w: Address -> nat, supporters: set<Address>, voters: map<Address, Vote>,
                     n: ProposalVoteCounter, o: Vote)
    requires CounterOk(w, supporters, voters, n) && o.r.sender in supporters
    requires forall s :: s in supporters ==> w(s) >= 1
    requires o.cred.weight == w(o.r.sender)
    ensures Without(n, o).None? <==> supporters - {o.r.sender} == {}
    ensures Without(n, o).Some? ==>
              CounterOk(w, supporters - {o.r.sender}, voters - {o.r.sender}, Without(n, o).value)
  {
    WeightRemove(supporters, o.r.sender, w);
    CardinalityBelowWeight(supporters - {o.r.sender}, w);
  }

  lemma OtherCounter(w: Address -> nat, supporters: set<Address>, voters: map<Address, Vote>,
                     n: ProposalVoteCounter, s: Address)
    requires CounterOk(w, supporters, voters, n) && s !in supporters
    ensures CounterOk(w, supporters - {s}, voters - {s}, n)
  {
    assert supporters - {s} == supporters;
  }

  /** The counters after the equivocating sender of `o` has left the one it was in. */
  function CountsWithout(counts: map<ProposalValue, ProposalVoteCounter>, o: Vote)
    : map<ProposalValue, ProposalVoteCounter>
    requires o.r.proposal in counts
  {
    var n := Without(counts[o.r.proposal], o);
    if n.None? then counts - {o.r.proposal} else counts[o.r.proposal := n.value]
  }

  /** One counter, before and after the sender of `o` has left. */
  lemma CounterMoves(w: Address -> nat, supporters: set<Address>, voters: map<Address, Vote>,
                     counts: map<ProposalValue, ProposalVoteCounter>, o: Vote, q: ProposalValue)
    requires o.r.proposal in counts && (q in counts <==> supporters != {})
    requires q in counts ==> CounterOk(w, supporters, voters, counts[q])
    requires o.r.sender in supporters <==> q == o.r.proposal
    requires forall s :: s in supporters ==> w(s) >= 1
    requires o.cred.weight == w(o.r.sender)
    ensures q in CountsWithout(counts, o) <==> supporters - {o.r.sender} != {}
    ensures q in CountsWithout(counts, o) ==>
              CounterOk(w, supporters - {o.r.sender}, voters - {o.r.sender}, CountsWithout(counts, o)[q])
  {
    if q == o.r.proposal {
      LeaveCounter(w, supporters, voters, counts[q], o);
    } else {
      assert supporters - {o.r.sender} == supporters;
      if q in counts { OtherCounter(w, supporters, voters, counts[q], o.r.sender); }
    }
  }

  lemma SecondCountAt(w: Address -> nat, seen: set<Ballot>, voters: map<Address, Vote>,
                      counts: map<ProposalValue, ProposalVoteCounter>, v: Vote, o: Vote, q: ProposalValue)
    requires VotersOk(w, seen, voters) && CountsOk(w, seen, voters, counts)
    requires v.r.sender in voters && voters[v.r.sender] == o && o.r.proposal != v.r.proposal
    requires o.r.proposal in counts
    ensures q in CountsWithout(counts, o) <==> Supporters(seen + {BallotOf(v)}, q) != {}
    ensures q in CountsWithout(counts, o) ==>
              CounterOk(w, Supporters(seen + {BallotOf(v)}, q), voters - {v.r.sender}, CountsWithout(counts, o)[q])
  {
    hide Equivocates, Supporters, Equivocators, Senders, Weight, CountsWithout, Without;
    AddConflictingBallot(seen, BallotOf(v), o.r.proposal);
    assert q in counts ==> CounterOk(w, Supporters(seen, q), voters, counts[q]);
    CounterMoves(w, Supporters(seen, q), voters, counts, o, q);
    assert Supporters(seen + {BallotOf(v)}, q) == Supporters(seen, q) - {v.r.sender};
  }

  lemma SecondCount(w: Address -> nat, seen: set<Ballot>, voters: map<Address, Vote>,
                    counts: map<ProposalValue, ProposalVoteCounter>, v: Vote, o: Vote)
    requires VotersOk(w, seen, voters) && CountsOk(w, seen, voters, counts)
    requires v.r.sender in voters && voters[v.r.sender] == o && o.r.proposal != v.r.proposal
    requires o.r.proposal in counts
    ensures CountsOk(w, seen + {BallotOf(v)}, voters - {v.r.sender}, CountsWithout(counts, o))
  {
    hide Supporters, CounterOk, Without, CountsWithout, VotersOk;
    forall q { SecondCountAt(w, seen, voters, counts, v, o, q); }
  }
}
