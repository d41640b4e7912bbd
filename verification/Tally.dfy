/**
 The declarative tally of one voting step: what a set of ballots means, independent of
 the order in which they arrived. A sender with one value supports it; a sender with two
 or more values is an equivocator and counts for every value.
 */
module Tally {
  import opened AgreementTypes
  import opened Weights

  datatype Ballot = Ballot(sender: Address, value: ProposalValue)

  function BallotOf(v: Vote): Ballot {
    Ballot(v.r.sender, v.r.proposal)
  }

  /** What a tally is taken against: step, thresholds and the weight of each account. */
  datatype Committee = Committee(step: Step, proto: ConsensusParams, weight: Address -> nat)
  {
    predicate Quorum(n: nat) { ReachesQuorum(step, proto, n) }
  }

  ghost predicate Equivocates(b: set<Ballot>, s: Address) {
    exists x, y :: x in b && y in b && x.sender == s && y.sender == s && x.value != y.value
  }

  ghost function Senders(b: set<Ballot>): set<Address> {
    set x | x in b :: x.sender
  }

  ghost function Equivocators(b: set<Ballot>): set<Address> {
    set x | x in b && Equivocates(b, x.sender) :: x.sender
  }

  /** The senders whose only ballots are for `p`. */
  ghost function Supporters(b: set<Ballot>, p: ProposalValue): set<Address> {
    set x | x in b && x.value == p && !Equivocates(b, x.sender) :: x.sender
  }

  ghost function EquivocatorWeight(c: Committee, b: set<Ballot>): nat {
    Weight(Equivocators(b), c.weight)
  }

  /** The weight vouching for `p`: its supporters plus every equivocator. */
  ghost function TotalFor(c: Committee, b: set<Ballot>, p: ProposalValue): nat {
    Weight(Supporters(b, p), c.weight) + EquivocatorWeight(c, b)
  }

  ghost predicate Over(c: Committee, b: set<Ballot>, p: ProposalValue) {
    Supporters(b, p) != {} && c.Quorum(TotalFor(c, b, p))
  }

  ghost predicate AnyOver(c: Committee, b: set<Ballot>) {
    exists p :: Over(c, b, p)
  }

  /** Neither safety panic applies: equivocators are no quorum and at most one value is over. */
  ghost predicate Safe(c: Committee, b: set<Ballot>) {
    && !c.Quorum(EquivocatorWeight(c, b))
    && forall p, q :: Over(c, b, p) && Over(c, b, q) ==> p == q
  }

  /** What the tracker must have reported after these ballots: at most one value, once. */
  ghost function Reported(c: Committee, b: set<Ballot>): (r: seq<ProposalValue>)
    ensures |r| <= 1
    ensures r == [] <==> !AnyOver(c, b)
    ensures r != [] ==> Over(c, b, r[0])
  {
    if AnyOver(c, b) then var p :| Over(c, b, p); [p] else []
  }

  /** What it takes to be over, step by step: a direct supporter, and with the equivocators that step's threshold. */
  lemma OverByStep(c: Committee, b: set<Ballot>, p: ProposalValue, w: nat)
    requires w == Weight(Supporters(b, p), c.weight) + Weight(Equivocators(b), c.weight)
    ensures c.step == PROPOSE ==> !Over(c, b, p)
    ensures c.step == SOFT ==> (Over(c, b, p) <==> Supporters(b, p) != {} && w >= c.proto.soft)
    ensures c.step == CERT ==> (Over(c, b, p) <==> Supporters(b, p) != {} && w >= c.proto.cert)
    ensures c.step == LATE ==> (Over(c, b, p) <==> Supporters(b, p) != {} && w >= c.proto.late)
    ensures c.step == REDO ==> (Over(c, b, p) <==> Supporters(b, p) != {} && w >= c.proto.redo)
    ensures c.step == DOWN ==> (Over(c, b, p) <==> Supporters(b, p) != {} && w >= c.proto.down)
    ensures NEXT <= c.step < LATE || c.step > DOWN ==> (Over(c, b, p) <==> Supporters(b, p) != {} && w >= c.proto.next)
  {
    hide Weight, Supporters, Equivocators;
    QuorumByStep(c.step, c.proto, w);
  }

  // ---------------------------------------------------------------- growth

  lemma TotalForGrows(c: Committee, a: set<Ballot>, b: set<Ballot>, p: ProposalValue)
    requires a <= b
    ensures EquivocatorWeight(c, a) <= EquivocatorWeight(c, b)
    ensures TotalFor(c, a, p) <= TotalFor(c, b, p)
  {
    WeightSubset(Equivocators(a), Equivocators(b), c.weight);
    assert Supporters(a, p) !! Equivocators(a) && Supporters(b, p) !! Equivocators(b);
    WeightDisjoint(Supporters(a, p), Equivocators(a), c.weight);
    WeightDisjoint(Supporters(b, p), Equivocators(b), c.weight);
    assert Supporters(a, p) + Equivocators(a) <= Supporters(b, p) + Equivocators(b);
    WeightSubset(Supporters(a, p) + Equivocators(a), Supporters(b, p) + Equivocators(b), c.weight);
  }

  /** Once over quorum, a value stays over, and stays directly supported, in every safe extension. */
  lemma OverPersists(c: Committee, a: set<Ballot>, b: set<Ballot>, p: ProposalValue)
    requires a <= b && Over(c, a, p) && !c.Quorum(EquivocatorWeight(c, b))
    ensures Over(c, b, p)
  {
    TotalForGrows(c, a, b, p);
  }

  /** A panic condition, once met, is met by every extension: a safe tally has only safe parts. */
  lemma SafeInherits(c: Committee, a: set<Ballot>, b: set<Ballot>)
    requires a <= b && Safe(c, b)
    ensures Safe(c, a)
  {
    TotalForGrows(c, a, b, BOTTOM);
    forall p, q | Over(c, a, p) && Over(c, a, q) ensures p == q {
      OverPersists(c, a, b, p);
      OverPersists(c, a, b, q);
    }
  }

  /** What has been reported stays right: a safe extension of a tally with a value over reports the same value. */
  lemma ReportedPersists(c: Committee, a: set<Ballot>, b: set<Ballot>)
    requires a <= b && Safe(c, b) && (AnyOver(c, a) || !AnyOver(c, b))
    ensures Reported(c, a) == Reported(c, b)
  {
    hide Weight, Supporters, Equivocators;
    if AnyOver(c, a) {
      OverPersists(c, a, b, Reported(c, a)[0]);
    }
  }

  /** The counter for any value is bounded by the weight of the distinct senders heard. */
  lemma TotalForBounded(c: Committee, b: set<Ballot>, p: ProposalValue)
    ensures TotalFor(c, b, p) <= Weight(Senders(b), c.weight)
  {
    assert Supporters(b, p) !! Equivocators(b);
    WeightDisjoint(Supporters(b, p), Equivocators(b), c.weight);
    WeightSubset(Supporters(b, p) + Equivocators(b), Senders(b), c.weight);
  }

  // ---------------------------------------------------------------- one more ballot

  lemma SendersAdd(b: set<Ballot>, x: Ballot)
    ensures Senders(b + {x}) == Senders(b) + {x.sender}
  {
    assert x in b + {x};
  }

  lemma AddFirstBallot(b: set<Ballot>, x: Ballot)
    requires x.sender !in Senders(b)
    ensures Equivocators(b + {x}) == Equivocators(b)
    ensures x.sender !in Supporters(b, x.value)
    ensures forall p :: Supporters(b + {x}, p) ==
                        if p == x.value then Supporters(b, p) + {x.sender} else Supporters(b, p)
  {
    assert forall y :: y in b ==> y.sender != x.sender;
    forall s ensures Equivocates(b + {x}, s) <==> Equivocates(b, s) {}
    forall p ensures Supporters(b + {x}, p) ==
                     if p == x.value then Supporters(b, p) + {x.sender} else Supporters(b, p)
    {
      var n := Supporters(b + {x}, p);
      forall s ensures s in n <==> s in (if p == x.value then Supporters(b, p) + {x.sender} else Supporters(b, p)) {
        if s == x.sender && p == x.value { assert x in b + {x}; }
      }
    }
  }

  lemma AddConflictingBallot(b: set<Ballot>, x: Ballot, prior: ProposalValue)
    requires x.sender in Supporters(b, prior) && x.value != prior
    ensures Equivocators(b + {x}) == Equivocators(b) + {x.sender}
    ensures x.sender !in Equivocators(b)
    ensures forall p :: Supporters(b + {x}, p) == Supporters(b, p) - {x.sender}
    ensures forall p :: p != prior ==> x.sender !in Supporters(b, p)
  {
    var o :| o in b && o.sender == x.sender && o.value == prior;
    assert Equivocates(b + {x}, x.sender) by { assert o in b + {x} && x in b + {x}; }
    forall s | s != x.sender ensures Equivocates(b + {x}, s) <==> Equivocates(b, s) {}
    assert Equivocators(b + {x}) == Equivocators(b) + {x.sender};
    forall p ensures Supporters(b + {x}, p) == Supporters(b, p) - {x.sender} {
      forall s ensures s in Supporters(b + {x}, p) <==> s in Supporters(b, p) - {x.sender} {}
    }
  }

  lemma AddEquivocatorBallot(b: set<Ballot>, x: Ballot)
    requires Equivocates(b, x.sender)
    ensures Senders(b + {x}) == Senders(b)
    ensures Equivocators(b + {x}) == Equivocators(b)
    ensures forall p :: Supporters(b + {x}, p) == Supporters(b, p)
  {
    forall s ensures Equivocates(b + {x}, s) <==> Equivocates(b, s) {}
    forall p ensures Supporters(b + {x}, p) == Supporters(b, p) {
      forall s ensures s in Supporters(b + {x}, p) <==> s in Supporters(b, p) {}
    }
  }

  /** Tallies with the same supporters and equivocators agree on everything. */
  lemma SameTally(c: Committee, a: set<Ballot>, b: set<Ballot>)
    requires Equivocators(a) == Equivocators(b) && forall p :: Supporters(a, p) == Supporters(b, p)
    ensures forall p :: Over(c, a, p) <==> Over(c, b, p)
    ensures Safe(c, a) <==> Safe(c, b)
  {
    hide Supporters, Equivocators, Weight;
  }

  lemma SupportsOne(b: set<Ballot>, s: Address, p: ProposalValue, q: ProposalValue)
    requires s in Supporters(b, p) && s in Supporters(b, q)
    ensures p == q
  {
  }
}
