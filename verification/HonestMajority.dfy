/**
 The weight assumption behind safety, and what it gives inside one voting step: trackers
 fed different parts of one vote set cannot disagree, and no safety panic is reachable.
 */
module HonestMajority {
  import opened AgreementTypes
  import opened Weights
  import opened Tally

  /** The accounts of a round with one weight each, and those that follow the protocol. */
  datatype Population = Population(
    accounts: set<Address>, honest: set<Address>, weight: Address -> nat, proto: ConsensusParams)
  {
    ghost function Total(): nat { Weight(accounts, weight) }

    ghost function Faulty(): nat { Weight(accounts - honest, weight) }

    function At(s: Step): Committee { Committee(s, proto, weight) }

    /** Twice any threshold exceeds the total weight plus the faulty weight. */
    ghost predicate Sound() {
      && honest <= accounts
      && forall s: Step :: s != PROPOSE ==> 2 * Threshold(s, proto) > Total() + Faulty()
    }
  }

  ghost function HonestFor(pop: Population, b: set<Ballot>, p: ProposalValue): set<Address> {
    set x | x in b && x.value == p && x.sender in pop.honest :: x.sender
  }

  /** The assumption, threshold by threshold. */
  lemma SoundIff(pop: Population)
    ensures var w, t := Weight(pop.accounts, pop.weight) + Weight(pop.accounts - pop.honest, pop.weight), pop.proto;
            pop.Sound() <==>
            && pop.honest <= pop.accounts
            && 2 * t.soft > w && 2 * t.cert > w && 2 * t.next > w && 2 * t.late > w && 2 * t.redo > w && 2 * t.down > w
  {
    if pop.Sound() {
      var t := pop.proto;
      assert Threshold(SOFT, t) == t.soft && Threshold(CERT, t) == t.cert && Threshold(NEXT, t) == t.next;
      assert Threshold(LATE, t) == t.late && Threshold(REDO, t) == t.redo && Threshold(DOWN, t) == t.down;
    }
  }

  /** Honest backing, step by step. */
  lemma BackedByStep(pop: Population, s: Step, b: set<Ballot>, p: ProposalValue, w: nat)
    requires w == Weight(HonestFor(pop, b, p), pop.weight) + Weight(pop.accounts - pop.honest, pop.weight)
    ensures s == PROPOSE ==> !Backed(pop, s, b, p)
    ensures s == SOFT ==> (Backed(pop, s, b, p) <==> w >= pop.proto.soft)
    ensures s == CERT ==> (Backed(pop, s, b, p) <==> w >= pop.proto.cert)
    ensures s == LATE ==> (Backed(pop, s, b, p) <==> w >= pop.proto.late)
    ensures s == REDO ==> (Backed(pop, s, b, p) <==> w >= pop.proto.redo)
    ensures s == DOWN ==> (Backed(pop, s, b, p) <==> w >= pop.proto.down)
    ensures NEXT <= s < LATE || s > DOWN ==> (Backed(pop, s, b, p) <==> w >= pop.proto.next)
  {
  }

  /** Votes come from accounts, and no honest account voted for two values. */
  ghost predicate HonestOnce(pop: Population, b: set<Ballot>) {
    && Senders(b) <= pop.accounts
    && forall s :: s in pop.honest ==> !Equivocates(b, s)
  }

  /** The honest voters for `p`, were all faulty accounts to join them, reach the threshold. */
  ghost predicate Backed(pop: Population, s: Step, b: set<Ballot>, p: ProposalValue) {
    s != PROPOSE && Weight(HonestFor(pop, b, p), pop.weight) + pop.Faulty() >= Threshold(s, pop.proto)
  }

  lemma BackedGrows(pop: Population, s: Step, a: set<Ballot>, b: set<Ballot>, p: ProposalValue)
    requires a <= b && Backed(pop, s, a, p)
    ensures Backed(pop, s, b, p)
  {
    WeightSubset(HonestFor(pop, a, p), HonestFor(pop, b, p), pop.weight);
  }

  /** A value over quorum on any node is backed by honest voters of the whole network. */
  lemma OverIsBacked(pop: Population, s: Step, part: set<Ballot>, all: set<Ballot>, p: ProposalValue)
    requires pop.honest <= pop.accounts && part <= all && HonestOnce(pop, all)
    requires Over(pop.At(s), part, p)
    ensures Backed(pop, s, all, p)
  {
    var h, f := HonestFor(pop, all, p), pop.accounts - pop.honest;
    var counted := Supporters(part, p) + Equivocators(part);
    assert counted <= h + f by {
      forall a | a in counted ensures a in h + f {
        assert a in Senders(all);
        if a in Supporters(part, p) { assert Ballot(a, p) in all; }
        if a in Equivocators(part) { assert Equivocates(all, a); }
      }
    }
    assert Supporters(part, p) !! Equivocators(part) && h !! f;
    hide Supporters, Equivocators, HonestFor;
    WeightDisjoint(Supporters(part, p), Equivocators(part), pop.weight);
    WeightDisjoint(h, f, pop.weight);
    WeightSubset(counted, h + f, pop.weight);
  }

  /** Backed values of any two steps share an honest voter. */
  lemma CommonVoter(pop: Population, x: set<Address>, s: Step, y: set<Address>, t: Step) returns (n: Address)
    requires pop.Sound() && x <= pop.honest && y <= pop.honest && s != PROPOSE && t != PROPOSE
    requires Weight(x, pop.weight) + pop.Faulty() >= Threshold(s, pop.proto)
    requires Weight(y, pop.weight) + pop.Faulty() >= Threshold(t, pop.proto)
    ensures n in x && n in y
  {
    WeightSubset(pop.honest, pop.accounts, pop.weight);
    assert 2 * Threshold(s, pop.proto) > pop.Total() + pop.Faulty();
    assert 2 * Threshold(t, pop.proto) > pop.Total() + pop.Faulty();
    n := Intersection(x, y, pop.honest, pop.weight);
  }

  /** A backed value has an honest voter. */
  lemma SomeVoter(pop: Population, x: set<Address>, s: Step) returns (n: Address)
    requires pop.Sound() && x <= pop.honest && s != PROPOSE
    requires Weight(x, pop.weight) + pop.Faulty() >= Threshold(s, pop.proto)
    ensures n in x
  {
    n := CommonVoter(pop, x, s, x, s);
  }

  lemma BackedUnique(pop: Population, s: Step, b: set<Ballot>, p: ProposalValue, q: ProposalValue)
    requires pop.Sound() && HonestOnce(pop, b) && Backed(pop, s, b, p) && Backed(pop, s, b, q)
    ensures p == q
  {
    var n := CommonVoter(pop, HonestFor(pop, b, p), s, HonestFor(pop, b, q), s);
    assert Ballot(n, p) in b && Ballot(n, q) in b;
  }

  /** Trackers on different nodes, fed any parts of one vote set, never report different values. */
  lemma SameStepAgreement(pop: Population, s: Step, all: set<Ballot>, a: set<Ballot>, b: set<Ballot>,
                          p: ProposalValue, q: ProposalValue)
    requires pop.Sound() && HonestOnce(pop, all) && a <= all && b <= all
    requires Over(pop.At(s), a, p) && Over(pop.At(s), b, q)
    ensures p == q
  {
    hide Over, Backed, HonestOnce;
    OverIsBacked(pop, s, a, all, p);
    OverIsBacked(pop, s, b, all, q);
    BackedUnique(pop, s, all, p, q);
  }

  /** Neither the "too many equivocators" nor the "more than one value" panic is reachable. */
  lemma NoPanic(pop: Population, s: Step, all: set<Ballot>, a: set<Ballot>)
    requires pop.Sound() && HonestOnce(pop, all) && a <= all
    ensures Safe(pop.At(s), a)
  {
    assert Equivocators(a) <= pop.accounts - pop.honest by {
      forall x | x in Equivocators(a) ensures x in pop.accounts - pop.honest {
        assert Equivocates(all, x) && x in Senders(all);
      }
    }
    WeightSubset(Equivocators(a), pop.accounts - pop.honest, pop.weight);
    WeightSubset(pop.accounts - pop.honest, pop.accounts, pop.weight);
    forall p, q | Over(pop.At(s), a, p) && Over(pop.At(s), a, q) ensures p == q {
      SameStepAgreement(pop, s, all, a, a, p, q);
    }
  }
}
