/**
 The network's assumptions can be met, and a run that meets them can reach a decision: one
 honest account votes, sees its own quorums and ensures its block. Three accounts of which any
 two are a quorum meet the assumptions too.
 */
module NetworkExample {
  import opened AgreementTypes
  import opened Weights
  import opened Tally
  import opened HonestMajority
  import opened VotingRules
  import opened NodeProtocol
  import opened Network
  import opened PlayerNetwork

  const BLOCK := ProposalValue(0, 1, 1, 1)

  function Alone(): Population {
    Population({1}, {1}, _ => 1, ConsensusParams(1, 1, 1, 1, 1, 1))
  }

  lemma AloneIsSound()
    ensures Alone().Sound()
  {
    var pop := Alone();
    WeightRemove(pop.accounts, 1, pop.weight);
    assert pop.accounts - {1} == {} && pop.accounts - pop.honest == {};
  }

  /** The one account's vote is a quorum. */
  lemma OwnQuorum(votes: set<NetVote>, c: Cast)
    requires NetVote(1, c) in votes && c.step != PROPOSE
    ensures c in Visible(Alone(), votes)
  {
    var b := Ballot(1, c.value);
    var part := {b};
    assert !Equivocates(part, 1);
    assert Supporters(part, c.value) == {1};
    WeightRemove({1}, 1, Alone().weight);
    assert Over(Alone().At(c.step), part, c.value);
    assert part <= BallotsAt(votes, c.period, c.step);
  }

  const SOFT_VOTE := NetVote(1, Cast(0, SOFT, BLOCK))
  const CERT_VOTE := NetVote(1, Cast(0, CERT, BLOCK))

  /** The node after its soft timeout. */
  const VOTED := FRESH_NODE.(step := CERT, atSoft := map[0 := NOTHING_SEEN])

  lemma SoftVoted()
    ensures Reached(Alone(), Net({SOFT_VOTE}, map[1 := VOTED], {}))
  {
    var g := Net({}, map[1 := FRESH_NODE], {});
    assert Init(Alone(), g) && RunTo(Alone(), [g], g);
    assert React(FRESH_NODE, Timeout(BLOCK)).node == VOTED;
    hide Reached, Visible, MineOf;
    ReactStep(Alone(), g, 1, Timeout(BLOCK));
    assert Reacted(g, 1, Timeout(BLOCK)) == Net({SOFT_VOTE}, map[1 := VOTED], {});
  }

  lemma GotBlock()
    ensures Reached(Alone(), Net({SOFT_VOTE}, map[1 := VOTED.(blocks := {BLOCK})], {}))
  {
    hide Reached, Visible, MineOf;
    SoftVoted();
    assert VOTED.blocks + {BLOCK} == {BLOCK};
    var g := Net({SOFT_VOTE}, map[1 := VOTED], {});
    ReactStep(Alone(), g, 1, Payload(BLOCK, false));
    assert Reacted(g, 1, Payload(BLOCK, false)) == Net({SOFT_VOTE}, map[1 := VOTED.(blocks := {BLOCK})], {});
  }

  lemma CertVoted()
    ensures Reached(Alone(), Net({SOFT_VOTE, CERT_VOTE},
                                 map[1 := VOTED.(blocks := {BLOCK}, staged := map[0 := BLOCK])], {}))
  {
    hide Reached, Visible, MineOf;
    GotBlock();
    OwnQuorum({SOFT_VOTE}, SOFT_VOTE.cast);
    var g := Net({SOFT_VOTE}, map[1 := VOTED.(blocks := {BLOCK})], {});
    ReactStep(Alone(), g, 1, SeeSoft(0, BLOCK));
    assert {SOFT_VOTE} + {CERT_VOTE} == {SOFT_VOTE, CERT_VOTE};
    assert Reacted(g, 1, SeeSoft(0, BLOCK)) ==
           Net({SOFT_VOTE, CERT_VOTE}, map[1 := VOTED.(blocks := {BLOCK}, staged := map[0 := BLOCK])], {});
  }

  /** Some run ends with a block ensured. */
  lemma SomeRunEnsures() returns (g: Net)
    ensures Alone().Sound() && Reached(Alone(), g) && Ensured(1, BLOCK) in g.ensured
  {
    hide Reached, Visible, MineOf;
    AloneIsSound();
    CertVoted();
    var before := Net({SOFT_VOTE, CERT_VOTE}, map[1 := VOTED.(blocks := {BLOCK}, staged := map[0 := BLOCK])], {});
    OwnQuorum(before.votes, CERT_VOTE.cast);
    ReactStep(Alone(), before, 1, SeeCert(0, BLOCK));
    g := Reacted(before, 1, SeeCert(0, BLOCK));
  }

  // ---------------------------------------------------------------- three accounts

  /** Three honest accounts, any two of which are a quorum. */
  function Three(): Population {
    Population({1, 2, 3}, {1, 2, 3}, _ => 1, ConsensusParams(2, 2, 2, 2, 2, 2))
  }

  lemma {:induction false} ThreeWeigh(s: set<Address>)
    requires s <= {1, 2, 3}
    ensures Weight(s, Three().weight) == |s|
    decreases s
  {
    if x :| x in s {
      WeightRemove(s, x, Three().weight);
      ThreeWeigh(s - {x});
    }
  }

  lemma ThreeIsSound()
    ensures Three().Sound()
  {
    var pop := Three();
    ThreeWeigh(pop.accounts);
    assert pop.accounts - pop.honest == {};
    ThreeWeigh({});
  }

  /** Two of them make a quorum visible. */
  lemma PairQuorum(votes: set<NetVote>, a: Address, b: Address, c: Cast)
    requires a != b && {a, b} <= {1, 2, 3} && NetVote(a, c) in votes && NetVote(b, c) in votes && c.step != PROPOSE
    ensures c in Visible(Three(), votes)
  {
    var part := {Ballot(a, c.value), Ballot(b, c.value)};
    assert !Equivocates(part, a) && !Equivocates(part, b);
    assert Supporters(part, c.value) == {a, b};
    ThreeWeigh({a, b});
    assert Over(Three().At(c.step), part, c.value);
    assert part <= BallotsAt(votes, c.period, c.step);
  }
}
