/**
 Players in the network: a handler that follows the model is a stretch of a network run, so
 what holds of every run holds of every interleaving of players' handlers. Each round is one
 network; a player is a node of its own round's network and, untouched, of every later one.
 */
module PlayerNetwork {
  import opened AgreementTypes
  import opened Tally
  import opened Bundles
  import opened BundleGeneration
  import opened HonestMajority
  import opened VoteTracking
  import opened NodeProtocol
  import opened PlayerView
  import opened PlayerActions
  import opened Network

  function Last(run: seq<Net>): Net
    requires run != []
  {
    run[|run| - 1]
  }

  ghost predicate RunTo(pop: Population, run: seq<Net>, g: Net) {
    IsRun(pop, run) && Last(run) == g
  }

  /** Some run of the network leads to `g`. */
  ghost predicate Reached(pop: Population, g: Net) {
    exists run :: RunTo(pop, run, g)
  }

  lemma Extend(pop: Population, g: Net, g': Net)
    requires Reached(pop, g) && Next(pop, g, g')
    ensures Reached(pop, g')
  {
    hide Next, Init;
    var run :| RunTo(pop, run, g);
    var longer := run + [g'];
    forall i | 0 <= i < |longer| - 1 ensures Next(pop, longer[i], longer[i + 1]) {
      if i < |run| - 1 {
        assert Next(pop, run[i], run[i + 1]);
      }
    }
    assert RunTo(pop, longer, g');
  }

  lemma ReachedKeeps(pop: Population, g: Net)
    requires pop.Sound() && Reached(pop, g)
    ensures Inv(pop, g)
  {
    var run :| RunTo(pop, run, g);
    RunKeeps(pop, run, |run| - 1);
  }

  /** The network after one node reacts. */
  function Reacted(g: Net, me: Address, e: Event): Net
    requires me in g.nodes
  {
    var r := React(g.nodes[me], e);
    Net(if r.vote.None? then g.votes else g.votes + {NetVote(me, r.vote.value)},
        g.nodes[me := r.node],
        if r.ensured.None? then g.ensured else g.ensured + {Ensured(me, r.ensured.value)})
  }

  /** One node reacts. */
  lemma ReactStep(pop: Population, g: Net, me: Address, e: Event)
    requires Reached(pop, g) && me in g.nodes
    requires Enabled(MineOf(g.votes, me), Visible(pop, g.votes), g.nodes[me], e)
    ensures Reached(pop, Reacted(g, me, e))
  {
    hide Visible, Enabled, Reached;
    assert HonestStep(pop, g, Reacted(g, me, e), me, e);
    Extend(pop, g, Reacted(g, me, e));
  }

  /** The network with other blocks at one node. */
  function WithBlocks(g: Net, me: Address, blocks: set<ProposalValue>): Net
    requires me in g.nodes
  {
    g.(nodes := g.nodes[me := g.nodes[me].(blocks := blocks)])
  }

  /** Dropping blocks, one by one. */
  lemma {:induction false} ForgetStep(pop: Population, g: Net, me: Address, blocks: set<ProposalValue>)
    requires Reached(pop, g) && me in g.nodes && g.nodes[me].active && blocks <= g.nodes[me].blocks
    requires forall x :: x in g.nodes[me].blocks - blocks ==> Cast(g.nodes[me].period, CERT, x) !in MineOf(g.votes, me)
    ensures Reached(pop, WithBlocks(g, me, blocks))
    decreases g.nodes[me].blocks - blocks
  {
    hide Reached, MineOf, Visible;
    var n := g.nodes[me];
    if n.blocks == blocks {
      assert g.nodes[me := n] == g.nodes;
    } else {
      assert blocks + (n.blocks - blocks) == n.blocks;
      var x :| x in n.blocks - blocks;
      assert n.blocks - (blocks + {x}) < n.blocks - blocks;
      ForgetStep(pop, g, me, blocks + {x});
      var h := WithBlocks(g, me, blocks + {x});
      ReactStep(pop, h, me, Forget(x));
      assert (blocks + {x}) - {x} == blocks;
      assert h.nodes[me := n.(blocks := blocks)] == g.nodes[me := n.(blocks := blocks)];
    }
  }

  // ---------------------------------------------------------------- from trackers to visible quorums

  /** What a tracker fed votes of the network reports, the network makes visible. */
  lemma TrackerEventVisible(t: VoteTracker, e: ThresholdEvent, pop: Population, votes: set<NetVote>)
    requires t.EventOk(e) && t.k.c == pop.At(t.k.c.step) && t.seen <= BallotsAt(votes, t.k.period, t.k.c.step)
    ensures Cast(e.period, e.step, e.proposal) in Visible(pop, votes)
  {
    assert Over(pop.At(e.step), t.seen, e.proposal);
  }

  /** A threshold event of round `r` that the votes cast so far bear out. */
  ghost predicate EventSeen(pop: Population, votes: set<NetVote>, r: Round, e: ThresholdEvent) {
    && e.round == r && e.kind == KindOf(e.step) && e.step != PROPOSE
    && Cast(e.period, e.step, e.proposal) in Visible(pop, votes)
  }

  /** The event's bundle is its own and passes verification. */
  ghost predicate EventProven(vf: Verifier, proto: ConsensusParams, e: ThresholdEvent) {
    && e.bundle.round == e.round && e.bundle.period == e.period
    && e.bundle.step == e.step && e.bundle.proposal == e.proposal
    && exists vs, es :: Proves(vf, proto, e.bundle, vs, es)
  }

  /** The bundle a tracker draws for its event proves it. */
  lemma TrackerEventProven(t: VoteTracker, e: ThresholdEvent)
    requires t.EventOk(e)
    ensures EventProven(t.k.vf, t.k.c.proto, e)
  {
    hide Proves, Over, Thrifty;
  }

  lemma VisibleGrows(pop: Population, votes: set<NetVote>, more: set<NetVote>, c: Cast)
    requires votes <= more && c in Visible(pop, votes)
    ensures c in Visible(pop, more)
  {
    var part :| part <= BallotsAt(votes, c.period, c.step) && Over(pop.At(c.step), part, c.value);
    assert BallotsAt(votes, c.period, c.step) <= BallotsAt(more, c.period, c.step);
  }

  /** An event that is borne out enables the model's reaction. */
  lemma SeenEnables(pop: Population, votes: set<NetVote>, r: Round, e: ThresholdEvent, mine: set<Cast>, n: Node,
                    freshest: bool)
    requires EventSeen(pop, votes, r, e) && n.active
    ensures Enabled(mine, Visible(pop, votes), n, Seen(e, freshest))
  {
    hide Visible;
  }

  /** Where next quorums agree, a mark in the cache is the event itself. */
  lemma NotedIsRemembered(pop: Population, g: Net, me: Address, r: Round, e: ThresholdEvent)
    requires Inv(pop, g) && me in g.nodes && EventSeen(pop, g.votes, r, e) && Noted(g.nodes[me].cached, e)
    ensures Remembered(g.nodes[me].cached, e)
  {
    hide Visible, Facts;
    if e.kind.NextThreshold? && e.proposal != BOTTOM {
      var f, c := Facts(pop, g.votes), g.nodes[me].cached;
      VisibleIsFact(pop, g, Cast(e.period, e.step, e.proposal));
      assert NextSeen(f, e.period, e.proposal);
      assert CacheOk(f, c);
      NextUnique(pop, g, e.period, e.proposal, c[e.period].proposal);
    }
  }

  // ---------------------------------------------------------------- handlers never cost a cert-voted block

  /** Every block a followed reaction drops backs no cert vote of the period the node is then in. */
  lemma DropsNoCertVote(pop: Population, g: Net, me: Address, e: Event, n': Node, x: ProposalValue)
    requires Inv(pop, g) && me in g.nodes && Follows(g.nodes[me], e, n') && !e.Forget?
    requires Enabled(MineOf(g.votes, me), Visible(pop, g.votes), g.nodes[me], e)
    requires x in React(g.nodes[me], e).node.blocks && x !in n'.blocks
    ensures Cast(n'.period, CERT, x) !in After(MineOf(g.votes, me), React(g.nodes[me], e))
  {
    hide Visible, Facts, VotesOk, SoftFirst;
    var n, mine, f := g.nodes[me], MineOf(g.votes, me), Facts(pop, g.votes);
    var r, c := React(n, e), Cast(n'.period, CERT, x);
    assert NodeInv(mine, f, n) by { NodeAt(pop, g, me); }
    if c in After(mine, r) {
      FactsCoherent(pop, g);
      EnabledByFacts(pop, g, me, e);
      Kept(mine, f, n, e);
      CertVoteHolds(After(mine, r), f, r.node, c);
      if c in mine {
        VotePeriod(mine, f, n, c);
      }
      if e.SeeCert? {
        CertLocks(pop, g, e.q, e.x, n'.period);
      }
      assert false;
    }
  }

  lemma NodeAt(pop: Population, g: Net, me: Address)
    requires Inv(pop, g) && me in g.nodes
    ensures NodeInv(MineOf(g.votes, me), Facts(pop, g.votes), g.nodes[me])
  {
    hide NodeInv, Facts;
  }

  lemma CertVoteHolds(mine: set<Cast>, facts: iset<Cast>, n: Node, c: Cast)
    requires NodeInv(mine, facts, n) && c in mine && c.step == CERT && c.period == n.period
    ensures n.Committable() == Some(c.value) && Cast(c.period, SOFT, c.value) in facts
  {
    assert CertReason(facts, n.period, n.Committable(), c);
  }

  lemma VotePeriod(mine: set<Cast>, facts: iset<Cast>, n: Node, c: Cast)
    requires NodeInv(mine, facts, n) && c in mine
    ensures c.period <= n.period
  {
    assert VotePlaced(c, n.period, n.step, n.napping, n.atSoft);
  }

  lemma MineReacted(g: Net, me: Address, e: Event)
    requires me in g.nodes
    ensures MineOf(Reacted(g, me, e).votes, me) == After(MineOf(g.votes, me), React(g.nodes[me], e))
  {
    hide React;
    var r := React(g.nodes[me], e);
    if r.vote.Some? { MineGrows(g.votes, NetVote(me, r.vote.value), me); }
  }

  /**
   A player that follows event `e` takes its round's network to the state with its new node
   and its vote.
   */
  lemma FollowStep(pop: Population, g: Net, me: Address, e: Event, n': Node)
    requires pop.Sound() && Reached(pop, g) && me in g.nodes && Follows(g.nodes[me], e, n') && !e.Forget?
    requires Enabled(MineOf(g.votes, me), Visible(pop, g.votes), g.nodes[me], e)
    ensures Reached(pop, Reacted(g, me, e).(nodes := g.nodes[me := n']))
  {
    hide Reached, Visible, Enabled, React, Inv, Facts, MineOf, After, DropsOnly, Population.Sound;
    ReachedKeeps(pop, g);
    var h := Reacted(g, me, e);
    ReactStep(pop, g, me, e);
    MineReacted(g, me, e);
    forall x | x in h.nodes[me].blocks - n'.blocks ensures Cast(h.nodes[me].period, CERT, x) !in MineOf(h.votes, me) {
      DropsNoCertVote(pop, g, me, e, n', x);
    }
    ForgetStep(pop, h, me, n'.blocks);
    assert h.nodes[me := n'] == g.nodes[me := n'];
  }
}
