/**
 All players and all rounds at once: one network per round, the view of each player, and
 what every handler does to them. Agreement then holds of the ensures that players issue.
 */
module PlayerWorld {
  import opened AgreementTypes
  import opened Bundles
  import opened HonestMajority
  import opened VoteTracking
  import opened NodeProtocol
  import opened PlayerView
  import opened PlayerActions
  import opened Network
  import opened PlayerNetwork

  function InitNet(honest: set<Address>): Net {
    Net({}, map n | n in honest :: FRESH_NODE, {})
  }

  /** `net` holds the networks touched so far; any other round's is still in its initial state. */
  datatype World = World(
    pops: Round -> Population, vf: Verifier, honest: set<Address>, net: map<Round, Net>, snaps: map<Address, Snap>)
  {
    function At(r: Round): Net {
      if r in net then net[r] else InitNet(honest)
    }

    /** The world with the network of one round replaced. */
    function Put(r: Round, g: Net): World {
      this.(net := net[r := g])
    }
  }

  ghost predicate PopsOk(w: World) {
    forall r :: w.pops(r).Sound() && w.pops(r).honest == w.honest
  }

  ghost predicate NetsOk(w: World) {
    forall r :: Reached(w.pops(r), w.At(r))
  }

  /** A player is the node of its own round. */
  ghost predicate HomeOk(w: World, n: Address, s: Snap) {
    && n in w.At(s.round).nodes && w.At(s.round).nodes[n] == s.node
    && s.node.active && s.node.cached == CachedIn(s.cached, s.round)
    && (s.round in s.freshest ==> FreshSeen(w, s, s.round))
  }

  /** An event of its round that the votes cast so far bear out, with a bundle that proves it. */
  ghost predicate Borne(w: World, e: ThresholdEvent) {
    && EventSeen(w.pops(e.round), w.At(e.round).votes, e.round, e)
    && EventProven(w.vf, w.pops(e.round).proto, e)
  }

  /** The event waiting in round `r` is borne out and has left its mark. */
  ghost predicate FreshSeen(w: World, s: Snap, r: Round)
    requires r in s.freshest
  {
    s.freshest[r].round == r && Borne(w, s.freshest[r]) && Noted(CachedIn(s.cached, r), s.freshest[r])
  }

  /** In a later round a player is a fresh node, and what waits there is borne out. */
  ghost predicate AheadAt(w: World, n: Address, s: Snap, r: Round) {
    && n in w.At(r).nodes && w.At(r).nodes[n] == Future(s.cached, r)
    && (r in s.freshest ==> FreshSeen(w, s, r))
  }

  ghost predicate AheadOk(w: World, n: Address, s: Snap) {
    forall r :: r > s.round ==> AheadAt(w, n, s, r)
  }

  ghost predicate SnapOk(w: World, n: Address, s: Snap) {
    HomeOk(w, n, s) && AheadOk(w, n, s)
  }

  ghost predicate OthersOk(w: World, me: Address) {
    forall n :: n in w.snaps && n != me ==> SnapOk(w, n, w.snaps[n])
  }

  ghost predicate WorldOk(w: World) {
    && PopsOk(w) && NetsOk(w) && w.snaps.Keys == w.honest
    && forall n :: n in w.snaps ==> SnapOk(w, n, w.snaps[n])
  }

  // ---------------------------------------------------------------- one network changes

  /** Only node `me` changed; votes and ensures only grew. */
  ghost predicate Touched(g: Net, g': Net, me: Address) {
    && g.votes <= g'.votes && g.ensured <= g'.ensured
    && g'.nodes.Keys == g.nodes.Keys && forall n :: n in g.nodes && n != me ==> g'.nodes[n] == g.nodes[n]
  }

  lemma SeenStays(w: World, r: Round, g: Net, me: Address, s: Snap, q: Round)
    requires q in s.freshest && FreshSeen(w, s, q) && Touched(w.At(r), g, me)
    ensures FreshSeen(w.Put(r, g), s, q)
  {
    hide Visible;
    if q == r {
      var e := s.freshest[q];
      VisibleGrows(w.pops(r), w.At(r).votes, g.votes, Cast(e.period, e.step, e.proposal));
    }
  }

  lemma SnapStays(w: World, r: Round, g: Net, me: Address, n: Address, s: Snap)
    requires SnapOk(w, n, s) && Touched(w.At(r), g, me) && n != me
    ensures SnapOk(w.Put(r, g), n, s)
  {
    hide FreshSeen, Future;
    if s.round in s.freshest { SeenStays(w, r, g, me, s, s.round); }
    forall q | q > s.round ensures AheadAt(w.Put(r, g), n, s, q) {
      assert AheadAt(w, n, s, q);
      if q in s.freshest { SeenStays(w, r, g, me, s, q); }
    }
  }

  lemma AheadStays(w: World, r: Round, g: Net, n: Address, s: Snap)
    requires AheadOk(w, n, s) && r <= s.round
    ensures AheadOk(w.Put(r, g), n, s)
  {
    hide Future;
    forall q | q > s.round ensures AheadAt(w.Put(r, g), n, s, q) {
      assert AheadAt(w, n, s, q);
    }
  }

  lemma OthersStay(w: World, r: Round, g: Net, me: Address)
    requires OthersOk(w, me) && Touched(w.At(r), g, me)
    ensures OthersOk(w.Put(r, g), me)
  {
    hide SnapOk, Touched;
    forall n | n in w.snaps && n != me ensures SnapOk(w.Put(r, g), n, w.snaps[n]) {
      SnapStays(w, r, g, me, n, w.snaps[n]);
    }
  }

  lemma NetsStay(w: World, r: Round, g: Net)
    requires NetsOk(w) && Reached(w.pops(r), g)
    ensures NetsOk(w.Put(r, g))
  {
    hide Reached;
  }

  // ---------------------------------------------------------------- what a handler leaves behind

  function SentBy(me: Address, actions: seq<Action>, r: Round): set<NetVote> {
    set a | a in actions && a.Attest? && a.round == r :: NetVote(me, Cast(a.period, a.step, a.value))
  }

  /** The votes cast in every round are those before and those among the actions; ensures are recorded and sealed. */
  ghost predicate OnRecord(w: World, w': World, me: Address, actions: seq<Action>) {
    && w'.pops == w.pops && w'.vf == w.vf && w'.honest == w.honest
    && (forall r :: w'.At(r).votes == w.At(r).votes + SentBy(me, actions, r))
    && (forall r :: w.At(r).ensured <= w'.At(r).ensured)
    && (forall a :: a in actions && a.Ensure? ==>
          Ensured(me, a.payload.value) in w'.At(a.cert.round).ensured && Sealed(w', a.cert))
  }

  /** A certificate of its round. */
  ghost predicate Sealed(w: World, e: ThresholdEvent) {
    e.step == CERT && EventProven(w.vf, w.pops(e.round).proto, e)
  }

  lemma BorneIsSealed(w: World, e: ThresholdEvent)
    requires Borne(w, e) && e.kind.CertThreshold?
    ensures Sealed(w, e)
  {
    hide Visible, EventProven;
  }

  ghost predicate Stepped(w: World, w': World, me: Address, b: Snap, actions: seq<Action>) {
    WorldOk(w') && OnRecord(w, w', me, actions) && w'.snaps == w.snaps[me := b]
  }

  /** The votes of the actions are the model's vote. */
  lemma SentIsVote(me: Address, actions: seq<Action>, r: Round, vote: Option<Cast>, q: Round)
    requires Votes(actions) == VoteSeq(r, vote)
    ensures SentBy(me, actions, q) == if q == r && vote.Some? then {NetVote(me, vote.value)} else {}
  {
    hide Votes;
    forall a ensures a in actions && a.Attest? <==> a in VoteSeq(r, vote) {
      EnsuresHas(actions, a);
    }
    if q == r && vote.Some? {
      var a := Attest(r, vote.value.period, vote.value.step, vote.value.value);
      assert a in VoteSeq(r, vote);
      assert NetVote(me, Cast(a.period, a.step, a.value)) in SentBy(me, actions, q);
    }
  }

  /** One network took the model's reaction: votes and ensures are as the actions say. */
  lemma ReactionRecorded(w: World, r: Round, g: Net, me: Address, e: Event, actions: seq<Action>)
    requires me in w.At(r).nodes && Votes(actions) == VoteSeq(r, React(w.At(r).nodes[me], e).vote)
    requires var h := Reacted(w.At(r), me, e); g.votes == h.votes && g.ensured == h.ensured
    requires forall a :: a in Ensures(actions) ==>
               && a.Ensure? && a.cert.round == r && React(w.At(r).nodes[me], e).ensured == Some(a.payload.value)
               && Sealed(w, a.cert)
    ensures OnRecord(w, w.Put(r, g), me, actions)
  {
    hide Votes, Ensures, React, VoteSeq, SentBy, EventProven;
    var w' := w.Put(r, g);
    forall q ensures w'.At(q).votes == w.At(q).votes + SentBy(me, actions, q) {
      SentIsVote(me, actions, r, React(w.At(r).nodes[me], e).vote, q);
    }
    forall a | a in actions && a.Ensure?
      ensures Ensured(me, a.payload.value) in w'.At(a.cert.round).ensured && Sealed(w', a.cert)
    {
      EnsuresHas(actions, a);
    }
  }

  // ---------------------------------------------------------------- the steps

  /** Nothing changed for the rounds ahead. */
  ghost predicate SameAhead(a: Snap, b: Snap) {
    forall r :: r > a.round ==>
      && CachedIn(b.cached, r) == CachedIn(a.cached, r)
      && (r in b.freshest <==> r in a.freshest) && (r in a.freshest ==> b.freshest[r] == a.freshest[r])
  }

  lemma AheadSame(w: World, n: Address, a: Snap, b: Snap)
    requires AheadOk(w, n, a) && SameAhead(a, b) && b.round >= a.round
    ensures AheadOk(w, n, b)
  {
    forall r | r > b.round ensures AheadAt(w, n, b, r) {
      assert AheadAt(w, n, a, r);
    }
  }

  ghost predicate Proper(s: Snap) {
    s.node.active && s.node.cached == CachedIn(s.cached, s.round)
  }

  lemma NodeOf(w: World, me: Address)
    requires WorldOk(w) && me in w.snaps
    ensures var s := w.snaps[me];
            SnapOk(w, me, s) && Reached(w.pops(s.round), w.At(s.round)) && w.pops(s.round).Sound()
    ensures var s := w.snaps[me]; me in w.At(s.round).nodes && w.At(s.round).nodes[me] == s.node && s.node.active
    ensures PopsOk(w) && NetsOk(w) && OthersOk(w, me)
  {
  }

  lemma Settled(w: World, me: Address, b: Snap)
    requires PopsOk(w) && NetsOk(w) && w.snaps.Keys == w.honest && me in w.snaps && OthersOk(w, me) && SnapOk(w, me, b)
    ensures WorldOk(w.(snaps := w.snaps[me := b]))
  {
    hide SnapOk, Reached, Population.Sound;
    var w' := w.(snaps := w.snaps[me := b]);
    forall r ensures w'.At(r) == w.At(r) {}
    forall n | n in w'.snaps ensures SnapOk(w', n, w'.snaps[n]) {
      SameNets(w, w', n, w'.snaps[n]);
    }
  }

  /** One network and one player's view change together. */
  lemma Placed(w: World, me: Address, b: Snap, r: Round, g: Net)
    requires PopsOk(w) && NetsOk(w) && w.snaps.Keys == w.honest && me in w.snaps && OthersOk(w, me)
    requires Touched(w.At(r), g, me) && Reached(w.pops(r), g) && SnapOk(w.Put(r, g), me, b)
    ensures WorldOk(w.Put(r, g).(snaps := w.snaps[me := b]))
  {
    hide SnapOk, Reached, Population.Sound, Touched, OthersOk, NetsOk;
    OthersStay(w, r, g, me);
    NetsStay(w, r, g);
    Settled(w.Put(r, g), me, b);
  }

  lemma SameNets(w: World, w': World, n: Address, s: Snap)
    requires SnapOk(w, n, s) && w'.net == w.net && w'.pops == w.pops && w'.vf == w.vf && w'.honest == w.honest
    ensures SnapOk(w', n, s)
  {
    hide EventSeen, EventProven, Future;
    forall r | r > s.round ensures AheadAt(w', n, s, r) {
      assert AheadAt(w, n, s, r);
    }
  }

  /** A handler that stays in its round. */
  lemma StayStep(w: World, me: Address, e: Event, b: Snap, actions: seq<Action>) returns (w': World)
    requires WorldOk(w) && me in w.snaps && !e.Forget?
    requires var a := w.snaps[me]; Moves(a, e, b, actions) && b.round == a.round && SameAhead(a, b) && Proper(b)
    requires var g := w.At(b.round);
             Enabled(MineOf(g.votes, me), Visible(w.pops(b.round), g.votes), w.snaps[me].node, e)
    requires b.round in b.freshest ==> FreshSeen(w, b, b.round)
    ensures Stepped(w, w', me, b, actions)
  {
    hide Visible, Enabled, Reached, MineOf, React, Follows, Votes, Ensures, VoteSeq, Population.Sound, FreshSeen,
         Future, SameAhead;
    NodeOf(w, me);
    var a, r := w.snaps[me], b.round;
    var g := w.At(r);
    FollowStep(w.pops(r), g, me, e, b.node);
    var g' := Reacted(g, me, e).(nodes := g.nodes[me := b.node]);
    StayHome(w, me, a, b, e, g', actions);
    w' := w.Put(r, g').(snaps := w.snaps[me := b]);
  }

  lemma StayHome(w: World, me: Address, a: Snap, b: Snap, e: Event, g: Net, actions: seq<Action>)
    requires PopsOk(w) && NetsOk(w) && w.snaps.Keys == w.honest && me in w.snaps && OthersOk(w, me) && SnapOk(w, me, a)
    requires Moves(a, e, b, actions) && b.round == a.round && SameAhead(a, b) && Proper(b)
    requires g == Reacted(w.At(b.round), me, e).(nodes := w.At(b.round).nodes[me := b.node])
    requires Reached(w.pops(b.round), g)
    requires b.round in b.freshest ==> FreshSeen(w, b, b.round)
    ensures Stepped(w, w.Put(b.round, g).(snaps := w.snaps[me := b]), me, b, actions)
  {
    hide Reached, React, Follows, Votes, Ensures, VoteSeq, Population.Sound, FreshSeen, Future, SameAhead, SentBy;
    var r := b.round;
    var w1 := w.Put(r, g);
    NodeMoves(w, me, a, b, g);
    Placed(w, me, b, r, g);
    ReactionRecorded(w, r, g, me, e, actions);
    RecordedSame(w, w1, w1.(snaps := w.snaps[me := b]), me, actions);
  }

  /** A player's node moves within its round. */
  lemma NodeMoves(w: World, me: Address, a: Snap, b: Snap, g: Net)
    requires SnapOk(w, me, a) && b.round == a.round && SameAhead(a, b) && Proper(b)
    requires g.nodes == w.At(b.round).nodes[me := b.node]
    requires w.At(b.round).votes <= g.votes && w.At(b.round).ensured <= g.ensured
    requires b.round in b.freshest ==> FreshSeen(w, b, b.round)
    ensures SnapOk(w.Put(b.round, g), me, b) && Touched(w.At(b.round), g, me)
  {
    hide FreshSeen, Future, SameAhead, AheadOk;
    assert Touched(w.At(b.round), g, me);
    AheadSame(w, me, a, b);
    AheadStays(w, b.round, g, me, b);
    if b.round in b.freshest { SeenStays(w, b.round, g, me, b, b.round); }
  }

  lemma RecordedSame(w: World, w1: World, w2: World, me: Address, actions: seq<Action>)
    requires OnRecord(w, w1, me, actions)
    requires w2.net == w1.net && w2.pops == w1.pops && w2.vf == w1.vf && w2.honest == w1.honest
    ensures OnRecord(w, w2, me, actions)
  {
    hide SentBy, EventProven;
    forall r ensures w2.At(r) == w1.At(r) {}
  }

  /** A player enters a later round, having done with its own. */
  lemma EnterStep(w: World, me: Address, a: Snap, b: Snap, actions: seq<Action>) returns (w': World)
    requires PopsOk(w) && NetsOk(w) && w.snaps.Keys == w.honest && me in w.snaps && OthersOk(w, me) && AheadOk(w, me, a)
    requires b.round > a.round && SameAhead(a, b) && Entered(b) && Proper(b)
    requires Votes(actions) == [] && Ensures(actions) == []
    ensures Stepped(w, w', me, b, actions)
  {
    hide Reached, Visible, Votes, Ensures, Population.Sound, Future, SameAhead, Follows, React, SentBy, OthersOk,
         FreshSeen;
    AheadSame(w, me, a, b);
    assert AheadAt(w, me, a, b.round) && Reached(w.pops(b.round), w.At(b.round));
    EnterHome(w, me, a, b);
    if b.round !in b.freshest {
      w' := w.(snaps := w.snaps[me := b]);
      Settled(w, me, b);
      NothingRecorded(w, w', me, actions);
    } else {
      var e, g, n := b.freshest[b.round], w.At(b.round), Future(b.cached, b.round);
      var g' := g.(nodes := g.nodes[me := b.node]);
      var w1 := w.Put(b.round, g');
      FutureReacts(w, me, b);
      OthersStay(w, b.round, g', me);
      NetsStay(w, b.round, g');
      AheadStays(w, b.round, g', me, b);
      SeenStays(w, b.round, g', me, b, b.round);
      Settled(w1, me, b);
      w' := w1.(snaps := w.snaps[me := b]);
      NothingRecorded(w, w', me, actions);
    }
  }

  /** The round entered was fresh for this player. */
  lemma EnterHome(w: World, me: Address, a: Snap, b: Snap)
    requires AheadAt(w, me, a, b.round) && SameAhead(a, b) && b.round > a.round
    ensures me in w.At(b.round).nodes && w.At(b.round).nodes[me] == Future(b.cached, b.round)
    ensures b.round in b.freshest ==> FreshSeen(w, b, b.round)
  {
  }

  /** The event waiting in the round entered is a reaction of the model, without vote or ensure. */
  lemma FutureReacts(w: World, me: Address, b: Snap)
    requires PopsOk(w) && Reached(w.pops(b.round), w.At(b.round)) && Entered(b) && b.round in b.freshest
    requires me in w.At(b.round).nodes && w.At(b.round).nodes[me] == Future(b.cached, b.round)
    requires FreshSeen(w, b, b.round)
    ensures var g := w.At(b.round); Reached(w.pops(b.round), g.(nodes := g.nodes[me := b.node]))
  {
    hide Reached, Visible, Enabled, MineOf, Inv, Population.Sound;
    var pop, g, e := w.pops(b.round), w.At(b.round), b.freshest[b.round];
    assert pop.Sound();
    ReachedKeeps(pop, g);
    NotedIsRemembered(pop, g, me, b.round, e);
    SeenEnables(pop, g.votes, b.round, e, MineOf(g.votes, me), g.nodes[me], true);
    FollowStep(pop, g, me, Seen(e, true), b.node);
    assert Reacted(g, me, Seen(e, true)).(nodes := g.nodes[me := b.node]) == g.(nodes := g.nodes[me := b.node]);
  }

  lemma NothingRecorded(w: World, w': World, me: Address, actions: seq<Action>)
    requires Votes(actions) == [] && Ensures(actions) == []
    requires w'.pops == w.pops && w'.vf == w.vf && w'.honest == w.honest
    requires forall r :: w'.At(r).votes == w.At(r).votes && w'.At(r).ensured == w.At(r).ensured
    ensures OnRecord(w, w', me, actions)
  {
    hide Votes, Ensures;
    forall r ensures SentBy(me, actions, r) == {} {
      SentIsVote(me, actions, r, None, r);
    }
    forall a | a in actions && a.Ensure? ensures false {
      EnsuresHas(actions, a);
    }
  }

  /** A handler that ensures a block and leaves its round. */
  lemma LeaveStep(w: World, me: Address, e: Event, b: Snap, actions: seq<Action>) returns (w': World)
    requires WorldOk(w) && me in w.snaps
    requires var a := w.snaps[me]; Moves(a, e, b, actions) && b.round != a.round && SameAhead(a, b) && Proper(b)
    requires var a := w.snaps[me]; var g := w.At(a.round);
             Enabled(MineOf(g.votes, me), Visible(w.pops(a.round), g.votes), a.node, e)
    requires w.snaps[me].round in b.freshest && Borne(w, b.freshest[w.snaps[me].round])
    ensures Stepped(w, w', me, b, actions)
  {
    hide Visible, Enabled, Reached, MineOf, Votes, Ensures, VoteSeq, Borne, OnRecord, NetsOk, OthersOk, AheadOk,
         PopsOk, HomeOk, SameAhead, Entered, Follows, React;
    NodeOf(w, me);
    var a := w.snaps[me];
    var w1 := w.Put(a.round, Reacted(w.At(a.round), me, e));
    LeaveHome(w, me, a, e, b, actions);
    SilenceSays();
    w' := EnterStep(w1, me, a, b, []);
    RecordedTwice(w, w1, w', me, actions);
  }

  /** The ensure enters the network of the round being left. */
  lemma LeaveHome(w: World, me: Address, a: Snap, e: Event, b: Snap, actions: seq<Action>)
    requires PopsOk(w) && NetsOk(w) && me in w.snaps && OthersOk(w, me) && SnapOk(w, me, a)
    requires Moves(a, e, b, actions) && b.round != a.round
    requires var g := w.At(a.round); Enabled(MineOf(g.votes, me), Visible(w.pops(a.round), g.votes), a.node, e)
    requires a.round in b.freshest && Borne(w, b.freshest[a.round])
    ensures var w1 := w.Put(a.round, Reacted(w.At(a.round), me, e));
            PopsOk(w1) && NetsOk(w1) && OthersOk(w1, me) && AheadOk(w1, me, a) && OnRecord(w, w1, me, actions)
  {
    hide Visible, Enabled, Reached, MineOf, React, Votes, Ensures, VoteSeq, Population.Sound, Future, Entered, SentBy,
         Follows, FreshSeen, AheadOk, Borne, Sealed;
    var r, g := a.round, w.At(a.round);
    BorneIsSealed(w, b.freshest[r]);
    var g' := Reacted(g, me, e);
    ReactStep(w.pops(r), g, me, e);
    assert Touched(g, g', me);
    OthersStay(w, r, g', me);
    NetsStay(w, r, g');
    AheadStays(w, r, g', me, a);
    ReactionRecorded(w, r, g', me, e, actions);
  }

  lemma SilenceSays()
    ensures Votes([]) == [] && Ensures([]) == []
  {
  }

  lemma RecordedTwice(w: World, w1: World, w2: World, me: Address, actions: seq<Action>)
    requires OnRecord(w, w1, me, actions) && OnRecord(w1, w2, me, [])
    ensures OnRecord(w, w2, me, actions)
  {
    forall r ensures w2.At(r).votes == w.At(r).votes + SentBy(me, actions, r) {
      assert SentBy(me, [], r) == {};
      assert w2.At(r).votes == w1.At(r).votes;
    }
    forall r ensures w.At(r).ensured <= w2.At(r).ensured {
      assert w.At(r).ensured <= w1.At(r).ensured <= w2.At(r).ensured;
    }
    forall a | a in actions && a.Ensure?
      ensures Ensured(me, a.payload.value) in w2.At(a.cert.round).ensured && Sealed(w2, a.cert)
    {
      assert w1.At(a.cert.round).ensured <= w2.At(a.cert.round).ensured;
    }
  }

  /** A proposal-vote costs blocks, none of which backs a cert vote of the player's period. */
  lemma DropStep(w: World, me: Address, b: Snap) returns (w': World)
    requires WorldOk(w) && me in w.snaps
    requires var a := w.snaps[me]; b == a.(node := a.node.(blocks := b.node.blocks)) && b.node.blocks <= a.node.blocks
    requires var a := w.snaps[me];
             forall x :: x in a.node.blocks - b.node.blocks ==>
               NetVote(me, Cast(a.node.period, CERT, x)) !in w.At(a.round).votes
    ensures Stepped(w, w', me, b, [])
  {
    hide Visible, Reached, MineOf, Population.Sound, FreshSeen, Future, OthersOk;
    NodeOf(w, me);
    var a, r, g := w.snaps[me], b.round, w.At(b.round);
    forall x | x in a.node.blocks - b.node.blocks ensures Cast(a.node.period, CERT, x) !in MineOf(g.votes, me) {
      MineIff(g.votes, me, Cast(a.node.period, CERT, x));
    }
    ForgetStep(w.pops(r), g, me, b.node.blocks);
    var g' := WithBlocks(g, me, b.node.blocks);
    NodeReplaced(w, me, a, b, g');
    w' := w.Put(r, g').(snaps := w.snaps[me := b]);
  }

  lemma MineIff(votes: set<NetVote>, me: Address, c: Cast)
    ensures c in MineOf(votes, me) <==> NetVote(me, c) in votes
  {
  }

  /** The player's own network with nothing but its node replaced. */
  lemma NodeReplaced(w: World, me: Address, a: Snap, b: Snap, g: Net)
    requires PopsOk(w) && NetsOk(w) && w.snaps.Keys == w.honest && me in w.snaps && OthersOk(w, me) && SnapOk(w, me, a)
    requires b.round == a.round && b.freshest == a.freshest && b.cached == a.cached && Proper(b)
    requires g == w.At(b.round).(nodes := w.At(b.round).nodes[me := b.node]) && Reached(w.pops(b.round), g)
    ensures Stepped(w, w.Put(b.round, g).(snaps := w.snaps[me := b]), me, b, [])
  {
    hide Reached, Population.Sound, FreshSeen, Future, SentBy, OthersOk, NetsOk, PopsOk, SnapOk, WorldOk;
    if b.round in b.freshest { SeenAtHome(w, me, a, b); }
    NodeMoves(w, me, a, b, g);
    Placed(w, me, b, b.round, g);
    SilenceSays();
    NothingRecorded(w, w.Put(b.round, g).(snaps := w.snaps[me := b]), me, []);
  }

  lemma SeenAtHome(w: World, me: Address, a: Snap, b: Snap)
    requires SnapOk(w, me, a) && b.round == a.round && b.freshest == a.freshest && b.cached == a.cached
    requires b.round in b.freshest
    ensures FreshSeen(w, b, b.round)
  {
    hide FreshSeen, AheadOk;
    SeenSame(w, a, b, b.round);
  }

  lemma SeenSame(w: World, a: Snap, b: Snap, r: Round)
    requires r in a.freshest && FreshSeen(w, a, r) && b.freshest == a.freshest && b.cached == a.cached
    ensures FreshSeen(w, b, r)
  {
  }

  /** A quorum of the next round is noted, and cached by that round's node if it is of a next step. */
  lemma NoteStep(w: World, me: Address, e: ThresholdEvent, b: Snap) returns (w': World)
    requires WorldOk(w) && me in w.snaps && Proper(b)
    requires var a := w.snaps[me];
             && e.round > a.round && b.round == a.round && b.node == a.node
             && (b.freshest == a.freshest || b.freshest == a.freshest[e.round := e])
             && forall r :: r != e.round ==> CachedIn(b.cached, r) == CachedIn(a.cached, r)
    requires Borne(w, e)
    requires e.round in b.freshest ==> Noted(CachedIn(b.cached, e.round), b.freshest[e.round])
    requires if e.kind.NextThreshold? then
               Follows(Future(w.snaps[me].cached, e.round), Seen(e, false), Future(b.cached, e.round))
             else CachedIn(b.cached, e.round) == CachedIn(w.snaps[me].cached, e.round)
    ensures Stepped(w, w', me, b, [])
  {
    hide Visible, Reached, MineOf, Population.Sound, Follows, React, OthersOk, Enabled, Noted;
    NodeOf(w, me);
    var a, r := w.snaps[me], e.round;
    assert AheadAt(w, me, a, r) && Reached(w.pops(r), w.At(r));
    var g := w.At(r);
    var g' := g.(nodes := g.nodes[me := Future(b.cached, r)]);
    if e.kind.NextThreshold? {
      FutureCaches(w, me, e, Future(b.cached, r));
    } else {
      assert g' == g;
    }
    NoteHome(w, me, a, b, e, g');
    w' := w.Put(r, g').(snaps := w.snaps[me := b]);
  }

  lemma FutureCaches(w: World, me: Address, e: ThresholdEvent, n': Node)
    requires PopsOk(w) && Reached(w.pops(e.round), w.At(e.round)) && me in w.At(e.round).nodes && e.kind.NextThreshold?
    requires Borne(w, e)
    requires var n := w.At(e.round).nodes[me]; n.active && Follows(n, Seen(e, false), n')
    ensures var g := w.At(e.round); Reached(w.pops(e.round), g.(nodes := g.nodes[me := n']))
  {
    hide Reached, Visible, Enabled, MineOf, Population.Sound;
    var pop, g := w.pops(e.round), w.At(e.round);
    assert pop.Sound();
    SeenEnables(pop, g.votes, e.round, e, MineOf(g.votes, me), g.nodes[me], false);
    FollowStep(pop, g, me, Seen(e, false), n');
    assert Reacted(g, me, Seen(e, false)).(nodes := g.nodes[me := n']) == g.(nodes := g.nodes[me := n']);
  }

  lemma NoteHome(w: World, me: Address, a: Snap, b: Snap, e: ThresholdEvent, g: Net)
    requires PopsOk(w) && NetsOk(w) && w.snaps.Keys == w.honest && me in w.snaps && OthersOk(w, me) && SnapOk(w, me, a)
    requires Proper(b) && e.round > a.round && b.round == a.round && b.node == a.node
    requires b.freshest == a.freshest || b.freshest == a.freshest[e.round := e]
    requires forall r :: r != e.round ==> CachedIn(b.cached, r) == CachedIn(a.cached, r)
    requires Borne(w, e)
    requires e.round in b.freshest ==> Noted(CachedIn(b.cached, e.round), b.freshest[e.round])
    requires me in w.At(e.round).nodes
    requires g == w.At(e.round).(nodes := w.At(e.round).nodes[me := Future(b.cached, e.round)])
    requires Reached(w.pops(e.round), g)
    ensures Stepped(w, w.Put(e.round, g).(snaps := w.snaps[me := b]), me, b, [])
  {
    hide Reached, Population.Sound, SentBy, OthersOk, NetsOk;
    NoteSnap(w, me, a, b, e, g);
    Placed(w, me, b, e.round, g);
    SilenceSays();
    hide SnapOk, WorldOk;
    NothingRecorded(w, w.Put(e.round, g).(snaps := w.snaps[me := b]), me, []);
  }

  lemma NoteSnap(w: World, me: Address, a: Snap, b: Snap, e: ThresholdEvent, g: Net)
    requires SnapOk(w, me, a) && Proper(b) && e.round > a.round && b.round == a.round && b.node == a.node
    requires b.freshest == a.freshest || b.freshest == a.freshest[e.round := e]
    requires forall r :: r != e.round ==> CachedIn(b.cached, r) == CachedIn(a.cached, r)
    requires Borne(w, e)
    requires e.round in b.freshest ==> Noted(CachedIn(b.cached, e.round), b.freshest[e.round])
    requires me in w.At(e.round).nodes
    requires g == w.At(e.round).(nodes := w.At(e.round).nodes[me := Future(b.cached, e.round)])
    ensures SnapOk(w.Put(e.round, g), me, b) && Touched(w.At(e.round), g, me)
  {
    hide EventSeen, EventProven, Noted;
    var w1 := w.Put(e.round, g);
    forall q | q > b.round ensures AheadAt(w1, me, b, q) {
      assert AheadAt(w, me, a, q);
    }
  }

  /** A faulty account votes. */
  lemma FaultyVote(w: World, r: Round, v: NetVote) returns (w': World)
    requires WorldOk(w) && v.sender in w.pops(r).accounts && v.sender !in w.honest
    ensures WorldOk(w') && w'.pops == w.pops && w'.vf == w.vf && w'.honest == w.honest && w'.snaps == w.snaps
    ensures forall q :: w'.At(q).votes == if q == r then w.At(q).votes + {v} else w.At(q).votes
    ensures forall q :: w'.At(q).ensured == w.At(q).ensured
  {
    hide Reached, Population.Sound, SnapOk;
    var g := w.At(r);
    var g' := g.(votes := g.votes + {v});
    assert Reached(w.pops(r), g);
    assert w.pops(r).honest == w.honest;
    assert FaultyStep(w.pops(r), g, g', v);
    Extend(w.pops(r), g, g');
    w' := w.Put(r, g');
    NetsStay(w, r, g');
    forall n | n in w.snaps ensures SnapOk(w', n, w.snaps[n]) {
      SnapStays(w, r, g', n + 1, n, w.snaps[n]);
    }
  }

  /** No two players ever ensure different blocks for one round. */
  lemma EnsuredAgree(w: World, r: Round, a: Ensured, b: Ensured)
    requires WorldOk(w) && a in w.At(r).ensured && b in w.At(r).ensured
    ensures a.value == b.value
  {
    hide Population.Sound, IsRun;
    assert w.pops(r).Sound() && Reached(w.pops(r), w.At(r));
    var run :| RunTo(w.pops(r), run, w.At(r));
    assert run != [] by { RunNotEmpty(w.pops(r), run); }
    Agreement(w.pops(r), run, |run| - 1, a, b);
  }

  lemma RunNotEmpty(pop: Population, run: seq<Net>)
    requires IsRun(pop, run)
    ensures run != []
  {
  }

  lemma WorldStarts(pops: Round -> Population, vf: Verifier, honest: set<Address>, snaps: map<Address, Snap>)
    requires PopsOk(World(pops, vf, honest, map[], snaps)) && snaps.Keys == honest
    requires forall n :: n in snaps ==> snaps[n] == Snap(snaps[n].round, FRESH_NODE, map[], map[])
    ensures WorldOk(World(pops, vf, honest, map[], snaps))
  {
    hide Population.Sound;
    var w := World(pops, vf, honest, map[], snaps);
    forall r ensures Reached(w.pops(r), w.At(r)) {
      assert w.pops(r).honest == honest;
      assert RunTo(w.pops(r), [InitNet(honest)], w.At(r));
    }
  }
}
