/**
 The block back-fill of catchpoint catchup: from the catchpoint's top block, download its
 predecessors one by one, checking each against the hash its successor commits to.
 */
module CatchpointBackfill {
  import opened AgreementTypes

  /** Subtraction of 64-bit round numbers, with wrap-around. */
  function Sub64(a: nat, b: nat): nat {
    if a >= b then a - b else (a + UINT64 - b % UINT64) % UINT64
  }

  datatype Header = Header(round: nat, branch: nat, protocol: nat, paysetCommit: nat)

  datatype Block = Block(header: Header, payset: nat)

  /** Hashing, payset commitment and the set of known protocol versions. */
  datatype Ledger = Ledger(hash: Header -> nat, commit: nat -> nat, supported: nat -> bool)
  {
    predicate ContentsMatchHeader(b: Block) { commit(b.payset) == b.header.paysetCommit }
  }

  /** What a peer made of one download request. */
  datatype Peer = NoPeers | NotHttp | DownloadError | Downloaded(block: Block)

  /** The surroundings of one pass through the loop. */
  datatype Attempt = Attempt(
    ctxDone: bool, ctxDoneAfter: bool, local: nat -> Option<Block>, peer: Peer, stored: bool)

  /** How the stage ended. Stopping on a cancelled context reports no error either. */
  datatype Outcome = Completed | Stopped | Aborted

  /** How one pass of the loop ended: a block kept, another try, or the end of the stage. */
  datatype PassResult = Kept(block: Block) | Again | Ended(outcome: Outcome)

  datatype Fetch = Got(block: Block) | Retry | Stop(outcome: Outcome)

  /** The number of predecessors to fetch, trimmed so as not to pass round 1. */
  function Lookback(maxTxnLife: nat, maxBalLookback: nat, top: nat): nat {
    var l := if maxTxnLife < maxBalLookback then maxBalLookback else maxTxnLife;
    if l >= top then Sub64(top, 1) else l
  }

  /** The predecessors that transactions or balances may still ask for, none before round 1. */
  predicate Wanted(top: nat, maxTxnLife: nat, maxBalLookback: nat, k: nat) {
    1 <= k < top && (top - k <= maxTxnLife || top - k <= maxBalLookback)
  }

  /** No requested round underflows exactly when the top block is not the genesis block. */
  lemma LookbackStaysInRange(maxTxnLife: nat, maxBalLookback: nat, top: nat)
    requires top < UINT64
    ensures top >= 1 <==>
            forall k :: 1 <= k <= Lookback(maxTxnLife, maxBalLookback, top) ==> 1 <= Sub64(top, k) < top
  {
    if top == 0 {
      assert 1 <= 1 <= Lookback(maxTxnLife, maxBalLookback, top) && !(Sub64(top, 1) < top);
    }
  }

  /** One request: the block, a retry while retries remain, or the end of the stage. */
  method FetchBlock(round: nat, retryCount: nat, attempts: nat, a: Attempt) returns (f: Fetch)
    ensures f.Got? <==> a.peer.Downloaded? && a.peer.block.header.round == round
    ensures f.Got? ==> a.peer == Downloaded(f.block)
    ensures f == Stop(Stopped) <==> !f.Got? && !a.peer.NoPeers? && !a.peer.NotHttp? && a.ctxDoneAfter
    ensures f == Stop(Aborted) <==> !f.Got? && f != Stop(Stopped) && (a.peer.NoPeers? || retryCount > attempts)
    ensures f.Retry? <==> !f.Got? && f != Stop(Stopped) && !a.peer.NoPeers? && retryCount <= attempts
  {
    if a.peer.NoPeers? {
      return Stop(Aborted);
    }
    if a.peer.NotHttp? {
      return if retryCount <= attempts then Retry else Stop(Aborted);
    }
    if a.peer.DownloadError? || a.peer.block.header.round != round {
      if a.ctxDoneAfter {
        return Stop(Stopped);
      }
      return if retryCount <= attempts then Retry else Stop(Aborted);
    }
    return Got(a.peer.block);
  }

  /** The block before position `i` of the back-filled list: the top block, or the one stored before. */
  function Successor(top: Block, stored: seq<Block>, i: nat): Block
    requires i < |stored|
  {
    if i == 0 then top else stored[i - 1]
  }

  /** The block before position `i` commits to the block at `i`, which is well formed. */
  ghost predicate Link(l: Ledger, top: Block, stored: seq<Block>, i: nat)
    requires i < |stored|
  {
    Acceptable(l, Successor(top, stored, i), stored[i]) &&
    stored[i].header.round == Sub64(top.header.round, i + 1)
  }

  /** An unbroken chain of branch hashes down from `top`, of consecutive rounds. */
  ghost predicate Chain(l: Ledger, top: Block, stored: seq<Block>) {
    forall i :: 0 <= i < |stored| ==> Link(l, top, stored, i)
  }

  lemma ChainExtends(l: Ledger, top: Block, stored: seq<Block>, prev: Block, b: Block)
    requires Chain(l, top, stored) && prev == Lowest(top, stored)
    requires Acceptable(l, prev, b) && b.header.round == Sub64(top.header.round, |stored| + 1)
    ensures Chain(l, top, stored + [b])
  {
    forall i | 0 <= i < |stored + [b]| ensures Link(l, top, stored + [b], i) {
      if i < |stored| { assert Link(l, top, stored, i); }
    }
  }

  /** A block fits below `prev`: it has the hash `prev` commits to, a known protocol and matching contents. */
  predicate Acceptable(l: Ledger, prev: Block, b: Block) {
    prev.header.branch == l.hash(b.header) && l.supported(b.header.protocol) && l.ContentsMatchHeader(b)
  }

  /** The last block stored, or the top block. */
  function Lowest(top: Block, stored: seq<Block>): Block {
    if stored == [] then top else stored[|stored| - 1]
  }

  /** An attempt that does not yield a storable predecessor of the lowest block. */
  ghost predicate Fails(l: Ledger, top: Block, stored: seq<Block>, a: Attempt) {
    var round := Sub64(top.header.round, |stored| + 1);
    var b := if a.local(round).Some? then a.local(round)
             else if a.peer.Downloaded? && a.peer.block.header.round == round then Some(a.peer.block) else None;
    b.None? || !Acceptable(l, Lowest(top, stored), b.value) || !a.stored
  }

  /** A pass that failed when the first `k` blocks were stored, for some `k`. */
  ghost predicate FailedPass(l: Ledger, top: Block, stored: seq<Block>, a: Attempt) {
    exists k: nat :: k <= |stored| && Fails(l, top, stored[..k], a)
  }

  ghost predicate AllFailed(l: Ledger, top: Block, stored: seq<Block>, env: nat -> Attempt, passes: set<nat>) {
    forall n :: n in passes ==> FailedPass(l, top, stored, env(n))
  }

  /** Every retry was spent: one more pass failed than there are retries. */
  ghost predicate RetriesSpent(l: Ledger, top: Block, stored: seq<Block>, env: nat -> Attempt, attempts: nat) {
    exists passes :: |passes| == attempts + 1 && AllFailed(l, top, stored, env, passes)
  }

  /** No peer was left to ask for the next block. */
  ghost predicate NoPeerLeft(l: Ledger, top: Block, stored: seq<Block>, a: Attempt) {
    a.peer.NoPeers? && Fails(l, top, stored, a)
  }

  lemma AlsoFailed(l: Ledger, top: Block, stored: seq<Block>, env: nat -> Attempt, passes: set<nat>, n: nat)
    requires AllFailed(l, top, stored, env, passes) && Fails(l, top, stored, env(n)) && n !in passes
    ensures AllFailed(l, top, stored, env, passes + {n}) && |passes + {n}| == |passes| + 1
  {
    assert stored[..|stored|] == stored;
    assert FailedPass(l, top, stored, env(n));
  }

  lemma StillFailed(l: Ledger, top: Block, stored: seq<Block>, b: Block, env: nat -> Attempt, passes: set<nat>)
    requires AllFailed(l, top, stored, env, passes)
    ensures AllFailed(l, top, stored + [b], env, passes)
  {
    forall n | n in passes ensures FailedPass(l, top, stored + [b], env(n)) {
      assert FailedPass(l, top, stored, env(n));
      var k: nat :| k <= |stored| && Fails(l, top, stored[..k], env(n));
      assert (stored + [b])[..k] == stored[..k];
    }
  }

  class Backfill {
    var totalBlocks: nat
    var acquiredBlocks: int
    var verifiedBlocks: int
    /** What StoreBlock has persisted, newest round first. */
    var stored: seq<Block>
    var switched: bool

    constructor ()
      ensures stored == [] && !switched
    {
      totalBlocks, acquiredBlocks, verifiedBlocks, stored, switched := 0, 0, 0, [], false;
    }

    method UpdateStatistics(acquired: int, verified: int)
      modifies this`acquiredBlocks, this`verifiedBlocks
      ensures acquiredBlocks == old(acquiredBlocks) + acquired && verifiedBlocks == old(verifiedBlocks) + verified
    {
      acquiredBlocks := acquiredBlocks + acquired;
      verifiedBlocks := verifiedBlocks + verified;
    }

    /** Checks and persists one block; the statistics move only when it is kept. */
    method TryBlock(l: Ledger, prev: Block, b: Block, storeOk: bool) returns (kept: bool)
      modifies this`acquiredBlocks, this`verifiedBlocks, this`stored
      ensures kept <==> Acceptable(l, prev, b) && storeOk
      ensures kept ==> prev.header.branch == l.hash(b.header)
      ensures kept ==> l.supported(b.header.protocol) && l.commit(b.payset) == b.header.paysetCommit
      ensures stored == if kept then old(stored) + [b] else old(stored)
      ensures acquiredBlocks == old(acquiredBlocks) + if kept then 1 else 0
      ensures verifiedBlocks == old(verifiedBlocks) + if kept then 1 else 0
    {
      UpdateStatistics(1, 0);
      if prev.header.branch != l.hash(b.header) {
        UpdateStatistics(-1, 0);
        return false;
      }
      if !l.supported(b.header.protocol) {
        UpdateStatistics(-1, 0);
        return false;
      }
      if !l.ContentsMatchHeader(b) {
        UpdateStatistics(-1, 0);
        return false;
      }
      UpdateStatistics(0, 1);
      if !storeOk {
        UpdateStatistics(-1, -1);
        return false;
      }
      stored := stored + [b];
      return true;
    }

    /** One pass through the loop: a block from the ledger or a peer is kept, or the pass fails. */
    method Pass(l: Ledger, ghost top: Block, prev: Block, round: nat, retryCount: nat, attempts: nat, a: Attempt)
      returns (p: PassResult)
      requires prev == Lowest(top, stored) && round == Sub64(top.header.round, |stored| + 1)
      requires a.local(round).Some? ==> a.local(round).value.header.round == round
      modifies this`acquiredBlocks, this`verifiedBlocks, this`stored
      ensures p.Kept? ==> Acceptable(l, prev, p.block) && p.block.header.round == round
      ensures stored == if p.Kept? then old(stored) + [p.block] else old(stored)
      ensures acquiredBlocks == old(acquiredBlocks) + if p.Kept? then 1 else 0
      ensures verifiedBlocks == old(verifiedBlocks) + if p.Kept? then 1 else 0
      ensures p == Ended(Stopped) ==> a.ctxDone || a.ctxDoneAfter
      ensures a.ctxDone ==> p == Ended(Stopped)
      ensures p != Ended(Stopped) ==> (p.Kept? <==> !Fails(l, top, old(stored), a))
      ensures p.Again? ==> retryCount <= attempts
      ensures p.Ended? && p != Ended(Stopped) ==> p == Ended(Aborted) && (a.peer.NoPeers? || retryCount > attempts)
    {
      hide Sub64, Acceptable;
      if a.ctxDone {
        return Ended(Stopped);
      }
      var blk := a.local(round);
      if blk.None? {
        var f := FetchBlock(round, retryCount, attempts, a);
        if f.Stop? {
          return Ended(f.outcome);
        }
        if f.Retry? {
          return Again;
        }
        blk := Some(f.block);
      }
      var kept := TryBlock(l, prev, blk.value, a.stored);
      if kept {
        return Kept(blk.value);
      }
      return if retryCount <= attempts then Again else Ended(Aborted);
    }

    /**
     The whole stage against any behaviour of context, ledger, peers and store. It ends for
     every `env`; when it completes, what is stored is the chain of `lookback` predecessors of
     the top block, in order; however it ends, what is stored is a part of such a chain.
     */
    method ProcessStageBlocksDownload(l: Ledger, top: Block, maxTxnLife: nat, maxBalLookback: nat, attempts: nat,
                                      env: nat -> Attempt, stageUpdated: bool) returns (r: Outcome)
      requires stored == [] && !switched
      requires forall n, k :: env(n).local(k).Some? ==> env(n).local(k).value.header.round == k
      modifies this
      ensures totalBlocks == Lookback(maxTxnLife, maxBalLookback, top.header.round)
      ensures Chain(l, top, stored) && |stored| <= totalBlocks
      ensures acquiredBlocks == verifiedBlocks == |stored|
      ensures r.Completed? ==> |stored| == totalBlocks
      ensures r.Completed? && top.header.round >= 1 ==>
                forall k: nat :: (exists b :: b in stored && b.header.round == k) <==>
                                 Wanted(top.header.round, maxTxnLife, maxBalLookback, k)
      ensures switched <==> r.Completed?
      ensures r.Stopped? ==> exists n: nat :: env(n).ctxDone || env(n).ctxDoneAfter
      ensures r.Aborted? ==>
                if |stored| == totalBlocks then !stageUpdated
                else RetriesSpent(l, top, stored, env, attempts) || exists n: nat :: NoPeerLeft(l, top, stored, env(n))
    {
      hide Chain, Lookback, Sub64, Acceptable, AllFailed, FailedPass, Fails;
      ghost var failed: set<nat> := {};
      assert AllFailed(l, top, stored, env, failed) by { NoneFailed(l, top, stored, env); }
      var lookback := Lookback(maxTxnLife, maxBalLookback, top.header.round);
      totalBlocks, acquiredBlocks, verifiedBlocks := lookback, 0, 0;
      EmptyChain(l, top);
      var prev, blocksFetched, retryCount, n := top, 1, 1, 0;
      while blocksFetched <= lookback
        invariant 1 <= blocksFetched <= lookback + 1 && 1 <= retryCount <= attempts + 1
        invariant |stored| == blocksFetched - 1 && !switched && totalBlocks == lookback
        invariant acquiredBlocks == verifiedBlocks == blocksFetched - 1
        invariant prev == Lowest(top, stored)
        invariant |failed| == retryCount - 1 && AllFailed(l, top, stored, env, failed)
        invariant forall i :: i in failed ==> i < n
        invariant Chain(l, top, stored)
        decreases (lookback - blocksFetched) + (attempts + 1 - retryCount)
      {
        var p := Pass(l, top, prev, Sub64(top.header.round, blocksFetched), retryCount, attempts, env(n));
        n := n + 1;
        if p == Ended(Stopped) {
          return Stopped;
        }
        if !p.Kept? {
          AlsoFailed(l, top, stored, env, failed, n - 1);
          failed := failed + {n - 1};
          if p.Ended? {
            assert env(n - 1).peer.NoPeers? ==> NoPeerLeft(l, top, stored, env(n - 1));
            return Aborted;
          }
          retryCount := retryCount + 1;
          continue;
        }
        ghost var before := stored[..blocksFetched - 1];
        ChainExtends(l, top, before, prev, p.block);
        assert stored == before + [p.block];
        StillFailed(l, top, before, p.block, env, failed);
        prev := p.block;
        blocksFetched := blocksFetched + 1;
      }
      if top.header.round >= 1 {
        AllWantedStored(l, top, stored, maxTxnLife, maxBalLookback);
      }
      if !stageUpdated {
        return Aborted;
      }
      switched := true;
      return Completed;
    }
  }

  /** No two different inputs hash or commit alike. */
  ghost predicate CollisionFree(l: Ledger) {
    && (forall a, b :: l.hash(a) == l.hash(b) ==> a == b)
    && (forall a, b :: l.commit(a) == l.commit(b) ==> a == b)
  }

  lemma NoneFailed(l: Ledger, top: Block, stored: seq<Block>, env: nat -> Attempt)
    ensures AllFailed(l, top, stored, env, {})
  {
  }

  lemma EmptyChain(l: Ledger, top: Block)
    ensures Chain(l, top, [])
  {
  }

  /** The top block fixes the back-fill: whatever peers answered, two chains below it agree block by block. */
  lemma {:induction false} ChainUnique(l: Ledger, top: Block, a: seq<Block>, b: seq<Block>, i: nat)
    requires CollisionFree(l) && Chain(l, top, a) && Chain(l, top, b) && i < |a| && i < |b|
    ensures a[i] == b[i]
  {
    if i > 0 {
      ChainUnique(l, top, a, b, i - 1);
    }
    assert Link(l, top, a, i) && Link(l, top, b, i);
    assert l.hash(a[i].header) == l.hash(b[i].header);
    assert l.commit(a[i].payset) == l.commit(b[i].payset);
  }

  /** A completed back-fill holds exactly the rounds wanted. */
  lemma AllWantedStored(l: Ledger, top: Block, stored: seq<Block>, maxTxnLife: nat, maxBalLookback: nat)
    requires top.header.round >= 1 && Chain(l, top, stored)
    requires |stored| == Lookback(maxTxnLife, maxBalLookback, top.header.round)
    ensures forall k: nat :: (exists b :: b in stored && b.header.round == k) <==>
                             Wanted(top.header.round, maxTxnLife, maxBalLookback, k)
  {
    hide Acceptable;
    var t := top.header.round;
    forall i | 0 <= i < |stored| ensures stored[i].header.round == t - 1 - i {
      assert Link(l, top, stored, i);
    }
    hide Chain, Link;
    forall k: nat
      ensures (exists b :: b in stored && b.header.round == k) <==> Wanted(t, maxTxnLife, maxBalLookback, k)
    {
      if Wanted(t, maxTxnLife, maxBalLookback, k) {
        assert stored[t - 1 - k] in stored;
      }
    }
  }

  /** Below a top block that is not genesis, the back-filled rounds are top-1 down to top-lookback. */
  lemma RoundsCovered(l: Ledger, top: Block, stored: seq<Block>, maxTxnLife: nat, maxBalLookback: nat, i: nat)
    requires 1 <= top.header.round < UINT64 && Chain(l, top, stored) && i < |stored|
    requires |stored| <= Lookback(maxTxnLife, maxBalLookback, top.header.round)
    ensures stored[i].header.round == top.header.round - 1 - i && stored[i].header.round >= 1
  {
    LookbackStaysInRange(maxTxnLife, maxBalLookback, top.header.round);
    assert Link(l, top, stored, i);
  }
}
