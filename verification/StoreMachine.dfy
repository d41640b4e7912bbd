/**
 The proposal store as an object whose handlers update the maps in place, each proved
 against the store as a value.
 */
module StoreMachine {
  import opened AgreementTypes
  import opened ProposalStorage

  datatype PresentReply = PresentRejected | PresentPipelined(period: Period, pinned: bool, vote: Option<Vote>)

  datatype VerifiedReply =
    | VerifiedRejected
    | VerifiedAccepted(vote: Option<Vote>)
    | VerifiedCommittable(vote: Option<Vote>)

  datatype NewRoundReply =
    | TooManyAssemblers
    | NothingPipelined
    | Pipelined(up: Payload, period: Period, pinned: bool, vote: Option<Vote>)

  class ProposalStore {
    const output: Credential -> nat
    var relevant: map<Period, ProposalValue>
    var pinned: ProposalValue
    var assemblers: map<ProposalValue, Assembler>
    var trackers: map<Period, Tracker>

    function View(): Store
      reads this
    {
      Store(relevant, pinned, assemblers, trackers)
    }

    constructor (output: Credential -> nat)
      ensures this.output == output && View() == EMPTY_STORE && StoreInv(View())
    {
      this.output := output;
      relevant, pinned, assemblers, trackers := map[], BOTTOM, map[], map[];
    }

    /** Rebuilds the assemblers for the pinned and the relevant values. */
    method Trim(cur: Period)
      modifies this`assemblers
      ensures View() == old(View()).Trimmed(cur)
    {
      ghost var before := View();
      var was, rel := assemblers, relevant;
      var a := if pinned in was then was[pinned] else ZERO_ASSEMBLER;
      var kept := TrimAuthenticators(a.authenticators, cur);
      var built := map[pinned := a.(authenticators := kept)];
      var left := rel.Keys;
      while left != {}
        invariant left <= rel.Keys && View() == before
        invariant pinned in built
        invariant forall q :: q in rel && q !in left ==> rel[q] in built
        invariant forall v :: v in built ==> (v == pinned || v in rel.Values) && built[v] == TrimmedAt(before, cur, v)
        decreases left
      {
        var q :| q in left;
        left := left - {q};
        var v := rel[q];
        a := if v in was then was[v] else ZERO_ASSEMBLER;
        kept := TrimAuthenticators(a.authenticators, cur);
        built := built[v := a.(authenticators := kept)];
      }
      assemblers := built - {BOTTOM};
      assert assemblers == before.Trimmed(cur).assemblers;
    }

    /** (0, true) for the pinned value, else the greatest period in which the value is relevant, or 0. */
    method LastRelevant(v: ProposalValue) returns (p: Period, isPinned: bool)
      ensures isPinned <==> pinned == v
      ensures isPinned ==> p == 0
      ensures !isPinned ==> forall q :: q in relevant && relevant[q] == v ==> q <= p
      ensures p != 0 ==> p in relevant && relevant[p] == v
    {
      p, isPinned := 0, pinned == v;
      if isPinned {
        return;
      }
      var left := relevant.Keys;
      while left != {}
        invariant left <= relevant.Keys
        invariant forall q :: q in relevant && q !in left && relevant[q] == v ==> q <= p
        invariant p != 0 ==> p in relevant && relevant[p] == v
        decreases left
      {
        var q :| q in left;
        left := left - {q};
        if q > p && relevant[q] == v {
          p := q;
        }
      }
    }

    /** Returns the assembled payload of an accepted proposal-vote's value, if there is one. */
    method HandleVoteVerified(v: Vote, cur: Period) returns (accepted: bool, payload: Option<Payload>)
      requires StoreInv(View())
      modifies this
      ensures StoreInv(View()) && View() == StoreAfter(output, old(View()), cur, VoteVerified(v))
      ensures accepted <==> Accepts(output, old(View()).TrackerAt(v.r.period), v)
      ensures accepted ==> payload == old(View()).At(v.r.proposal).payload
      ensures accepted && payload.Some? ==> payload.value.value == v.r.proposal
    {
      StoreKept(output, View(), cur, VoteVerified(v));
      var t := if v.r.period in trackers then trackers[v.r.period] else ZERO_TRACKER;
      accepted, payload := false, None;
      if v.r.sender !in t.duplicate {
        accepted := Accepts(output, t, v);
        var u := t.(duplicate := t.duplicate + {v.r.sender});
        trackers := trackers[v.r.period := if accepted then u.(lowest := Some(v)) else u];
      } else {
        trackers := trackers[v.r.period := t];
      }
      if accepted {
        var a := if v.r.proposal in assemblers then assemblers[v.r.proposal] else ZERO_ASSEMBLER;
        payload := a.payload;
        assemblers := assemblers[v.r.proposal := a.(authenticators := a.authenticators + [v])];
        relevant := relevant[v.r.period := v.r.proposal];
        Trim(cur);
      }
    }

    method HandlePayloadPresent(up: Payload, cur: Period) returns (reply: PresentReply)
      requires StoreInv(View())
      modifies this
      ensures StoreInv(View()) && View() == StoreAfter(output, old(View()), cur, PayloadPresent(up))
      ensures reply.PresentPipelined? <==>
                up.value in old(View()).Tracked() && !old(View()).Holds(up.value)
                && old(View()).At(up.value).pipeline.None?
      ensures reply.PresentPipelined? ==> View().At(up.value).pipeline == Some(up)
      ensures reply.PresentPipelined? ==>
                && (reply.pinned <==> pinned == up.value)
                && (!reply.pinned ==> reply.period in relevant && relevant[reply.period] == up.value)
                && (!reply.pinned ==> forall q :: q in relevant && relevant[q] == up.value ==> q <= reply.period)
      ensures reply.PresentPipelined? ==> FirstOfPeriod(View().At(up.value).authenticators, cur, reply.vote)
      ensures reply.PresentPipelined? && reply.vote.Some? ==> reply.vote.value.r.proposal == up.value
    {
      StoreKept(output, View(), cur, PayloadPresent(up));
      if up.value !in assemblers {
        return PresentRejected;
      }
      var a := assemblers[up.value];
      if a.payload.Some? || a.pipeline.Some? {
        return PresentRejected;
      }
      assemblers := assemblers[up.value := a.(pipeline := Some(up))];
      TrackedIff(View(), up.value);
      var p, isPinned := LastRelevant(up.value);
      var vote := Authenticator(a.authenticators, cur);
      reply := PresentPipelined(p, isPinned, vote);
    }

    method HandlePayloadVerified(pp: Payload, cur: Period) returns (reply: VerifiedReply)
      requires StoreInv(View())
      modifies this
      ensures StoreInv(View()) && View() == StoreAfter(output, old(View()), cur, PayloadVerified(pp))
      ensures reply.VerifiedRejected? <==> pp.value !in old(View()).Tracked() || old(View()).Holds(pp.value)
      ensures !reply.VerifiedRejected? ==> At(pp.value) == Some(pp)
      ensures reply.VerifiedCommittable? <==> !reply.VerifiedRejected? && View().Staged(cur) == pp.value
      ensures !reply.VerifiedRejected? ==> FirstOfPeriod(View().At(pp.value).authenticators, cur, reply.vote)
      ensures !reply.VerifiedRejected? && reply.vote.Some? ==> reply.vote.value.r.proposal == pp.value
    {
      StoreKept(output, View(), cur, PayloadVerified(pp));
      if pp.value !in assemblers {
        return VerifiedRejected;
      }
      var a := assemblers[pp.value];
      if a.payload.Some? {
        return VerifiedRejected;
      }
      assemblers := assemblers[pp.value := a.(payload := Some(pp))];
      var staged, _ := ReadStaging(cur);
      var vote := Authenticator(a.authenticators, cur);
      reply := if staged == pp.value then VerifiedCommittable(vote) else VerifiedAccepted(vote);
    }

    function At(v: ProposalValue): Option<Payload>
      reads this
    {
      View().At(v).payload
    }

    /** The staging value of period `q`, with its payload if it is assembled. */
    method ReadStaging(q: Period) returns (value: ProposalValue, payload: Option<Payload>)
      requires StoreInv(View())
      ensures value == View().Staged(q) && (payload.Some? <==> View().Committable(q))
      ensures payload.Some? ==> payload.value.value == value != BOTTOM
    {
      value := if q in trackers then trackers[q].staging else BOTTOM;
      payload := if value in assemblers then assemblers[value].payload else None;
    }

    /** The pinned value, with its payload if it is assembled. */
    method ReadPinned() returns (value: ProposalValue, payload: Option<Payload>)
      requires StoreInv(View())
      ensures value == pinned && (payload.Some? ==> payload.value.value == value != BOTTOM)
      ensures payload == At(pinned)
    {
      value := pinned;
      payload := if value in assemblers then assemblers[value].payload else None;
    }

    method HandleNewPeriod(target: Period, starting: ProposalValue, cur: Period)
      requires StoreInv(View())
      modifies this
      ensures StoreInv(View()) && View() == StoreAfter(output, old(View()), cur, NewPeriod(target, starting))
    {
      StoreKept(output, View(), cur, NewPeriod(target, starting));
      var staged, _ := ReadStaging(cur);
      if starting != BOTTOM {
        pinned := starting;
      } else if staged != BOTTOM {
        pinned := staged;
      }
      relevant := map q | q in relevant && !Drops(q, target) :: relevant[q];
      Trim(cur);
    }

    method HandleThreshold(q: Period, value: ProposalValue, cur: Period) returns (committable: bool)
      requires StoreInv(View())
      modifies this
      ensures StoreInv(View()) && View() == StoreAfter(output, old(View()), cur, Threshold(q, value))
      ensures committable <==> View().Committable(q)
      ensures View().Staged(q) == value
    {
      StoreKept(output, View(), cur, Threshold(q, value));
      var t := if q in trackers then trackers[q] else ZERO_TRACKER;
      trackers := trackers[q := t.(staging := value)];
      var a := if value in assemblers then assemblers[value] else ZERO_ASSEMBLER;
      if a.payload.Some? {
        return true;
      }
      assemblers, relevant := assemblers[value := a], relevant[q := value];
      ghost var s := View();
      TrimKeeps(s, cur, value);
      Trim(cur);
      return false;
    }

    /** On entering the store's round: the one pipelined payload, if there is one. */
    method HandleNewRound(cur: Period) returns (reply: NewRoundReply)
      requires StoreInv(View())
      ensures reply.TooManyAssemblers? <==> |assemblers| > 1
      ensures reply.Pipelined? ==>
                && reply.up.value in View().Tracked() && View().At(reply.up.value).pipeline == Some(reply.up)
                && (reply.pinned <==> pinned == reply.up.value)
                && (!reply.pinned ==> reply.period in relevant && relevant[reply.period] == reply.up.value)
                && (!reply.pinned ==> forall q :: q in relevant && relevant[q] == reply.up.value ==> q <= reply.period)
      ensures reply.Pipelined? ==> FirstOfPeriod(View().At(reply.up.value).authenticators, cur, reply.vote)
      ensures reply.Pipelined? && reply.vote.Some? ==> reply.vote.value.r.proposal == reply.up.value
      ensures reply.NothingPipelined? ==> forall v :: v in assemblers ==> assemblers[v].pipeline.None?
    {
      if |assemblers| > 1 {
        return TooManyAssemblers;
      }
      if assemblers == map[] {
        return NothingPipelined;
      }
      var v :| v in assemblers;
      assert assemblers.Keys == {v} by {
        OnlyMember(assemblers.Keys, v);
      }
      if assemblers[v].pipeline.None? {
        return NothingPipelined;
      }
      TrackedIff(View(), v);
      var p, isPinned := LastRelevant(v);
      var vote := Authenticator(assemblers[v].authenticators, cur);
      reply := Pipelined(assemblers[v].pipeline.value, p, isPinned, vote);
    }
  }

  function TrimmedAt(s: Store, cur: Period, v: ProposalValue): Assembler {
    s.At(v).(authenticators := Recent(s.At(v).authenticators, cur))
  }
}
