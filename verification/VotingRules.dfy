/**
 The rules by which a player chooses what to attest, as functions of what it has seen.
 The player machine and the network model share them.
 */
module VotingRules {
  import opened AgreementTypes

  /** The next-threshold cache of a period: was bottom seen, and which value, if any. */
  datatype NextStatus = NextStatus(bottom: bool, proposal: ProposalValue)

  const NOTHING_SEEN := NextStatus(false, BOTTOM)

  /** The cache after one more next-threshold. */
  function Cache(c: NextStatus, p: ProposalValue): NextStatus {
    if p == BOTTOM then c.(bottom := true) else c.(proposal := p)
  }

  /** What to soft-vote, given the frozen proposal and the cache of the previous period. */
  function SoftChoice(period: Period, frozen: ProposalValue, prev: NextStatus): Option<ProposalValue> {
    if period > 0 && !prev.bottom && prev.proposal != BOTTOM then Some(prev.proposal)
    else if frozen == BOTTOM then None
    else if period > frozen.originalPeriod then
      if prev.proposal != BOTTOM && prev.proposal == frozen then Some(frozen) else None
    else Some(frozen)
  }

  /** What to next-vote: a committable staged value, else the previous period's value unless bottom was seen. */
  function NextChoice(committable: Option<ProposalValue>, prev: NextStatus): ProposalValue {
    if committable.Some? then committable.value
    else if !prev.bottom then prev.proposal
    else BOTTOM
  }

  /** The step and value of a fast-recovery vote. */
  function FastChoice(committable: Option<ProposalValue>, prev: NextStatus): (Step, ProposalValue) {
    if NextChoice(committable, prev) == BOTTOM then (DOWN, BOTTOM)
    else if committable.Some? then (LATE, committable.value)
    else (REDO, prev.proposal)
  }
}
