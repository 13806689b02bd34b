/** The contract life cycle (src/domain/value-objects/ContractStatus.ts). */
module ContractStatuses {

  datatype ContractStatus = CREATED | FUNDED | VERIFIED | SETTLED | DISPUTED | CANCELLED

  function AllowedTargets(from: ContractStatus): set<ContractStatus> {
    match from
    case CREATED => {FUNDED, CANCELLED}
    case FUNDED => {VERIFIED, DISPUTED, CANCELLED}
    case VERIFIED => {SETTLED, DISPUTED}
    case SETTLED => {}
    case DISPUTED => {SETTLED, CANCELLED}
    case CANCELLED => {}
  }

  predicate CanTransition(from: ContractStatus, to: ContractStatus) {
    to in AllowedTargets(from)
  }

  predicate IsTerminal(status: ContractStatus) {
    status in {SETTLED, CANCELLED}
  }

  predicate HasActiveEscrow(status: ContractStatus) {
    status in {FUNDED, VERIFIED, DISPUTED}
  }

  /** The number of transitions a contract can still make. */
  function Remaining(status: ContractStatus): (n: nat)
    ensures n == 0 <==> IsTerminal(status)
  {
    match status
    case CREATED => 4
    case FUNDED => 3
    case VERIFIED => 2
    case DISPUTED => 1
    case SETTLED => 0
    case CANCELLED => 0
  }

  /** Every transition uses up at least one, so no status is ever reached twice. */
  lemma TransitionsUseUpRemaining(from: ContractStatus, to: ContractStatus)
    requires CanTransition(from, to)
    ensures Remaining(to) < Remaining(from)
    ensures HasActiveEscrow(to) ==> from == CREATED || HasActiveEscrow(from)
    ensures to == SETTLED ==> HasActiveEscrow(from)
  {
  }

  /** The table read backwards: from where each status is reached. */
  function ReachedFrom(to: ContractStatus): set<ContractStatus> {
    match to
    case CREATED => {}
    case FUNDED => {CREATED}
    case VERIFIED => {FUNDED}
    case SETTLED => {VERIFIED, DISPUTED}
    case DISPUTED => {FUNDED, VERIFIED}
    case CANCELLED => {CREATED, FUNDED, DISPUTED}
  }

  /** The table allows exactly these ways in; the terminal statuses are those with no way out. */
  lemma ReachedExactly(from: ContractStatus, to: ContractStatus)
    ensures CanTransition(from, to) <==> from in ReachedFrom(to)
    ensures IsTerminal(from) <==> forall next :: from !in ReachedFrom(next)
  {
    assert from in ReachedFrom(FUNDED) || from in ReachedFrom(VERIFIED) || from in ReachedFrom(SETTLED)
      || from in {SETTLED, CANCELLED};
  }
}
