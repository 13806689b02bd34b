/** The settlement life cycle (src/escrow/domain/settlement-status.enum.ts). */
module SettlementStatuses {

  datatype SettlementStatus =
    | INITIATED
    | ESCROW_LOCKED
    | BANK_PENDING
    | BANK_SUCCESS
    | BANK_FAILED
    | BLOCKCHAIN_PENDING
    | BLOCKCHAIN_FAILED
    | COMPLETED
    | CANCELLED
    | MANUAL_REVIEW
    | BLOCKED_BY_STATE_CHANGE
    | FROZEN_BY_DISPUTE

  datatype BankTransferStatus =
    TRANSFER_PENDING | TRANSFER_PROCESSING | TRANSFER_SUCCESS | TRANSFER_FAILED | TRANSFER_REJECTED | TRANSFER_TIMEOUT

  datatype EscrowAccountStatus = ACTIVE | FROZEN | CLOSED

  function Transitions(from: SettlementStatus): set<SettlementStatus> {
    match from
    case INITIATED => {ESCROW_LOCKED, CANCELLED, FROZEN_BY_DISPUTE}
    case ESCROW_LOCKED => {BANK_PENDING, CANCELLED, FROZEN_BY_DISPUTE}
    case BANK_PENDING => {BANK_SUCCESS, BANK_FAILED, FROZEN_BY_DISPUTE}
    case BANK_SUCCESS => {BLOCKCHAIN_PENDING, BLOCKED_BY_STATE_CHANGE, FROZEN_BY_DISPUTE}
    case BANK_FAILED => {ESCROW_LOCKED, MANUAL_REVIEW, FROZEN_BY_DISPUTE}
    case BLOCKCHAIN_PENDING => {COMPLETED, BLOCKCHAIN_FAILED, FROZEN_BY_DISPUTE}
    case BLOCKCHAIN_FAILED => {BLOCKCHAIN_PENDING, MANUAL_REVIEW, BLOCKED_BY_STATE_CHANGE, FROZEN_BY_DISPUTE}
    case COMPLETED => {}
    case CANCELLED => {}
    case MANUAL_REVIEW => {ESCROW_LOCKED, CANCELLED, FROZEN_BY_DISPUTE}
    case BLOCKED_BY_STATE_CHANGE => {MANUAL_REVIEW, CANCELLED}
    case FROZEN_BY_DISPUTE => {ESCROW_LOCKED, CANCELLED, MANUAL_REVIEW}
  }

  predicate IsValidTransition(from: SettlementStatus, to: SettlementStatus) {
    to in Transitions(from)
  }

  predicate IsTerminalStatus(status: SettlementStatus) {
    status == COMPLETED || status == CANCELLED
  }

  predicate IsSafetyBlockedStatus(status: SettlementStatus) {
    status == BLOCKED_BY_STATE_CHANGE || status == FROZEN_BY_DISPUTE
  }

  predicate CanBeFrozenByDispute(status: SettlementStatus) {
    !IsTerminalStatus(status) && status != FROZEN_BY_DISPUTE
  }

  /**
   * The documented rule "any non-terminal status can be frozen by a dispute" has exactly one exception in
   * the table: a settlement blocked by a state change passes the test but has no edge.
   */
  lemma FreezableWithoutEdge(status: SettlementStatus)
    ensures CanBeFrozenByDispute(status) && !IsValidTransition(status, FROZEN_BY_DISPUTE) <==>
      status == BLOCKED_BY_STATE_CHANGE
  {
  }
}
