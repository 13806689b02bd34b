/**
 * The settlement system as interleaved transactions: the orchestrator
 * (src/escrow/services/settlement-orchestrator.service.ts) and the dispute processing of
 * src/escrow/blockchain/dispute-listener.service.ts over one database.
 *
 * A transaction is one function from database to database; a rollback returns its argument. Reads made before
 * a transaction, and calls made after a commit, are separate steps: what has been read or asked for waits in
 * `calls` until some later step runs it, with anything in between. Whatever bank and ledger answer is an
 * argument of the step.
 */
module SettlementSystem {
  import opened Common
  import opened SettlementStatuses
  import opened SplitPayments
  import S = SettlementEntity
  import A = EscrowAccounts

  datatype CallbackResult = CallbackResult(recipientType: RecipientType, status: BankTransferStatus)

  datatype BankCallback = BankCallback(
    referenceId: string, status: BankTransferStatus, results: Option<seq<CallbackResult>>, errorText: string)

  /** A method call that has passed its unlocked checks, or that was made after a commit, and has yet to run. */
  datatype Call =
    | InitiateCall(contractId: string)
    | BankTransferCall(settlementId: string)
    | CallbackCall(settlementId: string, callback: BankCallback)
    | CompletionCall(settlementId: string)
    | RetryCall(settlementId: string, seen: SettlementStatus)
    | UnlockCall(accountId: string, referenceId: string)

  datatype World = World(
    settlements: map<string, S.SettlementState>,
    accounts: map<string, A.AccountState>,
    calls: multiset<Call>)

  datatype BankAck = AckAccepted(batch: Option<string>) | AckRejected(error: string) | AckThrew

  datatype Confirmation = Confirmed(blockNumber: int) | Reverted(error: string) | ConfirmationThrew(error: string)

  /** The on-chain status read (None: the read threw), the submission's hash (None: it threw), its outcome. */
  datatype LedgerAnswers = LedgerAnswers(
    reading: Option<int>, submission: Option<string>, confirmation: Confirmation)

  const EXPECTED_STATUS_VERIFIED := 2

  // ---- Repository lookups ----

  ghost predicate HasContract(w: World, sid: string, contractId: string) {
    sid in w.settlements && w.settlements[sid].contractId == contractId
  }

  ghost function SettlementOf(w: World, contractId: string): (r: Option<string>)
    ensures r.Some? ==> HasContract(w, r.value, contractId)
    ensures r.None? ==> forall sid :: !HasContract(w, sid, contractId)
  {
    if exists sid :: HasContract(w, sid, contractId) then
      var sid :| HasContract(w, sid, contractId);
      Some(sid)
    else None
  }

  ghost predicate HasReference(w: World, sid: string, referenceId: string) {
    sid in w.settlements && w.settlements[sid].referenceId == referenceId
  }

  ghost function SettlementByReference(w: World, referenceId: string): (r: Option<string>)
    ensures r.Some? ==> HasReference(w, r.value, referenceId)
    ensures r.None? ==> forall sid :: !HasReference(w, sid, referenceId)
  {
    if exists sid :: HasReference(w, sid, referenceId) then
      var sid :| HasReference(w, sid, referenceId);
      Some(sid)
    else None
  }

  ghost predicate AccountFor(w: World, aid: string, contractId: string) {
    aid in w.accounts && w.accounts[aid].contractId == contractId
  }

  ghost function AccountOf(w: World, contractId: string): (r: Option<string>)
    ensures r.Some? ==> AccountFor(w, r.value, contractId)
    ensures r.None? ==> forall aid :: !AccountFor(w, aid, contractId)
  {
    if exists aid :: AccountFor(w, aid, contractId) then
      var aid :| AccountFor(w, aid, contractId);
      Some(aid)
    else None
  }

  function Save(w: World, s: S.SettlementState): World {
    w.(settlements := w.settlements[s.id := s])
  }

  function SaveAccount(w: World, a: A.AccountState): World {
    w.(accounts := w.accounts[a.id := a])
  }

  function Ask(w: World, call: Call): World {
    w.(calls := w.calls + multiset{call})
  }

  // ---- Transactions of the orchestrator ----

  /**
   * initiateSettlement from the escrow lock to the commit, on the account found for the contract. Saving
   * fails on a used id or on a used reference, which migration 003 declares unique.
   */
  ghost function InitiateOn(w: World, aid: string, contractId: string, payout: Payout, reference: string,
                            sid: string, accounts: TransferAccounts): World
    requires aid in w.accounts
  {
    var account := w.accounts[aid];
    if A.Available(account) < payout.totalAmount then w
    else
      match Create(payout, accounts)
      case Err(_) => w
      case Ok(split) =>
        if !AccountsValid(split.legs) then w
        else
          var frozen := A.Apply(account, A.FreezeFunds(split.payout.totalAmount, reference));
          var locked := S.Apply(S.New(sid, contractId, aid, split, reference), S.MarkEscrowLocked);
          if !frozen.accepted || !locked.accepted then w
          else if sid in w.settlements || SettlementByReference(w, reference).Some? then w
          else Ask(Save(SaveAccount(w, frozen.state), locked.state), BankTransferCall(sid))
  }

  ghost function InitiateTx(w: World, contractId: string, payout: Payout, reference: string,
                            sid: string, accounts: TransferAccounts): World {
    match AccountOf(w, contractId)
    case None => w
    case Some(aid) => InitiateOn(w, aid, contractId, payout, reference, sid, accounts)
  }

  function BankTransferTx(w: World, sid: string, ack: BankAck): World {
    if sid !in w.settlements || w.settlements[sid].status != ESCROW_LOCKED then w
    else
      var s := w.settlements[sid];
      match ack
      case AckThrew => w
      case AckRejected(error) =>
        var o := S.Apply(s, S.MarkBankFailed(error));
        if o.accepted then Ask(Save(w, o.state), UnlockCall(s.escrowAccountId, s.referenceId)) else w
      case AckAccepted(batch) =>
        var o := S.Apply(s, S.MarkBankPending(batch));
        if o.accepted then Save(w, o.state) else w
  }

  /** Records the reported results for legs 0, 1, 2, ... in order. */
  function RecordAll(s: S.SettlementState, results: seq<CallbackResult>): S.SettlementState {
    if |results| == 0 then s
    else
      var i := |results| - 1;
      var r := S.BankTransferResult(i, results[i].recipientType, results[i].status);
      S.Apply(RecordAll(s, results[..i]), S.RecordBankTransferResult(r)).state
  }

  function Recorded(s: S.SettlementState, callback: BankCallback): S.SettlementState {
    if callback.results.Some? then RecordAll(s, callback.results.value) else s
  }

  function CallbackTx(w: World, sid: string, callback: BankCallback): World {
    if sid !in w.settlements then w
    else
      var s := Recorded(w.settlements[sid], callback);
      if callback.status == TRANSFER_SUCCESS then
        var o := S.Apply(s, S.MarkBankSuccess);
        if o.accepted then Ask(Save(w, o.state), CompletionCall(sid)) else w
      else if callback.status == TRANSFER_FAILED || callback.status == TRANSFER_REJECTED then
        var o := S.Apply(s, S.MarkBankFailed(callback.errorText));
        if o.accepted then Ask(Save(w, o.state), UnlockCall(s.escrowAccountId, s.referenceId)) else w
      else Save(w, s)
  }

  /** The inner catch: a failure after the submission is stored, before it or after completion it rolls back. */
  function ChainFailure(w: World, s: S.SettlementState, error: string): World {
    var o := S.Apply(s, S.MarkBlockchainFailed(error));
    if o.accepted then Save(w, o.state) else w
  }

  /** From the confirmation on: complete and debit, or record the failure. */
  function Confirm(w: World, s: S.SettlementState, confirmation: Confirmation, txHash: string): World {
    match confirmation
    case Reverted(error) => ChainFailure(w, s, error)
    case ConfirmationThrew(error) => ChainFailure(w, s, error)
    case Confirmed(blockNumber) =>
      var done := S.Apply(s, S.MarkCompleted(blockNumber));
      if !done.accepted then ChainFailure(w, done.state, "")
      else if s.escrowAccountId !in w.accounts then Save(w, done.state)
      else
        var debit := A.Apply(w.accounts[s.escrowAccountId], A.Debit(s.split.payout.totalAmount, s.referenceId));
        if debit.accepted then SaveAccount(Save(w, done.state), debit.state)
        else ChainFailure(w, done.state, "")
  }

  function CompletionTx(w: World, sid: string, answers: LedgerAnswers): World {
    if sid !in w.settlements || w.settlements[sid].status != BANK_SUCCESS then w
    else
      var s := w.settlements[sid];
      match answers.reading
      case None =>
        var o := S.Apply(s, S.MarkForManualReview(""));
        if o.accepted then Save(w, o.state) else w
      case Some(current) =>
        if current != EXPECTED_STATUS_VERIFIED then
          var o := S.Apply(s, S.MarkBlockedByStateChange(current, EXPECTED_STATUS_VERIFIED, ""));
          if o.accepted then Save(w, o.state) else w
        else
          var verified := S.Apply(s, S.RecordOnChainStatusVerified(current)).state;
          match answers.submission
          case None => ChainFailure(w, verified, "")
          case Some(txHash) =>
            var submitted := S.Apply(verified, S.MarkBlockchainPending(txHash));
            if submitted.accepted then Confirm(w, submitted.state, answers.confirmation, txHash)
            else ChainFailure(w, submitted.state, "")
  }

  /** The follow-up call is chosen by the status read before the lock was taken. */
  function RetryTx(w: World, sid: string, seen: SettlementStatus): World {
    if sid !in w.settlements then w
    else
      var o := S.Apply(w.settlements[sid], S.PrepareForRetry);
      if !o.accepted then w
      else if seen == BANK_FAILED then Ask(Save(w, o.state), BankTransferCall(sid))
      else if seen == BLOCKCHAIN_FAILED then Ask(Save(w, o.state), CompletionCall(sid))
      else Save(w, o.state)
  }

  /** Releases the whole frozen amount, whoever froze it. */
  function UnlockTx(w: World, aid: string, reference: string, bankThrows: bool): World {
    if aid !in w.accounts then w
    else
      var account := w.accounts[aid];
      if account.frozenAmount <= 0 || bankThrows then w
      else
        var o := A.Apply(account, A.UnfreezeFunds(account.frozenAmount, reference));
        if o.accepted then SaveAccount(w, o.state) else w
  }

  // ---- The transaction of the dispute listener ----

  /** Freezes what is available; an exception of the bank is caught and only skips this part. */
  function FreezeForDispute(w: World, account: A.AccountState, reference: string, bankThrows: bool): World {
    if A.Available(account) <= 0 || bankThrows then w
    else
      var o := A.Apply(account, A.FreezeFunds(A.Available(account), reference));
      if o.accepted then SaveAccount(w, o.state) else w
  }

  datatype DisputeEvent = DisputeEvent(contractId: string, blockNumber: int, transactionHash: string)

  ghost function DisputeEscrow(w: World, event: DisputeEvent, bankThrows: bool): World {
    match AccountOf(w, event.contractId)
    case None => w
    case Some(aid) => FreezeForDispute(w, w.accounts[aid], "DISPUTE", bankThrows)
  }

  /** processDisputeOpened without its memory of processed events: the new database, and its success flag. */
  ghost function DisputeTx(w: World, event: DisputeEvent, bankThrows: bool): (World, bool) {
    var frozen := DisputeEscrow(w, event, bankThrows);
    match SettlementOf(w, event.contractId)
    case None => (frozen, true)
    case Some(sid) =>
      if !CanBeFrozenByDispute(w.settlements[sid].status) then (frozen, true)
      else
        var o := S.Apply(w.settlements[sid], S.MarkFrozenByDispute(event.blockNumber, ""));
        if o.accepted then (Save(frozen, o.state), true) else (w, false)
  }

  // ---- Steps ----

  /**
   * What never changes during a run: the payout the ledger holds for each contract, and the reference
   * computed from both (a truncated hash; nothing is assumed about collisions).
   */
  datatype Environment = Environment(payout: string -> Payout, reference: (string, Payout) -> string)

  datatype Step =
    | OpenAccount(accountId: string, contractId: string)
    | CreditEscrow(accountId: string, amount: int, reference: string)
    | CheckInitiate(contractId: string, onChainStatus: int)
    | RunInitiate(contractId: string, settlementId: string, accounts: TransferAccounts)
    | AskBankTransfer(settlementId: string)
    | RunBankTransfer(settlementId: string, ack: BankAck)
    | CheckCallback(callback: BankCallback)
    | RunCallback(settlementId: string, callback: BankCallback)
    | AskCompletion(settlementId: string)
    | RunCompletion(settlementId: string, answers: LedgerAnswers)
    | CheckRetry(settlementId: string)
    | RunRetry(settlementId: string, seen: SettlementStatus)
    | RunUnlock(accountId: string, referenceId: string, bankThrows: bool)
    | DisputeOpened(event: DisputeEvent, bankThrows: bool)
    | LoseCall(call: Call)

  /** The waiting call is used up; a step whose call is not waiting does nothing. */
  function Take(w: World, call: Call): World {
    w.(calls := w.calls - multiset{call})
  }

  ghost function Next(env: Environment, w: World, step: Step): World {
    match step
    case OpenAccount(aid, contractId) =>
      if aid in w.accounts || AccountOf(w, contractId).Some? then w
      else SaveAccount(w, A.New(aid, contractId))
    case CreditEscrow(aid, amount, reference) =>
      if aid !in w.accounts then w
      else SaveAccount(w, A.Apply(w.accounts[aid], A.Credit(amount, reference)).state)
    case CheckInitiate(contractId, onChainStatus) =>
      if onChainStatus != EXPECTED_STATUS_VERIFIED then w
      else
        var existing := SettlementOf(w, contractId);
        if existing.Some? && (w.settlements[existing.value].status == COMPLETED
                              || !IsTerminalStatus(w.settlements[existing.value].status)) then w
        else Ask(w, InitiateCall(contractId))
    case RunInitiate(contractId, sid, accounts) =>
      if InitiateCall(contractId) !in w.calls then w
      else
        var payout := env.payout(contractId);
        InitiateTx(Take(w, InitiateCall(contractId)), contractId, payout, env.reference(contractId, payout), sid, accounts)
    case AskBankTransfer(sid) => Ask(w, BankTransferCall(sid))
    case RunBankTransfer(sid, ack) =>
      if BankTransferCall(sid) !in w.calls then w else BankTransferTx(Take(w, BankTransferCall(sid)), sid, ack)
    case CheckCallback(callback) =>
      var found := SettlementByReference(w, callback.referenceId);
      if found.None? || w.settlements[found.value].status != BANK_PENDING then w
      else Ask(w, CallbackCall(found.value, callback))
    case RunCallback(sid, callback) =>
      if CallbackCall(sid, callback) !in w.calls then w
      else CallbackTx(Take(w, CallbackCall(sid, callback)), sid, callback)
    case AskCompletion(sid) => Ask(w, CompletionCall(sid))
    case RunCompletion(sid, answers) =>
      if CompletionCall(sid) !in w.calls then w else CompletionTx(Take(w, CompletionCall(sid)), sid, answers)
    case CheckRetry(sid) =>
      if sid !in w.settlements || !S.CanRetry(w.settlements[sid]) then w
      else Ask(w, RetryCall(sid, w.settlements[sid].status))
    case RunRetry(sid, seen) =>
      if RetryCall(sid, seen) !in w.calls then w else RetryTx(Take(w, RetryCall(sid, seen)), sid, seen)
    case RunUnlock(aid, reference, bankThrows) =>
      if UnlockCall(aid, reference) !in w.calls then w
      else UnlockTx(Take(w, UnlockCall(aid, reference)), aid, reference, bankThrows)
    case DisputeOpened(event, bankThrows) => DisputeTx(w, event, bankThrows).0
    case LoseCall(call) => Take(w, call)
  }

  ghost function Run(env: Environment, w: World, steps: seq<Step>): World
    decreases |steps|
  {
    if |steps| == 0 then w else Run(env, Next(env, w, steps[0]), steps[1..])
  }

  function Initial(): World {
    World(map[], map[], multiset{})
  }
}
