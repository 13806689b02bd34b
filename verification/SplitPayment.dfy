/**
 * The split of a settlement (src/escrow/domain/split-payment.value.ts) and who bears the network fee
 * (src/escrow/domain/network-fee.types.ts).
 */
module SplitPayments {
  import opened Common

  datatype RecipientType = SELLER | PLATFORM | MEDIATOR

  /** The fee bearer arrives from the ledger as a number that is cast, not checked. */
  const BEARER_PLATFORM := 0
  const BEARER_SELLER := 1
  const BEARER_BUYER := 2

  datatype BankAccount = BankAccount(accountNumber: string, bankCode: string, accountName: string)

  datatype TransferAccounts = TransferAccounts(
    seller: BankAccount, platform: BankAccount, mediator: Option<BankAccount>)

  datatype TransferLeg = TransferLeg(account: BankAccount, amount: int, recipientType: RecipientType)

  /** The amounts and fee terms the ledger holds for a contract. */
  datatype Payout = Payout(
    totalAmount: int, sellerAmount: int, platformFee: int, mediatorFee: int,
    feeBearer: int, estimatedFee: int, akadStatementHash: string)

  datatype SplitPayment = SplitPayment(
    payout: Payout, accounts: TransferAccounts, legs: seq<TransferLeg>, sellerNetAfterFees: int)
  {
    function LegCount(): nat {
      |legs|
    }
  }

  datatype SplitError =
    | TotalNotPositive | NegativeSeller | NegativePlatformFee | NegativeMediatorFee | SumMismatch
    | SellerAccountMissing | PlatformAccountMissing | MediatorAccountMissing
    | NegativeEstimate | PlatformFeeTooSmall | AkadHashMissing

  /** The missing hash or the all-zero one: "0x" followed by 64 zeros. */
  predicate IsMissingHash(hash: string) {
    hash == "" || (|hash| == 66 && hash[0] == '0' && hash[1] == 'x' && forall k :: 2 <= k < 66 ==> hash[k] == '0')
  }

  function CalculateSellerNetAfterFees(sellerAmount: int, estimatedFee: int, bearer: int): int {
    if bearer == BEARER_SELLER then Max(0, sellerAmount - estimatedFee) else sellerAmount
  }

  function SellerLegs(p: Payout, a: TransferAccounts): seq<TransferLeg> {
    if p.sellerAmount > 0 then [TransferLeg(a.seller, p.sellerAmount, SELLER)] else []
  }

  function PlatformLegs(p: Payout, a: TransferAccounts): seq<TransferLeg> {
    if p.platformFee > 0 then [TransferLeg(a.platform, p.platformFee, PLATFORM)] else []
  }

  function MediatorLegs(p: Payout, a: TransferAccounts): seq<TransferLeg> {
    if p.mediatorFee > 0 && a.mediator.Some? then [TransferLeg(a.mediator.value, p.mediatorFee, MEDIATOR)] else []
  }

  function LegsOf(p: Payout, a: TransferAccounts): seq<TransferLeg> {
    SellerLegs(p, a) + PlatformLegs(p, a) + MediatorLegs(p, a)
  }

  function Create(p: Payout, a: TransferAccounts): Result<SplitPayment, SplitError> {
    if p.totalAmount <= 0 then Err(TotalNotPositive)
    else if p.sellerAmount < 0 then Err(NegativeSeller)
    else if p.platformFee < 0 then Err(NegativePlatformFee)
    else if p.mediatorFee < 0 then Err(NegativeMediatorFee)
    else if p.sellerAmount + p.platformFee + p.mediatorFee != p.totalAmount then Err(SumMismatch)
    else if a.seller.accountNumber == "" then Err(SellerAccountMissing)
    else if a.platform.accountNumber == "" then Err(PlatformAccountMissing)
    else if p.mediatorFee > 0 && (a.mediator.None? || a.mediator.value.accountNumber == "") then Err(MediatorAccountMissing)
    else if p.estimatedFee < 0 then Err(NegativeEstimate)
    else if p.feeBearer == BEARER_PLATFORM && p.estimatedFee > p.platformFee then Err(PlatformFeeTooSmall)
    else if IsMissingHash(p.akadStatementHash) then Err(AkadHashMissing)
    else Ok(SplitPayment(p, a, LegsOf(p, a), CalculateSellerNetAfterFees(p.sellerAmount, p.estimatedFee, p.feeBearer)))
  }

  /** The source builds the list by pushing one leg after the other. */
  method BuildTransferLegs(p: Payout, a: TransferAccounts) returns (legs: seq<TransferLeg>)
    ensures legs == LegsOf(p, a)
  {
    legs := [];
    if p.sellerAmount > 0 {
      legs := legs + [TransferLeg(a.seller, p.sellerAmount, SELLER)];
    }
    if p.platformFee > 0 {
      legs := legs + [TransferLeg(a.platform, p.platformFee, PLATFORM)];
    }
    if p.mediatorFee > 0 && a.mediator.Some? {
      legs := legs + [TransferLeg(a.mediator.value, p.mediatorFee, MEDIATOR)];
    }
  }

  datatype LegError = InvalidAccountNumber(leg: nat) | InvalidBankCode(leg: nat) | InvalidAmount(leg: nat)

  predicate LegAccountsValid(leg: TransferLeg) {
    |leg.account.accountNumber| >= 10 && |leg.account.bankCode| >= 2 && leg.amount > 0
  }

  predicate AccountsValid(legs: seq<TransferLeg>) {
    forall k :: 0 <= k < |legs| ==> LegAccountsValid(legs[k])
  }

  /** The errors name exactly the rules that leg k violates. */
  predicate Reports(errors: seq<LegError>, k: nat, leg: TransferLeg) {
    && (InvalidAccountNumber(k) in errors <==> |leg.account.accountNumber| < 10)
    && (InvalidBankCode(k) in errors <==> |leg.account.bankCode| < 2)
    && (InvalidAmount(k) in errors <==> leg.amount <= 0)
  }

  /** validateAccounts: one error per violated rule and leg, none exactly when every leg is sound. */
  method ValidateAccounts(legs: seq<TransferLeg>) returns (valid: bool, errors: seq<LegError>)
    ensures valid <==> AccountsValid(legs)
    ensures valid <==> errors == []
    ensures forall k :: 0 <= k < |legs| ==> Reports(errors, k, legs[k])
    ensures forall e :: e in errors ==> e.leg < |legs|
  {
    errors := [];
    var i := 0;
    while i < |legs|
      invariant 0 <= i <= |legs|
      invariant forall e :: e in errors ==> e.leg < i
      invariant forall k :: 0 <= k < i ==> Reports(errors, k, legs[k])
      invariant errors == [] <==> AccountsValid(legs[..i])
    {
      var leg := legs[i];
      assert legs[..i + 1] == legs[..i] + [leg];
      if |leg.account.accountNumber| < 10 {
        errors := errors + [InvalidAccountNumber(i)];
      }
      if |leg.account.bankCode| < 2 {
        errors := errors + [InvalidBankCode(i)];
      }
      if leg.amount <= 0 {
        errors := errors + [InvalidAmount(i)];
      }
      i := i + 1;
    }
    assert legs[..i] == legs;
    valid := errors == [];
  }

  function SumOfLegs(legs: seq<TransferLeg>): int {
    if |legs| == 0 then 0 else SumOfLegs(legs[..|legs| - 1]) + legs[|legs| - 1].amount
  }

  lemma {:induction false} SumOfConcatenation(s: seq<TransferLeg>, t: seq<TransferLeg>)
    ensures SumOfLegs(s + t) == SumOfLegs(s) + SumOfLegs(t)
  {
    if |t| == 0 {
      assert s + t == s;
    } else {
      assert (s + t)[..|s + t| - 1] == s + t[..|t| - 1];
      SumOfConcatenation(s, t[..|t| - 1]);
    }
  }

  lemma SumOfAtMostOne(legs: seq<TransferLeg>)
    requires |legs| <= 1
    ensures SumOfLegs(legs) == if |legs| == 0 then 0 else legs[0].amount
  {
    if |legs| == 1 {
      assert legs[..0] == [];
    }
  }

  lemma SumOfParts(p: Payout, a: TransferAccounts)
    ensures SumOfLegs(LegsOf(p, a)) ==
      SumOfLegs(SellerLegs(p, a)) + SumOfLegs(PlatformLegs(p, a)) + SumOfLegs(MediatorLegs(p, a))
  {
    SumOfConcatenation(SellerLegs(p, a) + PlatformLegs(p, a), MediatorLegs(p, a));
    SumOfConcatenation(SellerLegs(p, a), PlatformLegs(p, a));
  }

  /** One to three positive legs, no recipient twice. */
  predicate WellShaped(legs: seq<TransferLeg>) {
    && 1 <= |legs| <= 3
    && (forall k :: 0 <= k < |legs| ==> legs[k].amount > 0)
    && (forall j, k :: 0 <= j < k < |legs| ==> legs[j].recipientType != legs[k].recipientType)
  }

  lemma ShapeOfLegs(p: Payout, a: TransferAccounts)
    requires p.sellerAmount > 0 || p.platformFee > 0 || (p.mediatorFee > 0 && a.mediator.Some?)
    ensures WellShaped(LegsOf(p, a))
  {
  }

  lemma SumOfEachPart(p: Payout, a: TransferAccounts)
    requires p.sellerAmount >= 0 && p.platformFee >= 0 && p.mediatorFee >= 0
    requires p.mediatorFee > 0 ==> a.mediator.Some?
    ensures SumOfLegs(SellerLegs(p, a)) == p.sellerAmount
    ensures SumOfLegs(PlatformLegs(p, a)) == p.platformFee
    ensures SumOfLegs(MediatorLegs(p, a)) == p.mediatorFee
  {
    SumOfAtMostOne(SellerLegs(p, a));
    SumOfAtMostOne(PlatformLegs(p, a));
    SumOfAtMostOne(MediatorLegs(p, a));
  }

  /** Every valid split moves exactly its total, in one to three positive legs to distinct recipients. */
  lemma LegsMoveTheTotal(p: Payout, a: TransferAccounts)
    requires Create(p, a).Ok?
    ensures SumOfLegs(Create(p, a).value.legs) == p.totalAmount
    ensures WellShaped(Create(p, a).value.legs)
  {
    SumOfParts(p, a);
    SumOfEachPart(p, a);
    ShapeOfLegs(p, a);
  }

  /** The leg pays this party its amount. */
  predicate Pays(leg: TransferLeg, party: RecipientType, account: BankAccount, amount: int) {
    amount > 0 && leg == TransferLeg(account, amount, party)
  }

  /**
   * Who is paid what: the legs of a valid split are exactly the seller's amount to the seller's account, the
   * platform's fee to the platform's and the mediator's fee to the mediator's, each where positive, in this order.
   */
  lemma LegsPayTheParties(p: Payout, a: TransferAccounts)
    requires Create(p, a).Ok?
    ensures forall leg :: leg in Create(p, a).value.legs <==>
      || Pays(leg, SELLER, a.seller, p.sellerAmount)
      || Pays(leg, PLATFORM, a.platform, p.platformFee)
      || (a.mediator.Some? && Pays(leg, MEDIATOR, a.mediator.value, p.mediatorFee))
    ensures p.mediatorFee > 0 ==> a.mediator.Some?
    ensures var legs := Create(p, a).value.legs;
      forall j, k :: 0 <= j < k < |legs| ==>
        legs[j].recipientType.SELLER? || (legs[j].recipientType.PLATFORM? && legs[k].recipientType.MEDIATOR?)
  {
  }

  /** The rule of creation an error stands for. */
  predicate Violates(p: Payout, a: TransferAccounts, e: SplitError) {
    match e
    case TotalNotPositive => p.totalAmount <= 0
    case NegativeSeller => p.sellerAmount < 0
    case NegativePlatformFee => p.platformFee < 0
    case NegativeMediatorFee => p.mediatorFee < 0
    case SumMismatch => p.sellerAmount + p.platformFee + p.mediatorFee != p.totalAmount
    case SellerAccountMissing => a.seller.accountNumber == ""
    case PlatformAccountMissing => a.platform.accountNumber == ""
    case MediatorAccountMissing => p.mediatorFee > 0 && (a.mediator.None? || a.mediator.value.accountNumber == "")
    case NegativeEstimate => p.estimatedFee < 0
    case PlatformFeeTooSmall => p.feeBearer == BEARER_PLATFORM && p.estimatedFee > p.platformFee
    case AkadHashMissing => p.akadStatementHash == "" || p.akadStatementHash == "0x" + Zeros(64)
  }

  function Zeros(n: nat): string {
    if n == 0 then "" else Zeros(n - 1) + "0"
  }

  lemma {:induction false} ZerosAreZeros(n: nat)
    ensures |Zeros(n)| == n && forall k :: 0 <= k < n ==> Zeros(n)[k] == '0'
  {
    if n > 0 { ZerosAreZeros(n - 1); }
  }

  lemma MissingHashIsZero(hash: string)
    ensures IsMissingHash(hash) <==> hash == "" || hash == "0x" + Zeros(64)
  {
    ZerosAreZeros(64);
    if |hash| == 66 && hash[0] == '0' && hash[1] == 'x' && forall k :: 2 <= k < 66 ==> hash[k] == '0' {
      assert hash == "0x" + Zeros(64);
    }
  }

  /** A split is created exactly when no rule is violated, and a refusal names a rule that is. */
  lemma CreateSucceedsExactly(p: Payout, a: TransferAccounts)
    ensures Create(p, a).Ok? <==> forall e :: !Violates(p, a, e)
    ensures Create(p, a).Err? ==> Violates(p, a, Create(p, a).error)
  {
    MissingHashIsZero(p.akadStatementHash);
    if Create(p, a).Err? {
      assert Violates(p, a, Create(p, a).error);
    } else {
      forall e ensures !Violates(p, a, e) {
        match e
        case TotalNotPositive =>
        case NegativeSeller =>
        case NegativePlatformFee =>
        case NegativeMediatorFee =>
        case SumMismatch =>
        case SellerAccountMissing =>
        case PlatformAccountMissing =>
        case MediatorAccountMissing =>
        case NegativeEstimate =>
        case PlatformFeeTooSmall =>
        case AkadHashMissing =>
      }
    }
  }

  datatype FeeAbsorber = BY_PLATFORM | BY_SELLER | BY_BUYER

  datatype ActualAmounts = ActualAmounts(
    sellerNet: int, platformNet: int, mediatorNet: int, absorbedBy: FeeAbsorber, feeVariance: int)

  datatype BearerError = UnknownBearer

  /** calculateActualAmounts: the net amounts once the actual fee is known. */
  function CalculateActualAmounts(s: SplitPayment, actualFee: int): Result<ActualAmounts, BearerError> {
    var p := s.payout;
    var variance := actualFee - p.estimatedFee;
    if p.feeBearer == BEARER_PLATFORM then
      Ok(ActualAmounts(p.sellerAmount, p.platformFee - actualFee, p.mediatorFee, BY_PLATFORM, variance))
    else if p.feeBearer == BEARER_SELLER then
      Ok(ActualAmounts(p.sellerAmount - actualFee, p.platformFee, p.mediatorFee, BY_SELLER, variance))
    else if p.feeBearer == BEARER_BUYER then
      Ok(ActualAmounts(p.sellerAmount, p.platformFee, p.mediatorFee, BY_BUYER, variance))
    else Err(UnknownBearer)
  }

  /**
   * The net amounts and the fee taken out of them sum to the total, whoever bears it; a buyer's fee is paid
   * on top. Creation accepts an unknown bearer, and only then the calculation fails.
   */
  lemma ActualAmountsConserve(p: Payout, a: TransferAccounts, actualFee: int)
    requires Create(p, a).Ok?
    ensures var r := CalculateActualAmounts(Create(p, a).value, actualFee);
      && (r.Ok? <==> p.feeBearer in {BEARER_PLATFORM, BEARER_SELLER, BEARER_BUYER})
      && (r.Ok? ==>
            var x := r.value;
            x.sellerNet + x.platformNet + x.mediatorNet + (if x.absorbedBy.BY_BUYER? then 0 else actualFee) == p.totalAmount)
  {
  }

  /** The actual fee is taken from the one who bears it and from nobody else; the variance is against the estimate. */
  lemma BearerPaysTheFee(p: Payout, a: TransferAccounts, actualFee: int)
    requires Create(p, a).Ok? && p.feeBearer in {BEARER_PLATFORM, BEARER_SELLER, BEARER_BUYER}
    ensures var x := CalculateActualAmounts(Create(p, a).value, actualFee).value;
      && p.sellerAmount - x.sellerNet == (if p.feeBearer == BEARER_SELLER then actualFee else 0)
      && p.platformFee - x.platformNet == (if p.feeBearer == BEARER_PLATFORM then actualFee else 0)
      && x.mediatorNet == p.mediatorFee
      && (x.absorbedBy.BY_SELLER? <==> p.feeBearer == BEARER_SELLER)
      && (x.absorbedBy.BY_PLATFORM? <==> p.feeBearer == BEARER_PLATFORM)
      && x.feeVariance + p.estimatedFee == actualFee
  {
  }

  /**
   * The seller's disclosed net amount is what the seller would actually receive at the estimated fee, except
   * exactly when the seller bears a fee larger than the seller's amount: the disclosure stops at 0.
   */
  lemma DisclosedNetMatchesActual(p: Payout, a: TransferAccounts)
    requires Create(p, a).Ok?
    requires p.feeBearer in {BEARER_PLATFORM, BEARER_SELLER, BEARER_BUYER}
    ensures var s := Create(p, a).value;
      CalculateActualAmounts(s, p.estimatedFee).value.sellerNet == s.sellerNetAfterFees
      <==> !(p.feeBearer == BEARER_SELLER && p.estimatedFee > p.sellerAmount)
  {
  }
}
