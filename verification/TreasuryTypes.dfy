/**
 Records kept by the treasury contract (crates/multisig/src/lib.rs and contracts/treasury/src/lib.rs).
 The storage is split by owner: `Governance` (admin.rs, signers.rs, timelock.rs), `Book`
 (settlements.rs, holds.rs, disputes.rs) and `Vault` (deposits.rs).
 */
module TreasuryTypes {
  import opened Common

  datatype TreasuryError =
    | AlreadyInitialized | ZeroThreshold | SettlementNotFound | AlreadyExecuted | ThresholdNotMet
    | ThresholdNotConfigured | InvalidAmount | ContractPaused | Unauthorized | UnauthorizedSigner
    | InvalidTokenContract | TokenNotAllowed | RotationNotFound | RotationAlreadyExecuted
    | SettlementOnHold | DisputeNotExpired | AlreadyOnHold | ThresholdUnreachable | ComplianceCheckFailed
    | ArithmeticOverflow | DisputeNotFound | DisputeAlreadyResolved | ResolutionDirectionMismatch
    | BatchTooLarge | WeightOverflow | SettlementNotCancellable | TtlNotElapsed | AllowlistFull | NotOnHold
    | DestinationNotAllowed | InsufficientBalance | NotPaused | RotationProposalCooldown
    | WithdrawalLimitExceeded | InvalidSplitRatio | ForceCancelNotAllowed | SignerChangeTooEarly
    | SignerChangeNotFound | SignerChangeAlreadyFinalised | ExecutionDeadlineExceeded | QuorumBreak
    | TokenHasPendingSettlements | ApprovalNotFound | DuplicateVote | InvalidTimelockDelay | TokenHasBalance

  // ----- governance -----

  datatype RotationStatus = RotationPending | RotationExecuted | RotationCancelled

  datatype Rotation = Rotation(
    oldSigner: Address, newSigner: Address, approvals: seq<Address>, approvalWeight: u32,
    status: RotationStatus, capturedOldWeight: u32)

  datatype ChangeKind =
    | SetWeight(signer: Address, weight: u32)
    | DropSigner(signer: Address)
    | SetThreshold(threshold: u32)
    | SetDelay(seconds: u64)

  datatype ChangeStatus = ChangePending | ChangeExecuted | ChangeCancelled

  datatype SignerChange = SignerChange(
    id: nat, kind: ChangeKind, proposedAt: u64, executableAt: u64, status: ChangeStatus)

  /** The governance events the contract publishes, as far as the proofs read them. */
  datatype GovEvent =
    | Queued(id: nat, at: u64, delay: u64)
    | Applied(id: nat, at: u64)
    | Withdrawn(id: nat)
    | Rotated(id: nat)

  datatype Governance = Governance(
    admin: Option<Address>, paused: bool, threshold: Option<u32>,
    weights: map<Address, u32>, signerList: seq<Address>,
    rotations: map<nat, Rotation>, rotationCount: u64, lastRotation: map<Address, u64>,
    changes: map<nat, SignerChange>, changeCount: u64, delaySecs: Option<u64>,
    journal: seq<GovEvent>)

  const EMPTY_GOVERNANCE: Governance :=
    Governance(None, false, None, map[], [], map[], 0, map[], map[], 0, None, [])

  // ----- settlements and disputes -----

  datatype HoldReason = NoHold | ComplianceReview | FraudCheck | KycPending | AdminHold

  datatype SettlementStatus =
    Pending | Executed | PartiallySettled | PartiallyExecuted | OnHold | Cancelled | Expired

  datatype Settlement = Settlement(
    id: nat, merchant: Address, amount: i128, approvals: seq<Address>, approvalWeight: u32,
    status: SettlementStatus, holdReason: HoldReason, proposedAt: u64, executionDeadline: u64,
    token: Option<Address>)

  datatype DisputeStatus = Raised | ResolvedClaimant | ResolvedCounterparty | DisputeExpired | ResolvedSplit

  datatype Dispute = Dispute(
    id: nat, settlementId: nat, claimant: Address, counterparty: Address, amount: i128,
    status: DisputeStatus, approvals: seq<Address>, weight: u32, forClaimant: bool,
    expiresAt: u64, claimantBps: u32)

  datatype PayoutKind = Full | Batched | Partial

  /** One token transfer made for a settlement. */
  datatype Payout = Payout(kind: PayoutKind, id: nat, token: Address, to: Address, amount: i128, at: u64)

  /** One token transfer made by a dispute split. */
  datatype SplitPayment = SplitPayment(dispute: nat, token: Address, to: Address, amount: i128)

  datatype Book = Book(
    settlements: map<nat, Settlement>, settlementCount: u64, pendingIndex: seq<nat>,
    holdExpiry: map<nat, u64>, partialApproved: map<nat, i128>, partialExecuted: map<nat, i128>,
    expirySecs: u64, allowedTokens: seq<Address>, payoutAddress: map<Address, Address>,
    disputes: map<nat, Dispute>, disputeCount: u64, settlementDisputes: map<nat, seq<nat>>,
    payouts: seq<Payout>, splits: seq<SplitPayment>)

  const DEFAULT_EXPIRY: u64 := 7 * 24 * 60 * 60

  const EMPTY_BOOK: Book :=
    Book(map[], 0, [], map[], map[], map[], DEFAULT_EXPIRY, [], map[], map[], 0, map[], [], [])

  // ----- deposits -----

  /** One `withdraw` or `withdraw_all` transfer. */
  datatype Outflow = Outflow(to: Address, token: Address, amount: i128, at: u64)

  /** Balances are keyed by (holder, token). */
  datatype Vault = Vault(
    balances: map<(Address, Address), i128>, totals: map<Address, i128>, destinations: seq<Address>,
    limit: i128, windowSecs: u64, windowStart: map<Address, u64>, used: map<Address, i128>,
    outflows: seq<Outflow>)

  const EMPTY_VAULT: Vault := Vault(map[], map[], [], 0, 0, map[], map[], [])

  /** The treasury's own address. */
  const TREASURY: Address := Account(0)

  const MAX_BATCH_SIZE: nat := 50
  const MAX_ALLOWED_TOKENS: nat := 20
  const DEFAULT_TIMELOCK: u64 := 24 * 60 * 60
  const MIN_TIMELOCK: u64 := 60 * 60
  const MAX_TIMELOCK: u64 := 30 * 24 * 60 * 60
  const MAX_CHANGE_PAGE: nat := 50
  const ROTATION_COOLDOWN: u64 := 60 * 60

  // ----- guards shared by every entrypoint -----

  function SignerWeight(g: Governance, a: Address): u32 { Lookup(g.weights, a, 0) }

  function RequireAdmin(g: Governance, caller: Address): Guard<TreasuryError> {
    Need(g.admin == Some(caller), Unauthorized)
  }

  function RequireNotPaused(g: Governance): Guard<TreasuryError> {
    Need(!g.paused, ContractPaused)
  }

  function RequireSigner(g: Governance, caller: Address): Guard<TreasuryError> {
    Need(SignerWeight(g, caller) != 0, UnauthorizedSigner)
  }

  function CheckedSucc(count: u64): Result<u64, TreasuryError> {
    if count < U64_MAX then Ok(count + 1) else Err(ArithmeticOverflow)
  }
}
