/*
 * The five committee-member evaluators.  Each has a check phase
 * (Evaluate..., a pure verdict over the ledger) and an act phase (Apply...,
 * the new ledger).  Dispatch runs the act phase only after the check phase
 * passes; ApplyTransaction runs operations in order and stops at the first
 * rejection.
 */
module CommitteeMemberEvaluator {
  import opened Ledger

  /** The outcome of a check phase. */
  datatype Verdict = Pass | Fail(error: Error)

  /** 2018-07-01T00:00:00 UTC, the last instant construction capital may be issued. */
  const ConstructionCapitalCutoff: Timestamp := 1530403200

  /** fc::days(365) in seconds. */
  const InstantPaybackPeriod: nat := 365 * 24 * 60 * 60

  /** time_point::min(): the epoch, meaning "no instant payback granted". */
  const MinTimestamp: Timestamp := 0

  datatype CommitteeMemberCreateOp = CommitteeMemberCreateOp(committeeMemberAccount: AccountId, url: string)

  datatype CommitteeMemberUpdateOp = CommitteeMemberUpdateOp(
    committeeMember: CommitteeMemberId,
    committeeMemberAccount: AccountId,
    newUrl: Option<string>)

  datatype UpdateGlobalParametersOp = UpdateGlobalParametersOp(newParameters: ChainParameters)

  datatype IssueConstructionCapitalOp = IssueConstructionCapitalOp(receiver: AccountId, amount: ShareAmount, fee: Asset)

  datatype GrantInstantPaybackOp = GrantInstantPaybackOp(accountId: AccountId, grant: bool)

  datatype Operation =
    | Create(create: CommitteeMemberCreateOp)
    | Update(update: CommitteeMemberUpdateOp)
    | UpdateGlobalParameters(updateParameters: UpdateGlobalParametersOp)
    | IssueConstructionCapital(issue: IssueConstructionCapitalOp)
    | GrantInstantPayback(grantPayback: GrantInstantPaybackOp)

  /** The guard shared by the three operations that only a proposal may carry. */
  function ProposalGate(isProposedTrx: bool): (r: Verdict)
    ensures r.Pass? <==> isProposedTrx
    ensures r.Fail? ==> r.error == NotAuthorizedDirectly
  {
    if isProposedTrx then Pass else Fail(NotAuthorizedDirectly)
  }

  // ---------------------------------------------------------------- create

  function EvaluateCreate(s: State, op: CommitteeMemberCreateOp): (r: Verdict)
    ensures r.Pass? <==>
      op.committeeMemberAccount in s.accounts && s.accounts[op.committeeMemberAccount].isLifetimeMember
    ensures r == Fail(ObjectNotFound) <==> op.committeeMemberAccount !in s.accounts
    ensures op.committeeMemberAccount in s.accounts && !s.accounts[op.committeeMemberAccount].isLifetimeMember
            ==> r == Fail(PrerequisiteNotMet)
  {
    if op.committeeMemberAccount !in s.accounts then Fail(ObjectNotFound)
    else if !s.accounts[op.committeeMemberAccount].isLifetimeMember then Fail(PrerequisiteNotMet)
    else Pass
  }

  /**
   * Allocates the next committee vote id in the global properties and creates
   * the member object under the next committee-member id, which it returns.
   */
  function ApplyCreate(s: State, op: CommitteeMemberCreateOp): (r: (State, CommitteeMemberId))
    ensures r.1 in r.0.committeeMembers
    ensures r.0.committeeMembers[r.1] ==
      CommitteeMember(op.committeeMemberAccount, VoteId(Committee, s.globals.nextAvailableVoteId), op.url)
    ensures r.0.committeeMembers.Keys == s.committeeMembers.Keys + {r.1}
    ensures Consistent(s) ==> r.1 !in s.committeeMembers
    ensures Consistent(s) ==> |r.0.committeeMembers| == |s.committeeMembers| + 1
    ensures Consistent(s) ==> forall m :: m in s.committeeMembers ==> r.0.committeeMembers[m] == s.committeeMembers[m]
    ensures r.0.globals.nextAvailableVoteId == s.globals.nextAvailableVoteId + 1
    ensures r.0.globals.parameters == s.globals.parameters
    ensures r.0.globals.pendingParameters == s.globals.pendingParameters
    ensures r.0.nextCommitteeMemberId > r.1
    ensures r.0.accounts == s.accounts && r.0.balances == s.balances
    ensures r.0.headBlockTime == s.headBlockTime && r.0.constructionCapitalAccount == s.constructionCapitalAccount
  {
    var (voteId, globals) := AllocateVoteId(s.globals, Committee);
    var id := s.nextCommitteeMemberId;
    var member := CommitteeMember(op.committeeMemberAccount, voteId, op.url);
    assert Consistent(s) ==> id !in s.committeeMembers;
    (s.(globals := globals,
        committeeMembers := s.committeeMembers[id := member],
        nextCommitteeMemberId := id + 1),
     id)
  }

  // ---------------------------------------------------------------- update

  function EvaluateUpdate(s: State, op: CommitteeMemberUpdateOp): (r: Verdict)
    ensures r.Pass? <==>
      op.committeeMember in s.committeeMembers &&
      s.committeeMembers[op.committeeMember].committeeMemberAccount == op.committeeMemberAccount
    ensures op.committeeMember in s.committeeMembers &&
      s.committeeMembers[op.committeeMember].committeeMemberAccount != op.committeeMemberAccount
      ==> r == Fail(AuthorizationFailed)
    ensures op.committeeMember !in s.committeeMembers ==> r == Fail(ObjectNotFound)
  {
    if op.committeeMember !in s.committeeMembers then Fail(ObjectNotFound)
    else if s.committeeMembers[op.committeeMember].committeeMemberAccount != op.committeeMemberAccount then
      Fail(AuthorizationFailed)
    else Pass
  }

  /** Replaces the member's url when a new one is given; otherwise changes nothing. */
  function ApplyUpdate(s: State, op: CommitteeMemberUpdateOp): (r: State)
    requires op.committeeMember in s.committeeMembers
    ensures op.newUrl.None? ==> r == s
    ensures r.committeeMembers.Keys == s.committeeMembers.Keys
    ensures r.committeeMembers[op.committeeMember].committeeMemberAccount ==
            s.committeeMembers[op.committeeMember].committeeMemberAccount
    ensures r.committeeMembers[op.committeeMember].voteId == s.committeeMembers[op.committeeMember].voteId
    ensures r.committeeMembers[op.committeeMember].url ==
            (if op.newUrl.Some? then op.newUrl.value else s.committeeMembers[op.committeeMember].url)
    ensures forall m :: m in s.committeeMembers && m != op.committeeMember ==>
              r.committeeMembers[m] == s.committeeMembers[m]
    ensures r == s.(committeeMembers := r.committeeMembers)
  {
    var member := s.committeeMembers[op.committeeMember];
    match op.newUrl
    case None => s
    case Some(url) => s.(committeeMembers := s.committeeMembers[op.committeeMember := member.(url := url)])
  }

  // ---------------------------------------------- update global parameters

  function EvaluateUpdateGlobalParameters(isProposedTrx: bool, op: UpdateGlobalParametersOp): (r: Verdict)
    ensures r.Pass? <==> isProposedTrx
    ensures !isProposedTrx ==> r == Fail(NotAuthorizedDirectly)
  {
    ProposalGate(isProposedTrx)
  }

  /** Stages the new parameters, overwriting any staged before. */
  function ApplyUpdateGlobalParameters(s: State, op: UpdateGlobalParametersOp): (r: State)
    ensures r.globals.pendingParameters == Some(op.newParameters)
    ensures r.globals.parameters == s.globals.parameters
    ensures r.globals.nextAvailableVoteId == s.globals.nextAvailableVoteId
    ensures r == s.(globals := r.globals)
  {
    s.(globals := s.globals.(pendingParameters := Some(op.newParameters)))
  }

  // -------------------------------------------- issue construction capital

  function EvaluateIssueConstructionCapital(s: State, isProposedTrx: bool, op: IssueConstructionCapitalOp): (r: Verdict)
    ensures r.Pass? <==>
      && isProposedTrx
      && s.headBlockTime <= ConstructionCapitalCutoff
      && op.amount <= GetBalance(s, s.constructionCapitalAccount)
      && op.receiver in s.accounts
      && op.amount > op.fee.amount
    ensures !isProposedTrx ==> r == Fail(NotAuthorizedDirectly)
  {
    var gate := ProposalGate(isProposedTrx);
    if gate.Fail? then gate
    else if s.headBlockTime > ConstructionCapitalCutoff then Fail(IssuanceWindowClosed)
    else if op.amount > GetBalance(s, s.constructionCapitalAccount) then Fail(InsufficientReserve)
    else if op.receiver !in s.accounts then Fail(ObjectNotFound)
    else if op.amount <= op.fee.amount then Fail(FeeExceedsAmount)
    else Pass
  }

  /** Moves `amount` of the base asset from the reserve account to the receiver. */
  function ApplyIssueConstructionCapital(s: State, op: IssueConstructionCapitalOp): (r: State)
    ensures GetBalance(r, op.receiver) + GetBalance(r, s.constructionCapitalAccount) ==
            GetBalance(s, op.receiver) + GetBalance(s, s.constructionCapitalAccount)
    ensures op.receiver != s.constructionCapitalAccount ==>
              GetBalance(r, op.receiver) == GetBalance(s, op.receiver) + op.amount &&
              GetBalance(r, s.constructionCapitalAccount) == GetBalance(s, s.constructionCapitalAccount) - op.amount
    ensures forall a :: a != op.receiver && a != s.constructionCapitalAccount ==> GetBalance(r, a) == GetBalance(s, a)
    ensures r == s.(balances := r.balances)
  {
    var credited := AdjustBalance(s.balances, op.receiver, op.amount);
    s.(balances := AdjustBalance(credited, s.constructionCapitalAccount, -op.amount))
  }

  // ------------------------------------------------ grant instant payback

  function EvaluateGrantInstantPayback(s: State, isProposedTrx: bool, op: GrantInstantPaybackOp): (r: Verdict)
    ensures r.Pass? <==> isProposedTrx && op.accountId in s.accounts
    ensures !isProposedTrx ==> r == Fail(NotAuthorizedDirectly)
    ensures isProposedTrx && op.accountId !in s.accounts ==> r == Fail(ObjectNotFound)
  {
    var gate := ProposalGate(isProposedTrx);
    if gate.Fail? then gate
    else if op.accountId !in s.accounts then Fail(ObjectNotFound)
    else Pass
  }

  /** Grants instant payback for a year from now, or withdraws it. */
  function ApplyGrantInstantPayback(s: State, op: GrantInstantPaybackOp): (r: State)
    requires op.accountId in s.accounts
    ensures r.accounts.Keys == s.accounts.Keys
    ensures r.accounts[op.accountId].instantPaybackExpirationDate ==
            (if op.grant then s.headBlockTime + InstantPaybackPeriod else MinTimestamp)
    ensures r.accounts[op.accountId].isLifetimeMember == s.accounts[op.accountId].isLifetimeMember
    ensures forall a :: a in s.accounts && a != op.accountId ==> r.accounts[a] == s.accounts[a]
    ensures r == s.(accounts := r.accounts)
  {
    var expiration := if op.grant then s.headBlockTime + InstantPaybackPeriod else MinTimestamp;
    s.(accounts := s.accounts[op.accountId := s.accounts[op.accountId].(instantPaybackExpirationDate := expiration)])
  }

  // -------------------------------------------------------------- dispatch

  /** The check phase of whichever evaluator handles `op`. */
  function Evaluate(s: State, isProposedTrx: bool, op: Operation): Verdict
  {
    match op
    case Create(o) => EvaluateCreate(s, o)
    case Update(o) => EvaluateUpdate(s, o)
    case UpdateGlobalParameters(o) => EvaluateUpdateGlobalParameters(isProposedTrx, o)
    case IssueConstructionCapital(o) => EvaluateIssueConstructionCapital(s, isProposedTrx, o)
    case GrantInstantPayback(o) => EvaluateGrantInstantPayback(s, isProposedTrx, o)
  }

  /**
   * Evaluates `op` and, only if that passes, applies it.  A rejected
   * operation leaves the ledger as it was.
   */
  function Dispatch(s: State, isProposedTrx: bool, op: Operation): (r: (Receipt, State))
    ensures r.0.Rejected? <==> Evaluate(s, isProposedTrx, op).Fail?
    ensures r.0.Rejected? ==> r.0.error == Evaluate(s, isProposedTrx, op).error && r.1 == s
    ensures Evaluate(s, isProposedTrx, op).Pass? && op.Create? ==>
              r == (Accepted(NewObject(ApplyCreate(s, op.create).1)), ApplyCreate(s, op.create).0)
    ensures Evaluate(s, isProposedTrx, op).Pass? && op.Update? ==>
              op.update.committeeMember in s.committeeMembers &&
              r == (Accepted(VoidResult), ApplyUpdate(s, op.update))
    ensures Evaluate(s, isProposedTrx, op).Pass? && op.UpdateGlobalParameters? ==>
              r == (Accepted(VoidResult), ApplyUpdateGlobalParameters(s, op.updateParameters))
    ensures Evaluate(s, isProposedTrx, op).Pass? && op.IssueConstructionCapital? ==>
              r == (Accepted(VoidResult), ApplyIssueConstructionCapital(s, op.issue))
    ensures Evaluate(s, isProposedTrx, op).Pass? && op.GrantInstantPayback? ==>
              op.grantPayback.accountId in s.accounts &&
              r == (Accepted(VoidResult), ApplyGrantInstantPayback(s, op.grantPayback))
  {
    var verdict := Evaluate(s, isProposedTrx, op);
    if verdict.Fail? then (Rejected(verdict.error), s)
    else
      match op
      case Create(o) =>
        var (s', id) := ApplyCreate(s, o);
        (Accepted(NewObject(id)), s')
      case Update(o) => (Accepted(VoidResult), ApplyUpdate(s, o))
      case UpdateGlobalParameters(o) => (Accepted(VoidResult), ApplyUpdateGlobalParameters(s, o))
      case IssueConstructionCapital(o) => (Accepted(VoidResult), ApplyIssueConstructionCapital(s, o))
      case GrantInstantPayback(o) => (Accepted(VoidResult), ApplyGrantInstantPayback(s, o))
  }

  /** The result of running a whole transaction. */
  datatype TransactionOutcome =
    | TransactionRejected(index: nat, error: Error)
    | TransactionApplied(state: State, results: seq<ApplyResult>)

  /**
   * Runs the operations of one transaction in list order.  The first rejected
   * operation rejects the whole transaction, and then no state is returned at
   * all: the caller keeps the ledger it started from.
   */
  function ApplyTransaction(s: State, isProposedTrx: bool, ops: seq<Operation>): (r: TransactionOutcome)
    ensures r.TransactionRejected? ==> r.index < |ops|
    ensures r.TransactionApplied? ==> |r.results| == |ops|
    decreases |ops|
  {
    if ops == [] then TransactionApplied(s, [])
    else
      var (receipt, s') := Dispatch(s, isProposedTrx, ops[0]);
      match receipt
      case Rejected(e) => TransactionRejected(0, e)
      case Accepted(result) =>
        match ApplyTransaction(s', isProposedTrx, ops[1..])
        case TransactionRejected(i, e) => TransactionRejected(i + 1, e)
        case TransactionApplied(final, results) => TransactionApplied(final, [result] + results)
  }
}
