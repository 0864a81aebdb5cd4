/*
 * The ledger as mutable state.  The evaluators' act phases change these
 * fields in place, the way the object store's modify, create and
 * adjust_balance do; each method is proved to reach exactly the ledger that
 * the corresponding Apply function describes.
 */
module ChainDatabase {
  import opened Ledger
  import opened CommitteeMemberEvaluator
  import CommitteeMemberProperties

  class Database {
    var accounts: map<AccountId, Account>
    var committeeMembers: map<CommitteeMemberId, CommitteeMember>
    var nextCommitteeMemberId: nat
    var globals: GlobalProperties
    var balances: map<AccountId, ShareAmount>
    var headBlockTime: Timestamp
    const constructionCapitalAccount: AccountId

    /** The ledger these fields hold. */
    function View(): State
      reads this
    {
      State(accounts, committeeMembers, nextCommitteeMemberId, globals, balances, headBlockTime, constructionCapitalAccount)
    }

    constructor (initial: State)
      ensures View() == initial
    {
      accounts := initial.accounts;
      committeeMembers := initial.committeeMembers;
      nextCommitteeMemberId := initial.nextCommitteeMemberId;
      globals := initial.globals;
      balances := initial.balances;
      headBlockTime := initial.headBlockTime;
      constructionCapitalAccount := initial.constructionCapitalAccount;
    }

    /** committee_member_create's act phase: allocate a vote id, create the member, return its id. */
    method CommitteeMemberCreate(op: CommitteeMemberCreateOp) returns (id: CommitteeMemberId)
      modifies this
      ensures (View(), id) == ApplyCreate(old(View()), op)
      ensures Consistent(old(View())) && EvaluateCreate(old(View()), op).Pass? ==> Consistent(View())
    {
      ghost var before := View();
      var voteId := VoteId(Committee, globals.nextAvailableVoteId);
      globals := globals.(nextAvailableVoteId := globals.nextAvailableVoteId + 1);
      id := nextCommitteeMemberId;
      committeeMembers := committeeMembers[id := CommitteeMember(op.committeeMemberAccount, voteId, op.url)];
      nextCommitteeMemberId := nextCommitteeMemberId + 1;
      if Consistent(before) && EvaluateCreate(before, op).Pass? {
        CommitteeMemberProperties.CreatePreservesConsistent(before, op);
      }
    }

    /** committee_member_update's act phase: replace the url when one is given. */
    method CommitteeMemberUpdate(op: CommitteeMemberUpdateOp)
      requires op.committeeMember in committeeMembers
      modifies this
      ensures View() == ApplyUpdate(old(View()), op)
      ensures op.newUrl.None? ==> unchanged(this)
    {
      if op.newUrl.Some? {
        var member := committeeMembers[op.committeeMember];
        committeeMembers := committeeMembers[op.committeeMember := member.(url := op.newUrl.value)];
      }
    }

    /** committee_member_update_global_parameters' act phase: stage the new parameters. */
    method CommitteeMemberUpdateGlobalParameters(op: UpdateGlobalParametersOp)
      modifies this
      ensures View() == ApplyUpdateGlobalParameters(old(View()), op)
      ensures unchanged(this`accounts, this`committeeMembers, this`balances)
    {
      globals := globals.(pendingParameters := Some(op.newParameters));
    }

    /** committee_member_issue_construction_capital's act phase: the two balance adjustments. */
    method CommitteeMemberIssueConstructionCapital(op: IssueConstructionCapitalOp)
      modifies this
      ensures View() == ApplyIssueConstructionCapital(old(View()), op)
      ensures TotalSupply(balances) == old(TotalSupply(balances))
      ensures unchanged(this`accounts, this`committeeMembers, this`globals)
    {
      ghost var before := balances;
      balances := AdjustBalance(balances, op.receiver, op.amount);
      AdjustBalanceSupply(before, op.receiver, op.amount);
      ghost var credited := balances;
      balances := AdjustBalance(balances, constructionCapitalAccount, -op.amount);
      AdjustBalanceSupply(credited, constructionCapitalAccount, -op.amount);
    }

    /** committee_member_grant_instant_payback's act phase: set or clear the expiration date. */
    method CommitteeMemberGrantInstantPayback(op: GrantInstantPaybackOp)
      requires op.accountId in accounts
      modifies this
      ensures View() == ApplyGrantInstantPayback(old(View()), op)
      ensures unchanged(this`committeeMembers, this`globals, this`balances)
    {
      var account := accounts[op.accountId];
      if op.grant {
        account := account.(instantPaybackExpirationDate := headBlockTime + InstantPaybackPeriod);
      } else {
        account := account.(instantPaybackExpirationDate := MinTimestamp);
      }
      accounts := accounts[op.accountId := account];
    }

    /**
     * Runs the check phase on the unmodified ledger and the act phase only if
     * it passes; a rejected operation changes nothing.
     */
    method Dispatch(isProposedTrx: bool, op: Operation) returns (receipt: Receipt)
      modifies this
      ensures (receipt, View()) == CommitteeMemberEvaluator.Dispatch(old(View()), isProposedTrx, op)
      ensures receipt.Rejected? ==> unchanged(this)
    {
      var verdict := Evaluate(View(), isProposedTrx, op);
      if verdict.Fail? {
        return Rejected(verdict.error);
      }
      match op {
        case Create(o) =>
          var id := CommitteeMemberCreate(o);
          receipt := Accepted(NewObject(id));
        case Update(o) =>
          CommitteeMemberUpdate(o);
          receipt := Accepted(VoidResult);
        case UpdateGlobalParameters(o) =>
          CommitteeMemberUpdateGlobalParameters(o);
          receipt := Accepted(VoidResult);
        case IssueConstructionCapital(o) =>
          CommitteeMemberIssueConstructionCapital(o);
          receipt := Accepted(VoidResult);
        case GrantInstantPayback(o) =>
          CommitteeMemberGrantInstantPayback(o);
          receipt := Accepted(VoidResult);
      }
    }
  }
}
