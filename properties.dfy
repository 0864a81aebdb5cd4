/*
 * Properties of the committee-member evaluators: the order in which the
 * issuance checks decide the error, the ledger invariant every accepted
 * operation and transaction keeps, vote-id allocation, idempotence of url
 * updates, parameter staging, supply conservation and the instant-payback
 * timestamps.
 */
module CommitteeMemberProperties {
  import opened Ledger
  import opened CommitteeMemberEvaluator

  // ------------------------------------------------ ordered checks

  /** One assertion of a check phase: whether it holds, and the error it raises if not. */
  datatype Check = Check(holds: bool, error: Error)

  /** The verdict of running assertions in order: the first that fails decides. */
  function FirstFailure(checks: seq<Check>): (r: Verdict)
    ensures r.Pass? <==> forall i :: 0 <= i < |checks| ==> checks[i].holds
    ensures r.Fail? ==> exists i :: 0 <= i < |checks| && !checks[i].holds && checks[i].error == r.error &&
                                    forall j :: 0 <= j < i ==> checks[j].holds
  {
    if checks == [] then Pass
    else if !checks[0].holds then Fail(checks[0].error)
    else
      var rest := FirstFailure(checks[1..]);
      if rest.Fail? then
        var k :| 0 <= k < |checks[1..]| && !checks[1..][k].holds && checks[1..][k].error == rest.error &&
                 forall j :: 0 <= j < k ==> checks[1..][j].holds;
        assert !checks[k + 1].holds && forall j :: 0 <= j < k + 1 ==> checks[j].holds;
        rest
      else
        rest
  }

  /** The five assertions of the issuance check phase, in source order. */
  function IssueChecks(s: State, isProposedTrx: bool, op: IssueConstructionCapitalOp): seq<Check>
  {
    [ Check(isProposedTrx, NotAuthorizedDirectly),
      Check(s.headBlockTime <= ConstructionCapitalCutoff, IssuanceWindowClosed),
      Check(op.amount <= GetBalance(s, s.constructionCapitalAccount), InsufficientReserve),
      Check(op.receiver in s.accounts, ObjectNotFound),
      Check(op.amount > op.fee.amount, FeeExceedsAmount) ]
  }

  /** Issuance evaluation reports exactly the first of its five checks that fails. */
  lemma IssueEvaluationIsFirstFailure(s: State, isProposedTrx: bool, op: IssueConstructionCapitalOp)
    ensures EvaluateIssueConstructionCapital(s, isProposedTrx, op) == FirstFailure(IssueChecks(s, isProposedTrx, op))
  {
    var c := IssueChecks(s, isProposedTrx, op);
    assert FirstFailure(c[5..]) == Pass;
    assert FirstFailure(c[4..]) == if c[4].holds then Pass else Fail(c[4].error) by { assert c[4..][1..] == c[5..]; }
    assert FirstFailure(c[3..]) == if c[3].holds then FirstFailure(c[4..]) else Fail(c[3].error) by { assert c[3..][1..] == c[4..]; }
    assert FirstFailure(c[2..]) == if c[2].holds then FirstFailure(c[3..]) else Fail(c[2].error) by { assert c[2..][1..] == c[3..]; }
    assert FirstFailure(c[1..]) == if c[1].holds then FirstFailure(c[2..]) else Fail(c[1].error) by { assert c[1..][1..] == c[2..]; }
  }

  // ------------------------------------------------ proposal gate

  /** The three proposal-only operations are refused outside a proposal, whatever else holds. */
  lemma ProposalGateRejects(s: State, op: Operation)
    requires op.UpdateGlobalParameters? || op.IssueConstructionCapital? || op.GrantInstantPayback?
    ensures Evaluate(s, false, op) == Fail(NotAuthorizedDirectly)
    ensures Dispatch(s, false, op) == (Rejected(NotAuthorizedDirectly), s)
  {
  }

  // ------------------------------------------------ the ledger invariant

  /** What operation validation (outside the evaluators) guarantees: fees are never negative. */
  predicate WellFormed(op: Operation)
  {
    op.IssueConstructionCapital? ==> op.issue.fee.amount >= 0
  }

  lemma CreatePreservesConsistent(s: State, op: CommitteeMemberCreateOp)
    requires Consistent(s) && EvaluateCreate(s, op).Pass?
    ensures Consistent(ApplyCreate(s, op).0)
  {
    var (s', id) := ApplyCreate(s, op);
    forall m, n | m in s'.committeeMembers && n in s'.committeeMembers && m != n
      ensures s'.committeeMembers[m].voteId != s'.committeeMembers[n].voteId
    {
      if m == id {
        assert s'.committeeMembers[n] == s.committeeMembers[n];
      } else if n == id {
        assert s'.committeeMembers[m] == s.committeeMembers[m];
      }
    }
  }

  lemma UpdatePreservesConsistent(s: State, op: CommitteeMemberUpdateOp)
    requires Consistent(s) && EvaluateUpdate(s, op).Pass?
    ensures Consistent(ApplyUpdate(s, op))
  {
    var s' := ApplyUpdate(s, op);
    forall m | m in s'.committeeMembers
      ensures s'.committeeMembers[m].voteId == s.committeeMembers[m].voteId
      ensures s'.committeeMembers[m].committeeMemberAccount == s.committeeMembers[m].committeeMemberAccount
    {
    }
  }

  lemma IssuePreservesConsistent(s: State, isProposedTrx: bool, op: IssueConstructionCapitalOp)
    requires Consistent(s) && EvaluateIssueConstructionCapital(s, isProposedTrx, op).Pass?
    requires op.fee.amount >= 0
    ensures Consistent(ApplyIssueConstructionCapital(s, op))
  {
    var s' := ApplyIssueConstructionCapital(s, op);
    forall a | a in s'.balances ensures s'.balances[a] >= 0 {
      assert GetBalance(s', a) == s'.balances[a];
      assert GetBalance(s, a) >= 0;
    }
  }

  lemma GrantPreservesConsistent(s: State, isProposedTrx: bool, op: GrantInstantPaybackOp)
    requires Consistent(s) && EvaluateGrantInstantPayback(s, isProposedTrx, op).Pass?
    ensures Consistent(ApplyGrantInstantPayback(s, op))
  {
  }

  /** Every accepted well-formed operation keeps the ledger invariant. */
  lemma DispatchPreservesConsistent(s: State, isProposedTrx: bool, op: Operation)
    requires Consistent(s) && WellFormed(op)
    ensures Consistent(Dispatch(s, isProposedTrx, op).1)
  {
    if Evaluate(s, isProposedTrx, op).Pass? {
      match op
      case Create(o) => CreatePreservesConsistent(s, o);
      case Update(o) => UpdatePreservesConsistent(s, o);
      case UpdateGlobalParameters(o) =>
      case IssueConstructionCapital(o) => IssuePreservesConsistent(s, isProposedTrx, o);
      case GrantInstantPayback(o) => GrantPreservesConsistent(s, isProposedTrx, o);
    }
  }

  /** A transaction of well-formed operations that is applied keeps the ledger invariant. */
  lemma {:induction false} TransactionPreservesConsistent(s: State, isProposedTrx: bool, ops: seq<Operation>)
    requires Consistent(s)
    requires forall i :: 0 <= i < |ops| ==> WellFormed(ops[i])
    ensures ApplyTransaction(s, isProposedTrx, ops).TransactionApplied? ==>
              Consistent(ApplyTransaction(s, isProposedTrx, ops).state)
    decreases |ops|
  {
    if ops != [] {
      DispatchPreservesConsistent(s, isProposedTrx, ops[0]);
      var (receipt, s') := Dispatch(s, isProposedTrx, ops[0]);
      if receipt.Accepted? {
        TransactionPreservesConsistent(s', isProposedTrx, ops[1..]);
      }
    }
  }

  // ------------------------------------------------ vote-id allocation

  /** Two creates in a row yield two members whose vote ids are distinct and increasing. */
  lemma SuccessiveCreatesGetIncreasingVoteIds(s: State, op1: CommitteeMemberCreateOp, op2: CommitteeMemberCreateOp)
    requires Consistent(s)
    ensures var (s1, id1) := ApplyCreate(s, op1);
            var (s2, id2) := ApplyCreate(s1, op2);
            && id1 != id2
            && id1 in s2.committeeMembers && id2 in s2.committeeMembers
            && s2.committeeMembers[id1].voteId.instance < s2.committeeMembers[id2].voteId.instance
  {
  }

  /** How many committee-member creations a transaction holds. */
  function CountCreates(ops: seq<Operation>): nat
  {
    if ops == [] then 0 else (if ops[0].Create? then 1 else 0) + CountCreates(ops[1..])
  }

  /** An applied transaction advances the vote-id counter once per committee member it creates. */
  lemma {:induction false} TransactionAdvancesVoteCounter(s: State, isProposedTrx: bool, ops: seq<Operation>)
    ensures ApplyTransaction(s, isProposedTrx, ops).TransactionApplied? ==>
              ApplyTransaction(s, isProposedTrx, ops).state.globals.nextAvailableVoteId ==
              s.globals.nextAvailableVoteId + CountCreates(ops)
    decreases |ops|
  {
    if ops != [] {
      var (receipt, s') := Dispatch(s, isProposedTrx, ops[0]);
      if receipt.Accepted? {
        TransactionAdvancesVoteCounter(s', isProposedTrx, ops[1..]);
      }
    }
  }

  // ------------------------------------------------ transaction order

  /**
   * Running `xs + ys` is running `xs` and then, from the ledger it leaves,
   * running `ys`; a rejection inside `ys` is reported at its position in the
   * whole list.  With `ys` a single operation this says the applied ledger is
   * the operations applied one after another in list order.
   */
  lemma {:induction false} TransactionRunsInListOrder(s: State, isProposedTrx: bool, xs: seq<Operation>, ys: seq<Operation>)
    ensures ApplyTransaction(s, isProposedTrx, xs + ys) ==
      match ApplyTransaction(s, isProposedTrx, xs)
      case TransactionRejected(i, e) => TransactionRejected(i, e)
      case TransactionApplied(t, rs) =>
        match ApplyTransaction(t, isProposedTrx, ys)
        case TransactionRejected(j, e) => TransactionRejected(|xs| + j, e)
        case TransactionApplied(u, qs) => TransactionApplied(u, rs + qs)
    decreases |xs|
  {
    if xs == [] {
      assert xs + ys == ys;
      match ApplyTransaction(s, isProposedTrx, ys)
      case TransactionRejected(j, e) =>
      case TransactionApplied(u, qs) => assert [] + qs == qs;
    } else {
      assert (xs + ys)[0] == xs[0];
      assert (xs + ys)[1..] == xs[1..] + ys;
      var (receipt, s') := Dispatch(s, isProposedTrx, xs[0]);
      if receipt.Accepted? {
        TransactionRunsInListOrder(s', isProposedTrx, xs[1..], ys);
        match ApplyTransaction(s', isProposedTrx, xs[1..])
        case TransactionRejected(i, e) =>
        case TransactionApplied(t, rs) =>
          match ApplyTransaction(t, isProposedTrx, ys)
          case TransactionRejected(j, e) =>
          case TransactionApplied(u, qs) => assert [receipt.result] + (rs + qs) == ([receipt.result] + rs) + qs;
      }
    }
  }

  /**
   * A transaction is rejected at position `i` with error `e` exactly when the
   * operations before `i` are all accepted and operation `i` is rejected with
   * `e` in the ledger they leave.
   */
  lemma TransactionRejectedAtFirstFailure(s: State, isProposedTrx: bool, ops: seq<Operation>, i: nat, e: Error)
    requires i < |ops|
    ensures ApplyTransaction(s, isProposedTrx, ops) == TransactionRejected(i, e) <==>
              && ApplyTransaction(s, isProposedTrx, ops[..i]).TransactionApplied?
              && Dispatch(ApplyTransaction(s, isProposedTrx, ops[..i]).state, isProposedTrx, ops[i]).0 == Rejected(e)
  {
    assert ops == ops[..i] + ops[i..];
    TransactionRunsInListOrder(s, isProposedTrx, ops[..i], ops[i..]);
    var prefix := ApplyTransaction(s, isProposedTrx, ops[..i]);
    if prefix.TransactionApplied? {
      var t := prefix.state;
      assert ops[i..][0] == ops[i];
      var (receipt, t') := Dispatch(t, isProposedTrx, ops[i]);
      if receipt.Accepted? {
        match ApplyTransaction(t', isProposedTrx, ops[i..][1..])
        case TransactionRejected(j, e') =>
        case TransactionApplied(u, qs) =>
      }
    }
  }

  // ------------------------------------------------ update

  /** Applying the same update twice is the same as applying it once. */
  lemma UpdateIsIdempotent(s: State, op: CommitteeMemberUpdateOp)
    requires op.committeeMember in s.committeeMembers
    ensures ApplyUpdate(ApplyUpdate(s, op), op) == ApplyUpdate(s, op)
  {
  }

  // ------------------------------------------------ parameter staging

  /** Staging twice leaves only the second set of parameters pending. */
  lemma StagingOverwrites(s: State, op1: UpdateGlobalParametersOp, op2: UpdateGlobalParametersOp)
    ensures ApplyUpdateGlobalParameters(ApplyUpdateGlobalParameters(s, op1), op2) ==
            ApplyUpdateGlobalParameters(s, op2)
  {
  }

  // ------------------------------------------------ construction capital

  /** Issuance is a transfer, never a mint: the total base-asset supply is unchanged. */
  lemma IssueConservesSupply(s: State, op: IssueConstructionCapitalOp)
    ensures TotalSupply(ApplyIssueConstructionCapital(s, op).balances) == TotalSupply(s.balances)
  {
    var credited := AdjustBalance(s.balances, op.receiver, op.amount);
    AdjustBalanceSupply(s.balances, op.receiver, op.amount);
    AdjustBalanceSupply(credited, s.constructionCapitalAccount, -op.amount);
  }

  /** After an issuance that passed evaluation the reserve is not overdrawn. */
  lemma IssueKeepsReserveNonNegative(s: State, isProposedTrx: bool, op: IssueConstructionCapitalOp)
    requires EvaluateIssueConstructionCapital(s, isProposedTrx, op).Pass?
    requires GetBalance(s, s.constructionCapitalAccount) >= 0
    ensures GetBalance(ApplyIssueConstructionCapital(s, op), s.constructionCapitalAccount) >= 0
  {
  }

  /** Issuance one second before the cutoff moves the amount from the reserve to the receiver. */
  lemma IssueJustBeforeCutoff(s: State, receiver: AccountId)
    requires s.headBlockTime == ConstructionCapitalCutoff - 1
    requires GetBalance(s, s.constructionCapitalAccount) == 1000
    requires receiver in s.accounts && receiver != s.constructionCapitalAccount
    ensures var op := IssueConstructionCapital(IssueConstructionCapitalOp(receiver, 100, Asset(1, 0)));
            var (receipt, s') := Dispatch(s, true, op);
            && receipt == Accepted(VoidResult)
            && GetBalance(s', receiver) == GetBalance(s, receiver) + 100
            && GetBalance(s', s.constructionCapitalAccount) == 900
  {
  }

  /** The same issuance one second after the cutoff is rejected and moves nothing. */
  lemma IssueJustAfterCutoff(s: State, receiver: AccountId)
    requires s.headBlockTime == ConstructionCapitalCutoff + 1
    ensures var op := IssueConstructionCapital(IssueConstructionCapitalOp(receiver, 100, Asset(1, 0)));
            Dispatch(s, true, op) == (Rejected(IssuanceWindowClosed), s)
  {
  }

  /** An amount equal to the fee is rejected. */
  lemma IssueAmountEqualToFee(s: State, receiver: AccountId)
    requires s.headBlockTime <= ConstructionCapitalCutoff
    requires GetBalance(s, s.constructionCapitalAccount) >= 100
    requires receiver in s.accounts
    ensures var op := IssueConstructionCapital(IssueConstructionCapitalOp(receiver, 100, Asset(100, 0)));
            Dispatch(s, true, op) == (Rejected(FeeExceedsAmount), s)
  {
  }

  // ------------------------------------------------ instant payback

  /** Granting at time T then withdrawing leaves the account as if it had never been granted. */
  lemma GrantThenWithdraw(s: State, account: AccountId)
    requires account in s.accounts
    ensures var granted := ApplyGrantInstantPayback(s, GrantInstantPaybackOp(account, true));
            && granted.accounts[account].instantPaybackExpirationDate == s.headBlockTime + 31536000
            && ApplyGrantInstantPayback(granted, GrantInstantPaybackOp(account, false)) ==
               ApplyGrantInstantPayback(s, GrantInstantPaybackOp(account, false))
  {
  }

  // ------------------------------------------------ atomicity

  /**
   * A transaction holding a valid create followed by an update from an account
   * that does not own the new member is rejected at its second operation, and
   * yields no ledger at all, so nothing of the create survives.
   */
  lemma CreateThenForeignUpdateIsRejected(s: State, owner: AccountId, intruder: AccountId, url: string)
    requires owner in s.accounts && s.accounts[owner].isLifetimeMember
    requires intruder != owner
    ensures var ops := [ Create(CommitteeMemberCreateOp(owner, url)),
                         Update(CommitteeMemberUpdateOp(s.nextCommitteeMemberId, intruder, None)) ];
            ApplyTransaction(s, false, ops) == TransactionRejected(1, AuthorizationFailed)
  {
    var ops := [ Create(CommitteeMemberCreateOp(owner, url)),
                 Update(CommitteeMemberUpdateOp(s.nextCommitteeMemberId, intruder, None)) ];
    var (_, s') := Dispatch(s, false, ops[0]);
    assert ops[1..][1..] == [];
    assert ApplyTransaction(s', false, ops[1..]) == TransactionRejected(0, AuthorizationFailed);
  }
}
