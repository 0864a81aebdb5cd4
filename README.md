# Committee-member evaluators of a Graphene-style ledger, in Dafny

This project models the five governance operation evaluators of a
Graphene-style blockchain ledger, found in
`libraries/chain/committee_member_evaluator.cpp`:

- `committee_member_create`: the creating account must be a lifetime member.
  Applying it allocates a committee vote id from the global-property counter,
  creates a committee-member object and returns its id.
- `committee_member_update`: the member must be owned by the given account.
  Applying it replaces the url when a new one is given.
- `committee_member_update_global_parameters`: allowed only inside a proposed
  transaction. Applying it stages the new chain parameters as pending.
- `committee_member_issue_construction_capital`: five ordered checks, then a
  balanced transfer of the base asset from the construction-capital reserve
  account to the receiver. The checks are: proposed transaction, head-block
  time no later than 2018-07-01T00:00:00, reserve balance, receiver exists,
  amount above the fee.
- `committee_member_grant_instant_payback`: allowed only inside a proposed
  transaction, for an existing account. Applying it sets the account's
  instant-payback expiration to a year after the head-block time, or clears it
  to the minimum timestamp.

Every evaluator has a check phase (`do_evaluate`) and an act phase
(`do_apply`). The model keeps the split:

- `ledger.dfy` (module `Ledger`) holds the ledger. `State` is a value holding
  the accounts, committee members, global properties, base-asset balances,
  head-block time and the reserve account. It also holds the balance and
  vote-id primitives, the total supply and the invariant `Consistent`.
- `evaluators.dfy` (module `CommitteeMemberEvaluator`) holds the check phases
  as pure `Evaluate...` functions returning a `Verdict`. The act phases are
  `Apply...` functions from ledger to ledger. `Dispatch` applies only after
  the check passes. `ApplyTransaction` runs a transaction's operations in
  order.
- `properties.dfy` (module `CommitteeMemberProperties`) holds the lemmas.
- `database.dfy` (module `ChainDatabase`) holds class `Database`. Its fields
  are the ledger. Its methods perform each act phase in place and are proved
  to reach exactly the state the matching `Apply...` function gives.

Error kinds name the assertion that fails. In the source every check is an
`FC_ASSERT` (one exception type), except for `get` of a missing object, which
raises its own exception. The model uses `ObjectNotFound` both for that and
for the failed `find` checks.

Inputs from outside the core become state or parameters. The head-block time
is a `State` field. The "is proposed transaction" flag is a parameter of the
check phases. The construction-capital reserve account is a `State` field,
because its numeric id is defined outside this file.

Timestamps are whole seconds. The cutoff 2018-07-01T00:00:00 UTC is epoch
second 1530403200, and 365 days are 31536000 seconds. `time_point::min()` is
the epoch, 0.

## Model

| member | source | states |
|---|---|---|
| `Ledger.AdjustBalance` | libraries/chain/committee_member_evaluator.cpp:122-123 | adjusting one account's base-asset balance by delta changes that entry alone, treating a missing entry as zero |
| `Ledger.AllocateVoteId` | libraries/chain/committee_member_evaluator.cpp:45-47 | the vote id has the requested type and the counter's current value; the counter advances by one in the same update, and the other global-property fields stay the same |
| `Ledger.AdjustBalanceSupply` | libraries/chain/committee_member_evaluator.cpp:122-123 | a balance adjustment by delta changes the total base-asset supply by exactly delta |
| `CommitteeMemberEvaluator.ProposalGate` | libraries/chain/committee_member_evaluator.cpp:78 | the guard that the parameter-update, issuance and payback-grant check phases all run first: it passes exactly for a proposed transaction, and otherwise fails NotAuthorizedDirectly |
| `CommitteeMemberEvaluator.EvaluateCreate` | libraries/chain/committee_member_evaluator.cpp:36-40 | create passes iff the account exists and is a lifetime member; it fails ObjectNotFound exactly when the account is missing, and PrerequisiteNotMet when it exists but is not a lifetime member |
| `CommitteeMemberEvaluator.ApplyCreate` | libraries/chain/committee_member_evaluator.cpp:42-55 | create adds a member under the returned id with owner, url and vote id (Committee, old counter); the counter advances by one; parameters, accounts, balances and time are unchanged; under the invariant, the id is fresh, exactly one member is added and existing members are untouched |
| `CommitteeMemberEvaluator.EvaluateUpdate` | libraries/chain/committee_member_evaluator.cpp:57-61 | update passes iff the member exists and its stored owner is the given account; an owner mismatch fails AuthorizationFailed whatever new_url is; a missing member fails ObjectNotFound |
| `CommitteeMemberEvaluator.ApplyUpdate` | libraries/chain/committee_member_evaluator.cpp:63-74 | without new_url the ledger is unchanged; with it, only that member's url changes, to new_url; owner, vote id, other members and the rest of the ledger are untouched |
| `CommitteeMemberEvaluator.EvaluateUpdateGlobalParameters` | libraries/chain/committee_member_evaluator.cpp:76-81 | passes iff the transaction is proposed; otherwise fails NotAuthorizedDirectly |
| `CommitteeMemberEvaluator.ApplyUpdateGlobalParameters` | libraries/chain/committee_member_evaluator.cpp:83-90 | the pending parameters become the new parameters; active parameters, the vote counter and the rest of the ledger are unchanged |
| `CommitteeMemberEvaluator.EvaluateIssueConstructionCapital` | libraries/chain/committee_member_evaluator.cpp:92-118 | passes iff all hold: proposed, head time at or before the cutoff, amount at most the reserve's balance, receiver exists, amount greater than the fee; not proposed fails NotAuthorizedDirectly |
| `CommitteeMemberEvaluator.ApplyIssueConstructionCapital` | libraries/chain/committee_member_evaluator.cpp:120-125 | receiver plus reserve balance is conserved; for distinct accounts the receiver gains and the reserve loses amount; every other balance and the rest of the ledger are unchanged |
| `CommitteeMemberEvaluator.EvaluateGrantInstantPayback` | libraries/chain/committee_member_evaluator.cpp:127-136 | passes iff proposed and the account exists; fails NotAuthorizedDirectly when not proposed, and otherwise ObjectNotFound when the account is missing |
| `CommitteeMemberEvaluator.ApplyGrantInstantPayback` | libraries/chain/committee_member_evaluator.cpp:138-149 | the account's expiration becomes head time + 365 days if grant, else the minimum timestamp; its lifetime flag, other accounts and the rest of the ledger are unchanged |
| `CommitteeMemberEvaluator.Dispatch` | libraries/chain/committee_member_evaluator.cpp:36-149 | an operation is rejected iff its check phase fails, with that error, leaving the ledger as it was; once the check passes, the ledger is the matching Apply function's result, create reports the new member's id and every other operation reports nothing |
| `CommitteeMemberEvaluator.ApplyTransaction` | libraries/chain/committee_member_evaluator.cpp:36-149 | a rejected transaction's position lies within the list, and an applied one reports one result per operation; which position and which ledger are stated by the two lemmas below |
| `CommitteeMemberProperties.TransactionRunsInListOrder` | libraries/chain/committee_member_evaluator.cpp:36-149 | running xs + ys is running xs, then ys from the ledger xs leaves; a rejection in ys is reported at its position in the whole list, and the results are concatenated |
| `CommitteeMemberProperties.TransactionRejectedAtFirstFailure` | libraries/chain/committee_member_evaluator.cpp:36-149 | a transaction is rejected at position i with error e iff every operation before i is accepted and operation i is rejected with e in the ledger they leave |
| `CommitteeMemberProperties.FirstFailure` | libraries/chain/committee_member_evaluator.cpp:92-118 | the reference semantics of ordered assertions: pass iff all hold; otherwise the error is that of a failing check before which all checks hold |
| `CommitteeMemberProperties.IssueEvaluationIsFirstFailure` | libraries/chain/committee_member_evaluator.cpp:92-118 | issuance evaluation equals the first failing of its five checks, taken in source order |
| `CommitteeMemberProperties.ProposalGateRejects` | libraries/chain/committee_member_evaluator.cpp:76-136 | outside a proposal, parameter update, issuance and payback grant are rejected NotAuthorizedDirectly with no change, whatever the ledger and the other inputs |
| `CommitteeMemberProperties.CreatePreservesConsistent` | libraries/chain/committee_member_evaluator.cpp:36-55 | an evaluated create keeps the invariant; in particular the new vote id is unique among all members |
| `CommitteeMemberProperties.UpdatePreservesConsistent` | libraries/chain/committee_member_evaluator.cpp:57-74 | an evaluated update keeps the invariant |
| `CommitteeMemberProperties.IssuePreservesConsistent` | libraries/chain/committee_member_evaluator.cpp:92-125 | an evaluated issuance with a non-negative fee leaves no balance negative and keeps the invariant |
| `CommitteeMemberProperties.GrantPreservesConsistent` | libraries/chain/committee_member_evaluator.cpp:127-149 | an evaluated payback grant keeps the invariant |
| `CommitteeMemberProperties.DispatchPreservesConsistent` | libraries/chain/committee_member_evaluator.cpp:36-149 | dispatching any well-formed operation keeps the invariant |
| `CommitteeMemberProperties.TransactionPreservesConsistent` | libraries/chain/committee_member_evaluator.cpp:36-149 | an applied transaction of well-formed operations keeps the invariant, so vote ids stay unique across any sequence of operations |
| `CommitteeMemberProperties.SuccessiveCreatesGetIncreasingVoteIds` | libraries/chain/committee_member_evaluator.cpp:44-54 | two creates in a row produce two distinct members whose vote-id numbers are strictly increasing |
| `CommitteeMemberProperties.TransactionAdvancesVoteCounter` | libraries/chain/committee_member_evaluator.cpp:44-47 | an applied transaction advances the vote-id counter by exactly the number of creates it holds |
| `CommitteeMemberProperties.UpdateIsIdempotent` | libraries/chain/committee_member_evaluator.cpp:63-74 | applying the same update twice equals applying it once |
| `CommitteeMemberProperties.StagingOverwrites` | libraries/chain/committee_member_evaluator.cpp:83-90 | staging p1 then p2 equals staging p2 alone |
| `CommitteeMemberProperties.IssueConservesSupply` | libraries/chain/committee_member_evaluator.cpp:120-125 | issuance never mints: the total base-asset supply is unchanged |
| `CommitteeMemberProperties.IssueKeepsReserveNonNegative` | libraries/chain/committee_member_evaluator.cpp:100-123 | after an issuance that passed evaluation, the reserve's balance is not negative |
| `CommitteeMemberProperties.IssueJustBeforeCutoff` | libraries/chain/committee_member_evaluator.cpp:92-125 | at 2018-06-30T23:59:59 with reserve 1000, amount 100 and fee 1, issuance is accepted; the receiver gains 100 and the reserve drops to 900 |
| `CommitteeMemberProperties.IssueJustAfterCutoff` | libraries/chain/committee_member_evaluator.cpp:95-99 | at 2018-07-01T00:00:01 the same issuance is rejected IssuanceWindowClosed and the ledger is unchanged |
| `CommitteeMemberProperties.IssueAmountEqualToFee` | libraries/chain/committee_member_evaluator.cpp:111-116 | amount 100 with fee 100, all earlier checks passing, is rejected FeeExceedsAmount |
| `CommitteeMemberProperties.GrantThenWithdraw` | libraries/chain/committee_member_evaluator.cpp:138-149 | a grant at time T sets the expiration to T + 31536000, and a later withdrawal gives the same ledger as a withdrawal alone |
| `CommitteeMemberProperties.CreateThenForeignUpdateIsRejected` | libraries/chain/committee_member_evaluator.cpp:36-61 | a transaction [valid create, update of that member by another account] is rejected at position 1 with AuthorizationFailed, and yields no ledger, so nothing of the create remains |
| `ChainDatabase.Database.CommitteeMemberCreate` | libraries/chain/committee_member_evaluator.cpp:42-55 | the in-place create reaches the state ApplyCreate gives and returns its id; it keeps the invariant when evaluation passed |
| `ChainDatabase.Database.CommitteeMemberUpdate` | libraries/chain/committee_member_evaluator.cpp:63-74 | the in-place update reaches ApplyUpdate's state; without new_url no field changes |
| `ChainDatabase.Database.CommitteeMemberUpdateGlobalParameters` | libraries/chain/committee_member_evaluator.cpp:83-90 | the in-place staging reaches ApplyUpdateGlobalParameters' state; accounts, members and balances are untouched |
| `ChainDatabase.Database.CommitteeMemberIssueConstructionCapital` | libraries/chain/committee_member_evaluator.cpp:120-125 | the two in-place balance adjustments reach ApplyIssueConstructionCapital's state and conserve the total supply |
| `ChainDatabase.Database.CommitteeMemberGrantInstantPayback` | libraries/chain/committee_member_evaluator.cpp:138-149 | the in-place account update reaches ApplyGrantInstantPayback's state; members, globals and balances are untouched |
| `ChainDatabase.Database.Dispatch` | libraries/chain/committee_member_evaluator.cpp:36-149 | evaluates against the unmodified fields and acts only on success, matching the pure Dispatch; a rejection changes no field |

## Left out

- Object-store internals are not part of this model: `db().create`, `modify`, `get` and `find`, secondary indices and undo sessions. Objects live in maps, and ids come from a counter in the ledger.
- Transactional undo is not modelled as a log. `ApplyTransaction` returns no ledger on rejection, so the caller keeps the state it started from. Change-notification hooks are left out as well.
- `FC_CAPTURE_AND_RETHROW` and the formatted diagnostic messages are not modelled. A failure is an `Error` kind.
- The ISO time string is not parsed. The cutoff is the constant epoch second 1530403200, and time is kept in whole seconds, without microseconds.
- The contents of `new_parameters` and the fee schedule are opaque. Only `fee.amount` of an issuance is compared.
- `get_next_vote_id` is not part of this model. It is taken as (type, global counter) with the counter advanced by one. Create is the only allocator in this core, so one counter covers the committee category.
- `adjust_balance` is plain addition on the base-asset balance map. Its own insufficient-balance assertion and balance-object bookkeeping live in database code that is not part of this model.
- Integer widths are not modelled: there is no 64-bit overflow of share amounts and no 32-bit overflow of second timestamps.
- Authority and signature checks, proposal approval and the maintenance enactment of pending parameters are outside this model. "Proposed transaction" is a boolean input.
- Accounts carry only the two fields this core touches: the lifetime-member flag (`is_lifetime_member()`) and the instant-payback expiration date.
- `CommitteeMemberEvaluator.ApplyUpdate` and `CommitteeMemberEvaluator.ApplyGrantInstantPayback` require the object to exist. In the source, the act phase runs only after the check phase proved this. The source's `get` would throw and its unchecked `find` dereference would be undefined.
- `CommitteeMemberProperties.IssuePreservesConsistent`, `CommitteeMemberProperties.DispatchPreservesConsistent` and `CommitteeMemberProperties.TransactionPreservesConsistent` assume a non-negative issuance fee. Operation validation outside this file guarantees that. The evaluator itself only checks amount > fee.amount.
- The update act phase in the source calls `modify` even when `new_url` is absent. It changes no field, so the model returns the same ledger.
- Uniqueness of one committee member per account is not enforced by this code, so the model does not assume it.
