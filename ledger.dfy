/*
 * The abstract ledger that the committee-member evaluators read and write:
 * accounts, committee-member objects, the global-property singleton with its
 * vote-id counter, the base-asset balances, the head-block time and the
 * well-known construction-capital reserve account.
 */
module Ledger {

  /** Instance numbers of account and committee-member object ids. */
  type AccountId = nat
  type CommitteeMemberId = nat

  /** Ledger time in whole seconds since the Unix epoch. */
  type Timestamp = nat

  /** A signed share amount (the source's share_type). */
  type ShareAmount = int

  datatype Option<+T> = None | Some(value: T)

  /** Which assertion of an evaluator rejected the operation. */
  datatype Error =
    | ObjectNotFound          // get() of an id that is not in the store, or a failed find()
    | PrerequisiteNotMet      // creating account is not a lifetime member
    | AuthorizationFailed     // committee member is not owned by the given account
    | NotAuthorizedDirectly   // operation must run inside an approved proposal
    | IssuanceWindowClosed    // head block time is past the construction-capital cutoff
    | InsufficientReserve     // amount exceeds the reserve account's base-asset balance
    | FeeExceedsAmount        // amount does not exceed the fee

  datatype VoteType = Committee | Witness | Worker

  /** A vote id: its category and its sequence number. */
  datatype VoteId = VoteId(voteType: VoteType, instance: nat)

  /** Chain parameters; their contents play no part here. */
  datatype ChainParameters = ChainParameters(encoding: seq<int>)

  datatype Asset = Asset(amount: ShareAmount, assetId: nat)

  datatype Account = Account(isLifetimeMember: bool, instantPaybackExpirationDate: Timestamp)

  datatype CommitteeMember = CommitteeMember(committeeMemberAccount: AccountId, voteId: VoteId, url: string)

  datatype GlobalProperties = GlobalProperties(
    parameters: ChainParameters,
    pendingParameters: Option<ChainParameters>,
    nextAvailableVoteId: nat)

  /** What an applied operation reports: nothing, or the id of the object it created. */
  datatype ApplyResult = VoidResult | NewObject(id: CommitteeMemberId)

  /** What the evaluator framework reports for one operation. */
  datatype Receipt = Rejected(error: Error) | Accepted(result: ApplyResult)

  /**
   * A snapshot of everything the evaluators read or write.  `balances` holds
   * each account's balance in the base asset (asset 0); an account without an
   * entry has balance 0.
   */
  datatype State = State(
    accounts: map<AccountId, Account>,
    committeeMembers: map<CommitteeMemberId, CommitteeMember>,
    nextCommitteeMemberId: nat,
    globals: GlobalProperties,
    balances: map<AccountId, ShareAmount>,
    headBlockTime: Timestamp,
    constructionCapitalAccount: AccountId)

  /** get_balance(account, asset 0): a missing balance entry reads as zero. */
  function GetBalance(s: State, a: AccountId): ShareAmount
  {
    if a in s.balances then s.balances[a] else 0
  }

  /** adjust_balance(account, asset(delta, 0)) on the balance map. */
  function AdjustBalance(balances: map<AccountId, ShareAmount>, a: AccountId, delta: ShareAmount): (r: map<AccountId, ShareAmount>)
    ensures r.Keys == balances.Keys + {a}
    ensures r[a] == (if a in balances then balances[a] else 0) + delta
    ensures forall b :: b in balances && b != a ==> r[b] == balances[b]
  {
    balances[a := (if a in balances then balances[a] else 0) + delta]
  }

  /**
   * get_next_vote_id: the vote id of the given type numbered by the
   * global counter, and the global properties with that counter advanced.
   */
  function AllocateVoteId(g: GlobalProperties, voteType: VoteType): (r: (VoteId, GlobalProperties))
    ensures r.0.voteType == voteType && r.0.instance == g.nextAvailableVoteId
    ensures r.1.nextAvailableVoteId == g.nextAvailableVoteId + 1
    ensures r.1.parameters == g.parameters && r.1.pendingParameters == g.pendingParameters
  {
    (VoteId(voteType, g.nextAvailableVoteId), g.(nextAvailableVoteId := g.nextAvailableVoteId + 1))
  }

  /** The total base-asset supply held in a balance map. */
  ghost function TotalSupply(balances: map<AccountId, ShareAmount>): int
    decreases |balances|
  {
    if balances == map[] then 0
    else
      var a :| a in balances;
      assert |balances - {a}| < |balances| by { assert (balances - {a}).Keys == balances.Keys - {a}; }
      balances[a] + TotalSupply(balances - {a})
  }

  /** The total supply may be summed starting from any account. */
  lemma {:induction false} TotalSupplyRemove(balances: map<AccountId, ShareAmount>, b: AccountId)
    requires b in balances
    ensures TotalSupply(balances) == balances[b] + TotalSupply(balances - {b})
    decreases |balances|
  {
    var a :| a in balances && TotalSupply(balances) == balances[a] + TotalSupply(balances - {a});
    if a != b {
      var rest := balances - {a} - {b};
      assert (balances - {a}).Keys == balances.Keys - {a};
      assert (balances - {b}).Keys == balances.Keys - {b};
      TotalSupplyRemove(balances - {a}, b);
      TotalSupplyRemove(balances - {b}, a);
      assert balances - {a} - {b} == balances - {b} - {a};
    }
  }

  /** Adjusting one balance by `delta` changes the total supply by exactly `delta`. */
  lemma {:induction false} AdjustBalanceSupply(balances: map<AccountId, ShareAmount>, a: AccountId, delta: ShareAmount)
    ensures TotalSupply(AdjustBalance(balances, a, delta)) == TotalSupply(balances) + delta
  {
    var r := AdjustBalance(balances, a, delta);
    TotalSupplyRemove(r, a);
    if a in balances {
      TotalSupplyRemove(balances, a);
      assert r - {a} == balances - {a};
    } else {
      assert r - {a} == balances;
    }
  }

  /** Every committee member carries a committee vote id below the counter. */
  ghost predicate VoteIdsAllocated(s: State)
  {
    forall m :: m in s.committeeMembers ==>
      s.committeeMembers[m].voteId.voteType == Committee &&
      s.committeeMembers[m].voteId.instance < s.globals.nextAvailableVoteId
  }

  /** No two committee members share a vote id. */
  ghost predicate VoteIdsUnique(members: map<CommitteeMemberId, CommitteeMember>)
  {
    forall m, n :: m in members && n in members && m != n ==> members[m].voteId != members[n].voteId
  }

  /**
   * The ledger invariant the governance operations keep: member ids below the
   * object-id counter, vote ids allocated and unique, every member owned by an
   * existing account, and no negative base-asset balance.
   */
  ghost predicate Consistent(s: State)
  {
    && (forall m :: m in s.committeeMembers ==> m < s.nextCommitteeMemberId)
    && VoteIdsAllocated(s)
    && VoteIdsUnique(s.committeeMembers)
    && (forall m :: m in s.committeeMembers ==> s.committeeMembers[m].committeeMemberAccount in s.accounts)
    && (forall a :: a in s.balances ==> s.balances[a] >= 0)
  }
}
