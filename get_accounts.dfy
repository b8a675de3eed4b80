/**
 * The account-listing route: validates the `userId` query parameter, turns
 * each of the user's bank connections into one account record built from the
 * first account the aggregator reports for it, and totals the current balances.
 */
module GetAccounts {
  import opened Wrappers
  import opened Seqs

  /** A stored bank connection. */
  datatype Bank = Bank(id: string, accessToken: string, sharableId: string)

  /** One account as the aggregator reports it; balances in cents, `None` for a null balance. */
  datatype VendorAccount = VendorAccount(
    accountId: string,
    name: string,
    current: Option<int>,
    available: Option<int>,
    mask: Option<string>,
    accountType: string,
    subtype: Option<string>)

  datatype AccountsGetResponse = AccountsGetResponse(accounts: seq<VendorAccount>, institutionId: Option<string>)

  /** The record returned for each bank. */
  datatype Account = Account(
    id: string,
    name: string,
    currentBalance: Option<int>,
    availableBalance: Option<int>,
    institutionId: Option<string>,
    mask: Option<string>,
    accountType: string,
    subtype: Option<string>,
    appwriteItemId: string,
    sharableId: string)

  datatype Response =
    | Accounts(data: seq<Account>, totalBanks: nat, totalCurrentBalance: int)
    | Error(status: int, error: string)

  const MissingUserId := "Missing userId"
  const ServerError := "Server Error"

  /** The message the runtime gives when a field of the missing first account is read. */
  const NoAccountMessage := "Cannot read properties of undefined (reading 'account_id')"

  /** The account record of one bank: the aggregator's first account, tagged with the bank's ids. */
  function ToAccount(bank: Bank, accountsGet: string -> Result<AccountsGetResponse, string>): (r: Result<Account, string>)
    ensures r.Success? <==> accountsGet(bank.accessToken).Success? && accountsGet(bank.accessToken).value.accounts != []
    ensures r.Success? ==>
      var acc := accountsGet(bank.accessToken).value.accounts[0];
      && r.value.id == acc.accountId && r.value.currentBalance == acc.current
      && r.value.appwriteItemId == bank.id && r.value.sharableId == bank.sharableId
  {
    match accountsGet(bank.accessToken)
    case Failure(e) => Failure(e)
    case Success(resp) =>
      if resp.accounts == [] then Failure(NoAccountMessage)
      else
        var acc := resp.accounts[0];
        Success(Account(acc.accountId, acc.name, acc.current, acc.available, resp.institutionId,
                        acc.mask, acc.accountType, acc.subtype, bank.id, bank.sharableId))
  }

  /** What `sum + acc.currentBalance` adds for one account: a null balance adds nothing. */
  function BalanceOf(acc: Account): int {
    acc.currentBalance.GetOr(0)
  }

  /** The amounts the `reduce` adds, one per account in order. */
  function Balances(data: seq<Account>): (r: seq<int>)
    ensures |r| == |data|
    ensures forall i :: 0 <= i < |data| ==> r[i] == (if data[i].currentBalance.Some? then data[i].currentBalance.value else 0)
  {
    seq(|data|, i requires 0 <= i < |data| => BalanceOf(data[i]))
  }

  /**
   * The route. `userId` is the query parameter, `getBanks` and `accountsGet`
   * stand for the database and the aggregator. A missing or empty `userId` is
   * a 400 before anything is looked up; any failure afterwards is a 500 with
   * the fixed message "Server Error"; otherwise one account per bank, in bank
   * order, with the count and the sum of the current balances.
   */
  function Get(userId: Option<string>,
               getBanks: string -> Result<seq<Bank>, string>,
               accountsGet: string -> Result<AccountsGetResponse, string>): (r: Response)
    ensures !Truthy(userId) ==> r == Error(400, MissingUserId)
    ensures r.Error? && r.status != 400 ==> r == Error(500, ServerError)
    ensures Truthy(userId) && r.Error? ==> r == Error(500, ServerError)
    ensures r.Accounts? <==>
      && Truthy(userId)
      && getBanks(userId.value).Success?
      && forall i :: 0 <= i < |getBanks(userId.value).value| ==> ToAccount(getBanks(userId.value).value[i], accountsGet).Success?
    ensures r.Accounts? ==>
      var banks := getBanks(userId.value).value;
      && |r.data| == |banks| && r.totalBanks == |banks|
      && (forall i :: 0 <= i < |banks| ==>
            && r.data[i] == ToAccount(banks[i], accountsGet).value
            && r.data[i].appwriteItemId == banks[i].id
            && r.data[i].sharableId == banks[i].sharableId
            && r.data[i].id == accountsGet(banks[i].accessToken).value.accounts[0].accountId)
      && r.totalCurrentBalance == Sum(Balances(r.data))
  {
    if !Truthy(userId) then Error(400, MissingUserId)
    else match getBanks(userId.value)
      case Failure(_) => Error(500, ServerError)
      case Success(banks) =>
        match AllSucceed((b: Bank) => ToAccount(b, accountsGet), banks)
        case Failure(_) => Error(500, ServerError)
        case Success(data) =>
          ReduceAddIsSum(Balances(data), 0);
          Accounts(data, |data|, ReduceAdd(Balances(data), 0))
  }

  /** No banks: an empty list, zero banks and a zero total. */
  lemma NoBanksZeroTotal(userId: string, getBanks: string -> Result<seq<Bank>, string>,
                         accountsGet: string -> Result<AccountsGetResponse, string>)
    requires userId != "" && getBanks(userId) == Success([])
    ensures Get(Some(userId), getBanks, accountsGet) == Accounts([], 0, 0)
  {
  }

  /** The total over the banks of two lists is the sum of their totals. */
  lemma TotalSplits(a: seq<Account>, b: seq<Account>)
    ensures Sum(Balances(a + b)) == Sum(Balances(a)) + Sum(Balances(b))
  {
    assert Balances(a + b) == Balances(a) + Balances(b);
    SumAppend(Balances(a), Balances(b));
  }
}
