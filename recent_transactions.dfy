/**
 * The recent-transactions panel: which account's tab is open at first, the
 * tab list, and the table of each account's own transactions.
 */
module RecentTransactions {
  import opened Wrappers
  import opened Seqs
  import opened TransactionsTable

  /** An account as the panel reads it. */
  datatype AccountTab = AccountTab(id: string, name: string)

  /** The open account: the requested one if it is truthy, else the first account's, else none. */
  function CurrentAccountId(activeAccountId: Option<string>, accounts: seq<AccountTab>): (r: Option<string>)
    ensures Truthy(activeAccountId) ==> r == activeAccountId
    ensures !Truthy(activeAccountId) ==> (r.Some? <==> accounts != [])
    ensures !Truthy(activeAccountId) && accounts != [] ==> r.value == accounts[0].id
  {
    if Truthy(activeAccountId) then activeAccountId
    else if accounts == [] then None
    else Some(accounts[0].id)
  }

  const ViewAllPrefix := "/transaction-history/?id="

  /** The "View All" link to the open account's history; with no account it carries the text of an undefined id. */
  function ViewAllHref(current: Option<string>): (href: string)
    ensures |ViewAllPrefix| <= |href| && href[..|ViewAllPrefix|] == ViewAllPrefix
    ensures current.Some? ==> href[|ViewAllPrefix|..] == current.value
    ensures current.None? ==> href[|ViewAllPrefix|..] == "undefined"
  {
    ViewAllPrefix + (if current.Some? then current.value else "undefined")
  }

  const PasswordTab := "password"

  /** The tab triggers: one per account in order, then the password tab. */
  function TabValues(accounts: seq<AccountTab>): (values: seq<string>)
    ensures |values| == |accounts| + 1
    ensures forall i :: 0 <= i < |accounts| ==> values[i] == accounts[i].id
    ensures values[|accounts|] == PasswordTab
  {
    seq(|accounts|, i requires 0 <= i < |accounts| => accounts[i].id) + [PasswordTab]
  }

  /** Whether a transaction belongs to an account's table. */
  function BelongsTo(id: string): Transaction -> bool {
    (t: Transaction) => t.accountId == id
  }

  /** One table per account: the account's id and its transactions; missing transactions count as none. */
  function AccountPanels(accounts: seq<AccountTab>, transactions: Option<seq<Transaction>>): (panels: seq<(string, seq<Transaction>)>)
    ensures |panels| == |accounts|
    ensures forall i :: 0 <= i < |panels| ==> panels[i].0 == accounts[i].id
    ensures forall i :: 0 <= i < |panels| ==> panels[i].1 == Filter(BelongsTo(accounts[i].id), transactions.GetOr([]))
  {
    var all := transactions.GetOr([]);
    seq(|accounts|, i requires 0 <= i < |accounts| => (accounts[i].id, Filter(BelongsTo(accounts[i].id), all)))
  }

  /**
   * An account's table holds exactly the transactions of that account: the
   * ones it shows belong to it, every one that belongs to it is shown, and
   * each as often as it occurs in the list.
   */
  lemma PanelHoldsOwnTransactions(accounts: seq<AccountTab>, transactions: seq<Transaction>, i: nat)
    requires i < |accounts|
    ensures var shown := AccountPanels(accounts, Some(transactions))[i].1;
      && (forall k :: 0 <= k < |shown| ==> shown[k].accountId == accounts[i].id && shown[k] in transactions)
      && (forall k :: 0 <= k < |transactions| && transactions[k].accountId == accounts[i].id ==> transactions[k] in shown)
      && |shown| == CountIf(BelongsTo(accounts[i].id), transactions)
      && (forall t :: multiset(shown)[t] == if t.accountId == accounts[i].id then multiset(transactions)[t] else 0)
  {
    FilterLength(BelongsTo(accounts[i].id), transactions);
    forall t {
      FilterCount(BelongsTo(accounts[i].id), transactions, t);
    }
  }

  /**
   * The table keeps the list's order: the transactions of an earlier part of
   * the list come before those of a later part.
   */
  lemma PanelKeepsOrder(accounts: seq<AccountTab>, earlier: seq<Transaction>, later: seq<Transaction>, i: nat)
    requires i < |accounts|
    ensures AccountPanels(accounts, Some(earlier + later))[i].1
         == AccountPanels(accounts, Some(earlier))[i].1 + AccountPanels(accounts, Some(later))[i].1
  {
    FilterAppend(BelongsTo(accounts[i].id), earlier, later);
  }

  /** Two accounts with different ids never show the same transaction. */
  lemma PanelsDisjoint(accounts: seq<AccountTab>, transactions: Option<seq<Transaction>>, i: nat, j: nat, t: Transaction)
    requires i < |accounts| && j < |accounts| && accounts[i].id != accounts[j].id
    ensures var panels := AccountPanels(accounts, transactions);
      !(t in panels[i].1 && t in panels[j].1)
  {
    var panels := AccountPanels(accounts, transactions);
    if t in panels[i].1 {
      var k :| 0 <= k < |panels[i].1| && panels[i].1[k] == t;
      assert t.accountId == accounts[i].id;
    }
  }

  /** Without transactions every account's table is empty. */
  lemma NoTransactionsEmptyTables(accounts: seq<AccountTab>)
    ensures forall i :: 0 <= i < |accounts| ==> AccountPanels(accounts, None)[i].1 == []
  {
  }

  /** With no requested account, the open tab is the first account's trigger. */
  lemma DefaultTabIsFirstTrigger(activeAccountId: Option<string>, accounts: seq<AccountTab>)
    requires !Truthy(activeAccountId) && accounts != []
    ensures CurrentAccountId(activeAccountId, accounts) == Some(TabValues(accounts)[0])
  {
  }

  /** The tab contents: one per account, then the account and password contents. */
  function ContentValues(accounts: seq<AccountTab>): (values: seq<string>)
    ensures |values| == |accounts| + 2
    ensures forall i :: 0 <= i < |accounts| ==> values[i] == accounts[i].id
    ensures values[|accounts|..] == ["account", PasswordTab]
  {
    seq(|accounts|, i requires 0 <= i < |accounts| => accounts[i].id) + ["account", PasswordTab]
  }

  /** The "account" content has no trigger of its own unless some account's id is "account". */
  lemma AccountContentHasNoTrigger(accounts: seq<AccountTab>)
    requires forall i :: 0 <= i < |accounts| ==> accounts[i].id != "account"
    ensures "account" in ContentValues(accounts) && "account" !in TabValues(accounts)
  {
    assert ContentValues(accounts)[|accounts|] == "account";
    assert "account" != PasswordTab;
  }
}
