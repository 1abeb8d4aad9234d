/** Bank accounts and their transactions (server/master/models.py).
    Amounts are Decimal with two places, held here as integers in the
    smallest currency unit. */
module BankLedger {
  import opened Wrappers

  /** The six transaction type choices. */
  datatype TxType = Deposit | Withdraw | TransferIn | TransferOut | Interest | Charge

  /** The code stored in the `transaction_type` column for each choice. */
  function Code(t: TxType): string
  {
    match t
    case Deposit => "DEPOSIT"
    case Withdraw => "WITHDRAW"
    case TransferIn => "TRANSFER_IN"
    case TransferOut => "TRANSFER_OUT"
    case Interest => "INTEREST"
    case Charge => "CHARGE"
  }

  /** Reading a stored code back; anything outside the choices is refused. */
  function ParseCode(s: string): (r: Option<TxType>)
    ensures r.Some? ==> Code(r.value) == s
  {
    if s == "DEPOSIT" then Some(Deposit)
    else if s == "WITHDRAW" then Some(Withdraw)
    else if s == "TRANSFER_IN" then Some(TransferIn)
    else if s == "TRANSFER_OUT" then Some(TransferOut)
    else if s == "INTEREST" then Some(Interest)
    else if s == "CHARGE" then Some(Charge)
    else None
  }

  /** Every choice is stored under a code that reads back as itself, so the
      six codes are distinct. */
  lemma CodeRoundTrip(t: TxType)
    ensures ParseCode(Code(t)) == Some(t)
  {
  }

  /** `is_inflow`: the stored code is one of the three inflow codes. */
  function IsInflow(t: TxType): (r: bool)
    ensures r <==> t == Deposit || t == TransferIn || t == Interest
  {
    Code(t) in ["DEPOSIT", "TRANSFER_IN", "INTEREST"]
  }

  /** The types that are not inflows are exactly the other three choices. */
  lemma OutflowTypes(t: TxType)
    ensures !IsInflow(t) <==> t == Withdraw || t == TransferOut || t == Charge
  {
  }

  /** A bank account's balance fields. */
  datatype Account = Account(openingBalance: int, currentBalance: int)

  /** A transaction row. */
  datatype Tx = Tx(account: nat, date: int, kind: TxType, amount: int, runningBalance: int)

  /** A transaction as first constructed, before any rebuild sets its
      running balance. */
  function NewTx(account: nat, date: int, kind: TxType, amount: int): (t: Tx)
    ensures t.runningBalance == 0
    ensures t.account == account && t.date == date && t.kind == kind && t.amount == amount
  {
    Tx(account, date, kind, amount, 0)
  }

  /** Two transaction rows that agree on everything a caller supplies. */
  predicate SameExceptBalance(a: Tx, b: Tx)
  {
    a.account == b.account && a.date == b.date && a.kind == b.kind && a.amount == b.amount
  }

  /** What the database and the accounts saw, in order. */
  datatype Event = Persisted(tx: nat) | Removed(tx: nat) | Rebuilt(account: nat)

  /** The account and transaction tables. */
  class Ledger {
    var accounts: map<nat, Account>
    var transactions: map<nat, Tx>
    var events: seq<Event>

    /** Every transaction belongs to an existing account (the foreign key). */
    ghost predicate KeysValid()
      reads this
    {
      forall id :: id in transactions ==> transactions[id].account in accounts
    }

    /** The foreign key holds, and every write so far was followed at once by
        a rebuild. */
    ghost predicate Valid()
      reads this
    {
      KeysValid() && RebuildFollowsEveryWrite(events)
    }

    constructor ()
      ensures Valid() && accounts == map[] && transactions == map[] && events == []
    {
      accounts := map[];
      transactions := map[];
      events := [];
    }

    /** A new account starts with opening and current balance 0. */
    method OpenAccount(id: nat)
      requires Valid() && id !in accounts
      modifies this
      ensures Valid()
      ensures accounts == old(accounts)[id := Account(0, 0)]
      ensures transactions == old(transactions) && events == old(events)
    {
      accounts := accounts[id := Account(0, 0)];
    }

    /** `recalculate_balances`: its body is not part of the model. It may set
        the account's current balance and the running balance of any of the
        account's transactions; it changes nothing else. */
    method RecalculateBalances(account: nat)
      requires KeysValid() && account in accounts
      modifies this
      ensures KeysValid()
      ensures events == old(events) + [Rebuilt(account)]
      ensures accounts.Keys == old(accounts).Keys
      ensures accounts[account].openingBalance == old(accounts)[account].openingBalance
      ensures forall a :: a in accounts && a != account ==> accounts[a] == old(accounts)[a]
      ensures transactions.Keys == old(transactions).Keys
      ensures forall id :: id in transactions ==> SameExceptBalance(transactions[id], old(transactions)[id])
      ensures forall id :: id in transactions && transactions[id].account != account ==>
                transactions[id] == old(transactions)[id]
    {
      var current: int := *;
      var running: map<nat, int> := *;
      accounts := accounts[account := accounts[account].(currentBalance := current)];
      transactions := map id | id in transactions ::
        if transactions[id].account == account && id in running
        then transactions[id].(runningBalance := running[id])
        else transactions[id];
      events := events + [Rebuilt(account)];
    }

    /** `save`: the row is written first, then its account is rebuilt. */
    method Save(id: nat, t: Tx)
      requires Valid() && t.account in accounts
      modifies this
      ensures Valid()
      ensures events == old(events) + [Persisted(id), Rebuilt(t.account)]
      ensures transactions.Keys == old(transactions).Keys + {id}
      ensures SameExceptBalance(transactions[id], t)
      ensures forall other :: other in transactions && other != id ==>
                SameExceptBalance(transactions[other], old(transactions)[other])
      ensures forall other :: other in transactions && other != id && old(transactions)[other].account != t.account ==>
                transactions[other] == old(transactions)[other]
      ensures accounts.Keys == old(accounts).Keys
      ensures forall a :: a in accounts && a != t.account ==> accounts[a] == old(accounts)[a]
      ensures forall a :: a in accounts ==> accounts[a].openingBalance == old(accounts)[a].openingBalance
    {
      transactions := transactions[id := t];
      events := events + [Persisted(id)];
      RecalculateBalances(t.account);
    }

    /** `delete`: the account is taken from the row before the row goes, and
        that same account is rebuilt afterwards. */
    method Delete(id: nat)
      requires Valid() && id in transactions
      modifies this
      ensures Valid()
      ensures events == old(events) + [Removed(id), Rebuilt(old(transactions)[id].account)]
      ensures transactions.Keys == old(transactions).Keys - {id}
      ensures forall other :: other in transactions ==>
                SameExceptBalance(transactions[other], old(transactions)[other])
      ensures forall other :: other in transactions && old(transactions)[other].account != old(transactions)[id].account ==>
                transactions[other] == old(transactions)[other]
      ensures accounts.Keys == old(accounts).Keys
      ensures forall a :: a in accounts && a != old(transactions)[id].account ==> accounts[a] == old(accounts)[a]
      ensures forall a :: a in accounts ==> accounts[a].openingBalance == old(accounts)[a].openingBalance
    {
      var account := transactions[id].account;
      transactions := map k | k in transactions && k != id :: transactions[k];
      events := events + [Removed(id)];
      RecalculateBalances(account);
    }
  }

  /** Every write made through Save or Delete is followed at once by a
      rebuild of the account concerned: in the event log, each Persisted or
      Removed event is immediately followed by a Rebuilt event. */
  ghost predicate RebuildFollowsEveryWrite(events: seq<Event>)
  {
    forall i :: 0 <= i < |events| && !events[i].Rebuilt? ==> i + 1 < |events| && events[i + 1].Rebuilt?
  }
}
