/** The account service: a registry from account numbers to account objects,
    seeded with two accounts, through which callers withdraw, deposit and look
    accounts up. A lookup miss on withdraw or deposit is reported as
    AccountNotFound; a withdrawal the account's policy refuses is swallowed
    and the call completes as if it had gone through. */
module AccountServices {
  import opened Accounts

  /** The registry's value: account number to account value. */
  type Ledger = map<string, AccountState>

  /** How a service call returns: normally, or with "Account not found". */
  datatype Status = Completed | AccountNotFound

  datatype Option<T> = None | Some(value: T)

  /** A request an outside caller can make that may change the registry. */
  datatype Request =
    | WithdrawRequest(key: string, amount: real)
    | DepositRequest(key: string, amount: real)

  /** The two accounts the service starts with. */
  function InitialLedger(): Ledger
  {
    map["SAV123" := AccountState(Savings, 5000.0), "CUR456" := AccountState(Current, 10000.0)]
  }

  /** The entry for `key`, or nothing. */
  function Lookup(l: Ledger, key: string): Option<AccountState>
  {
    if key in l then Some(l[key]) else None
  }

  /** Service withdraw on a ledger: the account's own outcome is dropped. */
  function LedgerWithdraw(l: Ledger, key: string, amount: real): (Status, Ledger)
  {
    if key !in l then (AccountNotFound, l)
    else (Completed, l[key := WithdrawFrom(l[key], amount).1])
  }

  /** Service deposit on a ledger. */
  function LedgerDeposit(l: Ledger, key: string, amount: real): (Status, Ledger)
  {
    if key !in l then (AccountNotFound, l)
    else (Completed, l[key := DepositInto(l[key], amount)])
  }

  function Apply(l: Ledger, r: Request): (Status, Ledger)
  {
    match r
    case WithdrawRequest(key, amount) => LedgerWithdraw(l, key, amount)
    case DepositRequest(key, amount) => LedgerDeposit(l, key, amount)
  }

  /** The ledger after serving the requests one after the other. */
  function Run(l: Ledger, rs: seq<Request>): Ledger
    decreases |rs|
  {
    if rs == [] then l else Run(Apply(l, rs[0]).1, rs[1..])
  }

  /** Every Savings account in the ledger is at or above the minimum balance. */
  ghost predicate SavingsAboveMinimum(l: Ledger)
  {
    forall k :: k in l && l[k].variant == Savings ==> l[k].balance >= MinimumBalance
  }

  /** No request in `rs` deposits a negative amount. */
  ghost predicate NoNegativeDeposits(rs: seq<Request>)
  {
    forall i :: 0 <= i < |rs| && rs[i].DepositRequest? ==> rs[i].amount >= 0.0
  }

  /** The registry object. Each key maps to the account whose number it is,
      so distinct keys hold distinct account objects. */
  class AccountService {
    const accounts: map<string, Account>

    ghost predicate Valid()
      reads this
    {
      forall k :: k in accounts ==> accounts[k].number == k
    }

    /** The registry's current value. */
    ghost function State(): Ledger
      reads this, accounts.Values
    {
      map k | k in accounts :: accounts[k].State()
    }

    /** Seeds SAV123 (Savings, 5000) and CUR456 (Current, 10000). */
    constructor ()
      ensures Valid() && fresh(accounts.Values)
      ensures State() == InitialLedger()
    {
      var savings := new Account("SAV123", Savings, 5000.0);
      var current := new Account("CUR456", Current, 10000.0);
      accounts := map["SAV123" := savings, "CUR456" := current];
    }

    /** Looks the account up and withdraws from it. A miss is reported; a
        withdrawal the account refuses is discarded and the call completes. */
    method Withdraw(key: string, amount: real) returns (status: Status)
      requires Valid()
      modifies accounts.Values
      ensures Valid()
      ensures (status, State()) == LedgerWithdraw(old(State()), key, amount)
    {
      if key !in accounts {
        return AccountNotFound;
      }
      var account := accounts[key];
      ghost var before := State();
      var outcome := account.Withdraw(amount);
      forall k | k in accounts
        ensures State()[k] == before[key := WithdrawFrom(before[key], amount).1][k]
      {
        if k != key {
          assert accounts[k].number != account.number;
        }
      }
      assert State() == before[key := WithdrawFrom(before[key], amount).1];
      status := Completed;
    }

    /** Looks the account up and deposits into it; a miss is reported. */
    method Deposit(key: string, amount: real) returns (status: Status)
      requires Valid()
      modifies accounts.Values
      ensures Valid()
      ensures (status, State()) == LedgerDeposit(old(State()), key, amount)
    {
      if key !in accounts {
        return AccountNotFound;
      }
      var account := accounts[key];
      ghost var before := State();
      account.Deposit(amount);
      forall k | k in accounts
        ensures State()[k] == before[key := DepositInto(before[key], amount)][k]
      {
        if k != key {
          assert accounts[k].number != account.number;
        }
      }
      assert State() == before[key := DepositInto(before[key], amount)];
      status := Completed;
    }

    /** The account object registered under `key`, or null. */
    method GetAccount(key: string) returns (account: Account?)
      ensures account == null <==> key !in accounts
      ensures account != null ==> account == accounts[key] && Lookup(State(), key) == Some(account.State())
    {
      account := if key in accounts then accounts[key] else null;
    }
  }

  /** On a key the registry does not hold, withdraw and deposit both report
      AccountNotFound and leave every account as it was. */
  lemma UnknownAccountChangesNothing(l: Ledger, key: string, amount: real)
    requires key !in l
    ensures LedgerWithdraw(l, key, amount) == (AccountNotFound, l)
    ensures LedgerDeposit(l, key, amount) == (AccountNotFound, l)
  {
  }

  /** On a registered key, withdraw completes normally whether or not the
      policy lets the withdrawal through. Only the target's balance may
      change, by exactly the amount and only when permitted; the keys,
      the variants and every other account stay as they were. */
  lemma WithdrawOnKnownAccount(l: Ledger, key: string, amount: real)
    requires key in l
    ensures var (status, l') := LedgerWithdraw(l, key, amount);
      && status == Completed
      && l'.Keys == l.Keys
      && (forall k :: k in l && k != key ==> l'[k] == l[k])
      && l'[key].variant == l[key].variant
      && (Permits(l[key].variant, l[key].balance, amount) ==> l'[key].balance == l[key].balance - amount)
      && (!Permits(l[key].variant, l[key].balance, amount) ==> l' == l)
  {
  }

  /** The status withdraw returns does not depend on the amount: a caller
      cannot tell a refused withdrawal from one that went through. */
  lemma WithdrawStatusIgnoresPolicy(l: Ledger, key: string, amount1: real, amount2: real)
    ensures LedgerWithdraw(l, key, amount1).0 == LedgerWithdraw(l, key, amount2).0
    ensures LedgerWithdraw(l, key, amount1).0 == (if key in l then Completed else AccountNotFound)
  {
  }

  /** On a registered key, deposit completes and adds exactly the amount to
      the target alone. */
  lemma DepositOnKnownAccount(l: Ledger, key: string, amount: real)
    requires key in l
    ensures var (status, l') := LedgerDeposit(l, key, amount);
      && status == Completed
      && l'.Keys == l.Keys
      && (forall k :: k in l && k != key ==> l'[k] == l[k])
      && l'[key] == AccountState(l[key].variant, l[key].balance + amount)
  {
  }

  /** The service starts with exactly SAV123 and CUR456, Savings at 5000 and
      Current at 10000, and with every Savings account above the minimum. */
  lemma InitialLedgerHoldsSeed()
    ensures InitialLedger().Keys == {"SAV123", "CUR456"}
    ensures Lookup(InitialLedger(), "SAV123") == Some(AccountState(Savings, 5000.0))
    ensures Lookup(InitialLedger(), "CUR456") == Some(AccountState(Current, 10000.0))
    ensures SavingsAboveMinimum(InitialLedger())
  {
  }

  /** Serving requests never adds or removes an account and never changes a
      variant. */
  lemma {:induction false} RunKeepsAccounts(l: Ledger, rs: seq<Request>)
    ensures Run(l, rs).Keys == l.Keys
    ensures forall k :: k in l ==> Run(l, rs)[k].variant == l[k].variant
    decreases |rs|
  {
    if rs != [] {
      var next := Apply(l, rs[0]).1;
      RunKeepsAccounts(next, rs[1..]);
    }
  }

  /** A key that was never registered looks up absent after any requests. */
  lemma NeverRegisteredStaysAbsent(rs: seq<Request>, key: string)
    requires key != "SAV123" && key != "CUR456"
    ensures Lookup(Run(InitialLedger(), rs), key) == None
  {
    RunKeepsAccounts(InitialLedger(), rs);
  }

  /** One request keeps every Savings account at or above the minimum,
      provided it is not a negative deposit. */
  lemma ApplyKeepsSavingsAboveMinimum(l: Ledger, r: Request)
    requires SavingsAboveMinimum(l)
    requires r.DepositRequest? ==> r.amount >= 0.0
    ensures SavingsAboveMinimum(Apply(l, r).1)
  {
  }

  /** Over any sequence of requests without negative deposits, every Savings
      account stays at or above the minimum balance. */
  lemma {:induction false} RunKeepsSavingsAboveMinimum(l: Ledger, rs: seq<Request>)
    requires SavingsAboveMinimum(l)
    requires NoNegativeDeposits(rs)
    ensures SavingsAboveMinimum(Run(l, rs))
    decreases |rs|
  {
    if rs != [] {
      ApplyKeepsSavingsAboveMinimum(l, rs[0]);
      assert NoNegativeDeposits(rs[1..]) by {
        forall i | 0 <= i < |rs[1..]| && rs[1..][i].DepositRequest?
          ensures rs[1..][i].amount >= 0.0
        {
          assert rs[1..][i] == rs[i + 1];
        }
      }
      RunKeepsSavingsAboveMinimum(Apply(l, rs[0]).1, rs[1..]);
    }
  }

  /** Since deposit does not reject negative amounts, the minimum balance of a
      Savings account is not an invariant of the service: one deposit of
      -4500 takes SAV123 from 5000 to 500. */
  lemma NegativeDepositBreaksSavingsMinimum()
    ensures Run(InitialLedger(), [DepositRequest("SAV123", -4500.0)])["SAV123"] == AccountState(Savings, 500.0)
    ensures !SavingsAboveMinimum(Run(InitialLedger(), [DepositRequest("SAV123", -4500.0)]))
  {
  }

  /** From the seed: withdraw 3500 from SAV123 (goes through, 1500), withdraw
      1000 from SAV123 (refused, stays 1500), withdraw 50000 from CUR456 (goes
      through, -40000), deposit 200 into SAV123 (1700); UNKNOWN is still absent afterwards. */
  lemma SeedScenario()
    ensures Run(InitialLedger(), [
        WithdrawRequest("SAV123", 3500.0),
        WithdrawRequest("SAV123", 1000.0),
        WithdrawRequest("CUR456", 50000.0),
        DepositRequest("SAV123", 200.0)])
      == map["SAV123" := AccountState(Savings, 1700.0), "CUR456" := AccountState(Current, -40000.0)]
    ensures Lookup(Run(InitialLedger(), [
        WithdrawRequest("SAV123", 3500.0),
        WithdrawRequest("SAV123", 1000.0),
        WithdrawRequest("CUR456", 50000.0),
        DepositRequest("SAV123", 200.0)]), "UNKNOWN") == None
  {
  }
}
