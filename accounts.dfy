/** The account hierarchy: an abstract account with a mutable exact balance and
    two variants, Savings and Current, that differ only in the check their
    withdraw makes before it commits the new balance.

    `real` stands for BigDecimal: both add, subtract and compare exactly. */
module Accounts {

  /** Which subclass an account belongs to; fixed when the account is made. */
  datatype Variant = Savings | Current

  /** Why a withdrawal was refused: the exception each subclass throws. */
  datatype PolicyViolation = BelowMinimumBalance | OverdraftLimitExceeded

  /** What an account-level withdraw does: commit, or refuse and change nothing. */
  datatype WithdrawOutcome = Withdrawn | Rejected(violation: PolicyViolation)

  /** The floor a Savings account must keep after a withdrawal. */
  const MinimumBalance: real := 1000.0

  /** The constant a Current account adds to its balance to get its overdraft limit. */
  const MaximumOverdraft: real := 100000.0

  /** The value of an account: its variant and its balance. */
  datatype AccountState = AccountState(variant: Variant, balance: real)

  /** The least balance a withdrawal may leave behind, given the balance before it.
      For a Current account the bound moves with the balance. */
  function Boundary(variant: Variant, balance: real): real
  {
    match variant
    case Savings => MinimumBalance
    case Current => -(balance + MaximumOverdraft)
  }

  /** Whether the variant's check lets a withdrawal of `amount` through. For a
      Current account this is a cap on the amount of twice the balance plus the
      overdraft constant. */
  function Permits(variant: Variant, balance: real, amount: real): (ok: bool)
    ensures variant == Savings ==> (ok <==> balance - amount >= MinimumBalance)
    ensures variant == Current ==> (ok <==> amount <= 2.0 * balance + MaximumOverdraft)
  {
    !(balance - amount < Boundary(variant, balance))
  }

  /** The violation a variant reports when its check fails. */
  function ViolationOf(variant: Variant): PolicyViolation
  {
    match variant
    case Savings => BelowMinimumBalance
    case Current => OverdraftLimitExceeded
  }

  /** Withdraw on an account value: the outcome and the account afterwards. */
  function WithdrawFrom(a: AccountState, amount: real): (WithdrawOutcome, AccountState)
  {
    if Permits(a.variant, a.balance, amount) then
      (Withdrawn, a.(balance := a.balance - amount))
    else
      (Rejected(ViolationOf(a.variant)), a)
  }

  /** Deposit on an account value. */
  function DepositInto(a: AccountState, amount: real): AccountState
  {
    a.(balance := a.balance + amount)
  }

  /** An account object. Savings and Current share this class; `variant`
      selects the withdrawal check. */
  class Account {
    const number: string
    const variant: Variant
    var balance: real

    constructor (number: string, variant: Variant, balance: real)
      ensures this.number == number && this.variant == variant && this.balance == balance
    {
      this.number := number;
      this.variant := variant;
      this.balance := balance;
    }

    /** The account's current value. */
    function State(): AccountState
      reads this
    {
      AccountState(variant, balance)
    }

    /** Adds the amount, whatever its sign; never fails. */
    method Deposit(amount: real)
      modifies this
      ensures balance == old(balance) + amount
      ensures State() == DepositInto(old(State()), amount)
    {
      balance := balance + amount;
    }

    /** Checks the variant's boundary and only then commits `balance - amount`;
        a refusal leaves the balance as it was. */
    method Withdraw(amount: real) returns (outcome: WithdrawOutcome)
      modifies this
      ensures (outcome, State()) == WithdrawFrom(old(State()), amount)
      ensures outcome == Withdrawn ==> balance == old(balance) - amount
      ensures outcome != Withdrawn ==> balance == old(balance)
    {
      match variant {
        case Savings =>
          if balance - amount < MinimumBalance {
            return Rejected(BelowMinimumBalance);
          }
        case Current =>
          var overdraftLimit := balance + MaximumOverdraft;
          if balance - amount < -overdraftLimit {
            return Rejected(OverdraftLimitExceeded);
          }
      }
      balance := balance - amount;
      outcome := Withdrawn;
    }
  }

  /** A Savings withdrawal goes through exactly when it leaves at least the
      minimum balance; then the balance is the old one less the amount, and
      otherwise the account is unchanged and the violation is the minimum balance. */
  lemma SavingsWithdrawal(balance: real, amount: real)
    ensures var (outcome, after) := WithdrawFrom(AccountState(Savings, balance), amount);
      && (outcome == Withdrawn <==> balance - amount >= MinimumBalance)
      && (outcome == Withdrawn ==> after == AccountState(Savings, balance - amount) && after.balance >= 1000.0)
      && (outcome != Withdrawn ==> outcome == Rejected(BelowMinimumBalance) && after == AccountState(Savings, balance))
  {
  }

  /** A Current withdrawal is refused exactly when the amount exceeds twice the
      balance plus 100000; otherwise the new balance is the old one less the
      amount, and it is at least minus (old balance + 100000). */
  lemma CurrentWithdrawal(balance: real, amount: real)
    ensures var (outcome, after) := WithdrawFrom(AccountState(Current, balance), amount);
      && (outcome != Withdrawn <==> amount > 2.0 * balance + 100000.0)
      && (outcome == Withdrawn ==> after == AccountState(Current, balance - amount) && after.balance >= -(balance + 100000.0))
      && (outcome != Withdrawn ==> outcome == Rejected(OverdraftLimitExceeded) && after == AccountState(Current, balance))
  {
  }

  /** Whatever the variant, a withdrawal that goes through never leaves less
      than the boundary computed from the balance before it. */
  lemma WithdrawRespectsBoundary(a: AccountState, amount: real)
    ensures var (outcome, after) := WithdrawFrom(a, amount);
      && after.variant == a.variant
      && (outcome == Withdrawn ==> after.balance == a.balance - amount >= Boundary(a.variant, a.balance))
      && (outcome != Withdrawn ==> after == a)
  {
  }

  /** A refused withdrawal changes nothing, so replaying it is refused again
      with the same violation and the same (unchanged) account. */
  lemma RejectionIsStable(a: AccountState, amount: real)
    requires WithdrawFrom(a, amount).0 != Withdrawn
    ensures WithdrawFrom(a, amount).1 == a
    ensures WithdrawFrom(WithdrawFrom(a, amount).1, amount) == WithdrawFrom(a, amount)
  {
  }

  /** Deposit adds exactly the amount, for any amount including zero and
      negative ones, and keeps the variant. */
  lemma DepositAddsAmount(a: AccountState, amount: real)
    ensures DepositInto(a, amount).variant == a.variant
    ensures DepositInto(a, amount).balance - a.balance == amount
    ensures amount < 0.0 ==> DepositInto(a, amount).balance < a.balance
  {
  }

  /** Withdrawing what was just deposited restores the account whenever the
      check lets it through; for Savings that is whenever the account was at or
      above the minimum balance before the deposit. */
  lemma DepositThenWithdrawRestores(a: AccountState, amount: real)
    requires a.variant == Savings ==> a.balance >= MinimumBalance
    requires a.variant == Current ==> 2.0 * a.balance + amount + MaximumOverdraft >= 0.0
    ensures WithdrawFrom(DepositInto(a, amount), amount) == (Withdrawn, a)
  {
  }

  /** Because the Current bound moves with the balance, a Current account whose
      balance is at or below -50000 cannot withdraw any positive amount. */
  lemma CurrentFrozenFromHalfOverdraft(balance: real, amount: real)
    requires balance <= -50000.0 && amount > 0.0
    ensures WithdrawFrom(AccountState(Current, balance), amount) == (Rejected(OverdraftLimitExceeded), AccountState(Current, balance))
  {
  }

  /** The moving bound also lets a Current account go further than 100000
      below zero: from 10000, withdrawing 120000 goes through and leaves -110000. */
  lemma CurrentOverdraftBeyondConstant()
    ensures WithdrawFrom(AccountState(Current, 10000.0), 120000.0) == (Withdrawn, AccountState(Current, -110000.0))
    ensures -110000.0 < -MaximumOverdraft
  {
  }
}
