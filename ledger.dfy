/**
 * The balance ledger of users/models.py: a user's profile holds a nullable balance
 * (None for staff accounts) and every successful deposit, withdrawal or refund appends
 * exactly one signed Transaction to that user's transaction history.
 */
module Ledger {
  import opened Common

  /** The three choices of Transaction.transaction_type. */
  datatype TransactionType = Deposit | Withdrawal | Refund

  /** A ledger entry: signed amount in cents, type tag and description (timestamp left out). */
  datatype Transaction = Transaction(amount: int, kind: TransactionType, description: string)

  /** A null balance counts as zero wherever the ledger adds to it. */
  function Amount(balance: Option<int>): int {
    if balance.Some? then balance.value else 0
  }

  /** Sum of the signed amounts of a run of transactions. */
  function SumAmounts(log: seq<Transaction>): int {
    if log == [] then 0 else SumAmounts(log[..|log| - 1]) + log[|log| - 1].amount
  }

  lemma {:induction false} SumAmountsAppend(a: seq<Transaction>, b: seq<Transaction>)
    ensures SumAmounts(a + b) == SumAmounts(a) + SumAmounts(b)
    decreases |b|
  {
    if b == [] {
      assert a + b == a;
    } else {
      var b' := b[..|b| - 1];
      assert (a + b)[..|a + b| - 1] == a + b';
      SumAmountsAppend(a, b');
    }
  }

  /** A history that only ever grows: the change in balance is the sum of what was appended. */
  lemma LedgerTelescopes(log0: seq<Transaction>, log1: seq<Transaction>, log2: seq<Transaction>,
                         b0: int, b1: int, b2: int)
    requires log0 <= log1 <= log2
    requires b1 - b0 == SumAmounts(log1[|log0|..])
    requires b2 - b1 == SumAmounts(log2[|log1|..])
    ensures b2 - b0 == SumAmounts(log2[|log0|..])
  {
    assert log2[|log0|..] == log1[|log0|..] + log2[|log1|..];
    SumAmountsAppend(log1[|log0|..], log2[|log1|..]);
  }

  class UserProfile {
    /**
     * The owning user as the user table holds it now; `self.user.is_staff` is read
     * through it, so a user made staff after the profile was created is seen as staff.
     */
    var user: User
    var balance: Option<int>
    /** This user's rows of the Transaction table, oldest first. */
    var transactions: seq<Transaction>

    /** `UserProfile.objects.create(user=...)`: default balance 0.00, then save(). */
    constructor (user: User)
      ensures this.user == user
      ensures balance == (if user.isStaff then None else Some(0))
      ensures transactions == []
    {
      this.user := user;
      balance := Some(0);
      transactions := [];
      new;
      Save();
    }

    /** The save() override: a staff account never keeps a balance. */
    method Save()
      modifies this`balance
      ensures balance == (if user.isStaff then None else old(balance))
      ensures transactions == old(transactions)
    {
      if user.isStaff {
        balance := None;
      }
    }

    method Deposit(amount: int) returns (ok: bool)
      modifies this`balance, this`transactions
      ensures ok <==> !user.isStaff && amount > 0
      ensures ok ==> balance == Some(Amount(old(balance)) + amount)
      ensures ok ==> transactions == old(transactions) + [Transaction(amount, TransactionType.Deposit, "Funds deposited")]
      ensures !ok ==> balance == old(balance) && transactions == old(transactions)
      ensures old(transactions) <= transactions
      ensures Amount(balance) - Amount(old(balance)) == SumAmounts(transactions[|old(transactions)|..])
    {
      if user.isStaff {
        return false;
      }
      if amount <= 0 {
        return false;
      }
      if balance.None? {
        balance := Some(0);
      }
      balance := Some(balance.value + amount);
      Save();
      AppendOne(Transaction(amount, TransactionType.Deposit, "Funds deposited"));
      return true;
    }

    method Withdraw(amount: int) returns (ok: bool)
      modifies this`balance, this`transactions
      ensures ok <==> !user.isStaff && amount > 0 && old(balance).Some? && old(balance).value >= amount
      ensures ok ==> balance == Some(old(balance).value - amount) && balance.value >= 0
      ensures ok ==> transactions == old(transactions) + [Transaction(-amount, TransactionType.Withdrawal, "Order payment")]
      ensures !ok ==> balance == old(balance) && transactions == old(transactions)
      ensures old(transactions) <= transactions
      ensures Amount(balance) - Amount(old(balance)) == SumAmounts(transactions[|old(transactions)|..])
    {
      if user.isStaff {
        return false;
      }
      if amount <= 0 {
        return false;
      }
      if balance.None? || balance.value < amount {
        return false;
      }
      balance := Some(balance.value - amount);
      Save();
      AppendOne(Transaction(-amount, TransactionType.Withdrawal, "Order payment"));
      return true;
    }

    method Refund(amount: int, description: string := "Order refund") returns (ok: bool)
      modifies this`balance, this`transactions
      ensures ok <==> !user.isStaff && amount > 0
      ensures ok ==> balance == Some(Amount(old(balance)) + amount)
      ensures ok ==> transactions == old(transactions) + [Transaction(amount, TransactionType.Refund, description)]
      ensures !ok ==> balance == old(balance) && transactions == old(transactions)
      ensures old(transactions) <= transactions
      ensures Amount(balance) - Amount(old(balance)) == SumAmounts(transactions[|old(transactions)|..])
    {
      if user.isStaff {
        return false;
      }
      if amount <= 0 {
        return false;
      }
      if balance.None? {
        balance := Some(0);
      }
      balance := Some(balance.value + amount);
      Save();
      AppendOne(Transaction(amount, TransactionType.Refund, description));
      return true;
    }

    /** `Transaction.objects.create(user=self.user, ...)`: one row appended to this user's history. */
    method AppendOne(t: Transaction)
      modifies this`transactions
      ensures balance == old(balance)
      ensures transactions == old(transactions) + [t]
      ensures transactions[|old(transactions)|..] == [t] && SumAmounts([t]) == t.amount
    {
      transactions := transactions + [t];
      assert [t][..0] == [];
    }
  }
}
