/**
 * The stateful classes of 15_classes_and_objects.py: a bank account whose
 * deposit and withdraw guard every update of the balance, and a student
 * whose grade setter only ever stores grades in 0..100.
 */
module ClassesObjects {
  import opened PyCore

  /** One call on an account, for reasoning about histories of calls. */
  datatype Operation = Deposit(amount: int) | Withdraw(amount: int)

  /** The balance after one call: the update happens only when the guard holds. */
  function Apply(balance: int, op: Operation): int
  {
    match op
    case Deposit(amount) => if amount > 0 then balance + amount else balance
    case Withdraw(amount) => if amount > 0 && amount <= balance then balance - amount else balance
  }

  /** The balance after a sequence of calls. */
  function Run(balance: int, ops: seq<Operation>): int
    decreases ops
  {
    if ops == [] then balance else Run(Apply(balance, ops[0]), ops[1..])
  }

  /** A call either leaves the balance alone or moves it by exactly the amount. */
  lemma ApplyMovesByAmount(balance: int, op: Operation)
    ensures Apply(balance, op) == balance
         || (op.Deposit? && Apply(balance, op) == balance + op.amount && op.amount > 0)
         || (op.Withdraw? && Apply(balance, op) == balance - op.amount && 0 < op.amount <= balance)
  {
  }

  /** No sequence of deposits and withdrawals drives a non-negative balance below zero. */
  lemma {:induction false} RunNonNegative(balance: int, ops: seq<Operation>)
    requires balance >= 0
    ensures Run(balance, ops) >= 0
    decreases ops
  {
    if ops != [] {
      RunNonNegative(Apply(balance, ops[0]), ops[1..]);
    }
  }

  /** Running two histories one after the other is running their concatenation. */
  lemma {:induction false} RunAppend(balance: int, a: seq<Operation>, b: seq<Operation>)
    ensures Run(balance, a + b) == Run(Run(balance, a), b)
    decreases a
  {
    if a == [] {
      assert a + b == b;
    } else {
      assert (a + b)[0] == a[0];
      assert (a + b)[1..] == a[1..] + b;
      RunAppend(Apply(balance, a[0]), a[1..], b);
    }
  }

  /** The demo: 100, deposit 50, withdraw 30. */
  lemma DemoHistory()
    ensures Run(100, [Deposit(50), Withdraw(30)]) == 120
  {
  }

  function DepositMessage(amount: int, balance: int): string
  {
    "Deposited $" + IntToString(amount) + ". New balance: $" + IntToString(balance)
  }

  function WithdrawMessage(amount: int, balance: int): string
  {
    "Withdrew $" + IntToString(amount) + ". New balance: $" + IntToString(balance)
  }

  class BankAccount {
    var accountNumber: string
    var balance: int

    /** BankAccount(account_number, balance=0). */
    constructor (accountNumber: string, balance: int)
      ensures this.accountNumber == accountNumber && this.balance == balance
    {
      this.accountNumber := accountNumber;
      this.balance := balance;
    }

    /** deposit(amount): adds a positive amount and reports the new balance. */
    method Deposit(amount: int) returns (message: string)
      modifies this
      ensures balance == Apply(old(balance), Operation.Deposit(amount))
      ensures amount > 0 ==> balance == old(balance) + amount && message == DepositMessage(amount, balance)
      ensures amount <= 0 ==> balance == old(balance) && message == "Deposit amount must be positive"
      ensures old(balance) >= 0 ==> balance >= 0
      ensures accountNumber == old(accountNumber)
    {
      if amount > 0 {
        balance := balance + amount;
        return DepositMessage(amount, balance);
      }
      return "Deposit amount must be positive";
    }

    /** withdraw(amount): takes out a positive amount that the balance covers. */
    method Withdraw(amount: int) returns (message: string)
      modifies this
      ensures balance == Apply(old(balance), Operation.Withdraw(amount))
      ensures 0 < amount <= old(balance) ==> balance == old(balance) - amount && message == WithdrawMessage(amount, balance)
      ensures !(0 < amount <= old(balance)) ==> balance == old(balance) && message == "Invalid withdrawal amount"
      ensures old(balance) >= 0 ==> balance >= 0
      ensures accountNumber == old(accountNumber)
    {
      if amount > 0 && amount <= balance {
        balance := balance - amount;
        return WithdrawMessage(amount, balance);
      }
      return "Invalid withdrawal amount";
    }

    function GetBalance(): int
      reads this
    {
      balance
    }
  }

  lemma DemoNumerals()
    ensures IntToString(50) == "50" && IntToString(150) == "150"
    ensures IntToString(30) == "30" && IntToString(120) == "120"
  {
    assert NatToString(1) == "1" && NatToString(3) == "3" && NatToString(5) == "5";
    assert NatToString(15) == "15";
    assert NatToString(12) == "12";
  }

  lemma DemoMessages()
    ensures DepositMessage(50, 150) == "Deposited $" + "50" + ". New balance: $" + "150"
    ensures WithdrawMessage(30, 120) == "Withdrew $" + "30" + ". New balance: $" + "120"
  {
    DemoNumerals();
  }

  /** The demo: account "12345" with 100, deposit 50, withdraw 30, balance 120. */
  method BankDemo() returns (deposited: string, withdrew: string, balance: int)
    ensures deposited == "Deposited $" + "50" + ". New balance: $" + "150"
    ensures withdrew == "Withdrew $" + "30" + ". New balance: $" + "120"
    ensures balance == 120
  {
    DemoMessages();
    var account := new BankAccount("12345", 100);
    deposited := account.Deposit(50);
    withdrew := account.Withdraw(30);
    balance := account.GetBalance();
  }

  class Student {
    var name: string
    var grade: Option<int>
    var id: string

    /** Student(name, student_id): no grade yet. */
    constructor (name: string, studentId: string)
      ensures this.name == name && this.id == studentId && grade == None
    {
      this.name := name;
      this.grade := None;
      this.id := studentId;
    }

    /**
     * set_grade(grade): stores a grade in 0..100; any other grade is refused
     * with the printed warning and the previous grade is kept.
     */
    method SetGrade(g: int) returns (warning: Option<string>)
      modifies this
      ensures 0 <= g <= 100 ==> grade == Some(g) && warning == None
      ensures !(0 <= g <= 100) ==> grade == old(grade) && warning == Some("Grade must be between 0 and 100")
      ensures name == old(name) && id == old(id)
      ensures old(grade).Some? && 0 <= old(grade).value <= 100 ==> grade.Some? && 0 <= grade.value <= 100
    {
      if 0 <= g <= 100 {
        grade := Some(g);
        warning := None;
      } else {
        warning := Some("Grade must be between 0 and 100");
      }
    }

    function GetGrade(): Option<int>
      reads this
    {
      grade
    }
  }

  /** The demo: set_grade(85) on a new student, then get_grade() is 85; get_grade() before any set is None. */
  method StudentDemo() returns (before: Option<int>, after: Option<int>)
    ensures before == None && after == Some(85)
  {
    var student := new Student("Bob", "S12345");
    before := student.GetGrade();
    var _ := student.SetGrade(85);
    after := student.GetGrade();
  }
}
