/**
 * The raising helpers of 14_error_handling.py: `divide` refuses a zero
 * divisor and `withdraw` raises the lesson's own InsufficientFundsError.
 * A raised exception is an `Err` result.
 */
module ErrorHandling {
  import opened PyCore

  /**
   * divide(a, b): ValueError for a zero divisor, otherwise the quotient.
   * The quotient is exact here; Python's float rounding is not modelled.
   */
  function Divide(a: real, b: real): (r: Result<real>)
    ensures r.Ok? <==> b != 0.0
    ensures r.Ok? ==> r.value * b == a
    ensures r.Err? ==> r.error == PyError(ValueError, "Division by zero is not allowed!")
  {
    if b == 0.0 then Err(PyError(ValueError, "Division by zero is not allowed!")) else Ok(a / b)
  }

  lemma DivideByZeroDemo()
    ensures Divide(10.0, 0.0).Err? && Divide(10.0, 0.0).error.kind == ValueError
  {
  }

  function InsufficientFundsMessage(balance: int, amount: int): string
  {
    "Insufficient funds! Balance: $" + IntToString(balance) + ", Requested: $" + IntToString(amount)
  }

  /** withdraw(balance, amount): the remaining balance, or InsufficientFundsError when the amount exceeds it. */
  function Withdraw(balance: int, amount: int): (r: Result<int>)
    ensures r.Ok? <==> amount <= balance
    ensures r.Ok? ==> r.value + amount == balance
    ensures r.Ok? && amount >= 0 ==> 0 <= r.value <= balance
    ensures r.Err? ==> r.error == PyError(InsufficientFundsError, InsufficientFundsMessage(balance, amount))
  {
    if amount > balance then Err(PyError(InsufficientFundsError, InsufficientFundsMessage(balance, amount)))
    else Ok(balance - amount)
  }

  /** Withdrawing the whole balance is allowed and leaves nothing. */
  lemma WithdrawAll(balance: int)
    ensures Withdraw(balance, balance) == Ok(0)
  {
  }

  /** The custom exception derives from Exception, so `except Exception` would also catch it. */
  lemma InsufficientFundsIsException()
    ensures IsSubclass(InsufficientFundsError, Exception)
    ensures !IsSubclass(InsufficientFundsError, ValueError)
  {
  }

  /** The demo: withdraw(100, 150) raises with both amounts in the message. */
  lemma WithdrawDemo()
    ensures Withdraw(100, 150)
         == Err(PyError(InsufficientFundsError, "Insufficient funds! Balance: $100, Requested: $150"))
  {
    DemoNumerals();
  }

  lemma DemoNumerals()
    ensures IntToString(100) == "100" && IntToString(150) == "150"
  {
    assert NatToString(10) == "10";
    assert NatToString(15) == "15";
  }
}
