/**
 * The lesson's own exception classes and checks in 28_exception_types.py:
 * ValidationError's text, validate_age and the isinstance chain of
 * handle_exception. The class tree itself is PyCore's ExcKind.
 */
module ExceptionTypes {
  import opened PyCore

  /** `str(ValidationError(message, field))`: the field, a colon and the message. */
  function ValidationErrorText(message: string, field: string): (t: string)
    ensures |t| == |field| + 2 + |message|
    ensures t[..|field|] == field && t[|field|..|field| + 2] == ": " && t[|field| + 2..] == message
  {
    field + ": " + message
  }

  /** The raised ValidationError, carrying its text. */
  function Validation(message: string, field: string): PyError
  {
    PyError(ValidationError, ValidationErrorText(message, field))
  }

  /** Field and message can be read back from the text when the field is known. */
  lemma ValidationErrorTextInjective(m1: string, m2: string, field: string)
    requires ValidationErrorText(m1, field) == ValidationErrorText(m2, field)
    ensures m1 == m2
  {
    assert m1 == ValidationErrorText(m1, field)[|field| + 2..];
  }

  /** ValidationError derives from CustomError and from Exception, and is no ValueError. */
  lemma ValidationErrorAncestry()
    ensures IsSubclass(ValidationError, CustomError) && IsSubclass(ValidationError, Exception)
    ensures !IsSubclass(ValidationError, ValueError) && !IsSubclass(ValidationError, TypeError)
  {
  }

  /**
   * validate_age(age): TypeError for anything that is not an int (a bool is
   * one), then ValidationError for a negative age or one above 150;
   * otherwise True.
   */
  function ValidateAge(age: PyValue): (r: Result<bool>)
    ensures r.Ok? <==> IsInt(age) && 0 <= AsInt(age) <= 150
    ensures r.Ok? ==> r.value
    ensures !IsInt(age) ==> r == Err(PyError(TypeError, "Age must be an integer"))
    ensures IsInt(age) && AsInt(age) < 0 ==> r == Err(Validation("Age cannot be negative", "age"))
    ensures IsInt(age) && AsInt(age) > 150 ==> r == Err(Validation("Age seems unrealistic", "age"))
  {
    if !IsInt(age) then Err(PyError(TypeError, "Age must be an integer"))
    else if AsInt(age) < 0 then Err(Validation("Age cannot be negative", "age"))
    else if AsInt(age) > 150 then Err(Validation("Age seems unrealistic", "age"))
    else Ok(true)
  }

  /** The type check comes first: no string is range-checked, not even one of digits. */
  lemma TypeCheckFirst(s: string)
    ensures ValidateAge(PyStr(s)).error.kind == TypeError
  {
  }

  /** The range checks raise ValidationError for field "age", caught by `except CustomError`. */
  lemma RangeErrorsAreValidationErrors(age: int)
    requires ValidateAge(PyInt(age)).Err?
    ensures ValidateAge(PyInt(age)).error.kind == ValidationError
    ensures IsSubclass(ValidateAge(PyInt(age)).error.kind, CustomError)
    ensures ValidateAge(PyInt(age)).error.message[..5] == "age: "
  {
  }

  /** The demo: validate_age(-5) raises "age: Age cannot be negative". */
  lemma ValidateAgeDemo()
    ensures ValidateAge(PyInt(-5)) == Err(PyError(ValidationError, "age: Age cannot be negative"))
  {
    assert ValidationErrorText("Age cannot be negative", "age") == "age: Age cannot be negative";
  }

  /** The bounds 0 and 150 pass, 151 does not, and True counts as the int 1. */
  lemma ValidateAgeBounds()
    ensures ValidateAge(PyInt(0)) == Ok(true) && ValidateAge(PyInt(150)) == Ok(true)
    ensures ValidateAge(PyInt(151)).Err? && ValidateAge(PyBool(true)) == Ok(true)
  {
  }

  const ValueMessage := "Value error occurred"
  const TypeMessage := "Type error occurred"
  const UnknownMessage := "Unknown error occurred"

  /** handle_exception(e): the isinstance checks in order, ValueError before TypeError. */
  function HandleException(e: ExcKind): string
  {
    if IsSubclass(e, ValueError) then ValueMessage
    else if IsSubclass(e, TypeError) then TypeMessage
    else UnknownMessage
  }

  /** Each message is given for exactly its class of exceptions. */
  lemma HandleExceptionClassifies(e: ExcKind)
    ensures HandleException(e) == ValueMessage <==> IsSubclass(e, ValueError)
    ensures HandleException(e) == TypeMessage <==> IsSubclass(e, TypeError) && !IsSubclass(e, ValueError)
    ensures HandleException(e) == UnknownMessage <==> !IsSubclass(e, ValueError) && !IsSubclass(e, TypeError)
  {
    assert ValueMessage[0] != TypeMessage[0] && ValueMessage[0] != UnknownMessage[0] && TypeMessage[0] != UnknownMessage[0];
  }

  /** The demo: `int("not a number")` raises ValueError, so the value message is printed. */
  lemma HandleExceptionDemo()
    ensures ParseInt("not a number").Err?
    ensures HandleException(ParseInt("not a number").error.kind) == "Value error occurred"
  {
    ParseIntRejectsLetter("not a number");
  }

  /** A TypeError from validate_age and a ValidationError get the other two messages. */
  lemma HandleOtherExceptions()
    ensures HandleException(ValidateAge(PyStr("x")).error.kind) == "Type error occurred"
    ensures HandleException(ValidationError) == "Unknown error occurred"
  {
  }
}
