/** The field validators of the account entities (core/accounts/models.py):
    the account-type name, the account number and the account balance. */
module AccountModels {
  import opened Exceptions
  import opened DomainRules
  import opened Validators

  const TypeDetail: string := "O tipo da conta deve conter apenas letras."
  const NumberPatternDetail: string := "O número da conta deve conter apenas números."
  /** The size message, with NumberSize (10) written in. */
  const NumberSizeDetail: string := "O número da conta deve conter 10 números."
  const AmountDetail: string := "O valor não pode ser menor que 0."

  /** One or more ASCII letters and nothing else. */
  predicate LettersOnly(s: string) {
    |s| > 0 && forall i :: 0 <= i < |s| ==> IsLetter(s[i])
  }

  /** AccountType.validate_type: the name must be one or more letters and
      nothing else; it is returned unchanged. */
  function ValidateType(name: string): (r: Result<string>)
    ensures r.Ok? <==> LettersOnly(name)
    ensures r.Ok? ==> r.value == name
    ensures r.Err? ==> r.error == Validation(AccountTypeInvalid, TypeDetail)
  {
    if !RegexValidator(TypePattern, name, false) then
      Err(Validation(AccountTypeInvalid, TypeDetail))
    else
      Ok(name)
  }

  /** Account.validate_number: the number must contain a digit somewhere (the
      pattern `\d+` is searched, not anchored) and have exactly NumberSize
      characters; the pattern is reported before the size. */
  function ValidateNumber(number: string): (r: Result<string>)
    ensures r.Ok? <==> (exists i :: 0 <= i < |number| && IsDigit(number[i])) && |number| == NumberSize
    ensures r.Ok? ==> r.value == number
    ensures r.Err? && (exists i :: 0 <= i < |number| && IsDigit(number[i])) ==>
              r.error == Validation(AccountInvalidNumber, NumberSizeDetail)
    ensures r.Err? && !(exists i :: 0 <= i < |number| && IsDigit(number[i])) ==>
              r.error == Validation(AccountInvalidNumber, NumberPatternDetail)
  {
    var validPattern := RegexValidator(NumberPattern, number, false);
    var validLength := MinMaxValidator(NumberSize, NumberSize, |number|);
    if !validPattern then
      Err(Validation(AccountInvalidNumber, NumberPatternDetail))
    else if !validLength then
      Err(Validation(AccountInvalidNumber, NumberSizeDetail))
    else
      Ok(number)
  }

  /** Account.validate_amount: a balance (in cents) may not be negative; it is
      returned unchanged. */
  function ValidateAmount(amount: int): (r: Result<int>)
    ensures r.Ok? <==> amount >= 0
    ensures r.Ok? ==> r.value == amount
    ensures r.Err? ==> r.error == Validation(AccountInvalidAmount, AmountDetail)
  {
    if amount < 0 then Err(Validation(AccountInvalidAmount, AmountDetail)) else Ok(amount)
  }

  /** Type names with a digit, an underscore, a hyphen or a space are rejected. */
  lemma InvalidTypeExamples()
    ensures ValidateType("inv4lid").Err?
    ensures ValidateType("in_valid").Err?
    ensures ValidateType("not-valid").Err?
    ensures ValidateType("not valid").Err?
    ensures ValidateType("corrente").Ok?
  {
    assert !IsLetter("inv4lid"[3]);
    assert !IsLetter("in_valid"[2]);
    assert !IsLetter("not-valid"[3]);
    assert !IsLetter("not valid"[3]);
  }

  /** Numbers of the wrong size are rejected with the size message; numbers
      without any digit with the pattern message. */
  lemma InvalidNumberExamples()
    ensures ValidateNumber("123456789") == Err(Validation(AccountInvalidNumber, NumberSizeDetail))
    ensures ValidateNumber("12345678910") == Err(Validation(AccountInvalidNumber, NumberSizeDetail))
    ensures ValidateNumber("abcdefghij") == Err(Validation(AccountInvalidNumber, NumberPatternDetail))
    ensures ValidateNumber("0123456789") == Ok("0123456789")
  {
    assert IsDigit("123456789"[0]);
    assert IsDigit("12345678910"[0]);
    assert IsDigit("0123456789"[0]);
  }

  /** Because the pattern is searched rather than anchored, ten characters
      with at least one digit pass, whatever the others are. */
  lemma UnanchoredNumberPattern()
    ensures ValidateNumber("012345678a").Ok?
    ensures ValidateNumber("1234-67890").Ok?
    ensures ValidateNumber("1234 67890").Ok?
  {
    assert IsDigit("012345678a"[0]);
    assert IsDigit("1234-67890"[0]);
    assert IsDigit("1234 67890"[0]);
  }
}
