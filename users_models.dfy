/** The user entity and its six field checks (core/users/models.py). */
module UserModels {
  import opened Exceptions
  import opened DomainRules
  import opened Validators

  /** A calendar date; only the year takes part in the age rule. */
  datatype Date = Date(year: int, month: int, day: int)

  /** The validated fields of a User row. */
  datatype User = User(
    username: string,
    password: string,
    firstName: string,
    lastName: string,
    cpf: string,
    birthdate: Date)

  const UsernameDetail: string := "Invalid username."
  const PasswordDetail: string := "Password too weak."
  const FirstNameDetail: string := "Invalid first name."
  const LastNameDetail: string := "Invalid last name."
  const CpfDetail: string := "Invalid CPF"
  /** The age message, with MinUserAge (18) and MaxUserAge (120) written in. */
  const AgeDetail: string := "The age must be between 18 and 120 years."

  predicate IsUsernameChar(c: char) { IsLetter(c) || IsDigit(c) || c == '_' || c == ' ' }
  predicate IsLastNameChar(c: char) { IsLetter(c) || c == ' ' }

  /** validate_username: 2..20 letters, digits, underscores or spaces. */
  function ValidateUsername(u: User): (o: Outcome)
    ensures o.Pass? <==>
      && MinUsernameSize <= |u.username| <= MaxUsernameSize
      && forall i :: 0 <= i < |u.username| ==> IsUsernameChar(u.username[i])
    ensures o.Fail? ==> o.error == Validation(UserInvalidUsername, UsernameDetail)
  {
    if !RegexValidator(UsernamePattern, u.username, false) then
      Fail(Validation(UserInvalidUsername, UsernameDetail))
    else Pass
  }

  /** validate_password: the password is strong. */
  function ValidatePassword(u: User): (o: Outcome)
    ensures o.Pass? <==>
      && (exists i :: 0 <= i < |u.password| && IsUpper(u.password[i]))
      && (exists i :: 0 <= i < |u.password| && IsLower(u.password[i]))
      && (exists i :: 0 <= i < |u.password| && IsDigit(u.password[i]))
      && (exists i :: 0 <= i < |u.password| && IsPasswordSymbol(u.password[i]))
      && MinPasswordSize <= |u.password| <= MaxPasswordSize
    ensures o.Fail? ==> o.error == Validation(UserWeakPassword, PasswordDetail)
  {
    if !StrongPasswordValidator(u.password) then
      Fail(Validation(UserWeakPassword, PasswordDetail))
    else Pass
  }

  /** validate_first_name: 2..45 ASCII letters. */
  function ValidateFirstName(u: User): (o: Outcome)
    ensures o.Pass? <==>
      && MinFirstnameSize <= |u.firstName| <= MaxFirstnameSize
      && forall i :: 0 <= i < |u.firstName| ==> IsLetter(u.firstName[i])
    ensures o.Fail? ==> o.error == Validation(UserInvalidName, FirstNameDetail)
  {
    if !RegexValidator(FirstnamePattern, u.firstName, true) then
      Fail(Validation(UserInvalidName, FirstNameDetail))
    else Pass
  }

  /** validate_last_name: 2..100 ASCII letters or spaces. */
  function ValidateLastName(u: User): (o: Outcome)
    ensures o.Pass? <==>
      && MinLastnameSize <= |u.lastName| <= MaxLastnameSize
      && forall i :: 0 <= i < |u.lastName| ==> IsLastNameChar(u.lastName[i])
    ensures o.Fail? ==> o.error == Validation(UserInvalidName, LastNameDetail)
  {
    if !RegexValidator(LastnamePattern, u.lastName, true) then
      Fail(Validation(UserInvalidName, LastNameDetail))
    else Pass
  }

  /** validate_cpf: the CPF, punctuation ignored, has eleven digits, not all
      equal, ending in its two check digits. */
  function ValidateCpf(u: User): (o: Outcome)
    ensures o.Pass? <==>
      var d := StripNonDigits(u.cpf);
      |d| == 11 && !RepeatsFirstDigit(d) && d[9] == FirstCheckDigit(d) && d[10] == SecondCheckDigit(d)
    ensures o.Fail? ==> o.error == Validation(UserInvalidCpf, CpfDetail)
  {
    IsValidCpfCharacterization(u.cpf);
    if !IsValidCpf(u.cpf) then Fail(Validation(UserInvalidCpf, CpfDetail)) else Pass
  }

  /** validate_birthdate: the difference between the current year and the
      birth year lies in 18..120; months and days are ignored. */
  function ValidateBirthdate(u: User, currentYear: int): (o: Outcome)
    ensures o.Pass? <==> MinUserAge <= currentYear - u.birthdate.year <= MaxUserAge
    ensures o.Fail? ==> o.error == Validation(UserInvalidAge, AgeDetail)
  {
    var age := currentYear - u.birthdate.year;
    if !MinMaxValidator(MinUserAge, MaxUserAge, age) then
      Fail(Validation(UserInvalidAge, AgeDetail))
    else Pass
  }

  /** The six checks in the order validate runs them. */
  function Checks(u: User, currentYear: int): (cs: seq<Outcome>)
    ensures |cs| == 6
  {
    [ValidateUsername(u), ValidatePassword(u), ValidateFirstName(u),
     ValidateLastName(u), ValidateCpf(u), ValidateBirthdate(u, currentYear)]
  }

  /** The first failing outcome of a sequence, or Pass. */
  function FirstFailure(os: seq<Outcome>): (o: Outcome)
    ensures o.Pass? <==> forall i :: 0 <= i < |os| ==> os[i].Pass?
    ensures o.Fail? ==> exists k :: 0 <= k < |os| && os[k] == o && forall j :: 0 <= j < k ==> os[j].Pass?
  {
    if |os| == 0 then Pass
    else if os[0].Fail? then os[0]
    else
      var rest := FirstFailure(os[1..]);
      assert forall i :: 1 <= i < |os| ==> os[i] == os[1..][i - 1];
      if rest.Fail? then
        var k :| 0 <= k < |os[1..]| && os[1..][k] == rest && forall j :: 0 <= j < k ==> os[1..][j].Pass?;
        assert os[k + 1] == rest;
        rest
      else rest
  }

  /** On six outcomes, the first failure is found by testing them in turn. */
  lemma FirstFailureOfSix(cs: seq<Outcome>)
    requires |cs| == 6
    ensures FirstFailure(cs) ==
      if cs[0].Fail? then cs[0]
      else if cs[1].Fail? then cs[1]
      else if cs[2].Fail? then cs[2]
      else if cs[3].Fail? then cs[3]
      else if cs[4].Fail? then cs[4]
      else cs[5]
  {
    var f := FirstFailure(cs);
    if f.Fail? {
      var k :| 0 <= k < |cs| && cs[k] == f && forall j :: 0 <= j < k ==> cs[j].Pass?;
    }
  }

  /** User.validate: runs the six checks in order and stops at the first
      failure, which is the one reported; all six pass otherwise. */
  function Validate(u: User, currentYear: int): (o: Outcome)
    ensures o == FirstFailure(Checks(u, currentYear))
  {
    var cs := Checks(u, currentYear);
    FirstFailureOfSix(cs);
    if cs[0].Fail? then cs[0]
    else if cs[1].Fail? then cs[1]
    else if cs[2].Fail? then cs[2]
    else if cs[3].Fail? then cs[3]
    else if cs[4].Fail? then cs[4]
    else cs[5]
  }

  /** A user passes validation exactly when all six checks pass; a failure
      names the first failing check. */
  lemma ValidateFirstFailure(u: User, currentYear: int)
    ensures Validate(u, currentYear).Pass? <==>
      forall i :: 0 <= i < 6 ==> Checks(u, currentYear)[i].Pass?
    ensures Validate(u, currentYear).Fail? ==>
      exists k :: 0 <= k < 6 && Checks(u, currentYear)[k] == Validate(u, currentYear)
                  && forall j :: 0 <= j < k ==> Checks(u, currentYear)[j].Pass?
  {
  }

  /** Every user check fails with the validation status code. */
  lemma FailuresAreUnprocessable(u: User, currentYear: int)
    ensures Validate(u, currentYear).Fail? ==> Validate(u, currentYear).error.code == UnprocessableEntity
  {
  }

  /** Usernames of letters, digits, underscores and spaces pass; others, and
      those outside 2..20 characters, fail. */
  lemma UsernameExamples(u: User)
    ensures ValidateUsername(u.(username := "valid user")).Pass?
    ensures ValidateUsername(u.(username := "valid_user")).Pass?
    ensures ValidateUsername(u.(username := "user123")).Pass?
    ensures ValidateUsername(u.(username := "123user")).Pass?
    ensures ValidateUsername(u.(username := "/inv4lid username")).Fail?
    ensures ValidateUsername(u.(username := "invalid-username")).Fail?
    ensures ValidateUsername(u.(username := "invalid@too")).Fail?
    ensures ValidateUsername(u.(username := "u")).Fail?
    ensures ValidateUsername(u.(username := "uuuuuuuuuuuuuuuuuuuuu")).Fail?
  {
    assert !IsUsernameChar("/inv4lid username"[0]);
    assert !IsUsernameChar("invalid-username"[7]);
    assert !IsUsernameChar("invalid@too"[7]);
  }

  /** A first name with a space or an underscore fails; a plain one passes. */
  lemma FirstNameExamples(u: User)
    ensures ValidateFirstName(u.(firstName := "Joares")).Pass?
    ensures ValidateFirstName(u.(firstName := "invalid ")).Fail?
    ensures ValidateFirstName(u.(firstName := " invalid")).Fail?
    ensures ValidateFirstName(u.(firstName := "in_valid")).Fail?
    ensures ValidateFirstName(u.(firstName := "1nvalid")).Fail?
    ensures ValidateFirstName(u.(firstName := "i")).Fail?
  {
    assert !IsLetter("invalid "[7]);
    assert !IsLetter(" invalid"[0]);
    assert !IsLetter("in_valid"[2]);
    assert !IsLetter("1nvalid"[0]);
  }

  /** A last name may hold spaces but not hyphens, underscores or digits. */
  lemma LastNameExamples(u: User)
    ensures ValidateLastName(u.(lastName := "Santos Silva")).Pass?
    ensures ValidateLastName(u.(lastName := "santos-silva")).Fail?
    ensures ValidateLastName(u.(lastName := "invalid_lastname")).Fail?
    ensures ValidateLastName(u.(lastName := "l4stname")).Fail?
  {
    assert !IsLastNameChar("santos-silva"[6]);
    assert !IsLastNameChar("invalid_lastname"[7]);
    assert !IsLastNameChar("l4stname"[1]);
  }

  /** The age bounds are inclusive and only years count. */
  lemma BirthdateExamples(u: User)
    ensures ValidateBirthdate(u.(birthdate := Date(2006, 12, 31)), 2024).Pass?
    ensures ValidateBirthdate(u.(birthdate := Date(1904, 1, 1)), 2024).Pass?
    ensures ValidateBirthdate(u.(birthdate := Date(2007, 1, 1)), 2024).Fail?
    ensures ValidateBirthdate(u.(birthdate := Date(1903, 12, 31)), 2024).Fail?
  {
  }
}
