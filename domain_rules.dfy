/** The business-rule constants every validator consumes (core/domain_rules.py).

    Monetary bounds are in integer cents: Decimal("0.01") is 1 and
    Decimal("10_000") is 1000000. The regular expressions of the rules are
    written as `Pattern` values: a character class plus, for anchored
    patterns, the length bounds of its repetition. */
module DomainRules {
  import opened Exceptions

  /** The ASCII character classes the rule patterns are built from. */
  datatype CharClass =
    | UpperLetter     // A-Z
    | LowerLetter     // a-z
    | Digit           // 0-9, `\d`
    | Underscore      // _, part of `\w`
    | Space           // ' '
    | PasswordSymbol  // one of !@#$%^&*()_+

  /** The two pattern shapes the rules use:
      `Search(cs)` is an unanchored pattern that finds one character of `cs`
      (`[A-Z]`, `\d`, and `\d+`, which matches wherever `\d` does);
      `Whole(cs, lo, hi)` is `^[cs]{lo,hi}$`, with `hi == None` for `+`. */
  datatype Pattern =
    | Search(classes: set<CharClass>)
    | Whole(classes: set<CharClass>, minLen: nat, maxLen: Option<nat>)

  // ---- UserRules ----
  const MinPasswordSize: int := 8
  const MaxPasswordSize: int := 20

  const MinUserAge: int := 18
  const MaxUserAge: int := 120

  const MinUsernameSize: int := 2
  const MaxUsernameSize: int := 20

  const MinFirstnameSize: int := 2
  const MaxFirstnameSize: int := 45

  const MinLastnameSize: int := 2
  const MaxLastnameSize: int := 100

  const MinCpfSize: int := 11
  const MaxCpfSize: int := 14

  /** `^([\w ]{2,20})$` */
  const UsernamePattern: Pattern :=
    Whole({UpperLetter, LowerLetter, Digit, Underscore, Space}, 2, Some(20))
  /** `^[A-Za-z]{2,45}$` */
  const FirstnamePattern: Pattern := Whole({UpperLetter, LowerLetter}, 2, Some(45))
  /** `^[A-Za-z ]{2,100}$` */
  const LastnamePattern: Pattern := Whole({UpperLetter, LowerLetter, Space}, 2, Some(100))

  // ---- TransactionRules (cents) ----
  const MinDepositValue: int := 1
  /** No maximum is configured for deposits. */
  const MaxDepositValue: Option<int> := None

  const MinCashoutValue: int := 1
  const MaxCashoutValue: int := 500000

  const MinTransferValue: int := 1
  const MaxTransferValue: int := 1000000

  // ---- AccountRules ----
  const NumberSize: int := 10
  /** `\d+`, searched anywhere in the number. */
  const NumberPattern: Pattern := Search({Digit})

  // ---- AccountTypeRules ----
  const MaxTypeNameSize: int := 25
  /** `^[A-Za-z]+$` */
  const TypePattern: Pattern := Whole({UpperLetter, LowerLetter}, 1, None)

  /** Every user-rule minimum is at most its maximum. */
  lemma UserBoundsOrdered()
    ensures MinPasswordSize <= MaxPasswordSize
    ensures MinUserAge <= MaxUserAge
    ensures MinUsernameSize <= MaxUsernameSize
    ensures MinFirstnameSize <= MaxFirstnameSize
    ensures MinLastnameSize <= MaxLastnameSize
    ensures MinCpfSize <= MaxCpfSize
  {
  }

  /** The repetition bounds written into the name patterns are the size constants. */
  lemma PatternBoundsAreSizeRules()
    ensures UsernamePattern.minLen == MinUsernameSize && UsernamePattern.maxLen == Some(MaxUsernameSize)
    ensures FirstnamePattern.minLen == MinFirstnameSize && FirstnamePattern.maxLen == Some(MaxFirstnameSize)
    ensures LastnamePattern.minLen == MinLastnameSize && LastnamePattern.maxLen == Some(MaxLastnameSize)
  {
  }

  /** Every transaction kind has a minimum of one cent; deposit has no maximum;
      the cashout and transfer ranges are non-empty. */
  lemma TransactionBoundsConsistent()
    ensures MinDepositValue == 1 && MinCashoutValue == 1 && MinTransferValue == 1
    ensures MaxDepositValue.None?
    ensures MinCashoutValue <= MaxCashoutValue == 500000
    ensures MinTransferValue <= MaxTransferValue == 1000000
  {
  }

  /** Account numbers have ten characters; account-type names at most 25. */
  lemma AccountSizes()
    ensures NumberSize == 10 && MaxTypeNameSize == 25
    ensures NumberPattern == Search({Digit})
    ensures TypePattern.minLen == 1 && TypePattern.maxLen.None?
  {
  }
}
