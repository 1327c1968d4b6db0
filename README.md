# bank_api core, modelled in Dafny

This project models the banking core of bank_api, a small FastAPI banking
service. It covers:

- the ledger engine `TransactionController.new`, which validates a deposit,
  withdraw or transference, records it in the transaction table and rewrites
  one or two account balances, all inside one database transaction;
- the kind-specific guards that run first (`validate`, `validate_deposit`,
  `validate_withdraw`, `validate_transference`);
- the stateless validators: the inclusive range check, the password-strength
  check, and the CPF check-digit algorithm with its stateful `CpfValidator`;
- the business-rule constants;
- the field validators of the account, account-type and user entities;
- the generic table controller (`get`, `all`, `create`, `update_`,
  `delete_`, `__check_fields`) over an in-memory table.

Modelling choices:

- **Money** is integer cents: `Decimal("0.01")` is 1 and `Decimal("10_000")`
  is 1000000.
- **Regular expressions** are the few shapes the rules use, written as a
  `Pattern` value: a set of ASCII character classes plus, for anchored
  patterns, the length bounds of the repetition.
- **Errors.** Every exception becomes an `Error` value with a kind, the exact
  detail string and the HTTP status code. Raising becomes returning
  `Err`/`Fail`. The controller's `DatabaseException`, which
  core/exceptions.py does not define, is the `DatabaseError` kind, with the
  codes its tests expect.
- **Store failures.** An `SQLAlchemyError` raised by the driver is a
  `storeFails` parameter of each table operation. For `new` it is
  `faultAt`: 0 is the ledger insert, 1 the first balance update, 2 the
  second. The handlers turn it into "Creation fail.", "Update fail." and so
  on.
- **Refused statements.** An insert or update the store refuses (a taken or
  non-integer key, a missing NOT NULL column) raises the driver's
  IntegrityError, which is not an `SQLAlchemyError`. No handler catches it,
  so it is a separate error, `Database.IntegrityError`, with the server's
  generic 500 response.
- **The database transaction** is all-or-nothing: on any error both tables
  are restored.
- **The clock** (`datetime.now` in the age check) is a `currentYear`
  parameter.

Files, one module each:

| file | module | source |
|---|---|---|
| exceptions.dfy | `Exceptions` | core/exceptions.py |
| domain_rules.dfy | `DomainRules` | core/domain_rules.py |
| validators.dfy | `Validators` | core/validators.py |
| accounts_models.dfy | `AccountModels` | core/accounts/models.py |
| users_models.dfy | `UserModels` | core/users/models.py |
| database_controller.dfy | `Database` | core/database/controller.py |
| transactions_controller.dfy | `Transactions` | core/transactions/controllers.py, core/transactions/models.py |

The reference rule for transactions is `Transactions.Admissible`:

- a deposit of at least one cent into the account it comes from;
- a withdraw inside the cashout range, from and to the same account, that the
  balance covers;
- a transference between two different accounts, inside the transfer range,
  that the sender's balance covers.

The guards are proved to accept exactly the admissible transactions. The
balance effect is `Transactions.Apply`, which is the `update_` calls of `new`
computed from the account snapshots passed in. It is proved to:

- move the sender's and the receiver's balances by the value;
- keep every other balance;
- keep the total of all balances for a transference;
- never take a balance below zero when the snapshot is current.

## Model

| member | source | states |
|---|---|---|
| DomainRules.UserBoundsOrdered | core/domain_rules.py:10-26 | every user-rule minimum (password, age, username, first name, last name, CPF size) is at most its maximum |
| DomainRules.PatternBoundsAreSizeRules | core/domain_rules.py:16-32 | the repetition bounds of the username, first-name and last-name patterns are the corresponding size constants |
| DomainRules.TransactionBoundsConsistent | core/domain_rules.py:38-45 | every kind's minimum is one cent, deposit has no maximum, the cashout range is 1..500000 cents and the transfer range 1..1000000 cents |
| DomainRules.AccountSizes | core/domain_rules.py:51-59 | account numbers have 10 characters, type names at most 25, the number pattern is a digit search and the type pattern one or more letters |
| Validators.MinMaxValidatorAsWritten | core/validators.py:87-99 | with a numeric maximum the chained comparison is `min <= v <= max`; with the maximum None it raises exactly when `min <= v` |
| Validators.InRangeAgreesWithSource | core/validators.py:87-99 | the corrected range check agrees with the chained comparison wherever that does not raise, equals min_max_validator when a maximum is set, and is `min <= v` when it is absent |
| Validators.DepositRangeRaisesAsWritten | core/validators.py:99 | with the configured deposit rules, every value that reaches the minimum makes the comparison raise, although the corrected check accepts it |
| Validators.StrongPasswordValidator | core/validators.py:120-140 | a password is strong iff it contains an A-Z, an a-z, a digit and one of `!@#$%^&*()_+`, and has 8..20 characters |
| Validators.StrongPasswordExamples | tests/unit/test_validators.py:61-65 | the test suite's strong passwords 'StrongPassword@123' and '2C270a3@05c11E49' are accepted |
| Validators.LongStrongPasswordExample | tests/unit/test_validators.py:64 | the test suite's 20-character '8bc5fa9df07DD22f1$d2' is accepted |
| Validators.NoDigitPasswordIsWeak | core/validators.py:132 | a password without digits is weak |
| Validators.NoSymbolPasswordIsWeak | core/validators.py:133 | a password without a listed symbol is weak |
| Validators.OneCasePasswordsAreWeak | core/validators.py:130-131 | passwords missing upper or lower case letters are weak |
| Validators.PasswordSizeBounds | core/validators.py:134-138 | passwords of 7 and of 39 characters are weak |
| Validators.DigitValue | core/validators.py:26 | `int` of a digit character is a value 0..9 |
| Validators.DigitChar | core/validators.py:29-30 | `str` of a one-digit value is a digit character whose value is that digit |
| Validators.StripNonDigits | core/validators.py:12-15 | the `cpf` filter never lengthens its input and yields only digits |
| Validators.StripAppend | core/validators.py:14 | filtering distributes over concatenation, so the digits keep their order |
| Validators.StripKeepsDigitStrings | core/validators.py:14 | a string of digits passes the filter unchanged |
| Validators.StripIdempotent | core/validators.py:12-15 | reading the `cpf` property twice gives what reading it once gives |
| Validators.StripCounts | core/validators.py:14 | every digit keeps its number of occurrences and every other character disappears |
| Validators.WeightedSumSnoc | core/validators.py:23-27 | one more loop step adds the next digit times the next, one smaller, weight |
| Validators.WeightedSumLoop | core/validators.py:23-27 | the accumulation loop computes the sum of each digit times a weight that starts at the given one and drops by one per digit |
| Validators.CheckDigit | core/validators.py:29-30 | `11 - sum % 11`, with 0 above 9, is a digit 0..9 that makes the sum a multiple of 11 when the remainder is at least 2, and is 0 otherwise |
| Validators.FirstCheckDigit | core/validators.py:17-30 | the first check digit of a digit string is a digit |
| Validators.SecondCheckDigit | core/validators.py:32-45 | the second check digit, over the first nine digits plus the first check digit, is a digit |
| Validators.RepeatsFirstDigit | core/validators.py:69-76 | is_sequence holds iff the string is 11 copies of its first digit |
| Validators.ExpectedCpf | core/validators.py:47-59 | validate gives "" exactly for an empty, repeated or non-11-digit CPF, and otherwise the first nine digits followed by the two computed check digits |
| Validators.IsValidCpfCharacterization | core/validators.py:61-67 | a CPF is valid iff, punctuation ignored, it has 11 digits, not all equal, whose last two are the computed check digits |
| Validators.PunctuationIgnored | core/validators.py:12-15 | inserting a non-digit anywhere changes neither the stripped CPF nor the verdict |
| Validators.FirstWeightedSumExample | core/validators.py:23-27 | the first weighted sum of 979.820.400-04 is 309 |
| Validators.SecondWeightedSumExample | core/validators.py:38-42 | the second weighted sum of 979.820.400-04 is 348 |
| Validators.FirstCheckDigitExample | core/validators.py:17-30 | the first check digit of 979.820.400-04 is 0 |
| Validators.SecondCheckDigitExample | core/validators.py:32-45 | the second check digit of 979.820.400-04 is 4 |
| Validators.DigitStringCpf | core/validators.py:61-67 | on a string of digits the verdict depends only on length, repetition and the two check digits |
| Validators.ValidCpfExample | core/validators.py:61-67 | the test suite's CPF 97982040004 is valid |
| Validators.WrongCheckDigitCpfExample | core/validators.py:61-67 | the same CPF ending in 5 is invalid |
| Validators.CpfBySums | core/validators.py:17-67 | on 11 digits not all equal, a CPF is valid iff its 10th and 11th digits are the check digits of the weighted sums over the 9 and 10 digits before them |
| Validators.SecondValidCpfFirstSum | core/validators.py:23-27 | the first weighted sum of 15278053011 is 197 |
| Validators.SecondValidCpfSecondSum | core/validators.py:38-42 | the second weighted sum of 15278053011 is 230 |
| Validators.SecondValidCpfExample | tests/unit/test_validators.py:4-11 | the test suite's CPF 15278053011 is valid |
| Validators.ThirdValidCpfFirstSum | core/validators.py:23-27 | the first weighted sum of 64497369099 is 299 |
| Validators.ThirdValidCpfSecondSum | core/validators.py:38-42 | the second weighted sum of 64497369099 is 365 |
| Validators.ThirdValidCpfExample | tests/unit/test_validators.py:4-11 | the test suite's CPF 64497369099 is valid |
| Validators.WrongFirstDigitCpfExample | tests/unit/test_validators.py:14-21 | the test suite's CPF 25278053011 is invalid: its first check digit is 2, not 1 |
| Validators.RepeatedCpfExample | core/validators.py:69-76 | 11111111111 is invalid |
| Validators.WrongLengthCpf | core/validators.py:78-84 | a CPF without exactly 11 digits is invalid, whatever its digits |
| Validators.ShortCpfExample | core/validators.py:78-84 | the test suite's 6a497369099, which has 10 digits, is invalid |
| Validators.CpfValidator.constructor | core/validators.py:7-9 | the validator stores the input and the expected CPF of its digits |
| Validators.CpfValidator.Cpf | core/validators.py:12-15 | the property replaces the stored text by its digits and returns them |
| Validators.CpfValidator.CalculateFirstDigit | core/validators.py:17-30 | the loop returns the first check digit of the stripped text |
| Validators.CpfValidator.CalculateSecondDigit | core/validators.py:32-45 | the loop returns the second check digit of the stripped text |
| Validators.CpfValidator.Validate | core/validators.py:47-59 | returns the expected CPF of the stripped text |
| Validators.CpfValidator.IsValid | core/validators.py:61-67 | returns the validity of the input CPF and keeps the object's invariant |
| Validators.CpfValidator.IsSequence | core/validators.py:69-76 | returns whether the stripped text is one digit repeated 11 times |
| Validators.CpfValidator.HasValidLength | core/validators.py:78-84 | returns whether the stripped text has 11 digits |
| AccountModels.ValidateType | core/accounts/models.py:27-37 | the type name passes iff it is one or more ASCII letters; it is returned unchanged, else the 422 error with its message |
| AccountModels.ValidateNumber | core/accounts/models.py:62-83 | passes iff the number contains a digit and has 10 characters; the pattern message comes before the size message |
| AccountModels.ValidateAmount | core/accounts/models.py:85-93 | passes iff the amount is not negative, returning it unchanged |
| AccountModels.InvalidTypeExamples | tests/unit/accounts/test_account_type_model.py:15-25 | 'inv4lid', 'in_valid', 'not-valid' and 'not valid' are rejected and a plain name accepted |
| AccountModels.InvalidNumberExamples | core/accounts/models.py:67-81 | 9 or 11 digits fail for size, ten letters fail for the pattern, ten digits pass |
| AccountModels.UnanchoredNumberPattern | core/accounts/models.py:67-69 | because the digit search is unanchored, ten characters with one digit pass, e.g. '012345678a' |
| UserModels.ValidateUsername | core/users/models.py:77-87 | passes iff 2..20 letters, digits, underscores or spaces; else "Invalid username." |
| UserModels.ValidatePassword | core/users/models.py:89-94 | passes iff the password is strong; else "Password too weak." |
| UserModels.ValidateFirstName | core/users/models.py:96-103 | passes iff 2..45 ASCII letters; else "Invalid first name." |
| UserModels.ValidateLastName | core/users/models.py:105-112 | passes iff 2..100 letters or spaces; else "Invalid last name." |
| UserModels.ValidateCpf | core/users/models.py:114-118 | passes iff the CPF validator accepts the CPF; else "Invalid CPF" |
| UserModels.ValidateBirthdate | core/users/models.py:120-132 | passes iff the current year minus the birth year is in 18..120; else the age message |
| UserModels.Checks | core/users/models.py:68-75 | validate runs exactly six checks |
| UserModels.FirstFailure | core/users/models.py:68-75 | the first failing outcome of a sequence is failing and preceded only by passes; Pass iff all pass |
| UserModels.FirstFailureOfSix | core/users/models.py:68-75 | on six outcomes the first failure is found by testing them in turn |
| UserModels.Validate | core/users/models.py:68-75 | validate reports the first failure among the six checks in their order |
| UserModels.ValidateFirstFailure | core/users/models.py:68-75 | a user passes iff all six checks pass, and a failure is the first failing check |
| UserModels.FailuresAreUnprocessable | core/exceptions.py:4-8 | every user validation failure carries code 422 |
| UserModels.UsernameExamples | tests/unit/users/test_user_model.py:8-36 | the test suite's usernames are accepted or rejected as the tests expect |
| UserModels.FirstNameExamples | tests/unit/users/test_user_model.py:58-85 | 'invalid ', ' invalid', 'in_valid' and '1nvalid' are rejected |
| UserModels.LastNameExamples | tests/unit/users/test_user_model.py:87-103 | 'Santos Silva' passes; 'santos-silva', 'invalid_lastname', 'l4stname' fail |
| UserModels.BirthdateExamples | core/users/models.py:120-132 | the age bounds 18 and 120 are inclusive and only years count |
| Database.RequiredColumns | core/database/controller.py:79-95 | the NOT NULL columns are columns of the entity and never the key |
| Database.Defaults | core/database/controller.py:79-95 | the client-side defaults name only columns of the entity |
| Database.Keys | core/database/controller.py:85 | the names of the keyword arguments, in order |
| Database.ToRow | core/database/controller.py:91 | the row of a mapping has exactly its names, each bound to its value |
| Database.FirstUnknown | core/database/controller.py:139-146 | None iff every name is a column, else the first name that is not |
| Database.MaxId | core/database/controller.py:79-95 | the largest key is at least every key and is some row's key |
| Database.NextId | core/database/controller.py:79-95 | the assigned key is not taken, and is 1 in an empty table |
| Database.FirstMatch | core/database/controller.py:29-44 | the first row in table order whose field equals the value, None iff there is none |
| Database.Window | core/database/controller.py:51-71 | the rows after the skipped offset, at most `limit` of them (a negative limit means none is set), in table order |
| Database.PagesTile | core/database/controller.py:69-71 | consecutive pages of `a` and `b` rows concatenate to the page of `a + b` rows |
| Database.DefaultWindowIsWholeTable | core/database/controller.py:63-66 | with a non-int limit and offset, all returns a table of up to 1000 rows whole |
| Database.OutcomeOf | core/database/controller.py:88 | an outcome passes iff the result is Ok, and carries its error otherwise |
| Database.FieldCheck | core/accounts/models.py:27-93 | the hook for `number`, `amount` or `type` is that field's validator, and no other field can fail |
| Database.FieldChecks | core/database/controller.py:88 | the hooks pass iff every argument passes; a failure is one of them |
| Database.ToUser | core/database/controller.py:88 | the User of a row exists iff all six validated fields are present with the right kind, and holds their values |
| Database.EntityCheck | core/database/controller.py:88 | a user runs User.validate, an account or account type runs its field hooks (the missing `validate()` of these two is left out), a transaction always passes |
| Database.Insert | core/database/controller.py:90-91 | the inserted row holds every argument, defaults and the next key; it keeps the table well formed; it is refused iff the key is taken or not an integer or a NOT NULL column is missing |
| Database.UpdateRows | core/database/controller.py:110-113 | the row with the key gets the changed columns; every other row and column stays |
| Database.RemoveId | core/database/controller.py:133-135 | the result keeps every row with another key, only rows of the table, and none with the key |
| Database.RemoveIdWellFormed | core/database/controller.py:133-135 | deleting keeps the table well formed |
| Database.RemoveIdRemovesOne | core/database/controller.py:133-135 | deleting a present key removes exactly one row; deleting an absent key changes nothing |
| Database.DatabaseController.constructor | core/database/controller.py:19-23 | a controller holds its model and the table |
| Database.DatabaseController.Init | core/database/controller.py:19-23 | without a model construction fails with the AttributeError; with one it yields a controller over the table |
| Database.DatabaseController.CheckFields | core/database/controller.py:139-146 | passes iff every name is a column; else the 422 error naming the first unknown field |
| Database.DatabaseController.Get | core/database/controller.py:29-49 | an unknown field is refused before the store is read; a store failure gives the fetch error; else the first matching row or None |
| Database.DatabaseController.All | core/database/controller.py:51-77 | non-int limit and offset become 1000 and 0; a store failure gives "Error fetching data."; else the window |
| Database.DatabaseController.Create | core/database/controller.py:79-95 | unknown names, then the entity validation, then a store failure ("Creation fail."), then a refused row (the uncaught IntegrityError) are reported in that order and change nothing; else the row is appended and its key returned |
| Database.DatabaseController.Update | core/database/controller.py:97-116 | a non-int id returns false and changes nothing; unknown names are refused; a store failure gives "Update fail."; a refused key change gives the uncaught IntegrityError; else the named columns of the row with the key change, and the result, which stands for the driver's return value, is whether a row had the key |
| Database.DatabaseController.Delete | core/database/controller.py:124-137 | a store failure gives "Delete operation fail." and changes nothing; else the rows with the key are removed |
| Database.UpdateWellFormed | core/database/controller.py:110-113 | an update the store accepts keeps the table well formed |
| Database.FindById | core/database/controller.py:29-44 | in a well-formed table, get on a key finds the one row with it |
| Database.MissingIdNotFound | core/database/controller.py:29-44 | get on a key no row has finds nothing |
| Database.DeleteThenGet | tests/unit/database/test_database_controller.py:262-267 | after delete_(id), get('id', id) finds nothing |
| Database.CreateThenGet | tests/unit/database/test_database_controller.py:117-134 | after create, get on the new key returns the inserted row |
| Database.UpdateThenGet | tests/unit/database/test_database_controller.py:174-187 | after update_ of an existing key, get returns the old row with the named columns replaced |
| Database.NextIdPositive | core/transactions/controllers.py:80 | with non-negative keys the assigned key is positive, so `bool(created)` is true |
| Database.AllExamples | tests/unit/database/test_database_controller.py:59-114 | limit 2, offset 2, both, and non-int limit or offset give the rows the tests expect |
| Transactions.ValidateDeposit | core/transactions/controllers.py:96-123 | only deposits are checked; a deposit passes iff admissible; a value below the minimum is reported before an account mismatch |
| Transactions.ValidateWithdraw | core/transactions/controllers.py:125-156 | only withdraws are checked; a withdraw passes iff admissible; range, then account, then funds are reported in that order |
| Transactions.ValidateTransference | core/transactions/controllers.py:158-195 | only transferences are checked; passes iff admissible; self-transfer, then range, then funds are reported in that order |
| Transactions.Validate | core/transactions/controllers.py:82-94 | a transaction passes iff it is admissible; every failure is a TransactionException with code 422 |
| Transactions.ValidateReportsOwnGuard | core/transactions/controllers.py:92-94 | the failure reported is that of the guard of the transaction's own kind |
| Transactions.ValidateDepositAsWritten | core/transactions/controllers.py:109-123 | as written, a deposit below the minimum gets its message and every other deposit raises a TypeError |
| Transactions.DepositGuardAsWrittenRefusesAll | core/transactions/controllers.py:112-116 | no deposit passes the guard as written, while the corrected guard admits a deposit into one's own account |
| Transactions.ValidateWithdrawAsWritten | core/transactions/controllers.py:142-146 | as written, every withdraw raises AttributeError |
| Transactions.WithdrawGuardAsWrittenRefusesAll | core/transactions/controllers.py:142-146 | no withdraw passes the guard as written, while the corrected guard admits a covered withdraw |
| Transactions.DepositScenarios | tests/unit/transactions/test_transaction_controller.py:43-76 | deposits of 0 and -0.10 fail for the value; a deposit to another account fails for the account |
| Transactions.WithdrawScenarios | tests/unit/transactions/test_transaction_controller.py:79-116 | withdrawing 3.01 from 3 fails for funds, to another account for the account, above 5000 for the value; withdrawing all of it passes |
| Transactions.TransferenceScenarios | tests/unit/transactions/test_transaction_controller.py:118-156 | with 10 in each account: a self-transfer, 0, -0.01 and 10.01 fail with their messages; 10 passes |
| Transactions.TotalAmountReplace | core/transactions/controllers.py:50-76 | replacing one row moves the total by the difference of the two balances |
| Transactions.SetAmountIsReplace | core/database/controller.py:110-113 | setting the balance of an existing key replaces that row alone |
| Transactions.SetAmountEffect | core/transactions/controllers.py:50-76 | setting a balance keeps the table well formed, get shows the new balance and the total moves by the change |
| Transactions.SetAmountGet | core/transactions/controllers.py:50-76 | after setting a balance, get shows it |
| Transactions.SetAmountTotal | core/transactions/controllers.py:50-76 | setting a balance moves the total by the change of that balance |
| Transactions.SetAmountKeepsOthers | core/transactions/controllers.py:50-76 | setting one balance leaves what get shows for every other key |
| Transactions.FoundAccount | core/database/controller.py:29-44 | an account get finds has a row with its key and its balance |
| Transactions.CreditGet | core/transactions/controllers.py:50-55 | crediting keeps the table well formed and get shows the snapshot plus the delta |
| Transactions.CreditTotal | core/transactions/controllers.py:50-55 | crediting a current snapshot moves the total by the delta |
| Transactions.CreditOthers | core/transactions/controllers.py:50-55 | crediting one account leaves every other balance |
| Transactions.CreditEffect | core/transactions/controllers.py:50-55 | a credit of a current snapshot: new balance, total and other balances |
| Transactions.DebitEffect | core/transactions/controllers.py:57-62 | a debit of a current snapshot: new balance, total lower by the value, other balances unchanged |
| Transactions.DebitGet | core/transactions/controllers.py:57-62 | after a debit get shows the snapshot less the value |
| Transactions.DebitTotal | core/transactions/controllers.py:57-62 | a debit of a current snapshot lowers the total by the value |
| Transactions.DebitOthers | core/transactions/controllers.py:57-62 | a debit leaves every other balance |
| Transactions.DepositEffect | core/transactions/controllers.py:50-55 | an admissible deposit raises the balance and the total by the value; no other balance moves |
| Transactions.WithdrawEffect | core/transactions/controllers.py:57-62 | an admissible withdraw lowers the balance by the value, never below zero, and the total with it; no other balance moves |
| Transactions.TransferenceEffect | core/transactions/controllers.py:64-76 | an admissible transference debits the sender, which stays non-negative, credits the receiver, keeps the total and no third balance moves |
| Transactions.TransferenceBalances | core/transactions/controllers.py:64-76 | the sender ends with its snapshot less the value and the receiver with its snapshot plus the value |
| Transactions.TransferenceTotal | core/transactions/controllers.py:64-76 | a transference keeps the total of all balances |
| Transactions.TransferenceOthers | core/transactions/controllers.py:64-76 | a transference moves no third balance |
| Transactions.TransferenceScenarioBalances | tests/unit/transactions/test_transaction_controller.py:118-134 | transferring 10 from 10 to 10 leaves 0 and 20 |
| Transactions.LedgerMapping | core/transactions/controllers.py:43-48 | the ledger arguments are distinct columns of the transaction table, exactly its NOT NULL columns, with no key |
| Transactions.AmountMapping | core/transactions/controllers.py:52-55 | the `amount=` argument is a known column and describes the balance change |
| Transactions.LedgerRowContents | core/transactions/controllers.py:43-48 | the ledger row is accepted with the next key, both account keys, the value and the kind |
| Transactions.TransactionController.constructor | core/transactions/controllers.py:14-15 | the controller is a table controller of the Transaction model |
| Transactions.TransactionController.SetBalance | core/database/controller.py:97-116 | an `update_` of the amount fails with "Update fail." on a store failure, else sets the balance |
| Transactions.TransactionController.UpdateBalances | core/transactions/controllers.py:50-76 | the balance updates of each kind fail iff a store failure hits one of them, else leave the table at Apply |
| Transactions.TransactionController.DepositBalance | core/transactions/controllers.py:50-55 | the deposit update leaves the table at Apply unless the store fails |
| Transactions.TransactionController.WithdrawBalance | core/transactions/controllers.py:57-62 | the withdraw update leaves the table at Apply unless the store fails |
| Transactions.TransactionController.TransferBalances | core/transactions/controllers.py:64-76 | the two transference updates leave the table at Apply unless the store fails at either |
| Transactions.TransactionController.CreateLedgerRow | core/transactions/controllers.py:43-48 | the create appends the transaction's row with the next key, or fails with "Creation fail." and changes nothing |
| Transactions.TransactionController.Record | core/transactions/controllers.py:40-80 | a store failure at any step gives its error with both tables as they were; else one ledger row is appended, the balances are Apply and the result is true |
| Transactions.TransactionController.New | core/transactions/controllers.py:40-80 | an inadmissible transaction fails with its guard's error and changes nothing; an admissible one is recorded all-or-nothing as Record states |

## Left out

- The `else` branch "Invalid transaction type." of `new` cannot be reached: the transaction kind is a closed datatype of three values.
- The transaction `time` column and its server-side timestamp are not modelled. Neither are the `unique` constraints on account numbers and type names, or foreign keys.
- `__check_fields` uses `hasattr`, which also accepts non-column attributes of the model class (relationships, methods). The model accepts only column names.
- SQLite's type affinity is not modelled. A value of the wrong kind for a column is stored as given.
- A user row whose validated fields are missing or of the wrong kind fails with one TypeMismatch error. The source would raise whatever the validator hits first.
- Unicode semantics of `\w`, `\d` and `str.isnumeric`, and `$` matching before a trailing newline, are not modelled. Character classes are ASCII.
- Sub-cent values and `DECIMAL(10,2)` overflow are not modelled. Amounts are unbounded integer cents.
- The general regex engine of `regex_validator` is not modelled. Only the patterns the rules use are.
- Concurrency, isolation and locking of the database transaction are not modelled. `new` is a sequential all-or-nothing step.
- Stale snapshots are not modelled. `new` computes the new balances from the account snapshots it is given, as the source does. The effect lemmas assume each snapshot equals what the table holds.
- Rowid overflow and SQLite's random key choice after the largest rowid are not modelled. A new key is the largest key plus one.
- `query` is not modelled: it runs an arbitrary SQL statement.
- JWT, password hashing, routes, schemas and app wiring are not part of this model.
- The test expecting '012345678a' to be rejected as an account number contradicts the unanchored `\d+` search. The model follows the code (AccountModels.UnanchoredNumberPattern).
- The deposit test expecting code 500 for a deposit to another account contradicts the 422 default of TransactionException. The model follows the code.
- The test suite's formatted CPFs '979.820.400-04' and '979.820.400-05' have no example lemmas of their own. Validators.PunctuationIgnored shows that their punctuation leaves the verdict of the digit strings unchanged, and those digit strings are given example lemmas.
- Database.EntityCheck: Account and AccountType define no `validate()`, so `create` as written raises an uncaught AttributeError after their field hooks pass, and no account or account type is inserted. The model counts passing hooks as success for these two entities.
- `DatabaseException` is imported by core/database/controller.py but not defined in core/exceptions.py, so the controller module cannot be imported as written. The model supplies it as the `DatabaseError` kind, with the codes the controller's tests expect: 422 for an unknown field and 500 for the store errors.
- Database.DatabaseController.Delete: takes an int key, which is what its one caller passes. A non-int key, which SQLite would compare by the column's type affinity, is not modelled.
- Database.DatabaseController.Update: `update_` returns whatever the driver's `execute` returns; the model abstracts that value to whether a row had the key, which is what the tests check for truth.
- Transactions.TransactionController.New: returns `bool(created)` as `NextId != 0`; it is true whenever keys are non-negative (Database.NextIdPositive), but the model does not fix the driver's `lastrowid` semantics.

## Findings

| source | as written | input that shows it | evidently intended | confidence | as-written member | corrected member |
|---|---|---|---|---|---|---|
| core/transactions/controllers.py:112-116, core/validators.py:99, core/domain_rules.py:39 | the deposit range check calls `min_ <= value <= max_` with `max_` None, which raises TypeError once `value >= min_` | a deposit of 10.00 into one's own account (the deposit test's scenario) | no maximum for deposits: `min_ <= value` alone | not executed | Transactions.ValidateDepositAsWritten, Transactions.DepositGuardAsWrittenRefusesAll, Validators.DepositRangeRaisesAsWritten | Transactions.ValidateDeposit, Validators.InRangeAgreesWithSource |
| core/transactions/controllers.py:142-146 | validate_withdraw reads MIN_WITHDRAW_VALUE and MAX_WITHDRAW_VALUE, which TransactionRules does not define, so it raises AttributeError | any withdraw, e.g. 1.00 from a balance of 3.00 | the cashout bounds MIN_CASHOUT_VALUE..MAX_CASHOUT_VALUE | not executed | Transactions.ValidateWithdrawAsWritten, Transactions.WithdrawGuardAsWrittenRefusesAll | Transactions.ValidateWithdraw |
