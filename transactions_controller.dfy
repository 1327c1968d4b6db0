/** The ledger engine of core/transactions/controllers.py: a transaction is
    validated against its kind, written to the transaction table and applied
    to the balances of the accounts it names, all inside one database
    transaction that is rolled back on any error.

    Money is in integer cents. The accounts a caller passes are the snapshots
    it read before the call; the new balances are computed from those
    snapshots, as the source does. */
module Transactions {
  import opened Exceptions
  import opened DomainRules
  import opened Validators
  import opened Database

  /** TransactionType. */
  datatype TransactionType = Deposit | Withdraw | Transference

  /** The value the `type` column stores. */
  function TypeName(kind: TransactionType): string {
    match kind
    case Deposit => "deposit"
    case Withdraw => "withdraw"
    case Transference => "transference"
  }

  /** What a transaction reads of an Account instance: its key and balance. */
  datatype Account = Account(id: int, amount: int)

  const DepositValueDetail: string := "Invalid deposit value"
  const DepositOtherDetail: string := "you can only to deposit on your account"
  const WithdrawValueDetail: string := "Invalid withdraw value."
  const WithdrawOtherDetail: string := "You can't withdraw to other account."
  const WithdrawFundsDetail: string := "Insufficient funds to withdraw."
  const TransferSelfDetail: string := "you can't make a transfer to yourself"
  /** The range message, with MinTransferValue (0.01) and MaxTransferValue
      (10000) written as the source formats them. */
  const TransferValueDetail: string := "Invalid transference value. (min: 0.01, max: 10000)"
  const TransferFundsDetail: string := "Insufficient funds."

  /** A TransactionException: a validation error with code 422. */
  function TransactionFailure(detail: string): Outcome {
    Fail(Validation(TransactionError, detail))
  }

  // ---------------------------------------------------------------------------
  // The reference rule
  // ---------------------------------------------------------------------------

  /** When a transaction may be made: a deposit of at least one cent into the
      account it comes from; a withdraw within the cashout range from the
      same account, covered by its balance; a transference between two
      different accounts within the transfer range, covered by the sender's
      balance. */
  predicate Admissible(kind: TransactionType, value: int, from: Account, to: Account) {
    match kind
    case Deposit => MinDepositValue <= value && from.id == to.id
    case Withdraw =>
      MinCashoutValue <= value <= MaxCashoutValue && from.id == to.id && value <= from.amount
    case Transference =>
      from.id != to.id && MinTransferValue <= value <= MaxTransferValue && value <= from.amount
  }

  // ---------------------------------------------------------------------------
  // The guards
  // ---------------------------------------------------------------------------

  /** validate_deposit: only deposits are checked; the value must reach the
      minimum (there is no maximum), then both accounts must be the same. */
  function ValidateDeposit(kind: TransactionType, value: int, accountFrom: Account, accountTo: Account): (o: Outcome)
    ensures kind != Deposit ==> o.Pass?
    ensures kind == Deposit ==> (o.Pass? <==> Admissible(kind, value, accountFrom, accountTo))
    ensures kind == Deposit && value < MinDepositValue ==> o == TransactionFailure(DepositValueDetail)
    ensures kind == Deposit && value >= MinDepositValue && accountFrom.id != accountTo.id ==>
              o == TransactionFailure(DepositOtherDetail)
  {
    if kind != Deposit then Pass
    else if !InRange(MinDepositValue, MaxDepositValue, value) then TransactionFailure(DepositValueDetail)
    else if accountFrom.id != accountTo.id then TransactionFailure(DepositOtherDetail)
    else Pass
  }

  /** validate_withdraw (note the order of the account parameters): only
      withdraws are checked; the value must lie in the cashout range, the
      accounts must be the same, and the value may not exceed the balance. */
  function ValidateWithdraw(kind: TransactionType, value: int, toAccount: Account, fromAccount: Account): (o: Outcome)
    ensures kind != Withdraw ==> o.Pass?
    ensures kind == Withdraw ==> (o.Pass? <==> Admissible(kind, value, fromAccount, toAccount))
    ensures kind == Withdraw && !(MinCashoutValue <= value <= MaxCashoutValue) ==>
              o == TransactionFailure(WithdrawValueDetail)
    ensures kind == Withdraw && MinCashoutValue <= value <= MaxCashoutValue && fromAccount.id != toAccount.id ==>
              o == TransactionFailure(WithdrawOtherDetail)
    ensures kind == Withdraw && MinCashoutValue <= value <= MaxCashoutValue && fromAccount.id == toAccount.id
            && value > fromAccount.amount ==>
              o == TransactionFailure(WithdrawFundsDetail)
  {
    if kind != Withdraw then Pass
    else if !InRange(MinCashoutValue, Some(MaxCashoutValue), value) then TransactionFailure(WithdrawValueDetail)
    else if fromAccount.id != toAccount.id then TransactionFailure(WithdrawOtherDetail)
    else if value > fromAccount.amount then TransactionFailure(WithdrawFundsDetail)
    else Pass
  }

  /** validate_transference: only transferences are checked; a transfer to
      oneself is refused first, then a value outside the transfer range, then
      a value the sender's balance does not cover. */
  function ValidateTransference(kind: TransactionType, value: int, fromAccount: Account, toAccount: Account): (o: Outcome)
    ensures kind != Transference ==> o.Pass?
    ensures kind == Transference ==> (o.Pass? <==> Admissible(kind, value, fromAccount, toAccount))
    ensures kind == Transference && fromAccount.id == toAccount.id ==> o == TransactionFailure(TransferSelfDetail)
    ensures kind == Transference && fromAccount.id != toAccount.id && !(MinTransferValue <= value <= MaxTransferValue) ==>
              o == TransactionFailure(TransferValueDetail)
    ensures kind == Transference && fromAccount.id != toAccount.id && MinTransferValue <= value <= MaxTransferValue
            && fromAccount.amount < value ==>
              o == TransactionFailure(TransferFundsDetail)
  {
    if kind != Transference then Pass
    else if fromAccount.id == toAccount.id then TransactionFailure(TransferSelfDetail)
    else if !InRange(MinTransferValue, Some(MaxTransferValue), value) then TransactionFailure(TransferValueDetail)
    else if fromAccount.amount < value then TransactionFailure(TransferFundsDetail)
    else Pass
  }

  /** validate: the three guards in turn; the first failure is raised. A
      transaction passes exactly when it is admissible, and every failure is
      a TransactionException with code 422. */
  function Validate(kind: TransactionType, value: int, fromAccount: Account, toAccount: Account): (o: Outcome)
    ensures o.Pass? <==> Admissible(kind, value, fromAccount, toAccount)
    ensures o.Fail? ==> o.error.kind == TransactionError && o.error.code == UnprocessableEntity
  {
    var d := ValidateDeposit(kind, value, fromAccount, toAccount);
    if d.Fail? then d
    else
      var w := ValidateWithdraw(kind, value, toAccount, fromAccount);
      if w.Fail? then w
      else ValidateTransference(kind, value, fromAccount, toAccount)
  }

  /** The failure validate reports is the one of the guard of the
      transaction's own kind. */
  lemma ValidateReportsOwnGuard(kind: TransactionType, value: int, from: Account, to: Account)
    ensures kind == Deposit ==> Validate(kind, value, from, to) == ValidateDeposit(kind, value, from, to)
    ensures kind == Withdraw ==> Validate(kind, value, from, to) == ValidateWithdraw(kind, value, to, from)
    ensures kind == Transference ==> Validate(kind, value, from, to) == ValidateTransference(kind, value, from, to)
  {
  }

  // ---------------------------------------------------------------------------
  // The guards as written
  // ---------------------------------------------------------------------------

  /** validate_deposit as written: min_max_validator is called with the
      missing deposit maximum, so every value that reaches the minimum makes
      the comparison with None raise a TypeError. */
  function ValidateDepositAsWritten(kind: TransactionType, value: int, accountFrom: Account, accountTo: Account): (o: Outcome)
    ensures kind != Deposit ==> o.Pass?
    ensures kind == Deposit && value < MinDepositValue ==> o == TransactionFailure(DepositValueDetail)
    ensures kind == Deposit && value >= MinDepositValue ==> o.Fail? && o.error.kind == TypeMismatch
  {
    if kind != Deposit then Pass
    else
      match MinMaxValidatorAsWritten(MinDepositValue, MaxDepositValue, value)
      case Err(e) => Fail(e)
      case Ok(valid) =>
        if !valid then TransactionFailure(DepositValueDetail)
        else if accountFrom.id != accountTo.id then TransactionFailure(DepositOtherDetail)
        else Pass
  }

  /** No deposit passes the guard as written, though the corrected guard
      admits a deposit of ten units into one's own account; a deposit into
      another account is reported as a TypeError, not with its message. */
  lemma DepositGuardAsWrittenRefusesAll(value: int, a: Account, b: Account)
    ensures ValidateDepositAsWritten(Deposit, value, a, b).Fail?
    ensures value >= MinDepositValue && a.id != b.id ==>
              ValidateDepositAsWritten(Deposit, value, a, b).error.kind == TypeMismatch
              && ValidateDeposit(Deposit, value, a, b) == TransactionFailure(DepositOtherDetail)
    ensures ValidateDeposit(Deposit, 1000, a, a).Pass?
  {
  }

  const MissingWithdrawRuleError: Error :=
    Error(MissingAttribute, "'TransactionRules' object has no attribute 'MIN_WITHDRAW_VALUE'", InternalServerError)

  /** validate_withdraw as written: it reads MIN_WITHDRAW_VALUE and
      MAX_WITHDRAW_VALUE, which the transaction rules do not define (they
      define the CASHOUT bounds), so every withdraw raises AttributeError. */
  function ValidateWithdrawAsWritten(kind: TransactionType, value: int, toAccount: Account, fromAccount: Account): (o: Outcome)
    ensures kind != Withdraw ==> o.Pass?
    ensures kind == Withdraw ==> o == Fail(MissingWithdrawRuleError)
  {
    if kind != Withdraw then Pass else Fail(MissingWithdrawRuleError)
  }

  /** No withdraw passes the guard as written, though the corrected guard
      admits a withdraw of one unit from a balance of three. */
  lemma WithdrawGuardAsWrittenRefusesAll(value: int, a: Account, b: Account)
    ensures ValidateWithdrawAsWritten(Withdraw, value, b, a).Fail?
    ensures ValidateWithdrawAsWritten(Withdraw, value, b, a).error.code == InternalServerError
    ensures ValidateWithdraw(Withdraw, 100, Account(1, 300), Account(1, 300)).Pass?
  {
  }

  // ---------------------------------------------------------------------------
  // Guard scenarios
  // ---------------------------------------------------------------------------

  /** Deposits of zero or a negative value are refused for the value. */
  lemma DepositScenarios(a: Account, b: Account)
    ensures Validate(Deposit, 0, a, a) == TransactionFailure(DepositValueDetail)
    ensures Validate(Deposit, -10, a, a) == TransactionFailure(DepositValueDetail)
    ensures a.id != b.id ==> Validate(Deposit, 100, a, b) == TransactionFailure(DepositOtherDetail)
  {
  }

  /** Withdrawing 3.01 from a balance of 3 fails for funds; withdrawing to
      another account fails for the account; above 5000 fails for the value. */
  lemma WithdrawScenarios()
    ensures Validate(Withdraw, 301, Account(1, 300), Account(1, 300)) == TransactionFailure(WithdrawFundsDetail)
    ensures Validate(Withdraw, 300, Account(1, 300), Account(2, 0)) == TransactionFailure(WithdrawOtherDetail)
    ensures Validate(Withdraw, 500001, Account(1, 1000000), Account(1, 1000000)) == TransactionFailure(WithdrawValueDetail)
    ensures Validate(Withdraw, 300, Account(1, 300), Account(1, 300)).Pass?
  {
  }

  /** With 10 in each account: a transfer to oneself, of 0, of -0.01 and of
      10.01 fail with their messages; the self-transfer is reported even when
      the value is also out of range. */
  lemma TransferenceScenarios()
    ensures Validate(Transference, 1000, Account(1, 1000), Account(1, 1000)) == TransactionFailure(TransferSelfDetail)
    ensures Validate(Transference, 0, Account(1, 1000), Account(1, 1000)) == TransactionFailure(TransferSelfDetail)
    ensures Validate(Transference, 0, Account(1, 1000), Account(2, 1000)) == TransactionFailure(TransferValueDetail)
    ensures Validate(Transference, -1, Account(1, 1000), Account(2, 1000)) == TransactionFailure(TransferValueDetail)
    ensures Validate(Transference, 1001, Account(1, 1000), Account(2, 1000)) == TransactionFailure(TransferFundsDetail)
    ensures Validate(Transference, 1000, Account(1, 1000), Account(2, 1000)).Pass?
  {
  }

  // ---------------------------------------------------------------------------
  // Balances in the account table
  // ---------------------------------------------------------------------------

  /** The cents a stored value holds; anything that is not a number counts 0. */
  function Cents(v: Value): int {
    match v
    case Int(i) => i
    case Money(c) => c
    case _ => 0
  }

  /** The balance of an account row. */
  function Balance(row: Row): int {
    if "amount" in row then Cents(row["amount"]) else 0
  }

  /** The balance `get('id', id)` shows, or None when no account has the key. */
  function AmountOf(rows: seq<Row>, id: int): Option<int> {
    match FirstMatch(rows, "id", Int(id))
    case Some(row) => Some(Balance(row))
    case None => None
  }

  /** The sum of all balances. */
  function TotalAmount(rows: seq<Row>): int {
    if |rows| == 0 then 0 else Balance(rows[0]) + TotalAmount(rows[1..])
  }

  /** `update_(id, amount=cents)` on the account table. */
  function SetAmount(rows: seq<Row>, id: int, cents: int): seq<Row>
    requires HasIntIds(rows)
  {
    UpdateRows(rows, id, map["amount" := Money(cents)])
  }

  /** `update_(account.id, amount=account.amount + delta)`: the balance of the
      snapshot moved by `delta`. */
  function Credit(rows: seq<Row>, account: Account, delta: int): seq<Row>
    requires HasIntIds(rows)
  {
    SetAmount(rows, account.id, account.amount + delta)
  }

  /** `update_(account.id, amount=account.amount - value)`: the balance of the
      snapshot lowered by `value`. */
  function Debit(rows: seq<Row>, account: Account, value: int): seq<Row>
    requires HasIntIds(rows)
  {
    SetAmount(rows, account.id, account.amount - value)
  }

  /** The account table after the balance updates of a transaction, computed
      from the snapshots: a deposit adds to the sender, a withdraw takes from
      it, a transference moves the value from the sender to the receiver. */
  function Apply(rows: seq<Row>, kind: TransactionType, from: Account, to: Account, value: int): seq<Row>
    requires HasIntIds(rows)
  {
    match kind
    case Deposit => SetAmount(rows, from.id, from.amount + value)
    case Withdraw => SetAmount(rows, from.id, from.amount - value)
    case Transference => SetAmount(SetAmount(rows, from.id, from.amount - value), to.id, to.amount + value)
  }

  /** Replacing one row changes the total by the difference of the two balances. */
  lemma {:induction false} TotalAmountReplace(rows: seq<Row>, k: int, row: Row)
    requires 0 <= k < |rows|
    ensures TotalAmount(rows[k := row]) == TotalAmount(rows) - Balance(rows[k]) + Balance(row)
  {
    if k > 0 {
      TotalAmountReplace(rows[1..], k - 1, row);
      assert rows[k := row][1..] == rows[1..][k - 1 := row];
    } else {
      assert rows[k := row][1..] == rows[1..];
    }
  }

  /** In a well-formed table, setting the balance of the row at `k` replaces
      that row alone. */
  lemma SetAmountIsReplace(rows: seq<Row>, k: int, cents: int)
    requires WellFormed(AccountModel, rows) && 0 <= k < |rows|
    ensures SetAmount(rows, RowId(rows[k]), cents) == rows[k := rows[k]["amount" := Money(cents)]]
  {
    var r := SetAmount(rows, RowId(rows[k]), cents);
    var s := rows[k := rows[k]["amount" := Money(cents)]];
    assert rows[k] + map["amount" := Money(cents)] == rows[k]["amount" := Money(cents)];
    forall i | 0 <= i < |rows| ensures r[i] == s[i] {
      if i != k {
        assert RowId(rows[i]) != RowId(rows[k]);
      }
    }
  }

  /** Setting the balance of an existing account: the table stays well formed,
      get shows the new balance, and the total moves by the change of that
      one balance. */
  lemma SetAmountEffect(rows: seq<Row>, k: int, id: int, cents: int)
    requires WellFormed(AccountModel, rows) && 0 <= k < |rows| && RowId(rows[k]) == id
    ensures WellFormed(AccountModel, SetAmount(rows, id, cents))
    ensures AmountOf(SetAmount(rows, id, cents), id) == Some(cents)
    ensures TotalAmount(SetAmount(rows, id, cents)) == TotalAmount(rows) - Balance(rows[k]) + cents
  {
    UpdateWellFormed(AccountModel, rows, id, map["amount" := Money(cents)]);
    SetAmountGet(rows, k, id, cents);
    SetAmountTotal(rows, k, id, cents);
  }

  /** Setting the balance of an existing account: get shows the new balance. */
  lemma SetAmountGet(rows: seq<Row>, k: int, id: int, cents: int)
    requires WellFormed(AccountModel, rows) && 0 <= k < |rows| && RowId(rows[k]) == id
    ensures AmountOf(SetAmount(rows, id, cents), id) == Some(cents)
  {
    UpdateWellFormed(AccountModel, rows, id, map["amount" := Money(cents)]);
    SetAmountIsReplace(rows, k, cents);
    FindById(AccountModel, SetAmount(rows, id, cents), k);
  }

  /** Setting the balance of an existing account moves the total by the
      change of that one balance. */
  lemma SetAmountTotal(rows: seq<Row>, k: int, id: int, cents: int)
    requires WellFormed(AccountModel, rows) && 0 <= k < |rows| && RowId(rows[k]) == id
    ensures TotalAmount(SetAmount(rows, id, cents)) == TotalAmount(rows) - Balance(rows[k]) + cents
  {
    SetAmountIsReplace(rows, k, cents);
    TotalAmountReplace(rows, k, rows[k]["amount" := Money(cents)]);
  }

  /** Setting the balance of one account leaves what get shows for every
      other key as it was. */
  lemma SetAmountKeepsOthers(rows: seq<Row>, id: int, cents: int, other: int)
    requires WellFormed(AccountModel, rows) && other != id
    ensures AmountOf(SetAmount(rows, id, cents), other) == AmountOf(rows, other)
  {
    var r := SetAmount(rows, id, cents);
    UpdateWellFormed(AccountModel, rows, id, map["amount" := Money(cents)]);
    if j :| 0 <= j < |rows| && RowId(rows[j]) == other {
      FindById(AccountModel, rows, j);
      FindById(AccountModel, r, j);
    } else {
      assert !HasId(r, other);
      MissingIdNotFound(rows, other);
      MissingIdNotFound(r, other);
    }
  }

  /** The row of an account get finds. */
  lemma FoundAccount(rows: seq<Row>, id: int) returns (k: int)
    requires WellFormed(AccountModel, rows) && AmountOf(rows, id).Some?
    ensures 0 <= k < |rows| && RowId(rows[k]) == id && Balance(rows[k]) == AmountOf(rows, id).value
  {
    k :| 0 <= k < |rows| && rows[k] == FirstMatch(rows, "id", Int(id)).value && "id" in rows[k] && rows[k]["id"] == Int(id);
  }

  /** Crediting an existing account: the table stays well formed and get
      shows the snapshot's balance moved by `delta`. */
  lemma CreditGet(rows: seq<Row>, account: Account, delta: int)
    requires WellFormed(AccountModel, rows) && AmountOf(rows, account.id).Some?
    ensures WellFormed(AccountModel, Credit(rows, account, delta))
    ensures AmountOf(Credit(rows, account, delta), account.id) == Some(account.amount + delta)
  {
    var c := account.amount + delta;
    assert Credit(rows, account, delta) == SetAmount(rows, account.id, c);
    var k := FoundAccount(rows, account.id);
    SetAmountEffect(rows, k, account.id, c);
  }

  /** Crediting an account whose snapshot is current moves the total by `delta`. */
  lemma CreditTotal(rows: seq<Row>, account: Account, delta: int)
    requires WellFormed(AccountModel, rows) && AmountOf(rows, account.id) == Some(account.amount)
    ensures TotalAmount(Credit(rows, account, delta)) == TotalAmount(rows) + delta
  {
    var c := account.amount + delta;
    assert Credit(rows, account, delta) == SetAmount(rows, account.id, c);
    var k := FoundAccount(rows, account.id);
    SetAmountEffect(rows, k, account.id, c);
  }

  /** Crediting one account leaves every other balance as get shows it. */
  lemma CreditOthers(rows: seq<Row>, account: Account, delta: int)
    requires WellFormed(AccountModel, rows)
    ensures forall id :: id != account.id ==> AmountOf(Credit(rows, account, delta), id) == AmountOf(rows, id)
  {
    forall id | id != account.id ensures AmountOf(Credit(rows, account, delta), id) == AmountOf(rows, id) {
      SetAmountKeepsOthers(rows, account.id, account.amount + delta, id);
    }
  }

  /** Crediting an account whose snapshot is current: the new balance is the
      old one moved by `delta`, the total moves by `delta`, nothing else
      changes. */
  lemma CreditEffect(rows: seq<Row>, account: Account, delta: int)
    requires WellFormed(AccountModel, rows) && AmountOf(rows, account.id) == Some(account.amount)
    ensures WellFormed(AccountModel, Credit(rows, account, delta))
    ensures AmountOf(Credit(rows, account, delta), account.id) == Some(account.amount + delta)
    ensures TotalAmount(Credit(rows, account, delta)) == TotalAmount(rows) + delta
    ensures forall id :: id != account.id ==> AmountOf(Credit(rows, account, delta), id) == AmountOf(rows, id)
  {
    CreditGet(rows, account, delta);
    CreditTotal(rows, account, delta);
    CreditOthers(rows, account, delta);
  }

  /** Debiting an account whose snapshot is current: the new balance is the
      old one less `value`, the total drops by `value`, nothing else changes. */
  lemma DebitEffect(rows: seq<Row>, account: Account, value: int)
    requires WellFormed(AccountModel, rows) && AmountOf(rows, account.id) == Some(account.amount)
    ensures WellFormed(AccountModel, Debit(rows, account, value))
    ensures AmountOf(Debit(rows, account, value), account.id) == Some(account.amount - value)
    ensures TotalAmount(Debit(rows, account, value)) == TotalAmount(rows) - value
    ensures forall id :: id != account.id ==> AmountOf(Debit(rows, account, value), id) == AmountOf(rows, id)
  {
    DebitGet(rows, account, value);
    DebitTotal(rows, account, value);
    DebitOthers(rows, account, value);
  }

  /** Debiting an existing account: the table stays well formed and get
      shows the snapshot's balance less `value`. */
  lemma DebitGet(rows: seq<Row>, account: Account, value: int)
    requires WellFormed(AccountModel, rows) && AmountOf(rows, account.id).Some?
    ensures WellFormed(AccountModel, Debit(rows, account, value))
    ensures AmountOf(Debit(rows, account, value), account.id) == Some(account.amount - value)
  {
    var c := account.amount - value;
    assert Debit(rows, account, value) == SetAmount(rows, account.id, c);
    var k := FoundAccount(rows, account.id);
    SetAmountEffect(rows, k, account.id, c);
  }

  /** Debiting an account whose snapshot is current lowers the total by `value`. */
  lemma DebitTotal(rows: seq<Row>, account: Account, value: int)
    requires WellFormed(AccountModel, rows) && AmountOf(rows, account.id) == Some(account.amount)
    ensures TotalAmount(Debit(rows, account, value)) == TotalAmount(rows) - value
  {
    var c := account.amount - value;
    assert Debit(rows, account, value) == SetAmount(rows, account.id, c);
    var k := FoundAccount(rows, account.id);
    SetAmountTotal(rows, k, account.id, c);
  }

  /** Debiting one account leaves every other balance as get shows it. */
  lemma DebitOthers(rows: seq<Row>, account: Account, value: int)
    requires WellFormed(AccountModel, rows)
    ensures forall id :: id != account.id ==> AmountOf(Debit(rows, account, value), id) == AmountOf(rows, id)
  {
    var c := account.amount - value;
    assert Debit(rows, account, value) == SetAmount(rows, account.id, c);
    forall id | id != account.id ensures AmountOf(Debit(rows, account, value), id) == AmountOf(rows, id) {
      SetAmountKeepsOthers(rows, account.id, c, id);
    }
  }

  /** An admissible deposit into an account whose snapshot is current raises
      its balance by the value and the total with it; no other balance moves. */
  lemma DepositEffect(rows: seq<Row>, from: Account, to: Account, value: int)
    requires WellFormed(AccountModel, rows) && Admissible(Deposit, value, from, to)
    requires AmountOf(rows, from.id) == Some(from.amount)
    ensures AmountOf(Apply(rows, Deposit, from, to, value), from.id) == Some(from.amount + value)
    ensures from.amount < from.amount + value
    ensures TotalAmount(Apply(rows, Deposit, from, to, value)) == TotalAmount(rows) + value
    ensures forall id :: id != from.id ==> AmountOf(Apply(rows, Deposit, from, to, value), id) == AmountOf(rows, id)
  {
    CreditEffect(rows, from, value);
  }

  /** An admissible withdraw from an account whose snapshot is current lowers
      its balance by the value, never below zero, and the total with it; no
      other balance moves. */
  lemma WithdrawEffect(rows: seq<Row>, from: Account, to: Account, value: int)
    requires WellFormed(AccountModel, rows) && Admissible(Withdraw, value, from, to)
    requires AmountOf(rows, from.id) == Some(from.amount)
    ensures AmountOf(Apply(rows, Withdraw, from, to, value), from.id) == Some(from.amount - value)
    ensures 0 <= from.amount - value < from.amount
    ensures TotalAmount(Apply(rows, Withdraw, from, to, value)) == TotalAmount(rows) - value
    ensures forall id :: id != from.id ==> AmountOf(Apply(rows, Withdraw, from, to, value), id) == AmountOf(rows, id)
  {
    DebitEffect(rows, from, value);
  }

  /** An admissible transference between accounts whose snapshots are current
      moves the value from the sender, whose balance stays non-negative, to
      the receiver; the total of all balances is unchanged and no third
      balance moves. */
  lemma TransferenceEffect(rows: seq<Row>, from: Account, to: Account, value: int)
    requires WellFormed(AccountModel, rows) && Admissible(Transference, value, from, to)
    requires AmountOf(rows, from.id) == Some(from.amount) && AmountOf(rows, to.id) == Some(to.amount)
    ensures AmountOf(Apply(rows, Transference, from, to, value), from.id) == Some(from.amount - value)
    ensures AmountOf(Apply(rows, Transference, from, to, value), to.id) == Some(to.amount + value)
    ensures from.amount - value >= 0
    ensures TotalAmount(Apply(rows, Transference, from, to, value)) == TotalAmount(rows)
    ensures forall id :: id != from.id && id != to.id ==>
              AmountOf(Apply(rows, Transference, from, to, value), id) == AmountOf(rows, id)
  {
    TransferenceBalances(rows, from, to, value);
    TransferenceTotal(rows, from, to, value);
    TransferenceOthers(rows, from, to, value);
  }

  /** The sender ends with its snapshot less the value, the receiver with its
      snapshot plus the value. */
  lemma TransferenceBalances(rows: seq<Row>, from: Account, to: Account, value: int)
    requires WellFormed(AccountModel, rows) && from.id != to.id
    requires AmountOf(rows, from.id) == Some(from.amount) && AmountOf(rows, to.id) == Some(to.amount)
    ensures AmountOf(Apply(rows, Transference, from, to, value), from.id) == Some(from.amount - value)
    ensures AmountOf(Apply(rows, Transference, from, to, value), to.id) == Some(to.amount + value)
  {
    var debited := Debit(rows, from, value);
    assert Apply(rows, Transference, from, to, value) == Credit(debited, to, value);
    DebitEffect(rows, from, value);
    CreditGet(debited, to, value);
    CreditOthers(debited, to, value);
  }

  /** A transference leaves the total of all balances unchanged. */
  lemma TransferenceTotal(rows: seq<Row>, from: Account, to: Account, value: int)
    requires WellFormed(AccountModel, rows) && from.id != to.id
    requires AmountOf(rows, from.id) == Some(from.amount) && AmountOf(rows, to.id) == Some(to.amount)
    ensures TotalAmount(Apply(rows, Transference, from, to, value)) == TotalAmount(rows)
  {
    DebitEffect(rows, from, value);
    CreditTotal(Debit(rows, from, value), to, value);
  }

  /** A transference moves no third balance. */
  lemma TransferenceOthers(rows: seq<Row>, from: Account, to: Account, value: int)
    requires WellFormed(AccountModel, rows) && AmountOf(rows, from.id) == Some(from.amount)
    ensures forall id :: id != from.id && id != to.id ==>
              AmountOf(Apply(rows, Transference, from, to, value), id) == AmountOf(rows, id)
  {
    DebitEffect(rows, from, value);
    CreditOthers(Debit(rows, from, value), to, value);
  }

  /** The transference of the tests: 10 from an account holding 10 to another
      holding 10 leaves 0 and 20. */
  lemma TransferenceScenarioBalances(rows: seq<Row>)
    requires WellFormed(AccountModel, rows)
    requires AmountOf(rows, 1) == Some(1000) && AmountOf(rows, 2) == Some(1000)
    ensures var r := Apply(rows, Transference, Account(1, 1000), Account(2, 1000), 1000);
      AmountOf(r, 1) == Some(0) && AmountOf(r, 2) == Some(2000)
  {
    TransferenceEffect(rows, Account(1, 1000), Account(2, 1000), 1000);
  }

  // ---------------------------------------------------------------------------
  // The ledger row
  // ---------------------------------------------------------------------------

  /** The arguments of the `create` call that records a transaction. */
  function LedgerMapping(from: Account, to: Account, value: int, kind: TransactionType): (mapping: Mapping)
    ensures DistinctKeys(mapping) && "id" !in KeySet(mapping)
    ensures KeySet(mapping) == RequiredColumns(TransactionModel)
    ensures FirstUnknown(TransactionModel, Keys(mapping)).None?
  {
    var mapping := [("from_account_id", Int(from.id)), ("to_account_id", Int(to.id)),
                    ("value", Money(value)), ("type", Text(TypeName(kind)))];
    assert mapping[0].0 == "from_account_id" && mapping[1].0 == "to_account_id";
    assert mapping[2].0 == "value" && mapping[3].0 == "type";
    mapping
  }

  /** The arguments of the `update_` call that sets a balance. */
  function AmountMapping(cents: int): (mapping: Mapping)
    ensures DistinctKeys(mapping) && ToRow(mapping) == map["amount" := Money(cents)]
    ensures FirstUnknown(AccountModel, Keys(mapping)).None?
  {
    var mapping := [("amount", Money(cents))];
    assert mapping[..0] == [];
    mapping
  }

  /** The ledger row a transaction adds: the next key, both account keys, the
      value and the kind. */
  lemma LedgerRowContents(rows: seq<Row>, from: Account, to: Account, value: int, kind: TransactionType)
    requires WellFormed(TransactionModel, rows)
    ensures var mapping := LedgerMapping(from, to, value, kind);
      var r := Insert(TransactionModel, rows, mapping);
      && r.Some?
      && RowShaped(TransactionModel, r.value)
      && RowId(r.value) == NextId(rows)
      && r.value.Keys == {"id", "from_account_id", "to_account_id", "value", "type"}
      && r.value["from_account_id"] == Int(from.id) && r.value["to_account_id"] == Int(to.id)
      && r.value["value"] == Money(value) && r.value["type"] == Text(TypeName(kind))
  {
    var mapping := LedgerMapping(from, to, value, kind);
    var r := Insert(TransactionModel, rows, mapping);
    assert mapping[0].0 == "from_account_id" && mapping[1].0 == "to_account_id";
    assert mapping[2].0 == "value" && mapping[3].0 == "type";
  }

  /** Which call a store failure hits: 0 is the `create`, 1 the first
      `update_`, 2 the second (transferences only). */
  function Steps(kind: TransactionType): nat {
    if kind == Transference then 3 else 2
  }

  /** The error the store failure at `step` raises. */
  function StepError(step: nat): Error {
    if step == 0 then CreationError else UpdateError
  }

  /** TransactionController: a controller of the transaction table. */
  class TransactionController {
    const ledger: DatabaseController

    ghost predicate Valid()
      reads this, ledger
    {
      ledger.model == TransactionModel && ledger.Valid()
    }

    /** `__init__`: the controller of the Transaction model, over what the
        store already holds. */
    constructor (table: seq<Row>)
      requires WellFormed(TransactionModel, table)
      ensures Valid() && fresh(ledger) && ledger.rows == table
    {
      ledger := new DatabaseController(TransactionModel, table);
    }

    /** `accounts_controller.update_(id, amount=amount)`: the store failure is
        `storeFails`; otherwise the balance of the row with that key, if
        any, becomes `amount`. */
    static method SetBalance(accounts: DatabaseController, id: int, amount: int, storeFails: bool) returns (r: Result<bool>)
      requires accounts.Valid() && accounts.model == AccountModel
      modifies accounts
      ensures accounts.Valid()
      ensures r.Err? <==> storeFails
      ensures r.Err? ==> r.error == UpdateError
      ensures r.Ok? ==> accounts.rows == SetAmount(old(accounts.rows), id, amount)
    {
      r := accounts.Update(Int(id), AmountMapping(amount), storeFails);
    }

    /** The balance updates of new: the sender's balance for a deposit or a
        withdraw, the sender's and then the receiver's for a transference,
        each computed from the snapshot. A store failure at step 1 or 2 stops
        the updates with the error of `update_`; the rows already changed are
        for the caller to roll back. */
    static method UpdateBalances(fromAccount: Account, toAccount: Account, value: int, kind: TransactionType,
                                 accounts: DatabaseController, faultAt: Option<nat>) returns (r: Result<bool>)
      requires accounts.Valid() && accounts.model == AccountModel
      modifies accounts
      ensures accounts.Valid()
      ensures r.Err? <==> faultAt.Some? && 1 <= faultAt.value < Steps(kind)
      ensures r.Err? ==> r.error == UpdateError
      ensures r.Ok? ==> accounts.rows == Apply(old(accounts.rows), kind, fromAccount, toAccount, value)
    {
      match kind
      case Deposit =>
        r := DepositBalance(fromAccount, toAccount, value, accounts, faultAt);
      case Withdraw =>
        r := WithdrawBalance(fromAccount, toAccount, value, accounts, faultAt);
      case Transference =>
        r := TransferBalances(fromAccount, toAccount, value, accounts, faultAt);
    }

    /** The deposit branch of new's balance updates: the sender's balance
        raised by the value. */
    static method DepositBalance(fromAccount: Account, toAccount: Account, value: int,
                                 accounts: DatabaseController, faultAt: Option<nat>) returns (r: Result<bool>)
      requires accounts.Valid() && accounts.model == AccountModel
      modifies accounts
      ensures accounts.Valid()
      ensures r.Err? <==> faultAt.Some? && 1 <= faultAt.value < Steps(Deposit)
      ensures r.Err? ==> r.error == UpdateError
      ensures r.Ok? ==> accounts.rows == Apply(old(accounts.rows), Deposit, fromAccount, toAccount, value)
    {
      r := SetBalance(accounts, fromAccount.id, fromAccount.amount + value, faultAt.Some? && faultAt.value == 1);
    }

    /** The withdraw branch of new's balance updates: the sender's balance
        lowered by the value. */
    static method WithdrawBalance(fromAccount: Account, toAccount: Account, value: int,
                                  accounts: DatabaseController, faultAt: Option<nat>) returns (r: Result<bool>)
      requires accounts.Valid() && accounts.model == AccountModel
      modifies accounts
      ensures accounts.Valid()
      ensures r.Err? <==> faultAt.Some? && 1 <= faultAt.value < Steps(Withdraw)
      ensures r.Err? ==> r.error == UpdateError
      ensures r.Ok? ==> accounts.rows == Apply(old(accounts.rows), Withdraw, fromAccount, toAccount, value)
    {
      r := SetBalance(accounts, fromAccount.id, fromAccount.amount - value, faultAt.Some? && faultAt.value == 1);
    }

    /** The transference branch of new's balance updates: the sender's
        balance, then the receiver's. */
    static method TransferBalances(fromAccount: Account, toAccount: Account, value: int,
                                   accounts: DatabaseController, faultAt: Option<nat>) returns (r: Result<bool>)
      requires accounts.Valid() && accounts.model == AccountModel
      modifies accounts
      ensures accounts.Valid()
      ensures r.Err? <==> faultAt.Some? && 1 <= faultAt.value < Steps(Transference)
      ensures r.Err? ==> r.error == UpdateError
      ensures r.Ok? ==> accounts.rows == Apply(old(accounts.rows), Transference, fromAccount, toAccount, value)
    {
      var fromAmount := fromAccount.amount - value;
      var toAmount := toAccount.amount + value;
      assert Apply(accounts.rows, Transference, fromAccount, toAccount, value)
          == SetAmount(SetAmount(accounts.rows, fromAccount.id, fromAmount), toAccount.id, toAmount);
      r := SetBalance(accounts, fromAccount.id, fromAmount, faultAt.Some? && faultAt.value == 1);
      if r.Ok? {
        r := SetBalance(accounts, toAccount.id, toAmount, faultAt.Some? && faultAt.value == 2);
      }
    }

    /** new: validates the transaction, records it and updates the balances,
        all in one database transaction. Any error, from the validation or
        from a store failure at step `faultAt`, leaves both tables as they
        were. On success the ledger gains the transaction's row, the account
        table is `Apply` of what it held, and the result is `bool(created)`
        of the new key. */
    method New(fromAccount: Account, toAccount: Account, value: int, kind: TransactionType,
               accounts: DatabaseController, faultAt: Option<nat>) returns (r: Result<bool>)
      requires Valid() && accounts.Valid() && accounts.model == AccountModel && accounts != ledger
      modifies ledger, accounts
      ensures Valid() && accounts.Valid()
      ensures r.Err? ==> ledger.rows == old(ledger.rows) && accounts.rows == old(accounts.rows)
      ensures !Admissible(kind, value, fromAccount, toAccount) ==>
                r == Err(Validate(kind, value, fromAccount, toAccount).error)
      ensures Admissible(kind, value, fromAccount, toAccount) && faultAt.Some? && faultAt.value < Steps(kind) ==>
                r == Err(StepError(faultAt.value))
      ensures Admissible(kind, value, fromAccount, toAccount) && !(faultAt.Some? && faultAt.value < Steps(kind)) ==>
                && r == Ok(NextId(old(ledger.rows)) != 0)
                && ledger.rows == old(ledger.rows)
                     + [Insert(TransactionModel, old(ledger.rows), LedgerMapping(fromAccount, toAccount, value, kind)).value]
                && accounts.rows == Apply(old(accounts.rows), kind, fromAccount, toAccount, value)
    {
      var checked := Validate(kind, value, fromAccount, toAccount);
      if checked.Fail? {
        return Err(checked.error);
      }
      r := Record(fromAccount, toAccount, value, kind, accounts, faultAt);
    }

    /** new's `self.create(...)`: the ledger gains the transaction's row,
        whose key is the next one, unless the store fails. */
    method CreateLedgerRow(fromAccount: Account, toAccount: Account, value: int, kind: TransactionType,
                           storeFails: bool) returns (r: Result<int>)
      requires Valid()
      modifies ledger
      ensures Valid()
      ensures r.Err? <==> storeFails
      ensures r.Err? ==> r.error == CreationError && ledger.rows == old(ledger.rows)
      ensures r.Ok? ==>
                && r.value == NextId(old(ledger.rows))
                && ledger.rows == old(ledger.rows)
                     + [Insert(TransactionModel, old(ledger.rows), LedgerMapping(fromAccount, toAccount, value, kind)).value]
    {
      LedgerRowContents(ledger.rows, fromAccount, toAccount, value, kind);
      r := ledger.Create(LedgerMapping(fromAccount, toAccount, value, kind), 0, storeFails);
    }

    /** The body of new's database transaction once the transaction is valid:
        the ledger row is created, then the balances are updated; a store
        failure at step `faultAt` rolls both tables back. */
    method Record(fromAccount: Account, toAccount: Account, value: int, kind: TransactionType,
                  accounts: DatabaseController, faultAt: Option<nat>) returns (r: Result<bool>)
      requires Valid() && accounts.Valid() && accounts.model == AccountModel && accounts != ledger
      modifies ledger, accounts
      ensures Valid() && accounts.Valid()
      ensures r.Err? ==> ledger.rows == old(ledger.rows) && accounts.rows == old(accounts.rows)
      ensures faultAt.Some? && faultAt.value < Steps(kind) ==> r == Err(StepError(faultAt.value))
      ensures !(faultAt.Some? && faultAt.value < Steps(kind)) ==>
                && r == Ok(NextId(old(ledger.rows)) != 0)
                && ledger.rows == old(ledger.rows)
                     + [Insert(TransactionModel, old(ledger.rows), LedgerMapping(fromAccount, toAccount, value, kind)).value]
                && accounts.rows == Apply(old(accounts.rows), kind, fromAccount, toAccount, value)
    {
      var savedLedger := ledger.rows;
      var savedAccounts := accounts.rows;

      var created := CreateLedgerRow(fromAccount, toAccount, value, kind, faultAt.Some? && faultAt.value == 0);
      if created.Err? {
        return Err(created.error);
      }

      var updated := UpdateBalances(fromAccount, toAccount, value, kind, accounts, faultAt);
      if updated.Err? {
        // the database transaction is rolled back
        ledger.rows := savedLedger;
        accounts.rows := savedAccounts;
        return Err(updated.error);
      }
      return Ok(created.value != 0);
    }
  }
}
