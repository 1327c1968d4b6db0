/** The generic table controller of core/database/controller.py, over an
    in-memory table: a sequence of rows in insertion order, each row a map
    from column name to value, with an integer primary key `id`.

    A failure of the store itself (an SQLAlchemyError raised by the driver)
    is the `storeFails` parameter of each operation. An insert or update the
    store refuses (a taken or non-integer primary key, a missing NOT NULL
    column) raises the driver's IntegrityError instead, which is not an
    SQLAlchemyError: no handler of the controller catches it. */
module Database {
  import opened Exceptions
  import UserModels
  import AccountModels

  /** A column value: integers and keys, money in cents, text, dates. */
  datatype Value =
    | Int(i: int)
    | Money(cents: int)
    | Text(s: string)
    | DateValue(d: UserModels.Date)

  type Row = map<string, Value>

  /** The keyword arguments of a call, in the order they were written. */
  type Mapping = seq<(string, Value)>

  /** The entity classes a controller is built for. */
  datatype Model = UserModel | AccountModel | AccountTypeModel | TransactionModel

  const DefaultLimit: int := 1000
  const DefaultOffset: int := 0

  function TableName(m: Model): string {
    match m
    case UserModel => "user"
    case AccountModel => "account"
    case AccountTypeModel => "account_type"
    case TransactionModel => "transaction"
  }

  /** The mapped columns of each entity, the attributes `__check_fields` accepts. */
  function Columns(m: Model): set<string> {
    match m
    case UserModel => {"id", "username", "password", "first_name", "last_name", "cpf", "birthdate"}
    case AccountModel => {"id", "number", "amount", "user_id", "account_type_id"}
    case AccountTypeModel => {"id", "type"}
    case TransactionModel => {"id", "from_account_id", "to_account_id", "value", "time", "type"}
  }

  /** NOT NULL columns other than the key; `amount` has a default and the
      transaction `time` a server default. */
  function RequiredColumns(m: Model): (cs: set<string>)
    ensures cs <= Columns(m) && "id" !in cs
  {
    match m
    case UserModel => {"username", "password", "first_name", "last_name", "cpf", "birthdate"}
    case AccountModel => {"number", "amount", "user_id", "account_type_id"}
    case AccountTypeModel => {"type"}
    case TransactionModel => {"from_account_id", "to_account_id", "value", "type"}
  }

  /** Client-side column defaults: a new account has a zero balance. */
  function Defaults(m: Model): (d: Row)
    ensures d.Keys <= Columns(m) && "id" !in d
  {
    if m == AccountModel then map["amount" := Money(0)] else map[]
  }

  // ---------------------------------------------------------------------------
  // Errors
  // ---------------------------------------------------------------------------

  /** The error of `__check_fields`, raised with code 422. */
  function NoFieldError(m: Model, field: string): Error {
    Error(DatabaseError, "`" + TableName(m) + "` has no field `" + field + "`.", UnprocessableEntity)
  }

  function FetchError(m: Model): Error {
    Error(DatabaseError, "Unexpected fail fetching `" + TableName(m) + "`", InternalServerError)
  }

  const FetchAllError: Error := Error(DatabaseError, "Error fetching data.", InternalServerError)
  const CreationError: Error := Error(DatabaseError, "Creation fail.", InternalServerError)
  const UpdateError: Error := Error(DatabaseError, "Update fail.", InternalServerError)
  const DeleteError: Error := Error(DatabaseError, "Delete operation fail.", InternalServerError)
  const MissingModelError: Error := Error(MissingModel, "the `model` argument must be expecified.", InternalServerError)
  /** The driver's IntegrityError for a refused INSERT or UPDATE. It escapes
      the controller uncaught, so the client gets the server's generic
      response. */
  const IntegrityError: Error := Error(IntegrityViolation, "Internal Server Error", InternalServerError)

  // ---------------------------------------------------------------------------
  // Keyword arguments
  // ---------------------------------------------------------------------------

  function Keys(mapping: Mapping): (ks: seq<string>)
    ensures |ks| == |mapping| && forall i :: 0 <= i < |mapping| ==> ks[i] == mapping[i].0
  {
    seq(|mapping|, i requires 0 <= i < |mapping| => mapping[i].0)
  }

  /** Keyword argument names are never repeated. */
  predicate DistinctKeys(mapping: Mapping) {
    forall i, j :: 0 <= i < j < |mapping| ==> mapping[i].0 != mapping[j].0
  }

  function KeySet(mapping: Mapping): set<string> {
    set i | 0 <= i < |mapping| :: mapping[i].0
  }

  /** The names of a mapping are those of all but its last pair and the
      last pair's. */
  lemma KeySetSnoc(mapping: Mapping)
    requires |mapping| > 0
    ensures KeySet(mapping) == KeySet(mapping[..|mapping| - 1]) + {mapping[|mapping| - 1].0}
  {
    var init := mapping[..|mapping| - 1];
    var last := mapping[|mapping| - 1];
    forall k | k in KeySet(mapping) ensures k in KeySet(init) + {last.0} {
      var i :| 0 <= i < |mapping| && mapping[i].0 == k;
      if i < |mapping| - 1 { assert init[i] == mapping[i]; }
    }
    forall k | k in KeySet(init) ensures k in KeySet(mapping) {
      var i :| 0 <= i < |init| && init[i].0 == k;
      assert mapping[i] == init[i];
    }
  }

  /** The row a mapping describes: every argument name bound to its value. */
  function ToRow(mapping: Mapping): (row: Row)
    ensures row.Keys == KeySet(mapping)
    ensures DistinctKeys(mapping) ==> forall i :: 0 <= i < |mapping| ==> row[mapping[i].0] == mapping[i].1
  {
    if |mapping| == 0 then map[]
    else
      var init := mapping[..|mapping| - 1];
      var last := mapping[|mapping| - 1];
      KeySetSnoc(mapping);
      assert forall i :: 0 <= i < |init| ==> init[i] == mapping[i];
      ToRow(init)[last.0 := last.1]
  }

  // ---------------------------------------------------------------------------
  // __check_fields
  // ---------------------------------------------------------------------------

  /** The first name in `fields` that is not a column, if any. */
  function FirstUnknown(m: Model, fields: seq<string>): (r: Option<string>)
    ensures r.None? <==> forall i :: 0 <= i < |fields| ==> fields[i] in Columns(m)
    ensures r.Some? ==> exists k :: 0 <= k < |fields| && fields[k] == r.value && r.value !in Columns(m)
                                    && forall j :: 0 <= j < k ==> fields[j] in Columns(m)
  {
    if |fields| == 0 then None
    else if fields[0] !in Columns(m) then Some(fields[0])
    else
      var rest := FirstUnknown(m, fields[1..]);
      assert forall i :: 1 <= i < |fields| ==> fields[i] == fields[1..][i - 1];
      if rest.Some? then
        var k :| 0 <= k < |fields[1..]| && fields[1..][k] == rest.value && rest.value !in Columns(m)
                 && forall j :: 0 <= j < k ==> fields[1..][j] in Columns(m);
        assert fields[k + 1] == rest.value;
        rest
      else rest
  }

  // ---------------------------------------------------------------------------
  // Table shape
  // ---------------------------------------------------------------------------

  /** A stored row has an integer key, only columns of its entity and every
      NOT NULL column. */
  predicate RowShaped(m: Model, row: Row) {
    && "id" in row && row["id"].Int?
    && row.Keys <= Columns(m)
    && RequiredColumns(m) <= row.Keys
  }

  /** The primary key of a shaped row. */
  function RowId(row: Row): int
    requires "id" in row && row["id"].Int?
  {
    row["id"].i
  }

  /** Every row is shaped and no two rows share a key. */
  predicate WellFormed(m: Model, rows: seq<Row>) {
    && (forall i :: 0 <= i < |rows| ==> RowShaped(m, rows[i]))
    && (forall i, j :: 0 <= i < |rows| && 0 <= j < |rows| && i != j ==> RowId(rows[i]) != RowId(rows[j]))
  }

  predicate HasIntIds(rows: seq<Row>) {
    forall i :: 0 <= i < |rows| ==> "id" in rows[i] && rows[i]["id"].Int?
  }

  /** Some row has key `id`. */
  predicate HasId(rows: seq<Row>, id: int) {
    exists i :: 0 <= i < |rows| && "id" in rows[i] && rows[i]["id"] == Int(id)
  }

  /** The largest key of a non-empty table. */
  function MaxId(rows: seq<Row>): (mx: int)
    requires |rows| > 0 && HasIntIds(rows)
    ensures forall i :: 0 <= i < |rows| ==> RowId(rows[i]) <= mx
    ensures exists i :: 0 <= i < |rows| && RowId(rows[i]) == mx
  {
    var last := RowId(rows[|rows| - 1]);
    if |rows| == 1 then last
    else
      var init := rows[..|rows| - 1];
      var p := MaxId(init);
      assert forall i :: 0 <= i < |init| ==> init[i] == rows[i];
      if last > p then last else p
  }

  /** The key the store assigns when none is given: one more than the largest
      key, or 1 in an empty table. */
  function NextId(rows: seq<Row>): (n: int)
    requires HasIntIds(rows)
    ensures !HasId(rows, n)
    ensures |rows| == 0 ==> n == 1
  {
    if |rows| == 0 then 1 else MaxId(rows) + 1
  }

  /** The first row, in table order, whose `field` holds `v`. */
  function FirstMatch(rows: seq<Row>, field: string, v: Value): (r: Option<Row>)
    ensures r.None? <==> forall i :: 0 <= i < |rows| ==> !(field in rows[i] && rows[i][field] == v)
    ensures r.Some? ==> exists k :: 0 <= k < |rows| && rows[k] == r.value && field in r.value && r.value[field] == v
                                    && forall j :: 0 <= j < k ==> !(field in rows[j] && rows[j][field] == v)
  {
    if |rows| == 0 then None
    else if field in rows[0] && rows[0][field] == v then Some(rows[0])
    else
      var rest := FirstMatch(rows[1..], field, v);
      assert forall i :: 1 <= i < |rows| ==> rows[i] == rows[1..][i - 1];
      if rest.Some? then
        var k :| 0 <= k < |rows[1..]| && rows[1..][k] == rest.value && field in rest.value && rest.value[field] == v
                 && forall j :: 0 <= j < k ==> !(field in rows[1..][j] && rows[1..][j][field] == v);
        assert rows[k + 1] == rest.value;
        rest
      else rest
  }

  // ---------------------------------------------------------------------------
  // all(): limit and offset
  // ---------------------------------------------------------------------------

  /** A non-int limit becomes DEFAULT_LIMIT. */
  function EffectiveLimit(limit: Value): int {
    if limit.Int? then limit.i else DefaultLimit
  }

  /** A non-int offset becomes DEFAULT_OFFSET. */
  function EffectiveOffset(offset: Value): int {
    if offset.Int? then offset.i else DefaultOffset
  }

  function Min(a: int, b: int): int { if a <= b then a else b }

  /** SELECT ... OFFSET offset LIMIT limit in SQLite: a negative offset skips
      nothing and a negative limit means no limit. The result is the run of
      rows that starts after the skipped ones and is at most `limit` long. */
  function Window(rows: seq<Row>, limit: int, offset: int): (w: seq<Row>)
    ensures var start := Min(if offset < 0 then 0 else offset, |rows|);
            && |w| == (if limit < 0 then |rows| - start else Min(limit, |rows| - start))
            && forall i :: 0 <= i < |w| ==> w[i] == rows[start + i]
  {
    var start := Min(if offset < 0 then 0 else offset, |rows|);
    var end := if limit < 0 then |rows| else Min(start + limit, |rows|);
    rows[start..end]
  }

  /** Consecutive pages tile the table: the page of `a` rows at `offset`
      followed by the page of `b` rows right after it is the page of `a + b`
      rows at `offset`. */
  lemma PagesTile(rows: seq<Row>, a: nat, b: nat, offset: nat)
    ensures Window(rows, a, offset) + Window(rows, b, offset + a) == Window(rows, a + b, offset)
  {
    var w1 := Window(rows, a, offset);
    var w2 := Window(rows, b, offset + a);
    var w := Window(rows, a + b, offset);
    assert |w1| + |w2| == |w|;
    forall i | 0 <= i < |w| ensures (w1 + w2)[i] == w[i] {
      if i >= |w1| {
        assert (w1 + w2)[i] == w2[i - |w1|];
      }
    }
  }

  /** With no limit and no offset, all() returns the whole table in order. */
  lemma DefaultWindowIsWholeTable(rows: seq<Row>)
    requires |rows| <= DefaultLimit
    ensures Window(rows, EffectiveLimit(Text("a")), EffectiveOffset(Text("b"))) == rows
  {
  }

  // ---------------------------------------------------------------------------
  // create(): entity validation and insertion
  // ---------------------------------------------------------------------------

  const NotAStringError: Error := Error(TypeMismatch, "expected string or bytes-like object", InternalServerError)
  const NotANumberError: Error := Error(TypeMismatch, "'<' not supported between these operand types", InternalServerError)
  const UserFieldsError: Error :=
    Error(TypeMismatch, "a validated User field is missing or of the wrong type", InternalServerError)

  function OutcomeOf<T>(r: Result<T>): (o: Outcome)
    ensures o.Pass? <==> r.Ok?
    ensures o.Fail? ==> o.error == r.error
  {
    if r.Ok? then Pass else Fail(r.error)
  }

  /** The `validates` hook that runs when the constructor sets one field. */
  function FieldCheck(m: Model, name: string, v: Value): (o: Outcome)
    ensures m == AccountModel && name == "number" && v.Text? ==> o == OutcomeOf(AccountModels.ValidateNumber(v.s))
    ensures m == AccountModel && name == "amount" && (v.Int? || v.Money?) ==>
              o == OutcomeOf(AccountModels.ValidateAmount(if v.Int? then v.i else v.cents))
    ensures m == AccountTypeModel && name == "type" && v.Text? ==> o == OutcomeOf(AccountModels.ValidateType(v.s))
    ensures o.Fail? ==> (m == AccountModel && name in {"number", "amount"}) || (m == AccountTypeModel && name == "type")
  {
    match m
    case AccountModel =>
      if name == "number" then
        (if v.Text? then OutcomeOf(AccountModels.ValidateNumber(v.s)) else Fail(NotAStringError))
      else if name == "amount" then
        (match v
         case Int(i) => OutcomeOf(AccountModels.ValidateAmount(i))
         case Money(c) => OutcomeOf(AccountModels.ValidateAmount(c))
         case _ => Fail(NotANumberError))
      else Pass
    case AccountTypeModel =>
      if name == "type" then
        (if v.Text? then OutcomeOf(AccountModels.ValidateType(v.s)) else Fail(NotAStringError))
      else Pass
    case _ => Pass
  }

  /** The field hooks in the order the arguments were written; the first
      failure is the one raised. */
  function FieldChecks(m: Model, mapping: Mapping): (o: Outcome)
    ensures o.Pass? <==> forall i :: 0 <= i < |mapping| ==> FieldCheck(m, mapping[i].0, mapping[i].1).Pass?
    ensures o.Fail? ==> exists k :: 0 <= k < |mapping| && FieldCheck(m, mapping[k].0, mapping[k].1) == o
  {
    if |mapping| == 0 then Pass
    else
      var first := FieldCheck(m, mapping[0].0, mapping[0].1);
      assert forall i :: 1 <= i < |mapping| ==> mapping[i] == mapping[1..][i - 1];
      if first.Fail? then first
      else
        var rest := FieldChecks(m, mapping[1..]);
        if rest.Fail? then
          var k :| 0 <= k < |mapping[1..]| && FieldCheck(m, mapping[1..][k].0, mapping[1..][k].1) == rest;
          assert mapping[k + 1] == mapping[1..][k];
          rest
        else rest
  }

  /** The User a row describes, when every validated field is present with
      the right kind of value. */
  function ToUser(row: Row): (u: Option<UserModels.User>)
    ensures u.Some? <==>
      && "username" in row && row["username"].Text? && "password" in row && row["password"].Text?
      && "first_name" in row && row["first_name"].Text? && "last_name" in row && row["last_name"].Text?
      && "cpf" in row && row["cpf"].Text? && "birthdate" in row && row["birthdate"].DateValue?
    ensures u.Some? ==>
      && row["username"] == Text(u.value.username) && row["password"] == Text(u.value.password)
      && row["first_name"] == Text(u.value.firstName) && row["last_name"] == Text(u.value.lastName)
      && row["cpf"] == Text(u.value.cpf) && row["birthdate"] == DateValue(u.value.birthdate)
  {
    if && "username" in row && row["username"].Text?
       && "password" in row && row["password"].Text?
       && "first_name" in row && row["first_name"].Text?
       && "last_name" in row && row["last_name"].Text?
       && "cpf" in row && row["cpf"].Text?
       && "birthdate" in row && row["birthdate"].DateValue?
    then
      Some(UserModels.User(row["username"].s, row["password"].s, row["first_name"].s,
                           row["last_name"].s, row["cpf"].s, row["birthdate"].d))
    else None
  }

  /** The checks `create` runs on the entity. The field hooks run while the
      entity is constructed; then `.validate()` is User.validate for users
      and a no-op for transactions. Account and AccountType define no
      `validate()`, so there the call raises AttributeError after the hooks
      pass; this function counts passing hooks as success for them. */
  function EntityCheck(m: Model, mapping: Mapping, currentYear: int): (o: Outcome)
    ensures m == UserModel ==>
      o == (match ToUser(ToRow(mapping))
            case Some(u) => UserModels.Validate(u, currentYear)
            case None => Fail(UserFieldsError))
    ensures m != UserModel ==> o == FieldChecks(m, mapping)
    ensures m == TransactionModel ==> o.Pass?
  {
    if m == UserModel then
      match ToUser(ToRow(mapping))
      case Some(u) => UserModels.Validate(u, currentYear)
      case None => Fail(UserFieldsError)
    else FieldChecks(m, mapping)
  }

  /** The row the store writes for an INSERT: defaults overridden by the
      arguments, with the next key when none is given. None when the store
      refuses it: a given key that is not an integer or is taken, or a
      missing NOT NULL column. */
  function Insert(m: Model, rows: seq<Row>, mapping: Mapping): (r: Option<Row>)
    requires WellFormed(m, rows)
    requires KeySet(mapping) <= Columns(m) && DistinctKeys(mapping)
    ensures r.Some? ==> WellFormed(m, rows + [r.value])
    ensures r.Some? ==> RowShaped(m, r.value) && !HasId(rows, RowId(r.value))
    ensures r.Some? ==> forall i :: 0 <= i < |mapping| ==> mapping[i].0 in r.value && r.value[mapping[i].0] == mapping[i].1
    ensures r.Some? ==> forall k :: k in r.value ==> k in KeySet(mapping) || k in Defaults(m) || k == "id"
    ensures r.Some? && "id" !in KeySet(mapping) ==> RowShaped(m, r.value) && RowId(r.value) == NextId(rows)
    ensures r.None? <==>
      || ("id" in KeySet(mapping) && (!ToRow(mapping)["id"].Int? || HasId(rows, ToRow(mapping)["id"].i)))
      || !(RequiredColumns(m) <= (Defaults(m) + ToRow(mapping)).Keys)
  {
    var given := ToRow(mapping);
    var row := Defaults(m) + given;
    if !(RequiredColumns(m) <= row.Keys) then None
    else if "id" in given then
      if !given["id"].Int? || HasId(rows, given["id"].i) then None
      else
        assert WellFormed(m, rows + [row]) by {
          var all := rows + [row];
          forall i, j | 0 <= i < |all| && 0 <= j < |all| && i != j ensures RowId(all[i]) != RowId(all[j]) {
            if i == |rows| { assert all[j] == rows[j]; }
            else if j == |rows| { assert all[i] == rows[i]; }
          }
        }
        Some(row)
    else
      var keyed := row["id" := Int(NextId(rows))];
      assert WellFormed(m, rows + [keyed]) by {
        var all := rows + [keyed];
        forall i, j | 0 <= i < |all| && 0 <= j < |all| && i != j ensures RowId(all[i]) != RowId(all[j]) {
          if i == |rows| { assert all[j] == rows[j]; }
          else if j == |rows| { assert all[i] == rows[i]; }
        }
      }
      Some(keyed)
  }

  // ---------------------------------------------------------------------------
  // update_() and delete_()
  // ---------------------------------------------------------------------------

  /** The UPDATE ... WHERE id = `id`: the row with that key gets the changed
      columns; every other row and every other column is left as it was. */
  function UpdateRows(rows: seq<Row>, id: int, changes: Row): (r: seq<Row>)
    requires HasIntIds(rows)
    ensures |r| == |rows|
    ensures "id" !in changes ==> HasIntIds(r) && forall i :: 0 <= i < |rows| ==> RowId(r[i]) == RowId(rows[i])
    ensures forall i :: 0 <= i < |rows| && RowId(rows[i]) != id ==> r[i] == rows[i]
    ensures forall i :: 0 <= i < |rows| && RowId(rows[i]) == id ==>
              r[i].Keys == rows[i].Keys + changes.Keys
              && (forall k :: k in changes ==> r[i][k] == changes[k])
              && (forall k :: k in rows[i] && k !in changes ==> r[i][k] == rows[i][k])
  {
    seq(|rows|, i requires 0 <= i < |rows| => if RowId(rows[i]) == id then rows[i] + changes else rows[i])
  }

  /** The store refuses an update that would give the row a non-integer key or
      the key of another row. */
  predicate UpdateConflict(rows: seq<Row>, id: int, changes: Row) {
    && HasId(rows, id)
    && "id" in changes
    && (!changes["id"].Int? || (changes["id"].i != id && HasId(rows, changes["id"].i)))
  }

  /** The DELETE ... WHERE id = `id`: the other rows, in order. */
  function RemoveId(rows: seq<Row>, id: int): (r: seq<Row>)
    requires HasIntIds(rows)
    ensures HasIntIds(r) && !HasId(r, id)
    ensures forall i :: 0 <= i < |r| ==> r[i] in rows
    ensures forall i :: 0 <= i < |rows| && RowId(rows[i]) != id ==> rows[i] in r
    ensures |r| <= |rows|
  {
    if |rows| == 0 then []
    else
      var rest := RemoveId(rows[1..], id);
      assert forall i :: 1 <= i < |rows| ==> rows[i] == rows[1..][i - 1];
      if RowId(rows[0]) == id then rest else [rows[0]] + rest
  }

  /** Dropping the first row keeps a table well formed. */
  lemma TailWellFormed(m: Model, rows: seq<Row>)
    requires WellFormed(m, rows) && |rows| > 0
    ensures WellFormed(m, rows[1..])
  {
    var tail := rows[1..];
    forall i, j | 0 <= i < |tail| && 0 <= j < |tail| && i != j ensures RowId(tail[i]) != RowId(tail[j]) {
      assert tail[i] == rows[i + 1] && tail[j] == rows[j + 1];
    }
  }

  /** Putting a shaped row with a new key in front keeps a table well formed. */
  lemma ConsWellFormed(m: Model, x: Row, rest: seq<Row>)
    requires RowShaped(m, x) && WellFormed(m, rest)
    requires forall k :: 0 <= k < |rest| ==> RowId(rest[k]) != RowId(x)
    ensures WellFormed(m, [x] + rest)
  {
    var r := [x] + rest;
    forall i, j | 0 <= i < |r| && 0 <= j < |r| && i != j ensures RowId(r[i]) != RowId(r[j]) {
      if i > 0 && j > 0 {
        assert r[i] == rest[i - 1] && r[j] == rest[j - 1];
      }
    }
  }

  /** Deleting keeps the table well formed. */
  lemma {:induction false} RemoveIdWellFormed(m: Model, rows: seq<Row>, id: int)
    requires WellFormed(m, rows)
    ensures WellFormed(m, RemoveId(rows, id))
  {
    if |rows| > 0 {
      var tail := rows[1..];
      TailWellFormed(m, rows);
      RemoveIdWellFormed(m, tail, id);
      var rest := RemoveId(tail, id);
      if RowId(rows[0]) != id {
        forall k | 0 <= k < |rest| ensures RowId(rest[k]) != RowId(rows[0]) {
          var t :| 0 <= t < |tail| && tail[t] == rest[k];
          assert tail[t] == rows[t + 1];
        }
        ConsWellFormed(m, rows[0], rest);
      }
    }
  }

  /** In a well-formed table, deleting a key that is present removes exactly
      one row, and deleting an absent key changes nothing. */
  lemma {:induction false} RemoveIdRemovesOne(m: Model, rows: seq<Row>, id: int)
    requires WellFormed(m, rows)
    ensures HasId(rows, id) ==> |RemoveId(rows, id)| == |rows| - 1
    ensures !HasId(rows, id) ==> RemoveId(rows, id) == rows
  {
    if |rows| > 0 {
      var tail := rows[1..];
      TailWellFormed(m, rows);
      RemoveIdRemovesOne(m, tail, id);
      if RowId(rows[0]) == id {
        TailLacksId(m, rows, id);
      } else if HasId(rows, id) {
        var t :| 0 <= t < |rows| && "id" in rows[t] && rows[t]["id"] == Int(id);
        assert t > 0 && tail[t - 1] == rows[t];
      } else {
        TailLacksId(m, rows, id);
        assert [rows[0]] + tail == rows;
      }
    }
  }

  /** The rows after the first lack a key that the first row holds or that
      no row holds. */
  lemma TailLacksId(m: Model, rows: seq<Row>, id: int)
    requires WellFormed(m, rows) && |rows| > 0
    requires RowId(rows[0]) == id || !HasId(rows, id)
    ensures !HasId(rows[1..], id)
  {
    var tail := rows[1..];
    forall t | 0 <= t < |tail| ensures RowId(tail[t]) != id {
      assert tail[t] == rows[t + 1];
    }
  }

  /** The controller of one table (DatabaseController). */
  class DatabaseController {
    const model: Model
    var rows: seq<Row>

    ghost predicate Valid()
      reads this
    {
      WellFormed(model, rows)
    }

    constructor (model: Model, table: seq<Row>)
      requires WellFormed(model, table)
      ensures this.model == model && rows == table && Valid()
    {
      this.model := model;
      rows := table;
    }

    /** `__init__`: a controller needs a model; `table` is what the store
        already holds. */
    static method Init(model: Option<Model>, table: seq<Row>) returns (r: Result<DatabaseController>)
      requires model.Some? ==> WellFormed(model.value, table)
      ensures model.None? ==> r == Err(MissingModelError)
      ensures model.Some? ==> r.Ok? && fresh(r.value) && r.value.model == model.value
                              && r.value.rows == table && r.value.Valid()
    {
      if model.None? {
        return Err(MissingModelError);
      }
      var c := new DatabaseController(model.value, table);
      return Ok(c);
    }

    /** `__check_fields`: fails on the first name that is not a column. */
    method CheckFields(fields: seq<string>) returns (o: Outcome)
      ensures o.Pass? <==> forall i :: 0 <= i < |fields| ==> fields[i] in Columns(model)
      ensures o.Fail? ==> FirstUnknown(model, fields).Some?
                          && o.error == NoFieldError(model, FirstUnknown(model, fields).value)
    {
      for i := 0 to |fields|
        invariant forall j :: 0 <= j < i ==> fields[j] in Columns(model)
      {
        if fields[i] !in Columns(model) {
          return Fail(NoFieldError(model, fields[i]));
        }
      }
      return Pass;
    }

    /** get: the first row whose `whereField` equals `equalsTo`, or None. */
    method Get(whereField: string, equalsTo: Value, storeFails: bool) returns (r: Result<Option<Row>>)
      ensures whereField !in Columns(model) ==> r == Err(NoFieldError(model, whereField))
      ensures whereField in Columns(model) && storeFails ==> r == Err(FetchError(model))
      ensures whereField in Columns(model) && !storeFails ==> r == Ok(FirstMatch(rows, whereField, equalsTo))
    {
      assert [whereField][0] == whereField;
      var checked := CheckFields([whereField]);
      if checked.Fail? {
        return Err(checked.error);
      }
      if storeFails {
        return Err(FetchError(model));
      }
      return Ok(FirstMatch(rows, whereField, equalsTo));
    }

    /** all: non-int limit and offset fall back to the defaults, then the
        window of the table is returned. */
    method All(limit: Value, offset: Value, storeFails: bool) returns (r: Result<seq<Row>>)
      ensures storeFails ==> r == Err(FetchAllError)
      ensures !storeFails ==> r == Ok(Window(rows, EffectiveLimit(limit), EffectiveOffset(offset)))
    {
      var lim := if limit.Int? then limit.i else DefaultLimit;
      var off := if offset.Int? then offset.i else DefaultOffset;
      if storeFails {
        return Err(FetchAllError);
      }
      return Ok(Window(rows, lim, off));
    }

    /** create: checks the argument names, validates the entity, then inserts
        and returns the key of the new row. A store failure gives "Creation
        fail."; a row the store refuses escapes as the IntegrityError. */
    method Create(mapping: Mapping, currentYear: int, storeFails: bool) returns (r: Result<int>)
      requires Valid() && DistinctKeys(mapping)
      modifies this
      ensures Valid()
      ensures r.Err? ==> rows == old(rows)
      ensures FirstUnknown(model, Keys(mapping)).Some? ==>
                r == Err(NoFieldError(model, FirstUnknown(model, Keys(mapping)).value))
      ensures FirstUnknown(model, Keys(mapping)).None? && EntityCheck(model, mapping, currentYear).Fail? ==>
                r == Err(EntityCheck(model, mapping, currentYear).error)
      ensures FirstUnknown(model, Keys(mapping)).None? && EntityCheck(model, mapping, currentYear).Pass? ==>
                if storeFails then r == Err(CreationError)
                else if Insert(model, old(rows), mapping).None? then r == Err(IntegrityError)
                else r.Ok? && rows == old(rows) + [Insert(model, old(rows), mapping).value]
                     && r.value == RowId(Insert(model, old(rows), mapping).value)
    {
      var checked := CheckFields(Keys(mapping));
      if checked.Fail? {
        return Err(checked.error);
      }
      assert KeySet(mapping) <= Columns(model) by {
        forall k | k in KeySet(mapping) ensures k in Columns(model) {
          var i :| 0 <= i < |mapping| && mapping[i].0 == k;
          assert Keys(mapping)[i] == k;
        }
      }
      var entity := EntityCheck(model, mapping, currentYear);
      if entity.Fail? {
        return Err(entity.error);
      }
      if storeFails {
        return Err(CreationError);
      }
      var inserted := Insert(model, rows, mapping);
      if inserted.None? {
        return Err(IntegrityError);
      }
      rows := rows + [inserted.value];
      return Ok(RowId(inserted.value));
    }

    /** update_: a non-int id changes nothing and returns false; otherwise the
        argument names are checked and the row with that key, if any, gets
        the new values. The result stands for the driver's return value by
        whether a row had the key. */
    method Update(id: Value, mapping: Mapping, storeFails: bool) returns (r: Result<bool>)
      requires Valid() && DistinctKeys(mapping)
      modifies this
      ensures Valid()
      ensures r.Err? || r == Ok(false) ==> rows == old(rows)
      ensures !id.Int? ==> r == Ok(false)
      ensures id.Int? && FirstUnknown(model, Keys(mapping)).Some? ==>
                r == Err(NoFieldError(model, FirstUnknown(model, Keys(mapping)).value))
      ensures id.Int? && FirstUnknown(model, Keys(mapping)).None? ==>
                if storeFails then r == Err(UpdateError)
                else if UpdateConflict(old(rows), id.i, ToRow(mapping)) then r == Err(IntegrityError)
                else r == Ok(HasId(old(rows), id.i)) && rows == UpdateRows(old(rows), id.i, ToRow(mapping))
    {
      if !id.Int? {
        return Ok(false);
      }
      var checked := CheckFields(Keys(mapping));
      if checked.Fail? {
        return Err(checked.error);
      }
      var changes := ToRow(mapping);
      if storeFails {
        return Err(UpdateError);
      }
      if UpdateConflict(rows, id.i, changes) {
        return Err(IntegrityError);
      }
      assert changes.Keys <= Columns(model) by {
        forall k | k in changes ensures k in Columns(model) {
          var i :| 0 <= i < |mapping| && mapping[i].0 == k;
          assert Keys(mapping)[i] == k;
        }
      }
      var affected := HasId(rows, id.i);
      UpdateWellFormed(model, rows, id.i, changes);
      rows := UpdateRows(rows, id.i, changes);
      if !affected {
        assert forall i :: 0 <= i < |rows| ==> rows[i] == old(rows)[i];
      }
      return Ok(affected);
    }

    /** delete_: removes the row with that key, if any. Unlike update_ it has
        no `isinstance` guard; its one caller, the user deletion route, passes
        an id FastAPI has already parsed as an int, so the key is an int. */
    method Delete(id: int, storeFails: bool) returns (o: Outcome)
      requires Valid()
      modifies this
      ensures Valid()
      ensures storeFails ==> o == Fail(DeleteError) && rows == old(rows)
      ensures !storeFails ==> o == Pass && rows == RemoveId(old(rows), id)
    {
      if storeFails {
        return Fail(DeleteError);
      }
      RemoveIdWellFormed(model, rows, id);
      rows := RemoveId(rows, id);
      return Pass;
    }
  }

  /** An update the store accepts keeps the table well formed: only columns
      change, and the key moves only to a free integer. */
  lemma UpdateWellFormed(m: Model, rows: seq<Row>, id: int, changes: Row)
    requires WellFormed(m, rows)
    requires changes.Keys <= Columns(m)
    requires !UpdateConflict(rows, id, changes)
    ensures WellFormed(m, UpdateRows(rows, id, changes))
  {
    var r := UpdateRows(rows, id, changes);
    forall i | 0 <= i < |r| ensures RowShaped(m, r[i]) {
      if RowId(rows[i]) == id && "id" in changes {
        assert HasId(rows, id);
      }
    }
    forall i, j | 0 <= i < |r| && 0 <= j < |r| && i != j ensures RowId(r[i]) != RowId(r[j]) {
      if RowId(rows[i]) == id && "id" in changes {
        assert HasId(rows, id);
        assert RowId(rows[j]) != id;
        assert !HasId(rows, changes["id"].i) || changes["id"].i == id;
      } else if RowId(rows[j]) == id && "id" in changes {
        assert HasId(rows, id);
        assert RowId(rows[i]) != id;
        assert !HasId(rows, changes["id"].i) || changes["id"].i == id;
      }
    }
  }

  // ---------------------------------------------------------------------------
  // Reading back what was written
  // ---------------------------------------------------------------------------

  /** In a well-formed table, looking a key up finds the one row with it. */
  lemma FindById(m: Model, rows: seq<Row>, k: int)
    requires WellFormed(m, rows) && 0 <= k < |rows|
    ensures FirstMatch(rows, "id", Int(RowId(rows[k]))) == Some(rows[k])
  {
    var f := FirstMatch(rows, "id", Int(RowId(rows[k])));
    assert "id" in rows[k] && rows[k]["id"] == Int(RowId(rows[k]));
    var j :| 0 <= j < |rows| && rows[j] == f.value && "id" in f.value && f.value["id"] == Int(RowId(rows[k]))
             && forall i :: 0 <= i < j ==> !("id" in rows[i] && rows[i]["id"] == Int(RowId(rows[k])));
    assert RowId(rows[j]) == RowId(rows[k]);
  }

  /** A key no row has is not found. */
  lemma MissingIdNotFound(rows: seq<Row>, id: int)
    requires !HasId(rows, id)
    ensures FirstMatch(rows, "id", Int(id)).None?
  {
  }

  /** After delete_(id), get('id', id) finds nothing. */
  lemma DeleteThenGet(m: Model, rows: seq<Row>, id: int)
    requires WellFormed(m, rows)
    ensures FirstMatch(RemoveId(rows, id), "id", Int(id)).None?
  {
    MissingIdNotFound(RemoveId(rows, id), id);
  }

  /** After a create, get on the new key returns the inserted row. */
  lemma CreateThenGet(m: Model, rows: seq<Row>, mapping: Mapping)
    requires WellFormed(m, rows) && KeySet(mapping) <= Columns(m) && DistinctKeys(mapping)
    requires Insert(m, rows, mapping).Some?
    ensures var row := Insert(m, rows, mapping).value;
            FirstMatch(rows + [row], "id", Int(RowId(row))) == Some(row)
  {
    var row := Insert(m, rows, mapping).value;
    FindById(m, rows + [row], |rows|);
  }

  /** After update_ of an existing key (the key itself unchanged), get on that
      key returns the old row with the named columns replaced. */
  lemma UpdateThenGet(m: Model, rows: seq<Row>, id: int, changes: Row)
    requires WellFormed(m, rows) && changes.Keys <= Columns(m) && "id" !in changes
    requires FirstMatch(rows, "id", Int(id)).Some?
    ensures FirstMatch(UpdateRows(rows, id, changes), "id", Int(id)) ==
            Some(FirstMatch(rows, "id", Int(id)).value + changes)
  {
    var k :| 0 <= k < |rows| && rows[k] == FirstMatch(rows, "id", Int(id)).value && "id" in rows[k]
             && rows[k]["id"] == Int(id) && forall j :: 0 <= j < k ==> !("id" in rows[j] && rows[j]["id"] == Int(id));
    var r := UpdateRows(rows, id, changes);
    UpdateWellFormed(m, rows, id, changes);
    FindById(m, r, k);
  }

  /** With non-negative keys, an auto-assigned key is positive, so the
      `bool(created)` of a caller is true. */
  lemma NextIdPositive(rows: seq<Row>)
    requires HasIntIds(rows)
    requires forall i :: 0 <= i < |rows| ==> RowId(rows[i]) >= 0
    ensures NextId(rows) >= 1
  {
    if |rows| > 0 {
      var i :| 0 <= i < |rows| && RowId(rows[i]) == MaxId(rows);
    }
  }

  /** A table of `n` rows with keys 1..n. */
  function NumberedRows(n: nat): (rows: seq<Row>)
    ensures |rows| == n && forall i :: 0 <= i < n ==> rows[i] == map["id" := Int(i + 1)]
  {
    seq(n, i => map["id" := Int(i + 1)])
  }

  /** all() over five rows: a limit of 2 gives keys 1..2, an offset of 2 gives
      3..5, both together with a limit of 1 give key 3, a non-int limit
      returns every row and a non-int offset starts at the first. */
  lemma AllExamples()
    ensures var rows := NumberedRows(5);
      && Window(rows, EffectiveLimit(Int(2)), EffectiveOffset(Int(0))) == NumberedRows(2)
      && Window(rows, EffectiveLimit(Int(DefaultLimit)), EffectiveOffset(Int(2))) == rows[2..]
      && Window(rows, EffectiveLimit(Int(1)), EffectiveOffset(Int(2))) == [map["id" := Int(3)]]
      && Window(rows, EffectiveLimit(Text("a")), EffectiveOffset(Int(0))) == rows
      && Window(rows, EffectiveLimit(Int(3)), EffectiveOffset(Text("b"))) == NumberedRows(3)
  {
    var rows := NumberedRows(5);
    assert Window(rows, 2, 0) == NumberedRows(2);
    assert Window(rows, 3, 0) == NumberedRows(3);
  }
}
