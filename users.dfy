/** The users and reports tables and their repositories (backend/app/repositories/user_repo.py,
    backend/app/models/user_model.py). A user row is also seen as the ORM object's column
    attributes, so that update_user's `setattr` loop can be modelled as it runs: any JSON
    value may be assigned, and the database refuses at commit a value its column cannot
    hold. */
module Users {
  import opened Wrappers
  import opened Text
  import opened JsonData
  import Transactions

  /** A row of `users`. */
  datatype User = User(id: int, email: string, name: string, password: string, confirmed: bool)

  /** The payload create_user receives (UserCreate). */
  datatype UserCreate = UserCreate(email: string, password: string, name: string)

  /** What the user repository raises. */
  datatype UserError = UserException(message: string) | UserNotFoundException(message: string)

  const ReadUserFailed: string := "Erro ao obter o utilizador da base de dados"
  const ReadUsersFailed: string := "Erro ao obter os utilizadores da base de dados"
  const CreateUserFailed: string := "Erro ao criar o utilizador na base de dados"
  const UpdateUserFailed: string := "Erro ao atualizar o utilizador na base de dados"
  const DeleteUserFailed: string := "Erro ao remover o utilizador da base de dados"
  const UserDeleted: string := "User deleted successfully"

  /** `f"User com ID {user_id} não encontrado"`. */
  function UserNotFound(id: int): string {
    "User com ID " + IntToString(id) + " n\U{00E3}o encontrado"
  }

  /** The primary key and the unique email column. */
  predicate UniqueUsers(users: seq<User>) {
    forall i, j | 0 <= i < j < |users| :: users[i].id != users[j].id && users[i].email != users[j].email
  }

  /** Where the row with that id is, if any. */
  function UserIndex(users: seq<User>, id: int): (r: Option<nat>)
    ensures r.Some? ==> r.value < |users| && users[r.value].id == id
    ensures r.None? <==> forall u | u in users :: u.id != id
  {
    if users == [] then None
    else if users[0].id == id then Some(0)
    else
      var rest := UserIndex(users[1..], id);
      if rest.Some? then Some(rest.value + 1) else None
  }

  /** `select(User).where(User.id == user_id)`, scalar_one_or_none. */
  function FindUser(users: seq<User>, id: int): (r: Option<User>)
    ensures r.Some? ==> r.value in users && r.value.id == id
    ensures r.None? <==> forall u | u in users :: u.id != id
  {
    var i := UserIndex(users, id);
    if i.Some? then Some(users[i.value]) else None
  }

  /** `select(User).where(User.email == user_email)`, scalar_one_or_none. */
  function FindUserByEmail(users: seq<User>, email: string): (r: Option<User>)
    ensures r.Some? ==> r.value in users && r.value.email == email
    ensures r.None? <==> forall u | u in users :: u.email != email
  {
    if users == [] then None
    else if users[0].email == email then Some(users[0])
    else FindUserByEmail(users[1..], email)
  }

  /** In a table whose keys are unique, the lookups find the one row with that key. */
  lemma FindUniqueUser(users: seq<User>, k: nat)
    requires UniqueUsers(users) && k < |users|
    ensures FindUser(users, users[k].id) == Some(users[k])
    ensures FindUserByEmail(users, users[k].email) == Some(users[k])
  {
    var r := FindUser(users, users[k].id).value;
    var i :| 0 <= i < |users| && users[i] == r;
    assert i == k;
    var e := FindUserByEmail(users, users[k].email).value;
    var j :| 0 <= j < |users| && users[j] == e;
    assert j == k;
  }

  /** `delete(User).where(User.id == user_id)`. */
  function WithoutUser(users: seq<User>, id: int): (r: seq<User>)
    ensures forall u :: u in r <==> u in users && u.id != id
    ensures |r| <= |users|
  {
    if users == [] then []
    else if users[0].id == id then WithoutUser(users[1..], id)
    else [users[0]] + WithoutUser(users[1..], id)
  }

  // ---------------------------------------------------------------------------------------
  // Column attributes and setattr

  /** The column attributes of a User object. */
  datatype Column = IdColumn | EmailColumn | NameColumn | PasswordColumn | ConfirmedColumn

  /** The attribute name of each column. */
  function ColumnName(c: Column): string {
    match c
    case IdColumn => "id"
    case EmailColumn => "email"
    case NameColumn => "name"
    case PasswordColumn => "password"
    case ConfirmedColumn => "confirmed"
  }

  /** `hasattr(user, key)` for a column: the column the key names, if any. */
  function ColumnOf(key: string): (r: Option<Column>)
    ensures r.Some? ==> ColumnName(r.value) == key
  {
    if key == "id" then Some(IdColumn)
    else if key == "email" then Some(EmailColumn)
    else if key == "name" then Some(NameColumn)
    else if key == "password" then Some(PasswordColumn)
    else if key == "confirmed" then Some(ConfirmedColumn)
    else None
  }

  lemma ColumnOfName(c: Column)
    ensures ColumnOf(ColumnName(c)) == Some(c)
  {
  }

  /** One column attribute of a row, as a JSON value. */
  function ColumnValue(u: User, c: Column): Json {
    match c
    case IdColumn => JInt(u.id)
    case EmailColumn => JStr(u.email)
    case NameColumn => JStr(u.name)
    case PasswordColumn => JStr(u.password)
    case ConfirmedColumn => JBool(u.confirmed)
  }

  /** A loaded User object's column attributes. */
  function Attributes(u: User): map<Column, Json> {
    map[IdColumn := JInt(u.id), EmailColumn := JStr(u.email), NameColumn := JStr(u.name),
        PasswordColumn := JStr(u.password), ConfirmedColumn := JBool(u.confirmed)]
  }

  /** The row the database stores for the object's attributes, or None when one of them
      does not fit its column (a NULL in a NOT NULL column, a value of the wrong type). */
  function Stored(attrs: map<Column, Json>): Option<User> {
    if IdColumn in attrs && EmailColumn in attrs && NameColumn in attrs && PasswordColumn in attrs
       && ConfirmedColumn in attrs
       && attrs[IdColumn].JInt? && attrs[EmailColumn].JStr? && attrs[NameColumn].JStr?
       && attrs[PasswordColumn].JStr? && attrs[ConfirmedColumn].JBool?
    then Some(User(attrs[IdColumn].i, attrs[EmailColumn].s, attrs[NameColumn].s,
                   attrs[PasswordColumn].s, attrs[ConfirmedColumn].b))
    else None
  }

  /** A loaded object, stored unchanged, is the row it was loaded from. */
  lemma StoredAttributes(u: User)
    ensures Stored(Attributes(u)) == Some(u)
  {
  }

  /** A row the database accepts is exactly the attributes it was stored from. */
  lemma StoredRoundTrip(attrs: map<Column, Json>)
    requires Stored(attrs).Some?
    ensures Attributes(Stored(attrs).value) == attrs
  {
    var a := Attributes(Stored(attrs).value);
    forall c: Column ensures c in attrs && c in a && attrs[c] == a[c] {
      match c
      case IdColumn =>
      case EmailColumn =>
      case NameColumn =>
      case PasswordColumn =>
      case ConfirmedColumn =>
    }
    assert attrs.Keys == a.Keys;
  }

  /** The attributes after `for key, value in user_data.items(): if hasattr(user, key):
      setattr(user, key, value)`. */
  function SetAttributes(attrs: map<Column, Json>, items: seq<(string, Json)>): map<Column, Json> {
    if items == [] then attrs
    else
      var before := SetAttributes(attrs, items[..|items| - 1]);
      var (key, value) := items[|items| - 1];
      var c := ColumnOf(key);
      if c.Some? then before[c.value := value] else before
  }

  /** The value the last item naming column c assigns, if any item names it. */
  function LastAssigned(items: seq<(string, Json)>, c: Column): Option<Json> {
    if items == [] then None
    else if ColumnOf(items[|items| - 1].0) == Some(c) then Some(items[|items| - 1].1)
    else LastAssigned(items[..|items| - 1], c)
  }

  /** The last item naming a column is the one a dict lookup of its name finds. */
  lemma {:induction false} LastAssignedIsLookup(items: seq<(string, Json)>, c: Column)
    ensures LastAssigned(items, c) == Lookup(items, ColumnName(c))
    decreases |items|
  {
    if items != [] {
      ColumnOfName(c);
      LastAssignedIsLookup(items[..|items| - 1], c);
    }
  }

  /** After the loop a column of a loaded object holds the value of the last item naming
      it, or its old value when no item names it. */
  lemma {:induction false} SetAttributesAt(attrs: map<Column, Json>, items: seq<(string, Json)>, c: Column)
    requires c in attrs
    ensures c in SetAttributes(attrs, items)
    ensures SetAttributes(attrs, items)[c] == if LastAssigned(items, c).Some? then LastAssigned(items, c).value else attrs[c]
    decreases |items|
  {
    if items != [] {
      SetAttributesAt(attrs, items[..|items| - 1], c);
    }
  }

  /** The loop never adds an attribute the object lacked. */
  lemma {:induction false} SetAttributesKeys(attrs: map<Column, Json>, items: seq<(string, Json)>)
    requires forall c: Column :: c in attrs
    ensures forall c: Column :: c in SetAttributes(attrs, items)
    decreases |items|
  {
    if items != [] {
      SetAttributesKeys(attrs, items[..|items| - 1]);
    }
  }

  /** An update whose keys name no column leaves the object as it was. */
  lemma IgnoredKeysChangeNothing(u: User, items: seq<(string, Json)>)
    requires forall i | 0 <= i < |items| :: ColumnOf(items[i].0).None?
    ensures SetAttributes(Attributes(u), items) == Attributes(u)
  {
    var a := Attributes(u);
    forall c: Column ensures c in a {
      match c
      case IdColumn =>
      case EmailColumn =>
      case NameColumn =>
      case PasswordColumn =>
      case ConfirmedColumn =>
    }
    SetAttributesKeys(a, items);
    forall c: Column ensures SetAttributes(a, items)[c] == a[c] {
      SetAttributesAt(a, items, c);
      NoneAssigned(items, c);
    }
  }

  lemma {:induction false} NoneAssigned(items: seq<(string, Json)>, c: Column)
    requires forall i | 0 <= i < |items| :: ColumnOf(items[i].0).None?
    ensures LastAssigned(items, c).None?
    decreases |items|
  {
    if items != [] {
      NoneAssigned(items[..|items| - 1], c);
    }
  }

  /** The row update_user commits: each column holds the value of the last item naming it,
      or the value it had. */
  lemma UpdatedRow(u: User, items: seq<(string, Json)>, c: Column)
    requires Stored(SetAttributes(Attributes(u), items)).Some?
    ensures ColumnValue(Stored(SetAttributes(Attributes(u), items)).value, c)
         == if Lookup(items, ColumnName(c)).Some? then Lookup(items, ColumnName(c)).value else ColumnValue(u, c)
  {
    var attrs := SetAttributes(Attributes(u), items);
    StoredRoundTrip(attrs);
    LastAssignedIsLookup(items, c);
    SetAttributesAt(Attributes(u), items, c);
    var w := Stored(attrs).value;
    assert ColumnValue(w, c) == Attributes(w)[c] by { match c { case _ => } }
    assert ColumnValue(u, c) == Attributes(u)[c] by { match c { case _ => } }
  }

  /** A NULL assigned to any column cannot be stored. */
  lemma NullIsRefused(u: User, key: string)
    requires ColumnOf(key).Some?
    ensures Stored(SetAttributes(Attributes(u), [(key, JNull)])) == None
  {
    var items := [(key, JNull)];
    assert items[..0] == [];
  }

  // ---------------------------------------------------------------------------------------
  // Creating a user

  /** The attributes `User(**user_data.model_dump())` has when it is inserted: the id from
      the sequence and the three given fields; `confirmed` is given neither a value nor a
      default, so it is NULL. */
  function AsWrittenNewUser(id: int, data: UserCreate): map<Column, Json> {
    map[IdColumn := JInt(id), EmailColumn := JStr(data.email), NameColumn := JStr(data.name),
        PasswordColumn := JStr(data.password), ConfirmedColumn := JNull]
  }

  /** As written, no user can ever be inserted: `confirmed` is NOT NULL and left NULL. */
  lemma AsWrittenCreateUserFails(id: int, data: UserCreate)
    ensures Stored(AsWrittenNewUser(id, data)) == None
  {
  }

  /** The attributes of a new user as evidently intended: an unconfirmed account. */
  function NewUser(id: int, data: UserCreate): map<Column, Json> {
    AsWrittenNewUser(id, data)[ConfirmedColumn := JBool(false)]
  }

  /** With `confirmed` defaulting to False, the inserted row carries exactly the given
      fields. */
  lemma NewUserStored(id: int, data: UserCreate)
    ensures Stored(NewUser(id, data)) == Some(User(id, data.email, data.name, data.password, false))
  {
  }

  lemma UniqueAppend(users: seq<User>, u: User)
    requires UniqueUsers(users)
    requires forall v | v in users :: v.id != u.id && v.email != u.email
    ensures UniqueUsers(users + [u])
  {
    var r := users + [u];
    forall i, j | 0 <= i < j < |r| ensures r[i].id != r[j].id && r[i].email != r[j].email {
      if j < |users| {
        assert r[i] == users[i] && r[j] == users[j];
      } else {
        assert r[i] == users[i] && users[i] in users;
      }
    }
  }

  /** The rows after the first of a unique table are unique, and none shares a key with
      the first. */
  lemma UniqueTail(users: seq<User>)
    requires UniqueUsers(users) && users != []
    ensures UniqueUsers(users[1..])
    ensures forall v | v in users[1..] :: v.id != users[0].id && v.email != users[0].email
  {
    var tail := users[1..];
    forall i, j | 0 <= i < j < |tail| ensures tail[i].id != tail[j].id && tail[i].email != tail[j].email {
      assert tail[i] == users[i + 1] && tail[j] == users[j + 1];
    }
    forall v | v in tail ensures v.id != users[0].id && v.email != users[0].email {
      var k :| 0 <= k < |tail| && tail[k] == v;
      assert users[k + 1] == v;
    }
  }

  /** A row with fresh keys in front of a unique table keeps it unique. */
  lemma UniqueCons(u: User, rest: seq<User>)
    requires UniqueUsers(rest)
    requires forall v | v in rest :: v.id != u.id && v.email != u.email
    ensures UniqueUsers([u] + rest)
  {
    var r := [u] + rest;
    forall i, j | 0 <= i < j < |r| ensures r[i].id != r[j].id && r[i].email != r[j].email {
      if i == 0 {
        assert r[j] in rest;
      } else {
        assert r[i] == rest[i - 1] && r[j] == rest[j - 1];
      }
    }
  }

  lemma {:induction false} UniqueWithout(users: seq<User>, id: int)
    requires UniqueUsers(users)
    ensures UniqueUsers(WithoutUser(users, id))
    decreases |users|
  {
    if users != [] {
      UniqueTail(users);
      UniqueWithout(users[1..], id);
      if users[0].id != id {
        UniqueCons(users[0], WithoutUser(users[1..], id));
      }
    }
  }

  // ---------------------------------------------------------------------------------------
  // UserRepository

  /** UserRepository over the users table. Database errors are parameters. */
  class UserRepository {
    /** The committed rows, in table order. */
    var users: seq<User>
    /** The next value of the id sequence; PostgreSQL never gives a drawn value back, even
        when the insert fails. */
    var nextId: int

    ghost predicate Valid()
      reads this
    {
      UniqueUsers(users)
    }

    constructor(initial: seq<User>, next: int)
      requires UniqueUsers(initial)
      ensures users == initial && nextId == next && Valid()
    {
      users := initial;
      nextId := next;
    }

    /** get_user: the row with that id, or None. */
    method GetUser(id: int, failure: bool) returns (r: Result<Option<User>, UserError>)
      ensures r.Failure? <==> failure
      ensures r.Failure? ==> r.error == UserException(ReadUserFailed)
      ensures r.Success? ==> r.value == FindUser(users, id)
    {
      if failure {
        return Failure(UserException(ReadUserFailed));
      }
      r := Success(FindUser(users, id));
    }

    /** get_user_by_email: the row with that email, or None. */
    method GetUserByEmail(email: string, failure: bool) returns (r: Result<Option<User>, UserError>)
      ensures r.Failure? <==> failure
      ensures r.Failure? ==> r.error == UserException(ReadUserFailed)
      ensures r.Success? ==> r.value == FindUserByEmail(users, email)
    {
      if failure {
        return Failure(UserException(ReadUserFailed));
      }
      r := Success(FindUserByEmail(users, email));
    }

    /** get_users: `.offset(skip).limit(limit)` over the table; PostgreSQL refuses a negative
        OFFSET or LIMIT, which surfaces as the repository's error. */
    method GetUsers(skip: int, limit: int, failure: bool) returns (r: Result<seq<User>, UserError>)
      ensures r.Failure? <==> failure || skip < 0 || limit < 0
      ensures r.Failure? ==> r.error == UserException(ReadUsersFailed)
      ensures r.Success? ==> r.value == Transactions.Page(users, skip, limit)
      ensures r.Success? ==> |r.value| <= limit && forall u | u in r.value :: u in users
    {
      if failure || skip < 0 || limit < 0 {
        return Failure(UserException(ReadUsersFailed));
      }
      r := Success(Transactions.Page(users, skip, limit));
    }

    /** create_user, with `confirmed` defaulting to False: draw an id, insert the row unless
        it clashes with the primary key or the unique email, and return it. */
    method CreateUser(data: UserCreate, failure: bool) returns (r: Result<User, UserError>)
      requires Valid()
      modifies this
      ensures Valid() && nextId == old(nextId) + 1
      ensures r.Failure? <==> failure || exists u | u in old(users) :: u.id == old(nextId) || u.email == data.email
      ensures r.Failure? ==> r.error == UserException(CreateUserFailed) && users == old(users)
      ensures r.Success? ==>
        r.value == User(old(nextId), data.email, data.name, data.password, false) && users == old(users) + [r.value]
    {
      var id := nextId;
      nextId := nextId + 1;
      var row := Stored(NewUser(id, data));
      NewUserStored(id, data);
      if failure || row.None? || exists u | u in users :: u.id == id || u.email == data.email {
        return Failure(UserException(CreateUserFailed));
      }
      UniqueAppend(users, row.value);
      users := users + [row.value];
      r := Success(row.value);
    }

    /** update_user: load the user (its read error passes through unchanged); when missing,
        answer None and commit nothing; otherwise run the setattr loop and commit, which fails,
        rolls back and raises when a value does not fit its column or a key constraint
        breaks. */
    method UpdateUser(id: int, items: seq<(string, Json)>, readFailure: bool, commitFailure: bool)
      returns (r: Result<Option<User>, UserError>)
      requires Valid()
      modifies this
      ensures Valid() && nextId == old(nextId)
      ensures readFailure ==> r == Failure(UserException(ReadUserFailed)) && users == old(users)
      ensures !readFailure && UserIndex(old(users), id).None? ==> r == Success(None) && users == old(users)
      ensures !readFailure && UserIndex(old(users), id).Some? ==>
        var k := UserIndex(old(users), id).value;
        var row := Stored(SetAttributes(Attributes(old(users)[k]), items));
        if !commitFailure && row.Some? && UniqueUsers(old(users)[k := row.value])
        then r == Success(row) && users == old(users)[k := row.value]
        else r == Failure(UserException(UpdateUserFailed)) && users == old(users)
    {
      var loaded := GetUser(id, readFailure);
      if loaded.Failure? {
        return Failure(loaded.error);
      }
      if loaded.value.None? {
        return Success(None);
      }
      var k := UserIndex(users, id).value;
      var attrs := Attributes(loaded.value.value);
      for i := 0 to |items|
        invariant attrs == SetAttributes(Attributes(users[k]), items[..i])
      {
        assert items[..i + 1][..i] == items[..i];
        var (key, value) := items[i];
        var c := ColumnOf(key);
        if c.Some? {
          attrs := attrs[c.value := value];
        }
      }
      assert items[..|items|] == items;
      var row := Stored(attrs);
      if commitFailure || row.None? || !UniqueUsers(users[k := row.value]) {
        return Failure(UserException(UpdateUserFailed));
      }
      users := users[k := row.value];
      r := Success(row);
    }

    /** delete_user: delete by id; when no row matched, UserNotFoundException (raised inside
        the try but not a database error, so it propagates as it is). */
    method DeleteUser(id: int, failure: bool) returns (r: Result<string, UserError>)
      requires Valid()
      modifies this
      ensures Valid() && nextId == old(nextId)
      ensures failure ==> r == Failure(UserException(DeleteUserFailed)) && users == old(users)
      ensures !failure && FindUser(old(users), id).None? ==>
        r == Failure(UserNotFoundException(UserNotFound(id))) && users == old(users)
      ensures !failure && FindUser(old(users), id).Some? ==>
        r == Success(UserDeleted) && users == WithoutUser(old(users), id) && |users| == |old(users)| - 1
    {
      if failure {
        return Failure(UserException(DeleteUserFailed));
      }
      var found := FindUser(users, id);
      if found.None? {
        return Failure(UserNotFoundException(UserNotFound(id)));
      }
      WithoutOneUser(users, id);
      UniqueWithout(users, id);
      users := WithoutUser(users, id);
      r := Success(UserDeleted);
    }
  }

  /** With unique ids, deleting an existing id removes exactly one row. */
  lemma {:induction false} WithoutOneUser(users: seq<User>, id: int)
    requires UniqueUsers(users) && FindUser(users, id).Some?
    ensures |WithoutUser(users, id)| == |users| - 1
    decreases |users|
  {
    if users[0].id == id {
      UniqueTail(users);
      WithoutNone(users[1..], id);
    } else {
      var u := FindUser(users, id).value;
      assert u in users[1..];
      UniqueTail(users);
      WithoutOneUser(users[1..], id);
    }
  }

  /** Deleting an id that is in no row keeps every row. */
  lemma {:induction false} WithoutNone(users: seq<User>, id: int)
    requires forall v | v in users :: v.id != id
    ensures WithoutUser(users, id) == users
    decreases |users|
  {
    if users != [] {
      WithoutNone(users[1..], id);
    }
  }

  // ---------------------------------------------------------------------------------------
  // ReportRepository

  /** A row of `reports`: its author, its creation time and its JSON content. */
  datatype Report = Report(id: int, userId: int, createdAt: int, content: Json)

  /** What the report repository raises: the transactions module's DatabaseException, whose
      one given text is its name while its message stays the default, or a database error
      that create lets through unwrapped. */
  datatype ReportError = DatabaseException(name: string, message: string) | SqlAlchemyError(message: string)

  /** `DatabaseException(text)`. */
  function ReportDatabase(name: string): ReportError {
    DatabaseException(name, Transactions.DefaultMessage)
  }

  const DeleteReportFailed: string := "Error deleting report from database"
  const ReportDeleted: string := "Report deleted successfully"

  function ReportNotFound(id: int): string {
    "Report with ID " + IntToString(id) + " not found"
  }

  /** `select(Report).where(Report.user_id == user_id)`, in table order. */
  function ReportsOf(reports: seq<Report>, userId: int): (r: seq<Report>)
    ensures forall x :: x in r <==> x in reports && x.userId == userId
    ensures |r| <= |reports|
  {
    if reports == [] then []
    else if reports[0].userId == userId then [reports[0]] + ReportsOf(reports[1..], userId)
    else ReportsOf(reports[1..], userId)
  }

  /** `order_by(desc(created_at)).limit(1)`: a report with the greatest creation time, or
      None for no reports. */
  function Latest(reports: seq<Report>): (r: Option<Report>)
    ensures r.None? <==> reports == []
    ensures r.Some? ==> r.value in reports && forall x | x in reports :: x.createdAt <= r.value.createdAt
  {
    if reports == [] then None
    else
      var rest := Latest(reports[1..]);
      if rest.None? || rest.value.createdAt <= reports[0].createdAt then Some(reports[0]) else rest
  }

  /** `select(Report).where(Report.id == report_id)`, scalar_one_or_none. */
  function FindReport(reports: seq<Report>, id: int): (r: Option<Report>)
    ensures r.Some? ==> r.value in reports && r.value.id == id
    ensures r.None? <==> forall x | x in reports :: x.id != id
  {
    if reports == [] then None
    else if reports[0].id == id then Some(reports[0])
    else FindReport(reports[1..], id)
  }

  /** `delete(Report).where(Report.id == report_id)`. */
  function WithoutReport(reports: seq<Report>, id: int): (r: seq<Report>)
    ensures forall x :: x in r <==> x in reports && x.id != id
    ensures |r| <= |reports|
  {
    if reports == [] then []
    else if reports[0].id == id then WithoutReport(reports[1..], id)
    else [reports[0]] + WithoutReport(reports[1..], id)
  }

  /** Report ids are distinct and drawn from the sequence before `nextId`. */
  predicate ReportIds(reports: seq<Report>, nextId: int) {
    (forall i | 0 <= i < |reports| :: reports[i].id < nextId)
    && (forall i, j | 0 <= i < j < |reports| :: reports[i].id != reports[j].id)
  }

  lemma ReportIdsTail(reports: seq<Report>, nextId: int)
    requires ReportIds(reports, nextId) && reports != []
    ensures ReportIds(reports[1..], nextId)
    ensures forall x | x in reports[1..] :: x.id != reports[0].id
  {
    var tail := reports[1..];
    forall i | 0 <= i < |tail| ensures tail[i].id < nextId {
      assert tail[i] == reports[i + 1];
    }
    forall i, j | 0 <= i < j < |tail| ensures tail[i].id != tail[j].id {
      assert tail[i] == reports[i + 1] && tail[j] == reports[j + 1];
    }
    forall x | x in tail ensures x.id != reports[0].id {
      var k :| 0 <= k < |tail| && tail[k] == x;
      assert reports[k + 1] == x;
    }
  }

  lemma ReportIdsCons(x: Report, rest: seq<Report>, nextId: int)
    requires ReportIds(rest, nextId) && x.id < nextId
    requires forall y | y in rest :: y.id != x.id
    ensures ReportIds([x] + rest, nextId)
  {
    var r := [x] + rest;
    forall i | 0 <= i < |r| ensures r[i].id < nextId {
      if i > 0 { assert r[i] == rest[i - 1]; }
    }
    forall i, j | 0 <= i < j < |r| ensures r[i].id != r[j].id {
      if i == 0 {
        assert r[j] in rest;
      } else {
        assert r[i] == rest[i - 1] && r[j] == rest[j - 1];
      }
    }
  }

  lemma {:induction false} ReportIdsWithout(reports: seq<Report>, nextId: int, id: int)
    requires ReportIds(reports, nextId)
    ensures ReportIds(WithoutReport(reports, id), nextId)
    decreases |reports|
  {
    if reports != [] {
      ReportIdsTail(reports, nextId);
      ReportIdsWithout(reports[1..], nextId, id);
      if reports[0].id != id {
        ReportIdsCons(reports[0], WithoutReport(reports[1..], id), nextId);
      }
    }
  }

  /** The latest report of a user is theirs and no report of theirs is newer. */
  lemma LatestOfUser(reports: seq<Report>, userId: int)
    ensures Latest(ReportsOf(reports, userId)).None? <==> forall x | x in reports :: x.userId != userId
    ensures Latest(ReportsOf(reports, userId)).Some? ==>
      var l := Latest(ReportsOf(reports, userId)).value;
      l in reports && l.userId == userId
      && forall x | x in reports && x.userId == userId :: x.createdAt <= l.createdAt
  {
    if ReportsOf(reports, userId) != [] {
      assert ReportsOf(reports, userId)[0] in ReportsOf(reports, userId);
    }
  }

  /** ReportRepository over the reports table. */
  class ReportRepository {
    var reports: seq<Report>
    var nextId: int

    ghost predicate Valid()
      reads this
    {
      ReportIds(reports, nextId)
    }

    constructor(initial: seq<Report>, next: int)
      requires ReportIds(initial, next)
      ensures reports == initial && nextId == next && Valid()
    {
      reports := initial;
      nextId := next;
    }

    /** create: draw an id from the sequence, insert a report stamped with the local time and
        return it; a database error propagates unwrapped. As for users, the drawn id is
        consumed even when the insert fails. */
    method Create(userId: int, content: Json, now: int, failure: Option<string>) returns (r: Result<Report, ReportError>)
      requires Valid()
      modifies this
      ensures Valid() && nextId == old(nextId) + 1
      ensures failure.Some? ==> r == Failure(SqlAlchemyError(failure.value)) && reports == old(reports)
      ensures failure.None? ==>
        r == Success(Report(old(nextId), userId, now, content)) && reports == old(reports) + [r.value]
    {
      var report := Report(nextId, userId, now, content);
      nextId := nextId + 1;
      if failure.Some? {
        return Failure(SqlAlchemyError(failure.value));
      }
      reports := reports + [report];
      r := Success(report);
    }

    /** get_by_user_id: exactly the reports of that user. */
    function GetByUserId(userId: int): (r: seq<Report>)
      reads this
      ensures forall x :: x in r <==> x in reports && x.userId == userId
    {
      ReportsOf(reports, userId)
    }

    /** get_by_id: the report with that id, or None. */
    function GetById(id: int): (r: Option<Report>)
      reads this
      ensures r.Some? ==> r.value in reports && r.value.id == id
      ensures r.None? <==> forall x | x in reports :: x.id != id
    {
      FindReport(reports, id)
    }

    /** get_latest_user_report: the user's report with the greatest creation time, or None
        when the user has none. */
    function GetLatestUserReport(userId: int): (r: Option<Report>)
      reads this
      ensures r.None? <==> forall x | x in reports :: x.userId != userId
      ensures r.Some? ==>
        r.value in reports && r.value.userId == userId && forall x | x in reports && x.userId == userId :: x.createdAt <= r.value.createdAt
    {
      LatestOfUser(reports, userId);
      Latest(ReportsOf(reports, userId))
    }

    /** delete: remove the report with that id; a DatabaseException named after the cause
        (no row matched, or the database failed), with the default message, otherwise. */
    method Delete(id: int, failure: bool) returns (r: Result<string, ReportError>)
      requires Valid()
      modifies this
      ensures Valid() && nextId == old(nextId)
      ensures failure ==>
        r == Failure(DatabaseException(DeleteReportFailed, Transactions.DefaultMessage)) && reports == old(reports)
      ensures !failure && FindReport(old(reports), id).None? ==>
        r == Failure(DatabaseException(ReportNotFound(id), Transactions.DefaultMessage)) && reports == old(reports)
      ensures !failure && FindReport(old(reports), id).Some? ==>
        r == Success(ReportDeleted) && reports == WithoutReport(old(reports), id)
    {
      if failure {
        return Failure(ReportDatabase(DeleteReportFailed));
      }
      if FindReport(reports, id).None? {
        return Failure(ReportDatabase(ReportNotFound(id)));
      }
      ReportIdsWithout(reports, nextId, id);
      reports := WithoutReport(reports, id);
      r := Success(ReportDeleted);
    }
  }
}
