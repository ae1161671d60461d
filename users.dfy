/**
 * Users and their balances: decoding a registration or login request,
 * checking a password against the stored hash, and decoding `User` and
 * `UserBalance` from a database row.  The package declares `User` and its
 * row decoding twice, identically; both are this one model.
 */
module Users {
  import opened Wrappers
  import opened Io
  import opened Rows

  // ----------------------------------------------------------------- User

  /** The fields of a `User`: login, password (plain or hashed) and salt. */
  datatype UserData = UserData(login: string, password: string, salt: string)

  /** A freshly allocated `User`. */
  const ZeroUser := UserData("", "", "")

  /** The user document of a request: the salt is not a JSON field, so a document never carries one. */
  datatype UserDoc = UserDoc(login: string, password: string)

  /** Every user column holds text; any other value, null included, makes `ScanRow` panic. */
  predicate UserCellFits(name: string, c: Cell) {
    (name == "login" || name == "password" || name == "salt") ==> c.TextCell?
  }

  predicate UserCellsFit(fields: seq<string>, cells: seq<Cell>)
    requires |cells| <= |fields|
  {
    forall j :: 0 <= j < |cells| ==> UserCellFits(Lower(fields[j]), cells[j])
  }

  /** One step of `User.ScanRow`; values of the wrong type change nothing here and are kept out by `ScanRow`. */
  function AssignUser(u: UserData, name: string, c: Cell): UserData {
    var key := Lower(name);
    if !c.TextCell? then u
    else if key == "login" then u.(login := c.s)
    else if key == "password" then u.(password := c.s)
    else if key == "salt" then u.(salt := c.s)
    else u
  }

  /** What one column does to each field. */
  lemma AssignUserFields(u: UserData, name: string, c: Cell)
    ensures AssignUser(u, name, c).login == if Lower(name) == "login" && c.TextCell? then c.s else u.login
    ensures AssignUser(u, name, c).password == if Lower(name) == "password" && c.TextCell? then c.s else u.password
    ensures AssignUser(u, name, c).salt == if Lower(name) == "salt" && c.TextCell? then c.s else u.salt
  {
  }

  /**
   * Scanning a row sets login, password and salt each from the last column
   * of its name, ignoring case, and leaves a field with no column unchanged;
   * other columns are ignored.
   */
  lemma ScanUserByLastSet(u: UserData, fields: seq<string>, cells: seq<Cell>)
    requires |cells| <= |fields| && UserCellsFit(fields, cells)
    ensures var r, l := Scan(u, fields, cells, AssignUser), LastSet(fields, cells, "login");
      (l.None? ==> r.login == u.login) && (l.Some? ==> cells[l.value] == TextCell(r.login))
    ensures var r, p := Scan(u, fields, cells, AssignUser), LastSet(fields, cells, "password");
      (p.None? ==> r.password == u.password) && (p.Some? ==> cells[p.value] == TextCell(r.password))
    ensures var r, s := Scan(u, fields, cells, AssignUser), LastSet(fields, cells, "salt");
      (s.None? ==> r.salt == u.salt) && (s.Some? ==> cells[s.value] == TextCell(r.salt))
  {
    forall j, x | 0 <= j < |cells| {
      AssignUserFields(x, fields[j], cells[j]);
    }
    ScanField(u, fields, cells, AssignUser, "login", (x: UserData) => x.login, (c: Cell) => if c.TextCell? then c.s else "");
    ScanField(u, fields, cells, AssignUser, "password", (x: UserData) => x.password, (c: Cell) => if c.TextCell? then c.s else "");
    ScanField(u, fields, cells, AssignUser, "salt", (x: UserData) => x.salt, (c: Cell) => if c.TextCell? then c.s else "");
  }

  /** Why no user could be built from a request. */
  datatype UserError = ReadFailed(readError: IoError) | WriteFieldsFailed(jsonError: JsonError) | EmptyLogin | EmptyPassword

  /**
   * `NewUserByRequestBody`: reads the body, decodes it with the JSON decoder
   * of user documents `decode`, then rejects an empty login and, after that,
   * an empty password.  The user built has no salt.
   */
  function NewUserByRequestBody(body: Result<seq<byte>, IoError>, decode: seq<byte> -> Result<UserDoc, JsonError>)
    : (r: Result<UserData, UserError>)
    ensures body.Failure? ==> r == Failure(ReadFailed(body.error))
    ensures body.Success? && decode(body.value).Failure? ==> r == Failure(WriteFieldsFailed(decode(body.value).error))
    ensures body.Success? && decode(body.value).Success? ==>
      var doc := decode(body.value).value;
      && (doc.login == "" ==> r == Failure(EmptyLogin))
      && (doc.login != "" && doc.password == "" ==> r == Failure(EmptyPassword))
      && (r.Success? <==> doc.login != "" && doc.password != "")
    ensures r.Success? ==>
      body.Success? && decode(body.value) == Success(UserDoc(r.value.login, r.value.password))
      && r.value.login != "" && r.value.password != "" && r.value.salt == ""
  {
    if body.Failure? then Failure(ReadFailed(body.error))
    else match decode(body.value)
      case Failure(e) => Failure(WriteFieldsFailed(e))
      case Success(doc) =>
        if doc.login == "" then Failure(EmptyLogin)
        else if doc.password == "" then Failure(EmptyPassword)
        else Success(UserData(doc.login, doc.password, ""))
  }

  /**
   * `NewUserByJSON`: decodes a user document into a fresh user.  An empty
   * login or password is accepted; only a malformed document is an error.
   * The salt is never taken from the document.
   */
  function NewUserByJSON(j: seq<byte>, decode: seq<byte> -> Result<UserDoc, JsonError>): (r: Result<UserData, JsonError>)
    ensures r.Failure? <==> decode(j).Failure?
    ensures r.Failure? ==> r.error == decode(j).error
    ensures r.Success? ==>
      decode(j) == Success(UserDoc(r.value.login, r.value.password)) && r.value.salt == ""
  {
    match decode(j)
    case Failure(e) => Failure(e)
    case Success(doc) => Success(UserData(doc.login, doc.password, ""))
  }

  /**
   * The two constructors agree: a readable request body yields a user
   * exactly when `NewUserByJSON` accepts it with a non-empty login and
   * password, and then the same user.
   */
  lemma RequestBodyIsJSONWithChecks(b: seq<byte>, decode: seq<byte> -> Result<UserDoc, JsonError>)
    ensures var byBody, byJSON := NewUserByRequestBody(Success(b), decode), NewUserByJSON(b, decode);
      (byBody.Success? <==> byJSON.Success? && byJSON.value.login != "" && byJSON.value.password != "")
      && (byBody.Success? ==> byBody.value == byJSON.value)
  {
  }

  /** An empty body is rejected whenever the decoder rejects the empty document, as `encoding/json` does. */
  lemma EmptyUserBodyRejected(decode: seq<byte> -> Result<UserDoc, JsonError>)
    requires decode([]).Failure?
    ensures NewUserByRequestBody(Success([]), decode) == Failure(WriteFieldsFailed(decode([]).error))
    ensures NewUserByJSON([], decode).Failure?
  {
  }

  /** An error of the password hash (for example, a salt that is not hexadecimal). */
  datatype HashError = HashError(reason: string)

  /** Why a password check failed: the hash could not be computed, or it differs from the stored one. */
  datatype PasswordError = HashFailed(hashError: HashError) | ErrPWDNotEqual

  class User {
    var login: string
    var password: string
    var salt: string

    function Data(): UserData
      reads this
    {
      UserData(login, password, salt)
    }

    constructor()
      ensures Data() == ZeroUser
    {
      login, password, salt := "", "", "";
    }

    /** `User.ScanRow`: a read failure is reported and changes nothing; otherwise the columns are applied in order. */
    method ScanRow(row: Row) returns (err: Option<RowError>)
      requires row.values.Success? ==>
        |row.values.value| <= |row.fields| && UserCellsFit(row.fields, row.values.value)
      modifies this
      ensures row.values.Failure? ==> err == Some(row.values.error) && Data() == old(Data())
      ensures row.values.Success? ==>
        err == None && Data() == Scan(old(Data()), row.fields, row.values.value, AssignUser)
    {
      if row.values.Failure? {
        return Some(row.values.error);
      }
      var values := row.values.value;
      var i := 0;
      while i < |values|
        invariant 0 <= i <= |values|
        invariant Data() == Scan(old(Data()), row.fields, values[..i], AssignUser)
      {
        assert values[..i + 1][..i] == values[..i];
        assert UserCellFits(Lower(row.fields[i]), values[i]);
        var key := Lower(row.fields[i]);
        if key == "login" {
          login := values[i].s;
        } else if key == "password" {
          password := values[i].s;
        } else if key == "salt" {
          salt := values[i].s;
        }
        i := i + 1;
      }
      assert values[..i] == values;
      err := None;
    }

    /**
     * `User.CheckPassword`: hashes the candidate password with the stored
     * salt.  A hash failure is returned as it is; a hash that differs from
     * the stored password is exactly `ErrPWDNotEqual`; a match is success.
     */
    method CheckPassword(candidate: string, hash: (string, string) -> Result<string, HashError>)
      returns (err: Option<PasswordError>)
      ensures err.None? <==> hash(candidate, salt) == Success(password)
      ensures hash(candidate, salt).Failure? ==> err == Some(HashFailed(hash(candidate, salt).error))
      ensures err == Some(ErrPWDNotEqual) <==> hash(candidate, salt).Success? && hash(candidate, salt).value != password
    {
      var hashed := hash(candidate, salt);
      if hashed.Failure? {
        return Some(HashFailed(hashed.error));
      }
      if hashed.value != password {
        return Some(ErrPWDNotEqual);
      }
      err := None;
    }
  }

  // ----------------------------------------------------------- UserBalance

  /** The fields of a `UserBalance`: the current balance and the optional total withdrawn. */
  datatype BalanceData = BalanceData(current: Float64, withdrawn: Option<Float64>)

  /** A freshly allocated `UserBalance`. */
  const ZeroBalance := BalanceData(0.0, None)

  /** Both balance columns hold a float; any other value, null included, makes `ScanRow` panic. */
  predicate BalanceCellFits(name: string, c: Cell) {
    (name == "current" || name == "withdrawn") ==> c.FloatCell?
  }

  predicate BalanceCellsFit(fields: seq<string>, cells: seq<Cell>)
    requires |cells| <= |fields|
  {
    forall j :: 0 <= j < |cells| ==> BalanceCellFits(Lower(fields[j]), cells[j])
  }

  /** One step of `UserBalance.ScanRow`; values of the wrong type change nothing here and are kept out by `ScanRow`. */
  function AssignBalance(b: BalanceData, name: string, c: Cell): BalanceData {
    var key := Lower(name);
    if !c.FloatCell? then b
    else if key == "current" then b.(current := c.f)
    else if key == "withdrawn" then b.(withdrawn := Some(c.f))
    else b
  }

  /** What one column does to each field. */
  lemma AssignBalanceFields(b: BalanceData, name: string, c: Cell)
    ensures AssignBalance(b, name, c).current == if Lower(name) == "current" && c.FloatCell? then c.f else b.current
    ensures AssignBalance(b, name, c).withdrawn == if Lower(name) == "withdrawn" && c.FloatCell? then Some(c.f) else b.withdrawn
  {
  }

  /**
   * Scanning a row sets the current balance from the last "current" column
   * and the withdrawn total from the last "withdrawn" column; with no
   * "withdrawn" column the withdrawn total stays as it was (absent, on a
   * fresh balance).
   */
  lemma ScanBalanceByLastSet(b: BalanceData, fields: seq<string>, cells: seq<Cell>)
    requires |cells| <= |fields| && BalanceCellsFit(fields, cells)
    ensures var r, c := Scan(b, fields, cells, AssignBalance), LastSet(fields, cells, "current");
      (c.None? ==> r.current == b.current) && (c.Some? ==> cells[c.value] == FloatCell(r.current))
    ensures var r, w := Scan(b, fields, cells, AssignBalance), LastSet(fields, cells, "withdrawn");
      (w.None? ==> r.withdrawn == b.withdrawn) && (w.Some? ==> r.withdrawn.Some? && cells[w.value] == FloatCell(r.withdrawn.value))
  {
    forall j, x | 0 <= j < |cells| {
      AssignBalanceFields(x, fields[j], cells[j]);
    }
    ScanField(b, fields, cells, AssignBalance, "current", (x: BalanceData) => x.current, (c: Cell) => if c.FloatCell? then c.f else 0.0);
    ScanField(b, fields, cells, AssignBalance, "withdrawn", (x: BalanceData) => x.withdrawn, (c: Cell) => if c.FloatCell? then Some(c.f) else None);
  }

  class UserBalance {
    var current: Float64
    var withdrawn: Option<Float64>

    function Data(): BalanceData
      reads this
    {
      BalanceData(current, withdrawn)
    }

    constructor()
      ensures Data() == ZeroBalance
    {
      current, withdrawn := 0.0, None;
    }

    /** `UserBalance.ScanRow`: a read failure is reported and changes nothing; otherwise the columns are applied in order. */
    method ScanRow(row: Row) returns (err: Option<RowError>)
      requires row.values.Success? ==>
        |row.values.value| <= |row.fields| && BalanceCellsFit(row.fields, row.values.value)
      modifies this
      ensures row.values.Failure? ==> err == Some(row.values.error) && Data() == old(Data())
      ensures row.values.Success? ==>
        err == None && Data() == Scan(old(Data()), row.fields, row.values.value, AssignBalance)
    {
      if row.values.Failure? {
        return Some(row.values.error);
      }
      var values := row.values.value;
      var i := 0;
      while i < |values|
        invariant 0 <= i <= |values|
        invariant Data() == Scan(old(Data()), row.fields, values[..i], AssignBalance)
      {
        assert values[..i + 1][..i] == values[..i];
        assert BalanceCellFits(Lower(row.fields[i]), values[i]);
        var key := Lower(row.fields[i]);
        if key == "current" {
          current := values[i].f;
        } else if key == "withdrawn" {
          withdrawn := Some(values[i].f);
        }
        i := i + 1;
      }
      assert values[..i] == values;
      err := None;
    }
  }
}
