/**
 * The credential workflow over the `users` table. The table is the state of
 * a `UserStore` object; bcrypt is an abstract pair of functions with only
 * the round-trip assumption; the random salt and the database clock are
 * parameters. Logging is left out.
 */
module AuthService {
  import opened Wrappers

  /** A row of the `users` table; `password` holds the bcrypt hash. */
  datatype UserRow = UserRow(id: nat, name: string, email: string, password: string, role: string, createdAt: nat)

  /** What `createUser` is given: the validated signup data. */
  datatype UserInput = UserInput(name: string, email: string, password: string, role: string)

  /** The columns `createUser` asks the insert to return: everything but the password. */
  datatype NewUser = NewUser(id: nat, name: string, email: string, role: string, createdAt: nat)

  /** The object `authenticateUser` builds from the stored row: everything but the password and the timestamp. */
  datatype AuthenticatedUser = AuthenticatedUser(id: nat, name: string, email: string, role: string)

  /** The errors the service throws. */
  datatype ServiceError = UserAlreadyExists | UserNotFound | InvalidPassword | HashFailed | CompareFailed

  function ErrorMessage(e: ServiceError): string {
    match e
    case UserAlreadyExists => "user already exists"
    case UserNotFound => "User not found"
    case InvalidPassword => "Invalid password"
    case HashFailed => "Error hashing"
    case CompareFailed => "Error comparing password"
  }

  /** The bcrypt cost factor passed to every hash. */
  const CostFactor: nat := 10

  /**
   * bcrypt as two abstract functions: `hash(password, cost, salt)` and
   * `compare(password, hashed)`; `None` is a thrown exception.
   */
  datatype Hasher = Hasher(hash: (string, nat, nat) -> Option<string>, compare: (string, string) -> Option<bool>)

  /** The assumed bcrypt contract: a password compares equal to any hash of itself. */
  ghost predicate Sound(h: Hasher) {
    forall p: string, cost: nat, salt: nat ::
      h.hash(p, cost, salt).Some? ==> h.compare(p, h.hash(p, cost, salt).value) == Some(true)
  }

  /** hashPassword: hash at cost 10; a failure is rethrown as 'Error hashing'. */
  function HashPassword(h: Hasher, password: string, salt: nat): (r: Result<string, ServiceError>)
    ensures r.Err? <==> h.hash(password, CostFactor, salt).None?
    ensures r.Ok? ==> h.hash(password, CostFactor, salt) == Some(r.value)
    ensures r.Err? ==> ErrorMessage(r.error) == "Error hashing"
  {
    match h.hash(password, CostFactor, salt)
    case None => Err(HashFailed)
    case Some(hashed) => Ok(hashed)
  }

  /** comparePassword: a failure is rethrown as 'Error comparing password'. */
  function ComparePassword(h: Hasher, password: string, hashed: string): (r: Result<bool, ServiceError>)
    ensures r.Err? <==> h.compare(password, hashed).None?
    ensures r.Ok? ==> h.compare(password, hashed) == Some(r.value)
    ensures r.Err? ==> ErrorMessage(r.error) == "Error comparing password"
  {
    match h.compare(password, hashed)
    case None => Err(CompareFailed)
    case Some(same) => Ok(same)
  }

  /**
   * The lookup `where email = ? limit 1`, as the index of the first row with
   * exactly that email. The query has no ORDER BY, so the database may pick
   * any matching row; under the table invariant there is at most one
   * (`LookupUnique`), so the choice does not matter.
   */
  function FindByEmail(rows: seq<UserRow>, email: string): (r: Option<nat>)
    ensures r.None? <==> forall i :: 0 <= i < |rows| ==> rows[i].email != email
    ensures r.Some? ==> r.value < |rows| && rows[r.value].email == email
    ensures r.Some? ==> forall i :: 0 <= i < r.value ==> rows[i].email != email
  {
    if |rows| == 0 then None
    else if rows[0].email == email then Some(0)
    else match FindByEmail(rows[1..], email)
      case None => None
      case Some(k) => Some(k + 1)
  }

  /** The table invariant: emails are unique and ids strictly increase below the next serial id. */
  ghost predicate TableValid(rows: seq<UserRow>, nextId: nat) {
    (forall i, j :: 0 <= i < j < |rows| ==> rows[i].email != rows[j].email && rows[i].id < rows[j].id)
    && (forall i :: 0 <= i < |rows| ==> rows[i].id < nextId)
  }

  /** In a valid table, a row with the email is the one the lookup finds. */
  lemma LookupUnique(rows: seq<UserRow>, nextId: nat, email: string, k: nat)
    requires TableValid(rows, nextId)
    requires k < |rows| && rows[k].email == email
    ensures FindByEmail(rows, email) == Some(k)
  {
  }

  /** The outcome of `createUser`: its result and the table afterwards. */
  datatype Created = Created(result: Result<NewUser, ServiceError>, rows: seq<UserRow>, nextId: nat)

  /** The row the insert writes: the next serial id, the hash in place of the password, the clock's time. */
  function NewRow(input: UserInput, id: nat, hashed: string, now: nat): UserRow {
    UserRow(id, input.name, input.email, hashed, input.role, now)
  }

  /** The insert's `returning(...)` projection. */
  function Returned(row: UserRow): NewUser {
    NewUser(row.id, row.name, row.email, row.role, row.createdAt)
  }

  /** The object built from the found row. */
  function Public(row: UserRow): AuthenticatedUser {
    AuthenticatedUser(row.id, row.name, row.email, row.role)
  }

  /** createUser: look up, reject a duplicate, hash, insert. A failure leaves the table as it was. */
  function Create(rows: seq<UserRow>, nextId: nat, input: UserInput, h: Hasher, salt: nat, now: nat): (c: Created)
    ensures c.result.Err? ==> c.rows == rows && c.nextId == nextId
    ensures c.result.Ok? ==> |c.rows| == |rows| + 1 && c.rows[..|rows|] == rows && c.rows[|rows|].email == input.email
  {
    if FindByEmail(rows, input.email).Some? then Created(Err(UserAlreadyExists), rows, nextId)
    else match HashPassword(h, input.password, salt)
      case Err(e) => Created(Err(e), rows, nextId)
      case Ok(hashed) =>
        var row := NewRow(input, nextId, hashed, now);
        Created(Ok(Returned(row)), rows + [row], nextId + 1)
  }

  /** authenticateUser: look up, compare, project; a success is the user with exactly the given email. */
  function Authenticate(rows: seq<UserRow>, email: string, password: string, h: Hasher): (r: Result<AuthenticatedUser, ServiceError>)
    ensures r.Ok? ==> r.value.email == email
  {
    match FindByEmail(rows, email)
    case None => Err(UserNotFound)
    case Some(i) =>
      match ComparePassword(h, password, rows[i].password)
      case Err(e) => Err(e)
      case Ok(same) => if same then Ok(Public(rows[i])) else Err(InvalidPassword)
  }

  /** The `users` table. */
  class UserStore {
    var rows: seq<UserRow>
    var nextId: nat

    ghost predicate Valid()
      reads this
    {
      TableValid(rows, nextId)
    }

    /** An empty table whose serial id starts at 1. */
    constructor ()
      ensures Valid() && rows == [] && nextId == 1
    {
      rows := [];
      nextId := 1;
    }

    /** createUser, one sequential call. */
    method CreateUser(input: UserInput, h: Hasher, salt: nat, now: nat) returns (r: Result<NewUser, ServiceError>)
      requires Valid()
      modifies this
      ensures Valid()
      ensures Created(r, rows, nextId) == Create(old(rows), old(nextId), input, h, salt, now)
    {
      CreatePreservesValid(rows, nextId, input, h, salt, now);
      var existing := FindByEmail(rows, input.email);
      if existing.Some? {
        return Err(UserAlreadyExists);
      }
      var hashed := HashPassword(h, input.password, salt);
      if hashed.Err? {
        return Err(hashed.error);
      }
      var row := NewRow(input, nextId, hashed.value, now);
      rows := rows + [row];
      nextId := nextId + 1;
      r := Ok(Returned(row));
    }

    /** authenticateUser: reads the table and leaves it as it is. */
    method AuthenticateUser(email: string, password: string, h: Hasher) returns (r: Result<AuthenticatedUser, ServiceError>)
      ensures r == Authenticate(rows, email, password, h)
    {
      var found := FindByEmail(rows, email);
      if found.None? {
        return Err(UserNotFound);
      }
      var user := rows[found.value];
      var valid := ComparePassword(h, password, user.password);
      if valid.Err? {
        return Err(valid.error);
      }
      if !valid.value {
        return Err(InvalidPassword);
      }
      r := Ok(Public(user));
    }
  }

  // ---------------------------------------------------------------------------

  /** A duplicate email is rejected with 'user already exists' and nothing is inserted. */
  lemma CreateRejectsDuplicate(rows: seq<UserRow>, nextId: nat, input: UserInput, h: Hasher, salt: nat, now: nat, k: nat)
    requires k < |rows| && rows[k].email == input.email
    ensures Create(rows, nextId, input, h, salt, now) == Created(Err(UserAlreadyExists), rows, nextId)
    ensures ErrorMessage(Create(rows, nextId, input, h, salt, now).result.error) == "user already exists"
  {
  }

  /**
   * A new email inserts exactly one row at the end, holding the hash of the given
   * password, and returns that row without its password; the
   * earlier rows are unchanged.
   */
  lemma CreateInsertsOneRow(rows: seq<UserRow>, nextId: nat, input: UserInput, h: Hasher, salt: nat, now: nat)
    requires forall i :: 0 <= i < |rows| ==> rows[i].email != input.email
    requires h.hash(input.password, CostFactor, salt).Some?
    ensures var c := Create(rows, nextId, input, h, salt, now);
      && |c.rows| == |rows| + 1 && c.rows[..|rows|] == rows && c.nextId == nextId + 1
      && c.rows[|rows|] == UserRow(nextId, input.name, input.email,
                                   h.hash(input.password, CostFactor, salt).value, input.role, now)
      && c.result == Ok(NewUser(nextId, input.name, input.email, input.role, now))
  {
  }

  /** A failed hash is rethrown as 'Error hashing' and nothing is inserted. */
  lemma CreateHashFailure(rows: seq<UserRow>, nextId: nat, input: UserInput, h: Hasher, salt: nat, now: nat)
    requires forall i :: 0 <= i < |rows| ==> rows[i].email != input.email
    requires h.hash(input.password, CostFactor, salt).None?
    ensures Create(rows, nextId, input, h, salt, now) == Created(Err(HashFailed), rows, nextId)
  {
  }

  /** createUser keeps emails unique and ids increasing. */
  lemma CreatePreservesValid(rows: seq<UserRow>, nextId: nat, input: UserInput, h: Hasher, salt: nat, now: nat)
    requires TableValid(rows, nextId)
    ensures var c := Create(rows, nextId, input, h, salt, now); TableValid(c.rows, c.nextId)
  {
    var c := Create(rows, nextId, input, h, salt, now);
    if c.result.Ok? {
      var row := NewRow(input, nextId, HashPassword(h, input.password, salt).value, now);
      assert FindByEmail(rows, input.email).None?;
      assert c.rows == rows + [row] && c.nextId == nextId + 1;
      forall i, j | 0 <= i < j < |c.rows|
        ensures c.rows[i].email != c.rows[j].email && c.rows[i].id < c.rows[j].id
      {
        assert c.rows[i] == rows[i];
      }
    }
  }

  /** 'User not found' exactly when no row has that email, compared exactly, with no normalisation. */
  lemma NotFoundIffNoRow(rows: seq<UserRow>, email: string, password: string, h: Hasher)
    ensures Authenticate(rows, email, password, h) == Err(UserNotFound) <==>
      forall i :: 0 <= i < |rows| ==> rows[i].email != email
  {
  }

  /**
   * On success the result is the first row with that email, stripped of its
   * password, and its stored hash compared equal to the password; a
   * comparison that says no is 'Invalid password'.
   */
  lemma AuthenticateMeaning(rows: seq<UserRow>, email: string, password: string, h: Hasher)
    ensures Authenticate(rows, email, password, h).Ok? <==>
      exists i :: 0 <= i < |rows| && rows[i].email == email
        && (forall j :: 0 <= j < i ==> rows[j].email != email)
        && h.compare(password, rows[i].password) == Some(true)
    ensures Authenticate(rows, email, password, h).Ok? ==>
      exists i :: 0 <= i < |rows| && rows[i].email == email
        && (forall j :: 0 <= j < i ==> rows[j].email != email)
        && Authenticate(rows, email, password, h).value == AuthenticatedUser(rows[i].id, rows[i].name, rows[i].email, rows[i].role)
    ensures Authenticate(rows, email, password, h) == Err(InvalidPassword) <==>
      exists i :: 0 <= i < |rows| && rows[i].email == email
        && (forall j :: 0 <= j < i ==> rows[j].email != email)
        && h.compare(password, rows[i].password) == Some(false)
  {
    var found := FindByEmail(rows, email);
    if found.Some? {
      var i := found.value;
      forall k | 0 <= k < |rows| && rows[k].email == email && (forall j :: 0 <= j < k ==> rows[j].email != email)
        ensures k == i
      {
      }
    }
  }

  /**
   * Signing in with the email and password just used to sign up succeeds and
   * returns the new user, under the bcrypt round-trip assumption.
   */
  lemma SignupThenSignin(rows: seq<UserRow>, nextId: nat, input: UserInput, h: Hasher, salt: nat, now: nat)
    requires Sound(h)
    requires Create(rows, nextId, input, h, salt, now).result.Ok?
    ensures var c := Create(rows, nextId, input, h, salt, now);
      Authenticate(c.rows, input.email, input.password, h)
        == Ok(AuthenticatedUser(nextId, input.name, input.email, input.role))
  {
    var hashed := h.hash(input.password, CostFactor, salt);
    assert hashed.Some?;
    var c := Create(rows, nextId, input, h, salt, now);
    assert c.rows == rows + [NewRow(input, nextId, hashed.value, now)];
    var found := FindByEmail(c.rows, input.email);
    assert c.rows[|rows|].email == input.email;
    assert found == Some(|rows|);
  }
}
