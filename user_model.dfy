/**
 * The example application's resource, example/app/models/user.go: a User, the
 * in-memory user table, authorization that lets a user change only their own record,
 * validation, lookup by id and authentication by name and password.
 */
module Users {
  import opened Wrappers
  import opened Values
  import opened Controller

  datatype User = User(id: uint64, username: string, favoriteColor: string, password: string)

  /** usersDB (example/app/models/user.go:90-103). */
  const UsersDB: seq<User> := [
    User(1, "MaxwellPayne", "Red", "banana"),
    User(2, "SmokeyTheBear", "Blue", "orange")
  ]

  const InvalidIDError := "0 is not a valid User ID"
  const BlankUsernameError := "Username cannot be blank"

  /** The RESTObject methods of *User (example/app/models/user.go:28-61). */
  predicate CanBeViewedBy(u: User, other: Option<Identity>) {
    true
  }

  predicate CanBeModifiedBy(u: User, other: Option<Identity>) {
    other.Some? && UniqueID(u) == other.value.uniqueID
  }

  predicate CanBeCreatedBy(u: User, other: Option<Identity>) {
    CanBeModifiedBy(u, other)
  }

  predicate CanBeDeletedBy(u: User, other: Option<Identity>) {
    CanBeModifiedBy(u, other)
  }

  predicate IsNewRecord(u: User) {
    u.id == 0
  }

  function UniqueID(u: User): uint64 {
    u.id
  }

  predicate HasAdminPrivileges(u: User) {
    false
  }

  /** A User as the dispatcher sees an authenticated user. */
  function AsIdentity(u: User): (r: Identity)
    ensures r.uniqueID == u.id && !r.hasAdminPrivileges
  {
    Identity(UniqueID(u), HasAdminPrivileges(u))
  }

  /** Authorization for every write is the same rule: the caller is that very user. */
  lemma WritesNeedTheSameUser(u: User, other: Option<Identity>)
    ensures CanBeCreatedBy(u, other) <==> other.Some? && other.value.uniqueID == u.id
    ensures CanBeDeletedBy(u, other) <==> CanBeModifiedBy(u, other)
    ensures CanBeViewedBy(u, None)
    ensures !CanBeModifiedBy(u, None)
  {
  }

  /** A revel.Validation: the errors recorded so far, in order. */
  class Validation {
    var errors: seq<string>

    constructor ()
      ensures errors == []
    {
      errors := [];
    }

    /** Validation.Error: records an error. */
    method Error(message: string)
      modifies this
      ensures errors == old(errors) + [message]
    {
      errors := errors + [message];
    }

    /** Validation.MinSize(s, min).Message(message): records the message when s has
        fewer than min characters. */
    method MinSize(s: string, min: nat, message: string)
      modifies this
      ensures errors == old(errors) + (if |s| < min then [message] else [])
    {
      if |s| < min {
        errors := errors + [message];
      }
    }

    predicate HasErrors()
      reads this
    {
      |errors| > 0
    }
  }

  /** The errors Validate records for u, in the order it records them. */
  function ValidationErrors(u: User): (r: seq<string>)
    ensures r == [] <==> u.id != 0 && |u.username| >= 1
    ensures (InvalidIDError in r <==> u.id == 0) && (BlankUsernameError in r <==> |u.username| == 0)
    ensures |r| <= 2
  {
    (if u.id == 0 then [InvalidIDError] else []) +
    (if |u.username| < 1 then [BlankUsernameError] else [])
  }

  /** Validate (example/app/models/user.go:48-53). */
  method Validate(u: User, v: Validation)
    modifies v
    ensures v.errors == old(v.errors) + ValidationErrors(u)
  {
    if u.id == 0 {
      v.Error(InvalidIDError);
    }
    v.MinSize(u.username, 1, BlankUsernameError);
  }

  /** The error Save reports: the first one Validate records. */
  function SaveError(u: User): (r: Option<string>)
    ensures r.Some? <==> u.id == 0 || u.username == ""
    ensures u.id == 0 ==> r == Some(InvalidIDError)
    ensures u.id != 0 && u.username == "" ==> r == Some(BlankUsernameError)
  {
    var errors := ValidationErrors(u);
    if |errors| > 0 then Some(errors[0]) else None
  }

  /** Save (example/app/models/user.go:68-77): validation on a fresh Validation; nothing
      is persisted. */
  method Save(u: User) returns (err: Option<string>)
    ensures err == SaveError(u)
  {
    var v := new Validation();
    Validate(u, v);
    if v.HasErrors() {
      return Some(v.errors[0]);
    }
    return None;
  }

  /** Delete (example/app/models/user.go:63-66) never fails. */
  function DeleteError(u: User): (r: Option<string>)
    ensures r.None?
  {
    None
  }

  /** The position of the first user in db with the given id. */
  function IndexOfID(db: seq<User>, id: uint64): (r: Option<nat>)
    ensures r.Some? ==> r.value < |db| && db[r.value].id == id
    ensures r.Some? ==> forall j :: 0 <= j < r.value ==> db[j].id != id
    ensures r.None? <==> forall j :: 0 <= j < |db| ==> db[j].id != id
  {
    if |db| == 0 then None
    else if db[0].id == id then Some(0)
    else match IndexOfID(db[1..], id)
      case None => None
      case Some(j) => Some(j + 1)
  }

  /** The user GetUserByID returns. */
  function UserByID(db: seq<User>, id: uint64): (r: Option<User>)
    ensures r.Some? ==> r.value.id == id && r.value in db
    ensures r.None? <==> forall j :: 0 <= j < |db| ==> db[j].id != id
  {
    match IndexOfID(db, id)
    case None => None
    case Some(i) => Some(db[i])
  }

  /** GetUserByID (example/app/models/user.go:81-88), over a given table. */
  method GetUserByID(db: seq<User>, id: uint64) returns (r: Option<User>)
    ensures r == UserByID(db, id)
  {
    for i := 0 to |db|
      invariant forall j :: 0 <= j < i ==> db[j].id != id
    {
      if db[i].id == id {
        return Some(db[i]);
      }
    }
    return None;
  }

  /** The position of the first user in db with that username and password. */
  function IndexOfLogin(db: seq<User>, username: string, password: string): (r: Option<nat>)
    ensures r.Some? ==> r.value < |db| && db[r.value].username == username && db[r.value].password == password
    ensures r.Some? ==> forall j :: 0 <= j < r.value ==> !(db[j].username == username && db[j].password == password)
    ensures r.None? <==> forall j :: 0 <= j < |db| ==> !(db[j].username == username && db[j].password == password)
  {
    if |db| == 0 then None
    else if db[0].username == username && db[0].password == password then Some(0)
    else match IndexOfLogin(db[1..], username, password)
      case None => None
      case Some(j) => Some(j + 1)
  }

  /** The user AuthenticationHandler returns. */
  function Authenticated(db: seq<User>, username: string, password: string): (r: Option<User>)
    ensures r.Some? ==> r.value in db && r.value.username == username && r.value.password == password
    ensures r.None? <==> forall j :: 0 <= j < |db| ==> !(db[j].username == username && db[j].password == password)
  {
    match IndexOfLogin(db, username, password)
    case None => None
    case Some(i) => Some(db[i])
  }

  /** AuthenticationHandler (example/app/models/user.go:17-25), over a given table. */
  method AuthenticationHandler(db: seq<User>, username: string, password: string) returns (r: Option<User>)
    ensures r == Authenticated(db, username, password)
  {
    for i := 0 to |db|
      invariant forall j :: 0 <= j < i ==> !(db[j].username == username && db[j].password == password)
    {
      if db[i].username == username && db[i].password == password {
        return Some(db[i]);
      }
    }
    return None;
  }

  /** AuthenticationHandler as the injection filter uses it. */
  function Login(username: string, password: string): Option<Identity> {
    match Authenticated(UsersDB, username, password)
    case None => None
    case Some(u) => Some(AsIdentity(u))
  }

  /** Only the exact pairs of the table log in, as their own user. */
  lemma LoginTable(username: string, password: string)
    ensures username == "MaxwellPayne" && password == "banana" ==> Login(username, password) == Some(Identity(1, false))
    ensures username == "SmokeyTheBear" && password == "orange" ==> Login(username, password) == Some(Identity(2, false))
    ensures username == "MaxwellPayne" && password == "orange" ==> Login(username, password).None?
    ensures Login(username, "").None?
  {
    assert UsersDB[0].username == "MaxwellPayne" && UsersDB[0].password == "banana";
    assert UsersDB[1].username == "SmokeyTheBear" && UsersDB[1].password == "orange";
  }

  /* ---- A User as a Go struct value, the form the generic dispatcher handles ---- */

  function ToValue(u: User): (v: Value)
    ensures v.Struct? && v.typeName == "User" && |v.fields| == 4
  {
    Struct("User", [
      Field("ID", "", false, Int(u.id)),
      Field("Username", "", false, Str(u.username)),
      Field("FavoriteColor", "", false, Str(u.favoriteColor)),
      Field("Password", "", false, Str(u.password))])
  }

  function FromValue(v: Value): (r: Option<User>)
  {
    if v.Struct? && v.typeName == "User" && |v.fields| == 4 &&
       v.fields[0].value.Int? && 0 <= v.fields[0].value.i < 0x1_0000_0000_0000_0000 &&
       v.fields[1].value.Str? && v.fields[2].value.Str? && v.fields[3].value.Str?
    then Some(User(v.fields[0].value.i, v.fields[1].value.s, v.fields[2].value.s, v.fields[3].value.s))
    else None
  }

  /** Reading back a User's struct value gives the User. */
  lemma ValueRoundTrip(u: User)
    ensures FromValue(ToValue(u)) == Some(u)
  {
  }
}
