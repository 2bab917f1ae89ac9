/**
 * The example application's provider, example/app/controllers/users.go: UserController
 * serves Users from the in-memory table with every verb enabled and no hooks, and the
 * generic dispatcher answers for it.
 */
module UserControllers {
  import opened Wrappers
  import opened Values
  import opened ApiMessages
  import opened Controller
  import opened Users

  /** The zero User ModelFactory allocates. */
  const ZeroUser := User(0, "", "", "")

  /** The User a struct value of type User holds (the dispatcher hands the model type
      nothing else; any other value is read as the zero User). */
  function AsUser(v: Value): User {
    match FromValue(v)
    case Some(u) => u
    case None => ZeroUser
  }

  /** *User's RESTObject behaviour on struct values. */
  function UserType(): ModelType {
    ModelType(
      v => UniqueID(AsUser(v)),
      (v, other) => CanBeViewedBy(AsUser(v), other),
      (v, other) => CanBeCreatedBy(AsUser(v), other),
      (v, other) => CanBeModifiedBy(AsUser(v), other),
      (v, other) => CanBeDeletedBy(AsUser(v), other),
      v => SaveError(AsUser(v)),
      v => DeleteError(AsUser(v)))
  }

  /** GetModelByID (example/app/controllers/users.go:20-26). */
  function GetModelByID(id: uint64): Option<Value> {
    match UserByID(UsersDB, id)
    case None => None
    case Some(u) => Some(ToValue(u))
  }

  /** UserController as a model provider (example/app/controllers/users.go:10-42). */
  function UserProvider(): (p: Provider)
    ensures p.enableGET && p.enablePOST && p.enablePUT && p.enableDELETE
    ensures p.getHooks.None? && p.postHooks.None? && p.putHooks.None? && p.deleteHooks.None?
    ensures FromValue(p.modelFactory) == Some(ZeroUser) && IsNewRecord(AsUser(p.modelFactory))
  {
    Provider("User", ToValue(ZeroUser), GetModelByID, true, true, true, true, UserType(), map[],
      None, None, None, None)
  }

  /** The provider's lookup finds nothing exactly when GetUserByID finds nothing, and
      otherwise returns that very user, whose UniqueID is the id asked for. */
  lemma GetModelByIDAgrees(id: uint64)
    ensures UserProvider().getModelByID(id).None? <==> UserByID(UsersDB, id).None?
    ensures UserProvider().getModelByID(id).Some? ==>
      var v := UserProvider().getModelByID(id).value;
      Some(AsUser(v)) == UserByID(UsersDB, id) && UserProvider().model.uniqueID(v) == id
  {
    match UserByID(UsersDB, id)
    case None =>
    case Some(u) =>
      ValueRoundTrip(u);
  }

  /** The call lists of the scenarios, as the dispatcher's contracts assemble them. */
  lemma CallLists()
    ensures [Lookup(2)] + HookCall(false, PreHook) + [Authorize(false)] == [Lookup(2), Authorize(false)]
    ensures HookCall(false, PreHook) + [Lookup(1), Authorize(true)] + HookCall(false, PostHook) ==
      [Lookup(1), Authorize(true)]
  {
  }

  /** The refusal text the dispatcher builds for the User model. */
  lemma RefusalText()
    ensures "Not authorized to delete this " + "User" == "Not authorized to delete this User"
  {
  }

  /** The table holds users 1 and 2 and nobody else. */
  lemma TableLookups(id: uint64)
    ensures id == 1 ==> GetModelByID(id) == Some(ToValue(User(1, "MaxwellPayne", "Red", "banana")))
    ensures id == 2 ==> GetModelByID(id) == Some(ToValue(User(2, "SmokeyTheBear", "Blue", "orange")))
    ensures id != 1 && id != 2 ==> GetModelByID(id).None?
  {
    assert UsersDB[0].id == 1 && UsersDB[1].id == 2;
  }

  /** A logged-in user may delete only their own record: user 1 deleting user 2 is
      refused with 401, and the record is never deleted. */
  method DeleteAnotherUser() returns (r: Outcome, calls: seq<Call>)
    ensures r == Message(ApiMessage(StatusUnauthorized, "Not authorized to delete this User"))
    ensures calls == [Lookup(2), Authorize(false)]
  {
    var c := new GenericRestController();
    c.modelProvider := Some(UserProvider());
    c.authenticatedUser := Login("MaxwellPayne", "banana");
    LoginTable("MaxwellPayne", "banana");
    TableLookups(2);
    ValueRoundTrip(User(2, "SmokeyTheBear", "Blue", "orange"));
    CallLists();
    RefusalText();
    r, calls := c.Delete(2);
  }

  /** Anyone, even without credentials, may view a user. */
  method ViewWithoutCredentials() returns (r: Outcome, calls: seq<Call>)
    ensures r == Json(ToValue(User(1, "MaxwellPayne", "Red", "banana")))
    ensures calls == [Lookup(1), Authorize(true)]
  {
    var c := new GenericRestController();
    c.modelProvider := Some(UserProvider());
    TableLookups(1);
    CallLists();
    r, calls := c.Get(1);
  }
}
