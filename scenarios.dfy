/**
 * The fish pond of hooks_test.go and attributecopier_test.go, run through the generic
 * dispatcher: a Fish resource whose CreateDate is tagged immutable, a provider with all
 * four hook capabilities, and the answers the tests expect.
 */
module FishScenarios {
  import opened Wrappers
  import opened Values
  import opened ApiMessages
  import opened AttributeCopier
  import opened Controller
  import opened Users

  const LuckyFishID := 23
  const LuckyFishMessage := "Hey look! You got the lucky fish."
  const FishDeleteFailureMessage := "Foolish mortal, you cannot kill an immortal fish."
  const FishDeleteSuccessMessage := "Uh oh, owner. Looks like you killed your own fish."
  const FinCountError := "Fish must have at least 2 fins"

  /** The pond's creation time (time.Now() when the tests start), as an integer. */
  const PondCreated := 1_000

  /** A Fish (hooks_test.go:17-24); `owner` is the address of its owner, 0 for nil. */
  function FishValue(id: int, createDate: int, finCount: int, color: string, immortal: bool, owner: nat): Value {
    Struct("Fish", [
      Field("ID", "", false, Int(id)),
      Field("CreateDate", ImmutableTag, false, Int(createDate)),
      Field("FinCount", "", false, Int(finCount)),
      Field("Color", "", false, Str(color)),
      Field("IsImmortal", "", false, Bool(immortal)),
      Field("Owner", "", false, Ptr(owner))])
  }

  /** pond (hooks_test.go:189-206); both fish are owned by the first user. */
  const Pond: seq<Value> := [
    FishValue(7, PondCreated, 2, "Red", false, 1),
    FishValue(8, PondCreated, 1200, "Rainbow", true, 1)
  ]

  /** A direct field of a struct value, by name. */
  function FieldOf(v: Value, name: string): Option<Value> {
    if !v.Struct? then None
    else match FieldByName(v.fields, name)
      case None => None
      case Some(j) => Some(v.fields[j].value)
  }

  function FishID(v: Value): uint64 {
    match FieldOf(v, "ID")
    case Some(Int(i)) => if 0 <= i < 0x1_0000_0000_0000_0000 then i else 0
    case _ => 0
  }

  function FinCount(v: Value): int {
    match FieldOf(v, "FinCount")
    case Some(Int(i)) => i
    case _ => 0
  }

  predicate IsImmortal(v: Value) {
    FieldOf(v, "IsImmortal") == Some(Bool(true))
  }

  predicate HasOwner(v: Value) {
    match FieldOf(v, "Owner")
    case Some(Ptr(a)) => a != 0
    case _ => false
  }

  /** *Fish's RESTObject methods (hooks_test.go:26-61): everyone may do everything, and
      Save's validation asks for at least two fins. */
  function FishType(): ModelType {
    ModelType(
      FishID,
      (v, u) => true,
      (v, u) => true,
      (v, u) => true,
      (v, u) => true,
      v => if FinCount(v) < 2 then Some(FinCountError) else None,
      v => None)
  }

  function FindFish(fish: seq<Value>, id: uint64): (r: Option<Value>)
    ensures r.Some? ==> r.value in fish && FishID(r.value) == id
    ensures r.None? ==> forall k :: 0 <= k < |fish| ==> FishID(fish[k]) != id
  {
    if |fish| == 0 then None
    else if FishID(fish[0]) == id then Some(fish[0])
    else FindFish(fish[1..], id)
  }

  /** What the accessors read from a fish. */
  lemma FishAccessors(id: int, createDate: int, finCount: int, color: string, immortal: bool, owner: nat)
    requires 0 <= id < 0x1_0000_0000_0000_0000
    ensures var v := FishValue(id, createDate, finCount, color, immortal, owner);
      FishID(v) == id && FinCount(v) == finCount && IsImmortal(v) == immortal && HasOwner(v) == (owner != 0)
  {
    var v := FishValue(id, createDate, finCount, color, immortal, owner);
    assert DistinctNames(v.fields);
    FieldByNameDistinct(v.fields, 2);
    FieldByNameDistinct(v.fields, 4);
    FieldByNameDistinct(v.fields, 5);
  }

  /** The pond holds fish 7 and fish 8, and no other. */
  lemma PondLookup(id: uint64)
    ensures FindFish(Pond, id) == if id == 7 then Some(Pond[0]) else if id == 8 then Some(Pond[1]) else None
  {
    FishAccessors(7, PondCreated, 2, "Red", false, 1);
    FishAccessors(8, PondCreated, 1200, "Rainbow", true, 1);
    assert FindFish(Pond, id) == if id == 7 then Some(Pond[0]) else FindFish(Pond[1..], id);
    assert Pond[1..][0] == Pond[1] && Pond[1..][1..] == [];
    assert FindFish(Pond[1..], id) == if id == 8 then Some(Pond[1]) else FindFish([], id);
  }

  /** FishHookerController (hooks_test.go:83-184). Its POST and PUT hooks only signal
      a channel, so they let the chain go on. */
  function FishProvider(): (p: Provider)
    ensures p.enableGET && p.enablePOST && p.enablePUT && p.enableDELETE
    ensures p.getHooks.Some? && p.postHooks.Some? && p.putHooks.Some? && p.deleteHooks.Some?
  {
    Provider("Fish", FishValue(0, 0, 0, "", false, 0), (id: uint64) => FindFish(Pond, id),
      true, true, true, true, FishType(), map[],
      Some(GetHooks(
        (id, u) => if id == LuckyFishID then Some(Message(ApiMessage(StatusOK, LuckyFishMessage))) else None,
        (v, u: Option<Identity>) => if u.Some? then Some(Message(ApiMessage(StatusTeapot, ""))) else None)),
      Some(PostHooks((v, u) => None, (v, u, err) => None)),
      Some(PutHooks((n, e, u) => None, (n, e, u, err) => None)),
      Some(DeleteHooks(
        (v, u) => if IsImmortal(v) then Some(Message(ApiMessage(StatusUnauthorized, FishDeleteFailureMessage))) else None,
        (v, u, err) => if HasOwner(v) then Some(Message(ApiMessage(StatusOK, FishDeleteSuccessMessage))) else None)))
  }

  /** The dispatcher as the injection filter leaves it for a fish request. */
  method FishController(user: Option<Identity>, body: Option<Value>) returns (c: GenericRestController)
    ensures fresh(c)
    ensures c.modelProvider == Some(FishProvider()) && c.authenticatedUser == user
    ensures c.request.Some? && forall v :: c.request.value.decode(v) == body
  {
    c := new GenericRestController();
    c.modelProvider := Some(FishProvider());
    c.authenticatedUser := user;
    c.request := Some(Request(v => body, None));
  }

  /** TestPreGETHook (hooks_test.go:208-228): the lucky id is answered by the pre-hook
      alone; a regular fish is served as stored. */
  method LuckyFish() returns (lucky: Outcome, luckyCalls: seq<Call>, regular: Outcome)
    ensures lucky == Message(ApiMessage(StatusOK, LuckyFishMessage)) && luckyCalls == [PreHook]
    ensures regular == Json(Pond[1])
  {
    var c := FishController(None, None);
    lucky, luckyCalls := c.Get(LuckyFishID);
    PondLookup(8);
    var regularCalls;
    regular, regularCalls := c.Get(8);
  }

  /** TestPostGETHook (hooks_test.go:230-253): with credentials, the post-hook turns a
      found fish into 418. The test logs in the test package's first user through its own
      authentication function (main_test.go:227-235); here the example application's
      table supplies a user instead. The post-hook looks only at whether there is a user
      (hooks_test.go:129), so the outcome is the same. */
  method LoggedInTeapot() returns (r: Outcome, calls: seq<Call>)
    ensures r == Message(ApiMessage(StatusTeapot, ""))
    ensures calls == [PreHook, Lookup(7), Authorize(true), PostHook]
  {
    var user := Login("MaxwellPayne", "banana");
    LoginTable("MaxwellPayne", "banana");
    var c := FishController(user, None);
    PondLookup(7);
    CallLists();
    r, calls := c.Get(7);
  }

  /** The second half of the same test: a missing fish is 404 naming its id, and the
      post-hook is not called. The logged-in user stands in for the test's as above. */
  method MissingFishNotFound() returns (r: Outcome, calls: seq<Call>)
    ensures r == Message(ApiMessage(StatusNotFound, "Fish with ID 12345 not found"))
    ensures calls == [PreHook, Lookup(12345)] && PostHook !in calls
  {
    var user := Login("MaxwellPayne", "banana");
    LoginTable("MaxwellPayne", "banana");
    var c := FishController(user, None);
    PondLookup(12345);
    MissingFishText();
    CallLists();
    r, calls := c.Get(12345);
  }

  /** The id of hooks_test.go:244, printed. */
  lemma DecimalOfMissingID()
    ensures DecimalString(12345) == "12345"
  {
    assert 12345 / 10 == 1234 && 1234 / 10 == 123 && 123 / 10 == 12 && 12 / 10 == 1;
    assert 12345 % 10 == 5 && 1234 % 10 == 4 && 123 % 10 == 3 && 12 % 10 == 2;
    assert DecimalString(1) == "1";
    assert DecimalString(12) == DecimalString(1) + [Digit(2)] == "12";
    assert DecimalString(123) == DecimalString(12) + [Digit(3)] == "123";
    assert DecimalString(1234) == DecimalString(123) + [Digit(4)] == "1234";
    assert DecimalString(12345) == DecimalString(1234) + [Digit(5)];
  }

  lemma MissingFishText()
    ensures NotFoundText("Fish", 12345) == "Fish with ID 12345 not found"
  {
    DecimalOfMissingID();
    FishText(DecimalString(12345));
  }

  /** The not-found text around an id printed as 12345. */
  lemma FishText(d: string)
    requires d == "12345"
    ensures "Fish" + " with ID " + d + " not found" == "Fish with ID 12345 not found"
  {
  }

  /** TestPostPOSTHook (hooks_test.go:278-308): a one-finned fish is refused by Save with
      its validation message, and the post-hook is not called. */
  method PostInvalidFish() returns (r: Outcome, calls: seq<Call>)
    ensures r == Message(ApiMessage(StatusBadRequest, FinCountError))
    ensures calls == [PreHook, Authorize(true), SaveCall(false)]
  {
    var c := FishController(None, Some(FishValue(0, 0, 1, "", false, 0)));
    FishAccessors(0, 0, 1, "", false, 0);
    CallLists();
    r, calls := c.Post();
  }

  /** The second half of the same test: a two-finned fish is created, and both POST
      hooks run. */
  method PostValidFish() returns (r: Outcome, calls: seq<Call>)
    ensures r == Json(FishValue(0, 0, 2, "", false, 0))
    ensures calls == [PreHook, Authorize(true), SaveCall(true), PostHook]
  {
    var c := FishController(None, Some(FishValue(0, 0, 2, "", false, 0)));
    FishAccessors(0, 0, 2, "", false, 0);
    CallLists();
    r, calls := c.Post();
  }

  /** The call lists of the scenarios, as the dispatcher's contracts assemble them. */
  lemma CallLists()
    ensures HookCall(true, PreHook) + [Lookup(7), Authorize(true), PostHook] ==
      [PreHook, Lookup(7), Authorize(true), PostHook]
    ensures HookCall(true, PreHook) + [Lookup(12345)] == [PreHook, Lookup(12345)]
    ensures HookCall(true, PreHook) + [Authorize(true)] + [SaveCall(false)] == [PreHook, Authorize(true), SaveCall(false)]
    ensures HookCall(true, PreHook) + [Authorize(true)] + [SaveCall(true)] + HookCall(true, PostHook) ==
      [PreHook, Authorize(true), SaveCall(true), PostHook]
    ensures [Lookup(7), CopyAttributes] + HookCall(true, PreHook) + [Authorize(true)] + [SaveCall(true)] +
      HookCall(true, PostHook) == [Lookup(7), CopyAttributes, PreHook, Authorize(true), SaveCall(true), PostHook]
    ensures [Lookup(8)] + HookCall(true, PreHook) == [Lookup(8), PreHook]
    ensures [Lookup(7)] + HookCall(true, PreHook) + [Authorize(true)] + [DeleteCall(true)] + [PostHook] ==
      [Lookup(7), PreHook, Authorize(true), DeleteCall(true), PostHook]
  {
  }

  /** TestCopyImmutableAttributesFromStructTag (attributecopier_test.go:90-110): a PUT
      of fish 7 with a changed CreateDate is saved with the stored CreateDate. */
  method PutKeepsCreateDate() returns (r: Outcome, calls: seq<Call>)
    ensures r == Json(FishValue(7, PondCreated, 2, "Red", false, 1))
    ensures calls == [Lookup(7), CopyAttributes, PreHook, Authorize(true), SaveCall(true), PostHook]
  {
    var sent := FishValue(7, PondCreated + 100, 2, "Red", false, 1);
    var c := FishController(None, Some(sent));
    FishAccessors(7, PondCreated + 100, 2, "Red", false, 1);
    FishAccessors(7, PondCreated, 2, "Red", false, 1);
    PondLookup(7);
    FlatCopyStoredFish(PondCreated + 100);
    CallLists();
    r, calls := c.Put(None);
  }

  /** The flat copy of the stored fish 7 onto a sent one that differs in CreateDate
      alone gives back the stored fish. */
  lemma FlatCopyStoredFish(sentDate: int)
    ensures FlatCopy(Pond[0], FishValue(7, sentDate, 2, "Red", false, 1), map[]) == CopyResult(None, Pond[0])
  {
    var sentFish := FishValue(7, sentDate, 2, "Red", false, 1);
    FlatCopyFish(Pond[0], sentFish);
    assert sentFish.fields[1 := sentFish.fields[1].(value := Int(PondCreated))] == Pond[0].fields;
  }

  /** The flat copy of one fish onto another: every field of `dst` but CreateDate, which
      comes from `src`. */
  lemma FlatCopyFish(src: Value, dst: Value)
    requires src == FishValue(7, PondCreated, 2, "Red", false, 1)
    requires dst.Struct? && dst.typeName == "Fish" && |dst.fields| == 6
    requires forall j :: 0 <= j < 6 ==> SameSlot(dst.fields[j], src.fields[j])
    ensures FlatCopy(src, dst, map[]) ==
      CopyResult(None, dst.(fields := dst.fields[1 := dst.fields[1].(value := Int(PondCreated))]))
  {
    var want := dst.fields[1 := dst.fields[1].(value := Int(PondCreated))];
    var got := FlatCopy(src, dst, map[]).dest.fields;
    assert DistinctNames(src.fields);
    assert DistinctNames(dst.fields);
    forall j | 0 <= j < 6
      ensures got[j] == want[j]
    {
      FlatCopyFields(src, dst, map[], j);
    }
  }

  /** TestPreDELETEHook (hooks_test.go:361-374): the immortal fish is refused by the
      pre-hook, before authorization and without a delete. */
  method ImmortalFishSurvives() returns (r: Outcome, calls: seq<Call>)
    ensures r == Message(ApiMessage(StatusUnauthorized, FishDeleteFailureMessage))
    ensures calls == [Lookup(8), PreHook]
  {
    var c := FishController(None, None);
    PondLookup(8);
    FishAccessors(8, PondCreated, 1200, "Rainbow", true, 1);
    CallLists();
    r, calls := c.Delete(8);
  }

  /** TestPostDELETEHook (hooks_test.go:377-390): fish 7 is deleted, and the post-hook
      replaces "Success" because the fish has an owner. */
  method OwnedFishDeleted() returns (r: Outcome, calls: seq<Call>)
    ensures r == Message(ApiMessage(StatusOK, FishDeleteSuccessMessage))
    ensures calls == [Lookup(7), PreHook, Authorize(true), DeleteCall(true), PostHook]
  {
    var c := FishController(None, None);
    PondLookup(7);
    FishAccessors(7, PondCreated, 2, "Red", false, 1);
    CallLists();
    r, calls := c.Delete(7);
  }

  /** An EmbeddedFish (attributecopier_test.go:15-17): a struct whose only field is an
      embedded Fish. */
  function EmbeddedFish(fish: Value): Value {
    Struct("EmbeddedFish", [Field("Fish", "", true, fish)])
  }

  /** Fish have leaf fields only, with distinct names. */
  lemma FishCopyable(a: Value, b: Value)
    requires exists id, d, n, c, i, o :: a == FishValue(id, d, n, c, i, o)
    requires b.Struct? && |b.fields| >= 6
    ensures WellFormed(a) && Conforms(a, b, map[])
  {
    assert DistinctNames(a.fields);
    assert forall k :: 0 <= k < |a.fields| ==> !a.fields[k].value.Struct?;
  }

  /** The recursive copy of a stored fish onto a sent one restores the stored fish. */
  lemma DeepCopyFish(sentDate: int)
    ensures var fish := FishValue(7, PondCreated, 2, "Red", false, 1);
      DeepCopy(fish, FishValue(7, sentDate, 2, "Red", false, 1), map[]) == CopyResult(None, fish)
  {
    var fish := FishValue(7, PondCreated, 2, "Red", false, 1);
    var sentFish := FishValue(7, sentDate, 2, "Red", false, 1);
    FishCopyable(fish, sentFish);
    FlatCopyStoredFish(sentDate);
    DeepCopyIsFlatWithoutEmbedding(fish, sentFish, map[]);
  }

  /** TestCopyImmutableAttributesEmbedded (attributecopier_test.go:112-132): the copier of
      attributecopier.go reaches the embedded Fish and restores its CreateDate. */
  lemma EmbeddedCreateDateDeep()
    ensures var stored := EmbeddedFish(FishValue(7, PondCreated, 2, "Red", false, 1));
      var sent := EmbeddedFish(FishValue(7, PondCreated + 100, 2, "Red", false, 1));
      WellFormed(stored) && Conforms(stored, sent, map[]) &&
      DeepCopy(stored, sent, map[]) == CopyResult(None, stored)
  {
    var fish := FishValue(7, PondCreated, 2, "Red", false, 1);
    var sentFish := FishValue(7, PondCreated + 100, 2, "Red", false, 1);
    var stored := EmbeddedFish(fish);
    var sent := EmbeddedFish(sentFish);
    FishCopyable(fish, sentFish);
    assert WellFormed(stored);
    assert Conforms(stored, sent, map[]);
    DeepCopyFish(PondCreated + 100);
    var updated := sent.fields[0 := sent.fields[0].(value := fish)];
    assert CopyFieldsFrom(stored, sent.fields, 0, map[]) == CopyFieldsFrom(stored, updated, 1, map[]);
    assert sent.(fields := updated) == stored;
  }

  /** The same PUT through the flat copier of controller.go, which Put uses: the
      embedded Fish is not entered, so the sent CreateDate stays. */
  lemma EmbeddedCreateDateFlat()
    ensures var stored := EmbeddedFish(FishValue(7, PondCreated, 2, "Red", false, 1));
      var sent := EmbeddedFish(FishValue(7, PondCreated + 100, 2, "Red", false, 1));
      FlatCopy(stored, sent, map[]) == CopyResult(None, sent)
  {
    var stored := EmbeddedFish(FishValue(7, PondCreated, 2, "Red", false, 1));
    var sent := EmbeddedFish(FishValue(7, PondCreated + 100, 2, "Red", false, 1));
    assert FlatFields(stored, sent.fields, 0) == FlatFields(stored, sent.fields, 1);
  }
}
