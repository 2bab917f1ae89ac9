# revel-apikit, modelled in Dafny

revel-apikit adds generic REST endpoints to a revel web application. An application
controller embeds a `GenericRESTController` and acts as a model provider. The provider
supplies:

- a zero instance and a lookup by id;
- a flag per verb;
- optional GET, POST, PUT and DELETE hooks.

A revel filter binds the embedded dispatcher to the request, the authenticated user and the
provider. The dispatcher then answers GET, POST, PUT and DELETE with a fixed chain:

1. the enable flag;
2. the pre-hook, which may short-circuit;
3. the lookup;
4. the resource's own authorization predicate;
5. `Save` or `Delete`;
6. the post-hook, which may replace the result.

On PUT, attributes tagged `apikit:"immutable"` are first copied from the stored record onto
the submitted one, so a client can never overwrite them. Around this core sit:

- a routes-file parser and route-tree builder;
- reflection helpers that find and replace the embedded dispatcher;
- a panic filter that turns panics and revel's not-found page into JSON messages;
- an example `User` resource with its provider.

The Dafny modules follow the source files:

| module | file | models |
|---|---|---|
| `Wrappers` | wrappers.dfy | `Option` |
| `Values` | values.dfy | Go values as reflection sees them: ints, strings, bools, pointers, and structs with named, tagged, possibly anonymous fields. Also `Cell`, a heap cell a pointer points at. |
| `ApiMessages` | messages.dfy | `ApiMessage`, the default messages, and the decimal rendering of ids |
| `AttributeCopier` | attributecopier.dfy | attributecopier.go: the recursive copier and what a successful copy promises |
| `Controller` | controller.dfy | controller.go: the dispatcher class, its four handlers and the flat copier |
| `Routing` | routing.dfy | routing.go: line parsing, `treePath`, and the route tree `updateTree` builds |
| `Embedding` | util.dfy | util.go: finding, reading and replacing the embedded dispatcher |
| `Filters` | filters.dfy | filters.go: the injection filter and `APIPanicFilter` |
| `Users` | user_model.dfy | example/app/models/user.go |
| `UserControllers` | user_controller.dfy | example/app/controllers/users.go |
| `FishScenarios` | scenarios.dfy | the Fish fixtures of hooks_test.go and attributecopier_test.go, run through the dispatcher |

Every handler returns its outcome and the list of calls it made into the provider and the
resource:

- pre-hook;
- lookup;
- attribute copy;
- authorization, granted or not;
- save or delete, succeeding or not;
- post-hook.

So a contract can say "no lookup happens" or "`Save` is never called" as a statement about
that list. Every handler also promises two invariants:

- `MutationsAuthorized`: a save or delete comes right after a granted authorization;
- `PostHookAfterSuccess`: a post-hook is the last call, made only after a success.

## Model

| member | source | states |
|---|---|---|
| ApiMessages.DefaultBadRequestMessage | controller.go:237-242 | status 400 with the text "Improperly formatted request body" |
| ApiMessages.DefaultNotFoundMessage | controller.go:244-249 | status 404 with the text "Not Found" |
| ApiMessages.DefaultInternalServerErrorMessage | controller.go:251-257 | status 500; the configured `apikit.internalservererror` text when there is one, else the built-in default |
| ApiMessages.DecimalString | controller.go:31-35 | the rendering of an id is a non-empty string of digits, one digit exactly for ids below 10 |
| ApiMessages.DecimalStringRoundTrip | controller.go:31-35 | reading the rendered id back as a decimal number gives the id |
| ApiMessages.DecimalStringNoLeadingZero | controller.go:31-35 | ids of two digits or more are rendered without a leading zero |
| Values.FieldByName | attributecopier.go:56-63 | the position of the first field with that name, or none exactly when no field has it |
| AttributeCopier.DeepCopy | attributecopier.go:14-75 | a custom copier of the source's type decides alone; a non-struct source or destination gives its error with the destination untouched; otherwise the result keeps every field slot of the destination, and changes no field that no source field targets |
| AttributeCopier.CopyPointees | attributecopier.go:26-72 | the loop over source fields computes exactly `DeepCopy` |
| AttributeCopier.CopyFieldsFrom | attributecopier.go:50-72 | the loop from source field i on keeps the name, tag and embedding of every destination field, and leaves unchanged every field that no remaining tagged or embedded source field names |
| AttributeCopier.CopyImmutableAttributes | attributecopier.go:14-75 | a nil destination is reported first, then a nil source, with the destination unchanged; otherwise the error and the new destination are those of `DeepCopy` on the old contents; the source is never written |
| AttributeCopier.CopyFieldsFromSound | attributecopier.go:50-72 | after the loop, every destination field satisfies the copy rule for the source field of its name; on a nested error, every field before the failing embedded field does |
| AttributeCopier.DeepCopySound | attributecopier.go:50-72 | a successful copy satisfies the copy rule at every level; a failed one stops at an anonymous source field n: the fields before n are already copied, the error is the one the nested copy onto n's counterpart returned, that counterpart holds what the nested copy left, and the fields after n are untouched |
| AttributeCopier.TaggedFieldTakesSourceValue | attributecopier.go:54-58 | after success, an immutable-tagged source field's settable same-named destination field holds the source's value, whatever it held before |
| AttributeCopier.EmbeddedFieldCopied | attributecopier.go:59-70 | an anonymous untagged source field whose positional counterpart in the destination is anonymous too is copied recursively into the same-named destination field |
| AttributeCopier.PartialCopyOnNestedError | attributecopier.go:66-68 | a concrete struct whose embedded field is no struct: the error is returned, and the tagged field before it has already been copied |
| AttributeCopier.ConformsAfterWrite | attributecopier.go:56-65 | writing a destination field by name keeps the positional lookup in range for the rest of the loop |
| Controller.FlatCopy | controller.go:188-235 | a custom copier decides alone; non-struct arguments give their errors; otherwise the copy succeeds and keeps every field slot of the destination |
| Controller.FlatFields | controller.go:223-232 | the flat loop from source field i on keeps the name, tag and embedding of every destination field |
| Controller.FlatFieldsExact | controller.go:223-232 | each destination field takes the value of the same-named immutable-tagged source field when it is settable, and is otherwise unchanged |
| Controller.FlatCopyFields | controller.go:223-232 | on structs with distinct field names, a destination field either takes the value of a same-named, immutable-tagged source field and is settable, or no such source field exists and it is unchanged |
| Controller.CopiersAgreeWithoutEmbedding | controller.go:223-232 | without anonymous source fields, the recursive copier's field loop and the flat one produce the same fields and no error |
| Controller.DeepCopyIsFlatWithoutEmbedding | controller.go:188-235 | on structs without anonymous source fields, copyImmutableAttributes and CopyImmutableAttributes agree |
| Controller.CopyImmutableAttributesFlat | controller.go:188-235 | nil destination first, then nil source; otherwise the destination's new contents and the error are those of `FlatCopy` |
| Controller.GenericRestController.constructor | controller.go:12-16 | a fresh dispatcher has nothing bound |
| Controller.GenericRestController.Get | controller.go:22-51 | disabled: 400 and no calls; a pre-hook result is returned with no lookup; an absent id gives 404 "<Model> with ID <id> not found" and no post-hook; a record the user may not view gives 401; otherwise the post-hook's result if it has one, else the record as JSON |
| Controller.GenericRestController.Post | controller.go:53-86 | disabled: 404 with no calls; a malformed body gives 400; then the pre-hook short-circuit; then `CanBeCreatedBy` false gives 401 with no save; then a save error gives 400 with its text; the post-hook runs only after a successful save |
| Controller.GenericRestController.Put | controller.go:88-133 | disabled: 404; malformed body: 400; the record found by the submitted id is looked up and copied from before any hook; a missing record or a failed copy gives 500; then the modify chain runs on the copied instance |
| Controller.GenericRestController.ModifyChain | controller.go:99-131 | pre-hook short-circuit, then `CanBeModifiedBy` false gives 401, then a save error gives 400, then the post-hook or the instance as JSON |
| Controller.GenericRestController.RemoveChain | controller.go:147-172 | pre-hook short-circuit with no delete, then `CanBeDeletedBy` false gives 401, then a delete error gives 400, then the post-hook's result or 200 "Success" |
| Controller.GenericRestController.Delete | controller.go:135-173 | disabled: 404; absent id: 404 before any hook; a pre-hook result means no delete; `CanBeDeletedBy` false gives 401; a delete error gives 400; success gives 200 "Success" unless the post-hook overrides it |
| Routing.LeadingSpaces | routing.go:63 | the white space at the start of a line, and no more |
| Routing.TrailingStart | routing.go:63 | where the white space at the end of a line begins |
| Routing.TrimSpace | routing.go:63 | definition: the line from its first to its last non-space character; `TrimSpaceSpec` states its contract |
| Routing.TrimSpaceSpec | routing.go:63 | trimming removes white space only, all of it at both ends |
| Routing.Split | routing.go:62 | splitting at newlines gives at least one piece, none holding a newline |
| Routing.JoinSplit | routing.go:62 | joining the pieces with newlines gives back the content |
| Routing.SplitJoin | routing.go:62 | splitting newline-free pieces joined with newlines gives back the pieces |
| Routing.LineOutcome | routing.go:63-99 | definition: the decision the loop takes on one trimmed line; `LineOutcomeCases` states it case by case |
| Routing.LineOutcomeCases | routing.go:63-99 | a blank line, a comment, a module import and a line the pattern does not match are skipped; a matched line is refused for a ':' in its action (checked first) or a '*' anywhere; any other matched line is accepted |
| Routing.WildcardMethodRejected | routing.go:97-99 | a line whose method is `*`, which the route pattern admits, is always refused |
| Routing.NewRoute | routing.go:101 | the route records the matched method, path, action and arguments, the routes file and the line index, and its tree path |
| Routing.Outcomes | routing.go:62-99 | one outcome per line of the file, each the outcome of that line alone |
| Routing.ClassifyLine | routing.go:63-99 | the checks in the order the loop makes them (trim, blank or comment, module line, pattern, ':' in the action, '*' in the line) give exactly the line's outcome |
| Routing.ParseLines | routing.go:62-104 | a parse from line n on gives at most one route per remaining line |
| Routing.ParseRouteLines | routing.go:62-104 | the loop over the lines gives exactly `ParseLines` over their outcomes: the first refused line's error, or the accepted lines' routes |
| Routing.ParseRoutes | routing.go:58-105 | parsing a file's content is parsing the outcomes of its newline-split lines |
| Routing.ParseFailsIffSomeLineRejected | routing.go:89-99 | over any line outcomes, the parse fails exactly when some line is refused |
| Routing.ParseErrorIsFirstReject | routing.go:89-99 | the error reported is that of the first refused line, and no line before it is refused |
| Routing.ParsedRoutesFromAcceptedLines | routing.go:101-102 | every route returned comes from an accepted line, records that line's index, and is the route built from its match |
| Routing.ParsedRoutesInOrder | routing.go:62-102 | the routes are in input order, their line indexes strictly increasing |
| Routing.AcceptedLinesParsed | routing.go:62-102 | every accepted line yields a route with its index |
| Routing.TreePath | routing.go:146-151 | `*` becomes `/:METHOD` + path; any other method gives `/` + method + path |
| Routing.TreePathInjective | routing.go:146-151 | for one method, distinct paths give distinct tree paths |
| Routing.RouteKeys | routing.go:131-136 | a route gives one key, its tree path, and a GET route a second one, HEAD's tree path; every key carries the route |
| Routing.Registrations | routing.go:130-142 | one or two keys per route, each key carrying a route of the list |
| Routing.TreeFrom | routing.go:130-142 | the loop only adds to the tree: the old tree is a prefix of the new one, which grows by at most two keys per route |
| Routing.AddAll | routing.go:130-142 | adding keys one by one only adds to the tree, at most one entry per key |
| Routing.TreeFromAddsRegistrations | routing.go:130-142 | building the tree route by route adds the key list one key at a time |
| Routing.AddAllAppend | routing.go:130-142 | adding two key lists in turn is adding their concatenation, stopping at the first error |
| Routing.AddAllComplete | routing.go:130-142 | without an error every key is added, in order |
| Routing.AddAllStops | routing.go:130-142 | on an error, the keys before the failing one were added, they all succeeded, and the error is that of the failing key |
| Routing.TreeHoldsAllKeys | routing.go:128-144 | a successful build registers every route under its tree path and every GET route also under its HEAD path, in order |
| Routing.TreeStopsAtFirstError | routing.go:128-144 | a failed build holds exactly the keys before the first failing one, and returns that key's error |
| Routing.RegistrationsCoverRoutes | routing.go:131-136 | every route's tree path is registered, and for GET also its HEAD path |
| Routing.Router.constructor | routing.go:128-129 | a router with its routes and an empty tree |
| Routing.Router.UpdateTree | routing.go:128-144 | the routes are unchanged, and the tree and the error are those of adding the keys route by route |
| Embedding.StructOf | util.go:21-33 | a struct is found exactly for a struct value or a non-nil pointer to a struct |
| Embedding.FirstDispatcher | util.go:35-42 | the first member that is anonymous and named GenericRESTController; none exactly when no member is both |
| Embedding.GetEmbedded | util.go:18-43 | nothing for an object that is no struct or holds no dispatcher member; otherwise the first dispatcher member's value |
| Embedding.Embeds | util.go:14-16 | true exactly when the object is a struct, or points at one, holding a dispatcher member |
| Embedding.SetEmbedded | util.go:45-70 | false without a struct or a dispatcher member; a panic for a struct passed by value; otherwise true, with that member alone rewritten behind the pointer |
| Embedding.PointerAgreesWithValue | util.go:22-28 | a struct and a pointer to it are inspected alike |
| Embedding.GetAfterSet | util.go:35-69 | after Set writes a binding, Get finds the same member and returns that binding |
| Embedding.StructCell.constructor | util.go:45-70 | a struct cell holds the given members |
| Filters.InjectionFilter | filters.go:11-34 | a controller without a dispatcher passes on untouched; a controller that is not a provider panics; otherwise the dispatcher gets the controller as its provider and the current request, and the user from the credentials only when there are credentials |
| Filters.APIPanicFilter | filters.go:36-53 | a panic gives the default 500 message; a 404 status gives the "Not Found" message; otherwise the result is kept |
| Filters.Serve | filters.go:11-53 | a controller that embeds the dispatcher and is no provider, or is passed by value, ends in the default 500 message (the configured text, else the built-in one); any other controller gets the panic filter's rewrite of the rest of the chain. Revel passes a pointer, so the by-value case does not arise there. The controller is untouched without a dispatcher or when the filter panics; otherwise its dispatcher member alone is rebound to the provider, the request, and the basic-auth user (or the user it already held) |
| Filters.PanicFilterIdempotent | filters.go:44-49 | rewriting a rewritten result with the same status changes nothing |
| Users.CanBeViewedBy | example/app/models/user.go:28-30 | definition: anyone may view a user; `WritesNeedTheSameUser` states it |
| Users.CanBeCreatedBy | example/app/models/user.go:32-34 | definition: the modify rule; `WritesNeedTheSameUser` states it |
| Users.CanBeModifiedBy | example/app/models/user.go:36-38 | definition: a logged-in user whose unique id is the record's; `WritesNeedTheSameUser` states it |
| Users.CanBeDeletedBy | example/app/models/user.go:40-42 | definition: the modify rule; `WritesNeedTheSameUser` states it |
| Users.IsNewRecord | example/app/models/user.go:44-46 | definition: a user with id 0 is new; `UserControllers.UserProvider` states that the factory's user is |
| Users.UniqueID | example/app/models/user.go:55-57 | definition: the user's id; `Users.AsIdentity` states it |
| Users.HasAdminPrivileges | example/app/models/user.go:59-61 | definition: no user is an administrator; `Users.AsIdentity` states it |
| Users.AsIdentity | example/app/models/user.go:55-61 | a user is seen by the dispatcher with its own id and without admin privileges |
| Users.WritesNeedTheSameUser | example/app/models/user.go:28-42 | creating, modifying and deleting need that same user to be logged in; viewing needs nothing |
| Users.Validation.constructor | example/app/models/user.go:69 | a fresh validation holds no errors |
| Users.Validation.Error | example/app/models/user.go:50 | the error is recorded after those before |
| Users.Validation.MinSize | example/app/models/user.go:52 | the message is recorded exactly when the string is too short |
| Users.ValidationErrors | example/app/models/user.go:48-53 | no error exactly when the id is not 0 and the username is not empty; the ID error is there exactly when the id is 0, the blank-username error exactly when the name is empty; at most two errors |
| Users.Validate | example/app/models/user.go:48-53 | the ID error when the id is 0, then the blank-username error when the name is empty, in that order |
| Users.SaveError | example/app/models/user.go:68-77 | Save fails exactly when the id is 0 or the username is empty, and reports the ID error when the id is 0 |
| Users.Save | example/app/models/user.go:68-77 | the error reported is the first one validation records |
| Users.DeleteError | example/app/models/user.go:63-66 | deleting a user never fails |
| Users.IndexOfID | example/app/models/user.go:81-88 | the position of the first user with that id; none exactly when no user has it |
| Users.UserByID | example/app/models/user.go:81-88 | a user of the table with that id; none exactly when there is none |
| Users.GetUserByID | example/app/models/user.go:81-88 | the search loop returns the first user with that id, or none |
| Users.IndexOfLogin | example/app/models/user.go:17-25 | the position of the first user with that name and password; none exactly when no user has both |
| Users.Authenticated | example/app/models/user.go:17-25 | a user of the table with that name and password; none exactly when there is none |
| Users.AuthenticationHandler | example/app/models/user.go:17-25 | the search loop returns the first user matching both name and password, or none |
| Users.LoginTable | example/app/models/user.go:90-103 | the two table entries log in as themselves; a wrong or empty password logs in nobody |
| Users.ToValue | example/app/models/user.go:9-14 | a User is a struct of type User with its four fields |
| Users.ValueRoundTrip | example/app/models/user.go:9-14 | reading back a User's struct value gives the User |
| UserControllers.UserType | example/app/models/user.go:28-77 | definition: the RESTObject methods of User, read on the user a struct value holds; `UserControllers.GetModelByIDAgrees` and the user scenarios state what they give |
| UserControllers.GetModelByID | example/app/controllers/users.go:20-26 | definition: GetUserByID's user as a struct value; `UserControllers.GetModelByIDAgrees` states it |
| UserControllers.UserProvider | example/app/controllers/users.go:10-42 | every verb is enabled, there are no hooks, and the model factory is the zero User, a new record |
| UserControllers.GetModelByIDAgrees | example/app/controllers/users.go:20-26 | the lookup finds nothing exactly when GetUserByID does, and otherwise returns that user, whose unique id is the id asked for |
| UserControllers.TableLookups | example/app/models/user.go:90-103 | ids 1 and 2 find their users; every other id finds nothing |
| UserControllers.DeleteAnotherUser | example/app/models/user.go:40-42 | a user deleting another user gets 401 "Not authorized to delete this User", and nothing is deleted |
| UserControllers.ViewWithoutCredentials | example/app/models/user.go:28-30 | anyone may view a user, without credentials too |
| FishScenarios.FishType | hooks_test.go:26-61 | definition: every user may view, create, modify and delete a fish; Save fails for fewer than two fins; Delete never fails; the scenarios state what they give |
| FishScenarios.FindFish | hooks_test.go:92-99 | the fish found has the id asked for and is in the pond; none exactly when no fish has that id |
| FishScenarios.FishProvider | hooks_test.go:83-187 | every verb is enabled and every hook interface is implemented |
| FishScenarios.FishAccessors | hooks_test.go:17-24 | the fish accessors read the fields of a fish |
| FishScenarios.PondLookup | hooks_test.go:92-99 | the pond holds fish 7 and 8 and nothing else |
| FishScenarios.FishController | hooks_test.go:83-116 | the dispatcher as the filter leaves it for a fish request |
| FishScenarios.LuckyFish | hooks_test.go:208-228 | GET of the lucky id returns the pre-hook's 200 message with no lookup; fish 8 is returned as stored |
| FishScenarios.LoggedInTeapot | hooks_test.go:230-241 | a logged-in GET of fish 7 gets the post-hook's 418 after the lookup and a granted authorization |
| FishScenarios.MissingFishNotFound | hooks_test.go:243-253 | a logged-in GET of the missing fish 12345 gets 404 "Fish with ID 12345 not found", and the post-hook is not called |
| FishScenarios.DecimalOfMissingID | hooks_test.go:243-253 | id 12345 is rendered as "12345" |
| FishScenarios.MissingFishText | hooks_test.go:243-253 | the not-found text for fish 12345 |
| FishScenarios.PostInvalidFish | hooks_test.go:278-286 | a one-finned fish is refused with 400 and Save's validation text, and no post-hook runs |
| FishScenarios.PostValidFish | hooks_test.go:288-308 | a two-finned fish is saved and returned, and the post-hook runs after the save |
| FishScenarios.PutKeepsCreateDate | attributecopier_test.go:90-110 | a PUT of a stored fish keeps its creation date and runs both PUT hooks |
| FishScenarios.FlatCopyFish | controller.go:223-232 | copying onto a submitted fish rewrites its CreateDate alone |
| FishScenarios.FlatCopyStoredFish | controller.go:223-232 | the copy PUT makes from stored fish 7 onto a sent one differing in CreateDate alone gives back the stored fish |
| FishScenarios.ImmortalFishSurvives | hooks_test.go:361-375 | deleting the immortal fish gets the pre-hook's 401 and nothing is deleted |
| FishScenarios.OwnedFishDeleted | hooks_test.go:377-390 | deleting an owned fish succeeds and the post-hook's message replaces "Success" |
| FishScenarios.FishCopyable | hooks_test.go:17-24 | a fish is a well-formed source for any struct of at least six fields |
| FishScenarios.DeepCopyFish | attributecopier_test.go:90-110 | the recursive copier restores a fish's CreateDate |
| FishScenarios.EmbeddedCreateDateDeep | attributecopier_test.go:112-132 | the recursive copier restores the CreateDate of a fish embedded in EmbeddedFish |
| FishScenarios.EmbeddedCreateDateFlat | controller.go:223-232 | the copier PUT uses leaves the CreateDate of an embedded fish as the client sent it |

## Where the code and its documentation disagree

The model follows the code in each case.

- **GET when disabled:** it answers with the bad-request message (400), not 404
  (controller.go:23-25).
- **PUT of a missing record:** it never reaches its "does not exist" 400 branch
  (controller.go:105-110). The copy of immutable attributes runs first. A missing record is
  a nil source there, so the answer is 500.
- **Which copier PUT uses:** it calls controller.go's own copyImmutableAttributes, which
  does not enter embedded structs. attributecopier_test.go:112-132 expects an embedded
  fish's CreateDate to be kept, which only the recursive CopyImmutableAttributes of
  attributecopier.go does. `FishScenarios.EmbeddedCreateDateFlat` and
  `FishScenarios.EmbeddedCreateDateDeep` show the two behaviours side by side.
- **Custom copier method name:** controller.go:195-197 calls `CopyImmutableAttributes` on
  the custom copier, while attributecopier.go:11 declares `CopyImmutableAttributesTo`. Both
  are modelled as one custom-copier capability: a table from struct type names to copy
  functions.
- **Authorization predicates:** the handlers call `CanBeCreatedBy`, `CanBeModifiedBy` and
  `CanBeDeletedBy`, unlike interfaces.go. The PUT hooks receive the new and the existing
  instance (controller.go:100,124), unlike hooks.go.
- **Which member is the dispatcher:** util.go:37 accepts only an anonymous member named
  GenericRESTController. util_test.go:18-24 expects ExampleUserController, whose embedded
  member is named RESTController (controller_test.go:14-17), to embed the dispatcher; by the
  code it does not. The model follows util.go.
- **Reading the embedded dispatcher:** util.go:38 asserts it to the RESTController
  interface, yet filters.go reads and writes its unexported fields. The model takes the
  evident intent: the embedded member holds the dispatcher's three fields (`Binding`).

## Left out

- JSON decoding of the request body is a function of the request, which yields the decoded instance or nothing for a malformed body (400).
- `modelName` is the provider's opaque model-name string; the reflection behind it is not modelled.
- The `apikit.internalservererror` configuration value is passed in as a parameter.
- `ApiMessage.Apply`, `HookJsonResult` and response writing are not modelled: a handler's outcome is a message or a JSON payload.
- `RegisterRESTControllers` is not part of this model (file reads, revel registration, global router state).
- The route regular expression is left abstract: `parseRouteLine` is the `matcher` parameter.
- `revel.NewRoute`'s own processing (upper-casing the method, parsing fixed arguments) is not modelled. A route records what the matcher returned. The route pattern is case-insensitive (routing.go:113), so a line such as "get /x A.B" is accepted. In Go its method then becomes "GET": its tree key is "/GET/x", and updateTree (routing.go:134) also registers the HEAD key. The model keeps the method as written, so it registers "/get/x" only.
- pathtree's internals are left abstract: `Tree.Add` is the `add` parameter, a function of the keys added so far and the new key.
- `parseRoutes` trims a trailing slash from `joinedPath`, and nothing reads the result. `Routing.ParseRoutes` keeps the step, but its contract does not mention it.
- `Save` and `Delete` persist nothing visible to the model; the model keeps only the error they report.
- The POST and PUT hooks of hooks_test.go signal goroutines over channels. Those hooks are modelled as returning no result; the concurrency is left out.
- `time.Time` values (Fish.CreateDate) are integers.
- `GetUserByID` and `AuthenticationHandler` return pointers into the user table. The model returns the users as values, so aliasing between them and the table is not modelled.
- `AttributeCopier.CopyImmutableAttributes`: its arguments are nil or pointers to cells. A top-level argument that is not a pointer cannot be expressed; nested values that are not structs are, and give the "not a pointer to a struct" errors.
- `AttributeCopier.CopyImmutableAttributes` requires the destination to have a field at the position of every embedded, untagged source field, at every level the copy recurses into (an embedded, untagged source field whose positional destination field is embedded too). The positional lookup `vNew.Type().Field(i)` (attributecopier.go:62) is made only for such fields, and would panic without one.
- `AttributeCopier.CopyImmutableAttributes` does not model two panics of the Go code, because the model has no field types. `newField.Set` (attributecopier.go:57) panics when the source field's type is not assignable to the destination field's; `Addr().Interface()` (attributecopier.go:64-65) panics when the embedded field's type is unexported. The model writes the value whatever its type, and recurses into every embedded pair.
- `Controller.FlatCopy` does not model the panic of `newField.Set` (controller.go:229) when the source field's type is not assignable to the destination field's; it writes the value whatever its type.
- `Controller.GenericRestController.Post`, `Put` and `ModifyChain` pass the instance by value. In Go, Save, the authorization predicates and the hooks receive the instance's pointer and may change it in place, and the JSON reply is built from the instance after Save and the post-hook (controller.go:81-83, 128-130). Such in-place changes do not show in the model's reply. The User and Fish models and hooks make none.
- `Values.FieldByName` finds direct fields only. The promotion of fields through embedded structs that Go's FieldByName also performs is left out.
- Settability is modelled as an exported name, meaning an ASCII upper-case first letter.
- `Controller.GenericRestController.Get`, `Delete`, `Post` and `Put` require a bound provider, and `Post` and `Put` also a bound request. The injection filter establishes both; unbound, the Go code dereferences a nil interface.
- `Embedding.GetEmbedded` assumes the member named GenericRESTController and anonymous holds a dispatcher. Go guarantees this through the member's type; the model enforces it through the `Members` subset type.
- `revel.DevMode` logging of panics in `APIPanicFilter` is left out, because it does not affect the result.
- filter.go and model.go are stale duplicates that do not take part in the program and are not modelled. The same holds for main_test.go, example/app/init.go and example/app/controllers/app.go, which bootstrap the server.
- `revel.Validation` is reduced to an ordered list of error messages.
