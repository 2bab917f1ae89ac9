/**
 * The generic CRUD dispatcher of controller.go. A GenericRESTController is bound (by the
 * injection filter) to the authenticated user, the request and a model provider, and
 * answers GET, POST, PUT and DELETE with a fixed decision chain: enable flag, optional
 * pre-hook, lookup, authorization, save or delete, optional post-hook.
 *
 * Each handler also returns the sequence of calls it made into the provider and the
 * resource (`Call`), so which hooks, lookups and mutations happen is part of its contract.
 */
module Controller {
  import opened Wrappers
  import opened Values
  import opened ApiMessages
  import opened AttributeCopier

  /** The type name the injection filter looks for among a controller's embedded fields. */
  const RestControllerName := "GenericRESTController"

  type uint64 = x: int | 0 <= x < 0x1_0000_0000_0000_0000

  /** An authenticated User as the dispatcher and its hooks see it. */
  datatype Identity = Identity(uniqueID: uint64, hasAdminPrivileges: bool)

  /** The behaviour of a RESTObject type, as functions of an instance's contents. `save`
      and `delete` return the error they report, if any; what they persist is opaque. */
  datatype ModelType = ModelType(
    uniqueID: Value -> uint64,
    canBeViewedBy: (Value, Option<Identity>) -> bool,
    canBeCreatedBy: (Value, Option<Identity>) -> bool,
    canBeModifiedBy: (Value, Option<Identity>) -> bool,
    canBeDeletedBy: (Value, Option<Identity>) -> bool,
    save: Value -> Option<string>,
    delete: Value -> Option<string>)

  /** The GETHooker, POSTHooker, PUTHooker and DELETEHooker capabilities. A hook returns
      the result that replaces the normal one, or None to let the chain go on. The
      error a post-hook receives is always nil: it runs only after a success. */
  datatype GetHooks = GetHooks(
    pre: (uint64, Option<Identity>) -> Option<Outcome>,
    post: (Value, Option<Identity>) -> Option<Outcome>)
  datatype PostHooks = PostHooks(
    pre: (Value, Option<Identity>) -> Option<Outcome>,
    post: (Value, Option<Identity>, Option<string>) -> Option<Outcome>)
  datatype PutHooks = PutHooks(
    pre: (Value, Value, Option<Identity>) -> Option<Outcome>,
    post: (Value, Value, Option<Identity>, Option<string>) -> Option<Outcome>)
  datatype DeleteHooks = DeleteHooks(
    pre: (Value, Option<Identity>) -> Option<Outcome>,
    post: (Value, Option<Identity>, Option<string>) -> Option<Outcome>)

  /** A model provider (RESTController): the name of its model type, the zero instance
      ModelFactory returns, the lookup by id, the four enable flags, the model type's
      behaviour, the types with a custom immutable-attribute copier, and its hooks. */
  datatype Provider = Provider(
    modelName: string,
    modelFactory: Value,
    getModelByID: uint64 -> Option<Value>,
    enableGET: bool,
    enablePOST: bool,
    enablePUT: bool,
    enableDELETE: bool,
    model: ModelType,
    copiers: CopierTable,
    getHooks: Option<GetHooks>,
    postHooks: Option<PostHooks>,
    putHooks: Option<PutHooks>,
    deleteHooks: Option<DeleteHooks>)

  datatype Credentials = Credentials(username: string, password: string)

  /** A request: its JSON body decoded onto a given instance (None when it is malformed),
      and its basic-auth credentials, if any. */
  datatype Request = Request(decode: Value -> Option<Value>, basicAuth: Option<Credentials>)

  /** A call a handler makes into its provider or the resource. */
  datatype Call =
    | PreHook
    | Lookup(id: uint64)
    | CopyAttributes
    | Authorize(granted: bool)
    | SaveCall(ok: bool)
    | DeleteCall(ok: bool)
    | PostHook

  /** Every save and delete comes right after an authorization that granted it. */
  predicate MutationsAuthorized(calls: seq<Call>) {
    forall i :: 0 <= i < |calls| && (calls[i].SaveCall? || calls[i].DeleteCall?) ==>
      i > 0 && calls[i - 1] == Authorize(true)
  }

  /** A post-hook is the last call, and it comes right after a successful save or
      delete, or (for GET, which mutates nothing) a granted authorization. */
  predicate PostHookAfterSuccess(calls: seq<Call>) {
    forall i :: 0 <= i < |calls| && calls[i] == PostHook ==>
      i == |calls| - 1 && i > 0 &&
      (calls[i - 1] == SaveCall(true) || calls[i - 1] == DeleteCall(true) || calls[i - 1] == Authorize(true))
  }

  /** The call of a hook, made exactly when the provider has the hook capability. */
  function HookCall(hooked: bool, hook: Call): seq<Call> {
    if hooked then [hook] else []
  }

  function NotFoundText(name: string, id: uint64): string {
    name + " with ID " + DecimalString(id) + " not found"
  }

  function Unauthorized(text: string): Outcome {
    Message(ApiMessage(StatusUnauthorized, text))
  }

  function Failed(err: string): Outcome {
    Message(ApiMessage(StatusBadRequest, err))
  }

  /* ---- copyImmutableAttributes (controller.go:188-235): the non-recursive copier ---- */

  /** The copy Put makes from the stored record `src` onto the decoded instance `dst`:
      a custom copier of the source's type decides alone; otherwise both must be structs,
      and every immutable-tagged source field is copied onto the same-named settable
      destination field. Embedded structs are not entered. */
  function FlatCopy(src: Value, dst: Value, copiers: CopierTable): (r: CopyResult)
    ensures HasCustomCopier(src, copiers) ==> r == copiers[src.typeName](src, dst)
    ensures !HasCustomCopier(src, copiers) && !src.Struct? ==> r == CopyResult(Some(SourceNotStruct), dst)
    ensures !HasCustomCopier(src, copiers) && src.Struct? && !dst.Struct? ==> r == CopyResult(Some(DestinationNotStruct), dst)
    ensures !HasCustomCopier(src, copiers) && src.Struct? && dst.Struct? ==>
      r.err.None? && r.dest.Struct? && r.dest.typeName == dst.typeName && |r.dest.fields| == |dst.fields| &&
      forall j :: 0 <= j < |dst.fields| ==> SameSlot(dst.fields[j], r.dest.fields[j])
  {
    if HasCustomCopier(src, copiers) then copiers[src.typeName](src, dst)
    else if !src.Struct? then CopyResult(Some(SourceNotStruct), dst)
    else if !dst.Struct? then CopyResult(Some(DestinationNotStruct), dst)
    else CopyResult(None, dst.(fields := FlatFields(src, dst.fields, 0)))
  }

  /** The loop of controller.go:223-232 from source field i on. The value written is
      that of the first source field with the name (reflect's FieldByName). */
  function FlatFields(src: Value, fields: seq<Field>, i: nat): (r: seq<Field>)
    requires src.Struct? && i <= |src.fields|
    ensures |r| == |fields| && forall j :: 0 <= j < |fields| ==> SameSlot(fields[j], r[j])
    decreases |src.fields| - i
  {
    if i == |src.fields| then fields
    else
      var f := src.fields[i];
      var j := FieldByName(fields, f.name);
      if f.apikitTag == ImmutableTag && j.Some? && Exported(f.name) then
        var k := FieldByName(src.fields, f.name);
        FlatFields(src, fields[j.value := fields[j.value].(value := src.fields[k.value].value)], i + 1)
      else FlatFields(src, fields, i + 1)
  }

  /** Destination field j is written by the loop from source field i on: it is the first
      settable destination field with a name some later immutable-tagged source field has. */
  ghost predicate FlatTarget(src: Value, fields: seq<Field>, i: nat, j: nat)
    requires src.Struct? && j < |fields|
  {
    Exported(fields[j].name) && FieldByName(fields, fields[j].name) == Some(j) &&
    exists k :: i <= k < |src.fields| && src.fields[k].name == fields[j].name && src.fields[k].apikitTag == ImmutableTag
  }

  /** What the flat copy leaves in each destination field, with no assumption on names:
      a target takes the value of the first source field of its name; any other field,
      embedded ones included, is unchanged. */
  lemma {:induction false} FlatFieldsExact(src: Value, fields: seq<Field>, i: nat, j: nat)
    requires src.Struct? && i <= |src.fields| && j < |fields|
    ensures FlatTarget(src, fields, i, j) ==> FieldByName(src.fields, fields[j].name).Some?
    ensures FlatFields(src, fields, i)[j] ==
      if FlatTarget(src, fields, i, j)
      then fields[j].(value := src.fields[FieldByName(src.fields, fields[j].name).value].value)
      else fields[j]
    decreases |src.fields| - i
  {
    if i == |src.fields| {
      return;
    }
    var f := src.fields[i];
    var jj := FieldByName(fields, f.name);
    if f.apikitTag == ImmutableTag && jj.Some? && Exported(f.name) {
      var k := FieldByName(src.fields, f.name);
      var updated := fields[jj.value := fields[jj.value].(value := src.fields[k.value].value)];
      FieldByNameSameSlots(updated, fields, fields[j].name);
      FlatFieldsExact(src, updated, i + 1, j);
      if j != jj.value {
        assert FlatTarget(src, fields, i, j) == FlatTarget(src, updated, i + 1, j) by {
          if fields[j].name == f.name {
            assert FieldByName(fields, fields[j].name) != Some(j);
          }
        }
      }
    } else {
      FlatFieldsExact(src, fields, i + 1, j);
      assert FlatTarget(src, fields, i, j) == FlatTarget(src, fields, i + 1, j);
    }
  }

  /** With distinct names: after the flat copy, a settable destination field named like an
      immutable-tagged source field holds that field's value; every other destination
      field, embedded structs included, is unchanged. */
  lemma FlatCopyFields(src: Value, dst: Value, copiers: CopierTable, j: nat)
    requires src.Struct? && dst.Struct? && !HasCustomCopier(src, copiers)
    requires DistinctNames(src.fields) && DistinctNames(dst.fields) && j < |dst.fields|
    ensures var o := FlatCopy(src, dst, copiers).dest.fields[j];
      (exists k :: 0 <= k < |src.fields| && src.fields[k].name == dst.fields[j].name &&
         src.fields[k].apikitTag == ImmutableTag && Exported(dst.fields[j].name) &&
         o == dst.fields[j].(value := src.fields[k].value)) ||
      ((forall k :: 0 <= k < |src.fields| && src.fields[k].name == dst.fields[j].name ==>
         src.fields[k].apikitTag != ImmutableTag || !Exported(dst.fields[j].name)) &&
       o == dst.fields[j])
  {
    FlatFieldsExact(src, dst.fields, 0, j);
    FieldByNameDistinct(dst.fields, j);
    if FlatTarget(src, dst.fields, 0, j) {
      var k :| 0 <= k < |src.fields| && src.fields[k].name == dst.fields[j].name && src.fields[k].apikitTag == ImmutableTag;
      FieldByNameDistinct(src.fields, k);
    }
  }

  /** Without embedded source fields the recursive copier never recurses, so any
      destination fields conform. */
  lemma ConformsWithoutEmbedding(src: Value, fields: seq<Field>, i: nat, copiers: CopierTable)
    requires src.Struct? && forall k :: 0 <= k < |src.fields| ==> !src.fields[k].anonymous
    ensures ConformsFrom(src, fields, i, copiers)
  {
  }

  /** On a source without embedded fields, the recursive loop and the flat loop of
      controller.go write the same fields and never fail. */
  lemma {:induction false} CopiersAgreeWithoutEmbedding(src: Value, fields: seq<Field>, i: nat, copiers: CopierTable)
    requires src.Struct? && WellFormed(src) && i <= |src.fields|
    requires ConformsFrom(src, fields, i, copiers)
    requires forall k :: 0 <= k < |src.fields| ==> !src.fields[k].anonymous
    ensures CopyFieldsFrom(src, fields, i, copiers) == (None, FlatFields(src, fields, i))
    decreases |src.fields| - i
  {
    if i < |src.fields| {
      var f := src.fields[i];
      var j := FieldByName(fields, f.name);
      if f.apikitTag == ImmutableTag && j.Some? && Exported(f.name) {
        FieldByNameDistinct(src.fields, i);
        var updated := fields[j.value := fields[j.value].(value := f.value)];
        ConformsWithoutEmbedding(src, updated, i + 1, copiers);
        CopiersAgreeWithoutEmbedding(src, updated, i + 1, copiers);
      } else {
        ConformsWithoutEmbedding(src, fields, i + 1, copiers);
        CopiersAgreeWithoutEmbedding(src, fields, i + 1, copiers);
      }
    }
  }

  /** CopyImmutableAttributes and copyImmutableAttributes agree on structs without
      embedded fields: the two differ only in recursing into embedded structs. */
  lemma DeepCopyIsFlatWithoutEmbedding(src: Value, dst: Value, copiers: CopierTable)
    requires WellFormed(src) && Conforms(src, dst, copiers)
    requires src.Struct? && dst.Struct? && !HasCustomCopier(src, copiers)
    requires forall k :: 0 <= k < |src.fields| ==> !src.fields[k].anonymous
    ensures DeepCopy(src, dst, copiers) == FlatCopy(src, dst, copiers)
  {
    CopiersAgreeWithoutEmbedding(src, dst.fields, 0, copiers);
  }

  /**
   * copyImmutableAttributes(newInstance, existingInstance) (controller.go:188-235): nil
   * arguments are reported, the destination first; otherwise the destination is
   * updated in place as FlatCopy says, and the source is only read.
   */
  method CopyImmutableAttributesFlat(newInstance: Option<Cell>, existingInstance: Option<Cell>, copiers: CopierTable)
    returns (err: Option<string>)
    modifies if newInstance.Some? then {newInstance.value} else {}
    ensures newInstance.None? ==> err == Some(NilDestination)
    ensures newInstance.Some? && existingInstance.None? ==>
      err == Some(NilSource) && newInstance.value.contents == old(newInstance.value.contents)
    ensures newInstance.Some? && existingInstance.Some? ==>
      CopyResult(err, newInstance.value.contents) ==
        FlatCopy(old(existingInstance.value.contents), old(newInstance.value.contents), copiers)
  {
    if newInstance.None? {
      return Some(NilDestination);
    }
    if existingInstance.None? {
      return Some(NilSource);
    }
    var src := existingInstance.value.contents;
    var d := newInstance.value;
    if HasCustomCopier(src, copiers) {
      var r := copiers[src.typeName](src, d.contents);
      d.contents := r.dest;
      return r.err;
    }
    if !src.Struct? {
      return Some(SourceNotStruct);
    }
    if !d.contents.Struct? {
      return Some(DestinationNotStruct);
    }
    ghost var start := d.contents;
    for i := 0 to |src.fields|
      invariant d.contents.Struct? && d.contents.typeName == start.typeName
      invariant FlatFields(src, d.contents.fields, i) == FlatFields(src, start.fields, 0)
    {
      var f := src.fields[i];
      if f.apikitTag == ImmutableTag {
        var j := FieldByName(d.contents.fields, f.name);
        if j.Some? && Exported(f.name) {
          var k := FieldByName(src.fields, f.name);
          var fields := d.contents.fields;
          d.contents := d.contents.(fields := fields[j.value := fields[j.value].(value := src.fields[k.value].value)]);
        }
      }
    }
    return None;
  }

  /** How DELETE ends once the record was found: pre-hook short-circuit, then
      CanBeDeletedBy, then Delete, then the post-hook. */
  predicate RemoveOutcome(p: Provider, u: Option<Identity>, id: uint64, found: Value, r: Outcome, calls: seq<Call>) {
    var hooks := p.deleteHooks;
    var before := [Lookup(id)] + HookCall(hooks.Some?, PreHook);
    if hooks.Some? && hooks.value.pre(found, u).Some? then
      r == hooks.value.pre(found, u).value && calls == before
    else if !p.model.canBeDeletedBy(found, u) then
      r == Unauthorized("Not authorized to delete this " + p.modelName) && calls == before + [Authorize(false)]
    else if p.model.delete(found).Some? then
      r == Failed(p.model.delete(found).value) && calls == before + [Authorize(true)] + [DeleteCall(false)]
    else if hooks.Some? && hooks.value.post(found, u, None).Some? then
      r == hooks.value.post(found, u, None).value &&
      calls == before + [Authorize(true)] + [DeleteCall(true)] + [PostHook]
    else
      r == Message(ApiMessage(StatusOK, "Success")) &&
      calls == before + [Authorize(true)] + [DeleteCall(true)] + HookCall(hooks.Some?, PostHook)
  }

  /** How PUT ends once the copy succeeded: pre-hook short-circuit, then
      CanBeModifiedBy on the instance, then Save, then the post-hook. */
  predicate ModifyOutcome(p: Provider, u: Option<Identity>, id: uint64, inst: Value, existing: Value, r: Outcome, calls: seq<Call>) {
    var hooks := p.putHooks;
    var before := [Lookup(id), CopyAttributes] + HookCall(hooks.Some?, PreHook);
    if hooks.Some? && hooks.value.pre(inst, existing, u).Some? then
      r == hooks.value.pre(inst, existing, u).value && calls == before
    else if !p.model.canBeModifiedBy(inst, u) then
      r == Unauthorized("Not authorized to modify this " + p.modelName) && calls == before + [Authorize(false)]
    else if p.model.save(inst).Some? then
      r == Failed(p.model.save(inst).value) && calls == before + [Authorize(true)] + [SaveCall(false)]
    else if hooks.Some? && hooks.value.post(inst, existing, u, None).Some? then
      r == hooks.value.post(inst, existing, u, None).value &&
      calls == before + [Authorize(true)] + [SaveCall(true)] + [PostHook]
    else
      r == Json(inst) && calls == before + [Authorize(true)] + [SaveCall(true)] + HookCall(hooks.Some?, PostHook)
  }

  /* ---- The dispatcher ---- */

  /** GenericRESTController (controller.go:12-16). The handlers use the provider the
      injection filter bound, and POST and PUT the request. */
  class GenericRestController {
    var authenticatedUser: Option<Identity>
    var request: Option<Request>
    var modelProvider: Option<Provider>

    /** The zero value revel allocates: nothing bound yet. */
    constructor ()
      ensures authenticatedUser.None? && request.None? && modelProvider.None?
    {
      authenticatedUser := None;
      request := None;
      modelProvider := None;
    }

    /** GET /<model>/<id> (controller.go:22-51). */
    method Get(id: uint64) returns (r: Outcome, calls: seq<Call>)
      requires modelProvider.Some?
      ensures MutationsAuthorized(calls) && PostHookAfterSuccess(calls)
      ensures var p := modelProvider.value;
        !p.enableGET ==> r == DefaultBadRequestMessage() && calls == []
      ensures var p, u := modelProvider.value, authenticatedUser;
        p.enableGET && p.getHooks.Some? && p.getHooks.value.pre(id, u).Some? ==>
          r == p.getHooks.value.pre(id, u).value && calls == [PreHook]
      ensures var p, u := modelProvider.value, authenticatedUser;
        var pre := HookCall(p.getHooks.Some?, PreHook);
        p.enableGET && (p.getHooks.None? || p.getHooks.value.pre(id, u).None?) ==>
          match p.getModelByID(id)
          case None =>
            r == Message(ApiMessage(StatusNotFound, NotFoundText(p.modelName, id))) &&
            calls == pre + [Lookup(id)]
          case Some(found) =>
            if !p.model.canBeViewedBy(found, u) then
              r == Unauthorized("Unauthorized to view " + p.modelName + " with ID " + DecimalString(id)) &&
              calls == pre + [Lookup(id), Authorize(false)]
            else if p.getHooks.Some? && p.getHooks.value.post(found, u).Some? then
              r == p.getHooks.value.post(found, u).value &&
              calls == pre + [Lookup(id), Authorize(true), PostHook]
            else
              r == Json(found) && calls == pre + [Lookup(id), Authorize(true)] + HookCall(p.getHooks.Some?, PostHook)
    {
      var p := modelProvider.value;
      var u := authenticatedUser;
      if !p.enableGET {
        return DefaultBadRequestMessage(), [];
      }
      calls := [];
      if p.getHooks.Some? {
        calls := [PreHook];
        var premature := p.getHooks.value.pre(id, u);
        if premature.Some? {
          return premature.value, calls;
        }
      }
      var found := p.getModelByID(id);
      calls := calls + [Lookup(id)];
      if found.None? {
        return Message(ApiMessage(StatusNotFound, NotFoundText(p.modelName, id))), calls;
      }
      if !p.model.canBeViewedBy(found.value, u) {
        calls := calls + [Authorize(false)];
        return Unauthorized("Unauthorized to view " + p.modelName + " with ID " + DecimalString(id)), calls;
      }
      calls := calls + [Authorize(true)];
      if p.getHooks.Some? {
        calls := calls + [PostHook];
        var premature := p.getHooks.value.post(found.value, u);
        if premature.Some? {
          return premature.value, calls;
        }
      }
      return Json(found.value), calls;
    }

    /** POST /<model> (controller.go:53-86): the body is decoded onto a fresh instance
        of the model type, then created. */
    method Post() returns (r: Outcome, calls: seq<Call>)
      requires modelProvider.Some? && request.Some?
      ensures MutationsAuthorized(calls) && PostHookAfterSuccess(calls)
      ensures !modelProvider.value.enablePOST ==> r == DefaultNotFoundMessage() && calls == []
      ensures var p := modelProvider.value;
        p.enablePOST && request.value.decode(p.modelFactory).None? ==>
          r == DefaultBadRequestMessage() && calls == []
      ensures var p, u := modelProvider.value, authenticatedUser;
        var decoded := request.value.decode(p.modelFactory);
        p.enablePOST && decoded.Some? ==>
          var inst, hooks := decoded.value, p.postHooks;
          var pre := HookCall(hooks.Some?, PreHook);
          if hooks.Some? && hooks.value.pre(inst, u).Some? then
            r == hooks.value.pre(inst, u).value && calls == [PreHook]
          else if !p.model.canBeCreatedBy(inst, u) then
            r == Unauthorized("Not authorized to post this " + p.modelName) && calls == pre + [Authorize(false)]
          else if p.model.save(inst).Some? then
            r == Failed(p.model.save(inst).value) && calls == pre + [Authorize(true)] + [SaveCall(false)]
          else if hooks.Some? && hooks.value.post(inst, u, None).Some? then
            r == hooks.value.post(inst, u, None).value && calls == pre + [Authorize(true)] + [SaveCall(true)] + [PostHook]
          else
            r == Json(inst) && calls == pre + [Authorize(true)] + [SaveCall(true)] + HookCall(hooks.Some?, PostHook)
    {
      var p := modelProvider.value;
      var u := authenticatedUser;
      var instance := new Cell(p.modelFactory);
      if !p.enablePOST {
        return DefaultNotFoundMessage(), [];
      }
      var decoded := request.value.decode(instance.contents);
      if decoded.None? {
        return DefaultBadRequestMessage(), [];
      }
      instance.contents := decoded.value;
      calls := [];
      if p.postHooks.Some? {
        calls := [PreHook];
        var premature := p.postHooks.value.pre(instance.contents, u);
        if premature.Some? {
          return premature.value, calls;
        }
      }
      if !p.model.canBeCreatedBy(instance.contents, u) {
        return Unauthorized("Not authorized to post this " + p.modelName), calls + [Authorize(false)];
      }
      calls := calls + [Authorize(true)];
      var err := p.model.save(instance.contents);
      if err.Some? {
        return Failed(err.value), calls + [SaveCall(false)];
      }
      calls := calls + [SaveCall(true)];
      if p.postHooks.Some? {
        calls := calls + [PostHook];
        var premature := p.postHooks.value.post(instance.contents, u, err);
        if premature.Some? {
          return premature.value, calls;
        }
      }
      return Json(instance.contents), calls;
    }

    /**
     * PUT /<model> (controller.go:88-133): the body is decoded, the stored record with
     * the decoded instance's id is looked up, and its immutable attributes are copied
     * onto the instance, before the pre-hook and the authorization see it. A missing
     * record is a nil source to the copier, so it ends in the internal-error message:
     * the "does not exist" answer of controller.go:105-110 cannot be reached.
     * `configured` is the `apikit.internalservererror` setting.
     */
    method Put(configured: Option<string>) returns (r: Outcome, calls: seq<Call>)
      requires modelProvider.Some? && request.Some?
      ensures MutationsAuthorized(calls) && PostHookAfterSuccess(calls)
      ensures !modelProvider.value.enablePUT ==> r == DefaultNotFoundMessage() && calls == []
      ensures var p := modelProvider.value;
        p.enablePUT && request.value.decode(p.modelFactory).None? ==>
          r == DefaultBadRequestMessage() && calls == []
      ensures var p, u := modelProvider.value, authenticatedUser;
        var decoded := request.value.decode(p.modelFactory);
        p.enablePUT && decoded.Some? ==>
          var id := p.model.uniqueID(decoded.value);
          match p.getModelByID(id)
          case None =>
            r == DefaultInternalServerErrorMessage(configured) && calls == [Lookup(id), CopyAttributes]
          case Some(existing) =>
            var copy := FlatCopy(existing, decoded.value, p.copiers);
            if copy.err.Some? then
              r == DefaultInternalServerErrorMessage(configured) && calls == [Lookup(id), CopyAttributes]
            else
              ModifyOutcome(p, u, id, copy.dest, existing, r, calls)
    {
      var p := modelProvider.value;
      var u := authenticatedUser;
      var instance := new Cell(p.modelFactory);
      if !p.enablePUT {
        return DefaultNotFoundMessage(), [];
      }
      var decoded := request.value.decode(instance.contents);
      if decoded.None? {
        return DefaultBadRequestMessage(), [];
      }
      instance.contents := decoded.value;
      var id := p.model.uniqueID(instance.contents);
      var found := p.getModelByID(id);
      var preExisting: Option<Cell> := None;
      if found.Some? {
        var stored := new Cell(found.value);
        preExisting := Some(stored);
      }
      var copyErr := CopyImmutableAttributesFlat(Some(instance), preExisting, p.copiers);
      if copyErr.Some? {
        return DefaultInternalServerErrorMessage(configured), [Lookup(id), CopyAttributes];
      }
      r, calls := ModifyChain(p, u, id, instance.contents, found.value);
    }

    /** DELETE /<model>/<id> (controller.go:135-173). */
    method Delete(id: uint64) returns (r: Outcome, calls: seq<Call>)
      requires modelProvider.Some?
      ensures MutationsAuthorized(calls) && PostHookAfterSuccess(calls)
      ensures !modelProvider.value.enableDELETE ==> r == DefaultNotFoundMessage() && calls == []
      ensures var p, u := modelProvider.value, authenticatedUser;
        p.enableDELETE ==>
          match p.getModelByID(id)
          case None =>
            r == Message(ApiMessage(StatusNotFound, NotFoundText(p.modelName, id))) && calls == [Lookup(id)]
          case Some(found) => RemoveOutcome(p, u, id, found, r, calls)
    {
      var p := modelProvider.value;
      var u := authenticatedUser;
      if !p.enableDELETE {
        return DefaultNotFoundMessage(), [];
      }
      var found := p.getModelByID(id);
      calls := [Lookup(id)];
      if found.None? {
        return Message(ApiMessage(StatusNotFound, NotFoundText(p.modelName, id))), calls;
      }
      r, calls := RemoveChain(p, u, id, found.value);
    }

    /** The rest of DELETE once the record was found (controller.go:147-172). */
    method RemoveChain(p: Provider, u: Option<Identity>, id: uint64, found: Value)
      returns (r: Outcome, calls: seq<Call>)
      ensures MutationsAuthorized(calls) && PostHookAfterSuccess(calls)
      ensures RemoveOutcome(p, u, id, found, r, calls)
    {
      calls := [Lookup(id)];
      if p.deleteHooks.Some? {
        calls := calls + [PreHook];
        var premature := p.deleteHooks.value.pre(found, u);
        if premature.Some? {
          return premature.value, calls;
        }
      }
      if !p.model.canBeDeletedBy(found, u) {
        return Unauthorized("Not authorized to delete this " + p.modelName), calls + [Authorize(false)];
      }
      calls := calls + [Authorize(true)];
      var err := p.model.delete(found);
      if err.Some? {
        return Failed(err.value), calls + [DeleteCall(false)];
      }
      calls := calls + [DeleteCall(true)];
      if p.deleteHooks.Some? {
        calls := calls + [PostHook];
        var premature := p.deleteHooks.value.post(found, u, err);
        if premature.Some? {
          return premature.value, calls;
        }
      }
      return Message(ApiMessage(StatusOK, "Success")), calls;
    }

    /** The rest of PUT once the copy succeeded (controller.go:99-131): `inst` is the
        decoded instance carrying the stored record's immutable attributes. */
    method ModifyChain(p: Provider, u: Option<Identity>, id: uint64, inst: Value, existing: Value)
      returns (r: Outcome, calls: seq<Call>)
      ensures MutationsAuthorized(calls) && PostHookAfterSuccess(calls)
      ensures ModifyOutcome(p, u, id, inst, existing, r, calls)
    {
      calls := [Lookup(id), CopyAttributes];
      if p.putHooks.Some? {
        calls := calls + [PreHook];
        var premature := p.putHooks.value.pre(inst, existing, u);
        if premature.Some? {
          return premature.value, calls;
        }
      }
      if !p.model.canBeModifiedBy(inst, u) {
        return Unauthorized("Not authorized to modify this " + p.modelName), calls + [Authorize(false)];
      }
      calls := calls + [Authorize(true)];
      var err := p.model.save(inst);
      if err.Some? {
        return Failed(err.value), calls + [SaveCall(false)];
      }
      calls := calls + [SaveCall(true)];
      if p.putHooks.Some? {
        calls := calls + [PostHook];
        var premature := p.putHooks.value.post(inst, existing, u, err);
        if premature.Some? {
          return premature.value, calls;
        }
      }
      return Json(inst), calls;
    }
  }
}
