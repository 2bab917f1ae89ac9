/**
 * filters.go: the revel filter that binds an embedded GenericRESTController to the
 * request before the action runs, and APIPanicFilter, which turns a panic into the
 * default internal-server-error message and revel's own not-found page into the
 * default not-found message.
 */
module Filters {
  import opened Wrappers
  import opened ApiMessages
  import opened Controller
  import opened Embedding

  /** An AuthenticationFunction: the user for a username and password, or nil. */
  type AuthenticationFunction = (string, string) -> Option<Identity>

  /** How a filter stage ends: it calls the next stage, or it panics. */
  datatype Stage = Continue | Panic

  /** The filter CreateRESTControllerInjectionFilter returns (filters.go:11-34), applied
      to revel's controller: its AppController `app`, its request, and the AppController
      seen as a model provider (None when it is not one). */
  method InjectionFilter(auth: AuthenticationFunction, app: Obj, request: Request, asProvider: Option<Provider>)
    returns (r: Stage)
    modifies Footprint(app)
    ensures var ms := old(StructOf(app));
      ms.None? || FirstDispatcher(ms.value).None? ==> r == Continue && unchanged(Footprint(app))
    ensures var ms := old(StructOf(app));
      ms.Some? && FirstDispatcher(ms.value).Some? && (asProvider.None? || app.StructValue?) ==>
        r == Panic && unchanged(Footprint(app))
    ensures var ms := old(StructOf(app));
      ms.Some? && FirstDispatcher(ms.value).Some? && asProvider.Some? && app.PointerToStruct? ==>
        var i := FirstDispatcher(ms.value).value;
        var before := ms.value[i].value.binding;
        r == Continue &&
        app.target.value.members == ms.value[i := ms.value[i].(value := DispatcherValue(Binding(
          if request.basicAuth.Some? then auth(request.basicAuth.value.username, request.basicAuth.value.password)
          else before.authenticatedUser,
          Some(request),
          asProvider)))]
  {
    var embeds := Embeds(app);
    if embeds {
      if asProvider.None? {
        return Panic;
      }
      var found := GetEmbedded(app);
      var ctrl := found.value;
      ctrl := ctrl.(modelProvider := asProvider);
      if request.basicAuth.Some? {
        ctrl := ctrl.(authenticatedUser := auth(request.basicAuth.value.username, request.basicAuth.value.password));
      }
      ctrl := ctrl.(request := Some(request));
      var written := SetEmbedded(app, ctrl);
      if written == Unaddressable {
        return Panic;
      }
    }
    return Continue;
  }

  /** What a revel controller's Result may be: an apikit result, or one of revel's own
      (such as its templated not-found page), named. */
  datatype Reply = Api(outcome: Outcome) | RevelResult(name: string)

  /** How the stages after APIPanicFilter ended: in a panic, or with a result and the
      response's status code. */
  datatype ChainEnd = Recovered | Returned(result: Reply, status: int)

  /** APIPanicFilter (filters.go:36-53), with the `apikit.internalservererror` setting
      passed in. */
  function APIPanicFilter(end: ChainEnd, configured: Option<string>): (r: Reply)
    ensures end.Recovered? ==> r == Api(DefaultInternalServerErrorMessage(configured))
    ensures end.Returned? && end.status == StatusNotFound ==> r == Api(DefaultNotFoundMessage())
    ensures end.Returned? && end.status != StatusNotFound ==> r == end.result
  {
    match end
    case Recovered => Api(DefaultInternalServerErrorMessage(configured))
    case Returned(result, status) =>
      if status == StatusNotFound then Api(DefaultNotFoundMessage()) else result
  }

  /** The filter chain of example/app/init.go around an action: APIPanicFilter first,
      the injection filter later, then the rest of the chain, which ends as `rest`. A
      panic of the injection filter (no provider, or a controller passed by value) is
      recovered by APIPanicFilter. */
  method Serve(configured: Option<string>, auth: AuthenticationFunction, app: Obj, request: Request,
               asProvider: Option<Provider>, rest: ChainEnd)
    returns (reply: Reply)
    modifies Footprint(app)
    ensures var ms := old(StructOf(app));
      ms.Some? && FirstDispatcher(ms.value).Some? && (asProvider.None? || app.StructValue?) ==>
        reply == Api(DefaultInternalServerErrorMessage(configured))
    ensures var ms := old(StructOf(app));
      ms.None? || FirstDispatcher(ms.value).None? || (asProvider.Some? && app.PointerToStruct?) ==>
        reply == APIPanicFilter(rest, configured)
    ensures var ms := old(StructOf(app));
      ms.None? || FirstDispatcher(ms.value).None? || asProvider.None? || app.StructValue? ==>
        unchanged(Footprint(app))
    ensures var ms := old(StructOf(app));
      ms.Some? && FirstDispatcher(ms.value).Some? && asProvider.Some? && app.PointerToStruct? ==>
        var i := FirstDispatcher(ms.value).value;
        var before := ms.value[i].value.binding;
        app.target.value.members == ms.value[i := ms.value[i].(value := DispatcherValue(Binding(
          if request.basicAuth.Some? then auth(request.basicAuth.value.username, request.basicAuth.value.password)
          else before.authenticatedUser,
          Some(request),
          asProvider)))]
  {
    var stage := InjectionFilter(auth, app, request, asProvider);
    var end := if stage == Panic then Recovered else rest;
    reply := APIPanicFilter(end, configured);
  }

  /** Running APIPanicFilter over its own answer, with the same status, changes nothing. */
  lemma PanicFilterIdempotent(end: ChainEnd, configured: Option<string>)
    requires end.Returned?
    ensures APIPanicFilter(Returned(APIPanicFilter(end, configured), end.status), configured) ==
      APIPanicFilter(end, configured)
  {
  }
}
