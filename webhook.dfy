/**
 * The E-Com Plus store-trigger webhook handler (`exports.post`).
 *
 * On each trigger the handler loads the tenant's app data, then either
 * answers "SKIP" (the tenant ignores this resource type, or loading was
 * rejected with the name "SkipTrigger"), answers "SUCCESS" and possibly
 * starts a relay to `ni_webhook_uri` (fetch the order or cart, for a cart
 * possibly its first customer, then POST a payload), or answers 500 with
 * `{ error: "STORE_API_ERR", message }` when loading was rejected with any
 * other name or when logging the trigger throws a TypeError.
 *
 * The relay is not awaited: the answer is decided before any of its remote
 * calls, and every failure in it is only logged. So `Dispatch` decides the
 * answer and a relay plan from the trigger and the app data alone, and
 * `RunRelay` plays the plan against the store API, passed in as `api`.
 */
module Webhook {
  import opened Js

  const SkipTriggerName := "SkipTrigger"
  const EchoSuccess := "SUCCESS"
  const EchoSkip := "SKIP"
  const EchoApiError := "STORE_API_ERR"

  /** Express answers 200 unless `res.status` is called. */
  const DefaultStatus := 200
  const ErrorStatus := 500

  /** The parsed request body: the trigger, a JSON object. */
  type Trigger = map<string, Json>

  /**
   * What loading the app data gave: the data object, or a rejection carrying
   * its `name` and `message` properties.
   */
  datatype AppDataResult =
    | Loaded(appData: map<string, Json>)
    | Failed(name: Json, message: Json)

  datatype Body =
    | Text(text: string)
    | ApiError(error: string, message: Json)

  datatype Response = Response(status: int, body: Body)

  /** What a relay fetches and where it posts. */
  datatype RelayPlan = RelayPlan(resource: string, resourcePath: string, url: Json)

  /** What a non-skipped trigger leads to: nothing more, a relay, or a TypeError thrown while logging. */
  datatype Planned = NoRelay | Relay(plan: RelayPlan) | ThrowsAtLog

  /** The answer to the store, and the relay started before answering, if any. */
  datatype Decision = Decision(response: Response, relay: Option<RelayPlan>)

  /** One store API call's outcome: the `response.data` it resolved with, or a rejection. */
  datatype FetchResult = Fetched(data: Json) | FetchFailed

  /** The axios request a relay ends with. */
  datatype Post = Post(url: Json, payload: map<string, Json>)

  /** The store API paths a relay requested, in order, and the POST it sent, if it got that far. */
  datatype RelayRun = RelayRun(requested: seq<string>, post: Option<Post>)

  /** Whether, and from where, a relay fetches the cart's customer. */
  datatype CustomerLookup =
    | NoLookup
    | Lookup(path: string)
    | Throws  // destructuring undefined or null data, or interpolating an unprintable id

  function SkipResponse(): Response {
    Response(DefaultStatus, Text(EchoSkip))
  }

  function SuccessResponse(): Response {
    Response(DefaultStatus, Text(EchoSuccess))
  }

  function ErrorResponse(message: Json): Response {
    Response(ErrorStatus, ApiError(EchoApiError, message))
  }

  /**
   * The tenant ignores the trigger: its `ignore_triggers` is an array, and
   * `indexOf` finds the trigger's `resource` in it.
   */
  predicate IgnoresTrigger(appData: map<string, Json>, trigger: Trigger)
    ensures IgnoresTrigger(appData, trigger) <==>
      (var ignored := Get(appData, "ignore_triggers");
       ignored.JArray? &&
       exists j :: 0 <= j < |ignored.items| && StrictEquals(ignored.items[j], Get(trigger, "resource")))
  {
    var ignored := Get(appData, "ignore_triggers");
    ignored.JArray? && IndexOf(ignored.items, Get(trigger, "resource")) > -1
  }

  /**
   * The triggers for which the handler goes on to look at `resource_id`:
   * an order or a cart, with any action but "delete".
   */
  predicate Enrichable(trigger: Trigger)
    ensures Enrichable(trigger) <==>
      && (Get(trigger, "resource") == JString("orders") || Get(trigger, "resource") == JString("carts"))
      && Get(trigger, "action") != JString("delete")
  {
    var resource := Get(trigger, "resource");
    (StrictEquals(resource, JString("orders")) || StrictEquals(resource, JString("carts")))
    && !StrictEquals(Get(trigger, "action"), JString("delete"))
  }

  /**
   * Whether the log line, reached for an enrichable trigger with a truthy
   * `resource_id`, throws a TypeError while spelling the resource id or the
   * relay URL.
   */
  predicate InterpolationThrows(trigger: Trigger, appData: map<string, Json>)
    ensures InterpolationThrows(trigger, appData) ==>
      var id, url := Get(trigger, "resource_id"), Get(appData, "ni_webhook_uri");
      id.JObject? || id.JArray? || url.JObject? || url.JArray?
  {
    && Enrichable(trigger)
    && Truthy(Get(trigger, "resource_id"))
    && (Unprintable(Get(trigger, "resource_id")) || Unprintable(Get(appData, "ni_webhook_uri")))
  }

  /** The message of the TypeError Node.js throws when an object cannot be turned into a string. */
  const ConversionErrorMessage := "Cannot convert object to primitive value"

  /** The store API path of a trigger's resource: its name, a slash, its spelled id and ".json". */
  function ResourcePath(resource: string, resourceId: Json): string
    requires !Unprintable(resourceId)
  {
    resource + "/" + ToJsString(resourceId).value + ".json"
  }

  /** The store API path of a customer: "customers", a slash, its spelled id and ".json". */
  function CustomerPath(customerId: Json): string
    requires !Unprintable(customerId)
  {
    "customers/" + ToJsString(customerId).value + ".json"
  }

  /**
   * What a non-skipped trigger leads to before the answer: for an order or
   * cart that is not being deleted, with a truthy `resource_id`, the log line
   * either throws or, when `ni_webhook_uri` is truthy, a relay starts.
   */
  function PlanRelay(trigger: Trigger, appData: map<string, Json>): (r: Planned)
    ensures r.ThrowsAtLog? <==> InterpolationThrows(trigger, appData)
    ensures r.Relay? <==>
      && (Get(trigger, "resource") == JString("orders") || Get(trigger, "resource") == JString("carts"))
      && Get(trigger, "action") != JString("delete")
      && Truthy(Get(trigger, "resource_id"))
      && Truthy(Get(appData, "ni_webhook_uri"))
      && !Unprintable(Get(trigger, "resource_id"))
      && !Unprintable(Get(appData, "ni_webhook_uri"))
    ensures r.Relay? ==>
      && JString(r.plan.resource) == Get(trigger, "resource")
      && r.plan.resourcePath == r.plan.resource + "/" + ToJsString(Get(trigger, "resource_id")).value + ".json"
      && r.plan.url == Get(appData, "ni_webhook_uri")
  {
    var resource := Get(trigger, "resource");
    if Enrichable(trigger) then
      var resourceId := Get(trigger, "resource_id");
      if Truthy(resourceId) then
        var url := Get(appData, "ni_webhook_uri");
        if Unprintable(resourceId) || Unprintable(url) then ThrowsAtLog
        else if Truthy(url) then Relay(RelayPlan(resource.s, ResourcePath(resource.s, resourceId), url))
        else NoRelay
      else NoRelay
    else NoRelay
  }

  /**
   * The handler's decision: the answer to the store and the relay it starts.
   * A skip, from the app data's `ignore_triggers` or from a rejection named
   * "SkipTrigger", answers "SKIP"; any other rejection, and a TypeError from
   * the log line, answers 500 with its message; every other loaded case
   * answers "SUCCESS".
   */
  function Dispatch(trigger: Trigger, loaded: AppDataResult): (d: Decision)
    ensures d.response.status == DefaultStatus || d.response.status == ErrorStatus
    ensures d.response == SkipResponse() <==>
      (loaded.Loaded? && IgnoresTrigger(loaded.appData, trigger)) ||
      (loaded.Failed? && loaded.name == JString(SkipTriggerName))
    ensures d.response == SuccessResponse() <==>
      loaded.Loaded? && !IgnoresTrigger(loaded.appData, trigger) && !InterpolationThrows(trigger, loaded.appData)
    ensures d.response.status == ErrorStatus <==>
      (loaded.Failed? && loaded.name != JString(SkipTriggerName)) ||
      (loaded.Loaded? && !IgnoresTrigger(loaded.appData, trigger) && InterpolationThrows(trigger, loaded.appData))
    ensures d.response.status == ErrorStatus ==>
      d.response == ErrorResponse(if loaded.Failed? then loaded.message else JString(ConversionErrorMessage))
    ensures d.relay ==
      if loaded.Loaded? && !IgnoresTrigger(loaded.appData, trigger) && PlanRelay(trigger, loaded.appData).Relay?
      then Some(PlanRelay(trigger, loaded.appData).plan) else None
  {
    match loaded
    case Failed(name, message) =>
      if StrictEquals(name, JString(SkipTriggerName)) then Decision(SkipResponse(), None)
      else Decision(ErrorResponse(message), None)
    case Loaded(appData) =>
      if IgnoresTrigger(appData, trigger) then Decision(SkipResponse(), None)
      else match PlanRelay(trigger, appData)
        case ThrowsAtLog => Decision(ErrorResponse(JString(ConversionErrorMessage)), None)
        case NoRelay => Decision(SuccessResponse(), None)
        case Relay(plan) => Decision(SuccessResponse(), Some(plan))
  }

  /** `resource.slice(0, -1)`: the payload key, "order" for "orders" and "cart" for "carts". */
  function PayloadKey(resource: string): (k: string)
    ensures |resource| > 0 ==> k + [resource[|resource| - 1]] == resource
    ensures |resource| == 0 ==> k == ""
    ensures resource == "orders" ==> k == "order"
    ensures resource == "carts" ==> k == "cart"
  {
    SliceDropsLast(resource);
    Slice(resource, 0, -1)
  }

  /**
   * The body POSTed to `ni_webhook_uri`: `{ storeId, trigger, [key]: data, customer }`.
   * `customer` is `undefined` when none was fetched (JSON serialisation then omits it).
   */
  function BuildPayload(storeId: SafeInteger, trigger: Trigger, resource: string, data: Json, customer: Json): (p: map<string, Json>)
    requires resource == "orders" || resource == "carts"
    ensures p.Keys == {"storeId", "trigger", PayloadKey(resource), "customer"}
    ensures p["storeId"] == JNumber(storeId)
    ensures p["trigger"] == JObject(trigger)
    ensures resource == "orders" ==> "order" in p && p["order"] == data
    ensures resource == "carts" ==> "cart" in p && p["cart"] == data
    ensures p["customer"] == customer
  {
    map["storeId" := JNumber(storeId), "trigger" := JObject(trigger),
        PayloadKey(resource) := data, "customer" := customer]
  }

  /**
   * Whether the relay looks up a customer once the resource is fetched:
   * only for carts whose `customers` and `customers[0]` are truthy. Reading
   * `customers` from undefined or null data throws, and so does spelling an
   * unprintable `customers[0]` into the path.
   */
  function LookupCustomer(resource: string, data: Json): (c: CustomerLookup)
    ensures resource != "carts" ==> c == NoLookup
    ensures c.Throws? <==>
      resource == "carts" &&
      (IsNullish(data) ||
       (Truthy(Prop(data, "customers").value) && Truthy(At(Prop(data, "customers").value, 0)) &&
        Unprintable(At(Prop(data, "customers").value, 0))))
    ensures c.Lookup? <==>
      resource == "carts" && !IsNullish(data) &&
      Truthy(Prop(data, "customers").value) && Truthy(At(Prop(data, "customers").value, 0)) &&
      !Unprintable(At(Prop(data, "customers").value, 0))
    ensures c.Lookup? ==>
      c.path == "customers/" + ToJsString(At(Prop(data, "customers").value, 0)).value + ".json"
  {
    if resource != "carts" then NoLookup
    else match Prop(data, "customers")
      case None => Throws
      case Some(customers) =>
        if Truthy(customers) && Truthy(At(customers, 0)) then
          if Unprintable(At(customers, 0)) then Throws else Lookup(CustomerPath(At(customers, 0)))
        else NoLookup
  }

  /**
   * Plays a relay plan against the store API: fetch the resource, for a cart
   * possibly fetch its first customer, then POST. A failed fetch or a thrown
   * TypeError ends the chain without a POST (the error is only logged).
   */
  function RunRelay(storeId: SafeInteger, trigger: Trigger, plan: RelayPlan, api: string -> FetchResult): (run: RelayRun)
    requires plan.resource == "orders" || plan.resource == "carts"
    ensures 1 <= |run.requested| <= 2
    ensures run.requested[0] == plan.resourcePath
    ensures |run.requested| == 2 <==>
      api(plan.resourcePath).Fetched? && LookupCustomer(plan.resource, api(plan.resourcePath).data).Lookup?
    ensures |run.requested| == 2 ==>
      run.requested[1] == LookupCustomer(plan.resource, api(plan.resourcePath).data).path
    ensures run.post.Some? ==> run.post.value.url == plan.url
    ensures run.post.Some? <==>
      && api(plan.resourcePath).Fetched?
      && !LookupCustomer(plan.resource, api(plan.resourcePath).data).Throws?
      && (|run.requested| == 2 ==> api(run.requested[1]).Fetched?)
    ensures run.post.Some? ==>
      run.post.value.payload == BuildPayload(storeId, trigger, plan.resource, api(plan.resourcePath).data,
                                             if |run.requested| == 2 then api(run.requested[1]).data else JUndefined)
  {
    var path := plan.resourcePath;
    match api(path)
    case FetchFailed => RelayRun([path], None)
    case Fetched(data) =>
      match LookupCustomer(plan.resource, data)
      case Throws => RelayRun([path], None)
      case NoLookup =>
        RelayRun([path], Some(Post(plan.url, BuildPayload(storeId, trigger, plan.resource, data, JUndefined))))
      case Lookup(customerPath) =>
        match api(customerPath)
        case FetchFailed => RelayRun([path, customerPath], None)
        case Fetched(customer) =>
          RelayRun([path, customerPath],
                   Some(Post(plan.url, BuildPayload(storeId, trigger, plan.resource, data, customer))))
  }

  /**
   * The whole handler: the answer sent to the store, and what the unawaited
   * relay did, if one was started.
   */
  function Handle(storeId: SafeInteger, trigger: Trigger, loaded: AppDataResult, api: string -> FetchResult)
    : (out: (Response, Option<RelayRun>))
    ensures out.0 == Dispatch(trigger, loaded).response
    ensures out.1.Some? <==> Dispatch(trigger, loaded).relay.Some?
    ensures out.1.Some? ==> out.1.value == RunRelay(storeId, trigger, Dispatch(trigger, loaded).relay.value, api)
  {
    var d := Dispatch(trigger, loaded);
    match d.relay
    case None => (d.response, None)
    case Some(plan) => (d.response, Some(RunRelay(storeId, trigger, plan, api)))
  }

  // ---------------------------------------------------------------------------
  // Properties of the handler

  /** An ignored resource type is skipped whatever else the trigger says, and nothing is fetched. */
  lemma IgnoredTriggerIsSkipped(storeId: SafeInteger, trigger: Trigger, appData: map<string, Json>,
                                api: string -> FetchResult, j: nat)
    requires Get(appData, "ignore_triggers").JArray?
    requires j < |Get(appData, "ignore_triggers").items|
    requires StrictEquals(Get(appData, "ignore_triggers").items[j], Get(trigger, "resource"))
    ensures Handle(storeId, trigger, Loaded(appData), api) == (SkipResponse(), None)
  {
  }

  /**
   * Without an `ignore_triggers` array, loaded app data never skips; it
   * answers "SUCCESS" unless the log line throws.
   */
  lemma NoIgnoreListNoSkip(trigger: Trigger, appData: map<string, Json>)
    requires !Get(appData, "ignore_triggers").JArray?
    ensures Dispatch(trigger, Loaded(appData)).response != SkipResponse()
    ensures !InterpolationThrows(trigger, appData) ==> Dispatch(trigger, Loaded(appData)).response == SuccessResponse()
  {
  }

  /** The answer is the same whatever the store API does during the relay. */
  lemma ResponseIndependentOfRelay(storeId: SafeInteger, trigger: Trigger, loaded: AppDataResult,
                                   api1: string -> FetchResult, api2: string -> FetchResult)
    ensures Handle(storeId, trigger, loaded, api1).0 == Handle(storeId, trigger, loaded, api2).0
  {
  }

  /**
   * A relay fetches something exactly when the eligibility conjunction holds
   * and both the id and the url can be spelled into the log line.
   */
  lemma RemoteCallsOnlyWhenEligible(storeId: SafeInteger, trigger: Trigger, appData: map<string, Json>,
                                    api: string -> FetchResult)
    requires !IgnoresTrigger(appData, trigger)
    ensures Handle(storeId, trigger, Loaded(appData), api).1.Some? <==>
      && (Get(trigger, "resource") == JString("orders") || Get(trigger, "resource") == JString("carts"))
      && Get(trigger, "action") != JString("delete")
      && Truthy(Get(trigger, "resource_id"))
      && Truthy(Get(appData, "ni_webhook_uri"))
      && !Unprintable(Get(trigger, "resource_id"))
      && !Unprintable(Get(appData, "ni_webhook_uri"))
  {
  }

  /** An order relay never fetches a customer, and its payload's `customer` is `undefined`. */
  lemma OrdersCarryNoCustomer(storeId: SafeInteger, trigger: Trigger, plan: RelayPlan, api: string -> FetchResult)
    requires plan.resource == "orders"
    ensures RunRelay(storeId, trigger, plan, api).requested == [plan.resourcePath]
    ensures RunRelay(storeId, trigger, plan, api).post.Some? ==>
      RunRelay(storeId, trigger, plan, api).post.value.payload["customer"] == JUndefined
  {
  }

  /** A non-skip rejection answers 500 with the rejection's message and starts no relay. */
  lemma AppDataErrorIsStoreApiError(storeId: SafeInteger, trigger: Trigger, name: Json, message: Json,
                                    api: string -> FetchResult)
    requires !StrictEquals(name, JString(SkipTriggerName))
    ensures Handle(storeId, trigger, Failed(name, message), api) ==
      (Response(500, ApiError("STORE_API_ERR", message)), None)
  {
  }

  /**
   * An eligible trigger whose truthy `resource_id` cannot be spelled makes the
   * log line throw: 500 with the TypeError's message, and nothing is fetched,
   * whether or not `ni_webhook_uri` is set.
   */
  lemma UnprintableIdAnswersStoreApiError(storeId: SafeInteger, trigger: Trigger, appData: map<string, Json>,
                                          api: string -> FetchResult)
    requires !IgnoresTrigger(appData, trigger)
    requires Get(trigger, "resource") == JString("orders") || Get(trigger, "resource") == JString("carts")
    requires Get(trigger, "action") != JString("delete")
    requires Truthy(Get(trigger, "resource_id")) && Unprintable(Get(trigger, "resource_id"))
    ensures Handle(storeId, trigger, Loaded(appData), api) ==
      (Response(500, ApiError("STORE_API_ERR", JString("Cannot convert object to primitive value"))), None)
  {
  }

  /** The order trigger `{ resource_id: { toString: 1 } }` answers 500 and fetches nothing. */
  lemma OwnToStringIdExample(api: string -> FetchResult)
    ensures
      var id := JObject(map["toString" := JNumber(1)]);
      var trigger := map["resource" := JString("orders"), "action" := JString("create"), "resource_id" := id];
      var appData := map["ni_webhook_uri" := JString("https://x")];
      Handle(1, trigger, Loaded(appData), api).0.status == 500 &&
      Handle(1, trigger, Loaded(appData), api).1 == None
  {
  }

  /**
   * A cart whose first customer id cannot be spelled ends the relay after the
   * cart fetch: no customer is fetched and nothing is posted.
   */
  lemma UnprintableCustomerStopsRelay(storeId: SafeInteger, trigger: Trigger, plan: RelayPlan,
                                      api: string -> FetchResult, cart: map<string, Json>)
    requires plan.resource == "carts"
    requires api(plan.resourcePath) == Fetched(JObject(cart))
    requires Truthy(Get(cart, "customers")) && Truthy(At(Get(cart, "customers"), 0))
    requires Unprintable(At(Get(cart, "customers"), 0))
    ensures RunRelay(storeId, trigger, plan, api) == RelayRun([plan.resourcePath], None)
  {
  }
}
