# Store-trigger webhook dispatch, modelled in Dafny

This project models the E-Com Plus trigger webhook of the "notificações
inteligentes" app (`exports.post` in `functions/routes/ecom/webhook.js`).
The store API calls the webhook with a trigger describing a change to a store
resource. The handler loads the tenant's app data and then does one of three things:

- It answers `"SKIP"` when the tenant's `ignore_triggers` array holds the
  trigger's resource, or when loading the app data was rejected with the
  name "SkipTrigger".
- It answers `"SUCCESS"` otherwise, unless the log line throws (below). For
  an order or cart that is not being deleted, with a truthy `resource_id`,
  when `ni_webhook_uri` is truthy, it first starts a relay to
  `ni_webhook_uri`.
- It answers status 500 with `{ error: "STORE_API_ERR", message }` when
  loading the app data was rejected with a name other than "SkipTrigger".
  It also answers 500 when, for an order or cart that is not being deleted
  with a truthy `resource_id`, its log line throws a TypeError while spelling
  a `resource_id` or `ni_webhook_uri` that is an object with its own
  `toString` key, or an array holding such an object at any depth.

A relay fetches `<resource>/<resource_id>.json`. For a cart, once that fetch
succeeds, it also fetches `customers/<first id>.json` when the cart's
`customers` and first customer id are truthy and the id can be spelled. It
then POSTs `{ storeId, trigger, order|cart, customer }`. A failed fetch or a
throw ends the relay without a POST.

The handler is modelled as total functions over values, in two modules:

- `js.dfy` (module `Js`) models the JavaScript the handler relies on: JSON-like
  values (`Json`), truthiness, `===`, `Array.prototype.indexOf`,
  `String.prototype.slice`, property and index access, and the string a
  template literal builds from an interpolated value.
- `webhook.dfy` (module `Webhook`) models the handler. `Dispatch` computes the
  answer and the relay plan from the trigger and the app-data result alone.
  This is what it means that the relay is not awaited. `RunRelay` plays a plan
  against the store API, which is passed in as a function `api` from path to
  fetch result. `Handle` combines the two.

Collaborators become inputs:

- `getAppData` becomes an `AppDataResult`: either the loaded object, or a
  rejection carrying its `name` and `message`.
- `appSdk.apiRequest` becomes the `api` parameter.
- The axios POST becomes the `Post` value that a relay emits. Its outcome is
  only logged, so the model does not take it as an input.

## Model

| member | source | states |
|---|---|---|
| Js.Truthy | functions/routes/ecom/webhook.js:39-48 | JavaScript truthiness of the tested values: a truthy value is never `undefined` or `null`, so reading its properties or `[0]` cannot throw; arrays and objects are always truthy, even when empty |
| Js.StrictEquals | functions/routes/ecom/webhook.js:27-37 | `===` on parsed values: it holds only between equal values, and it holds between equal values that are not arrays or objects, which compare by identity |
| Js.Prop | functions/routes/ecom/webhook.js:47 | destructuring `customers` from the fetched data throws exactly on `undefined` or `null`, and on an object reads the key, or `undefined` when the key is absent |
| Js.At | functions/routes/ecom/webhook.js:48 | `customers[0]` on an array is its first element |
| Webhook.Enrichable | functions/routes/ecom/webhook.js:36-37 | the handler looks further only at triggers whose resource is "orders" or "carts" and whose action is not "delete" |
| Webhook.InterpolationThrows | functions/routes/ecom/webhook.js:38-41 | the log line can throw only when `resource_id` or `ni_webhook_uri` is an object or an array; strings, numbers, booleans, `null` and `undefined` always spell |
| Js.IndexOf | functions/routes/ecom/webhook.js:27 | `indexOf` returns the first position holding a value `===` to the sought one, or -1 exactly when no position holds one |
| Webhook.IgnoresTrigger | functions/routes/ecom/webhook.js:25-28 | the ignore test holds iff `ignore_triggers` is an array and some element is `===` to `trigger.resource` |
| Webhook.PlanRelay | functions/routes/ecom/webhook.js:36-43 | the log line throws iff the resource is "orders" or "carts", the action is not "delete", `resource_id` is truthy, and `resource_id` or `ni_webhook_uri` cannot be spelled; a relay is planned iff those first three hold, `ni_webhook_uri` is truthy and both can be spelled; the fetched path is exactly `<resource>/<resource_id>.json` and the target is exactly `ni_webhook_uri` |
| Webhook.Dispatch | functions/routes/ecom/webhook.js:24-90 | the answer is "SKIP" iff the data ignores the resource or the rejection is named "SkipTrigger"; it is "SUCCESS" with status 200 iff the data loaded, the resource is not ignored and the log line does not throw; it is 500 with `STORE_API_ERR` otherwise, carrying the rejection's message or the TypeError's; the relay is exactly the plan `PlanRelay` gives when the data loaded and the resource is not ignored, and none otherwise |
| Webhook.PayloadKey | functions/routes/ecom/webhook.js:60 | the payload key is the resource name without its last character, so "orders" gives "order" and "carts" gives "cart" |
| Js.SliceDropsLast | functions/routes/ecom/webhook.js:60 | `s.slice(0, -1)` followed by the last character of `s` is `s` again, and it is "" for "" |
| Webhook.BuildPayload | functions/routes/ecom/webhook.js:57-62 | the payload has exactly the keys `storeId`, `trigger`, `order` or `cart`, and `customer`; it holds the store id, the unmodified trigger, the fetched data under the singular key, and the customer |
| Webhook.LookupCustomer | functions/routes/ecom/webhook.js:45-51 | a customer is looked up only for carts, exactly when `customers` and `customers[0]` are truthy and `customers[0]` can be spelled, from `customers/<customers[0]>.json`; reading `customers` from undefined or null data, or spelling an unprintable `customers[0]`, throws |
| Webhook.RunRelay | functions/routes/ecom/webhook.js:43-66 | a relay requests the resource path first, then at most the customer path; it POSTs to `ni_webhook_uri` iff the resource fetch succeeded, nothing threw and any customer fetch succeeded; the POST body is the payload built from the fetched data and the fetched customer, or `undefined` when there is none |
| Webhook.Handle | functions/routes/ecom/webhook.js:11-91 | the answer is the one `Dispatch` decides, and a relay runs iff `Dispatch` planned one |
| Webhook.IgnoredTriggerIsSkipped | functions/routes/ecom/webhook.js:25-33 | when `ignore_triggers` contains the trigger's resource, the answer is "SKIP" and no relay runs, whatever the other trigger fields are |
| Webhook.NoIgnoreListNoSkip | functions/routes/ecom/webhook.js:25-27 | without an `ignore_triggers` array, loaded app data never answers "SKIP", and answers "SUCCESS" unless the log line throws |
| Webhook.ResponseIndependentOfRelay | functions/routes/ecom/webhook.js:43-72 | the answer is the same whatever the store API returns or fails with during the relay |
| Webhook.RemoteCallsOnlyWhenEligible | functions/routes/ecom/webhook.js:37-43 | for a trigger that is not ignored, a relay with remote calls runs iff the eligibility conjunction holds and both `resource_id` and `ni_webhook_uri` can be spelled |
| Webhook.OrdersCarryNoCustomer | functions/routes/ecom/webhook.js:45-52 | an order relay fetches only the order, and its payload's `customer` is `undefined` |
| Webhook.AppDataErrorIsStoreApiError | functions/routes/ecom/webhook.js:79-88 | a rejection not named "SkipTrigger" answers 500 with `{ error: "STORE_API_ERR", message }` and starts no relay |
| Js.NatToDecimal | functions/routes/ecom/webhook.js:43 | a numeric id interpolated into a path is spelled as a non-empty string of decimal digits with no leading zero, which is how JavaScript spells every non-negative safe integer (a negative one gets a leading "-" through `IntToDecimal`) |
| Js.DecimalRoundTrip | functions/routes/ecom/webhook.js:43 | reading back the decimal spelling of a number gives that number |
| Js.ToJsString | functions/routes/ecom/webhook.js:41-43 | `${v}` fails exactly for an object with its own `toString` key or an array holding such a value at any depth; otherwise strings stay as they are, numbers are spelled in decimal and plain objects give "[object Object]" |
| Js.JoinAll | functions/routes/ecom/webhook.js:41-43 | joining array elements throws iff one element's conversion throws, and otherwise gives the comma join of the element strings |
| Webhook.UnprintableIdAnswersStoreApiError | functions/routes/ecom/webhook.js:38-41 | an eligible trigger whose truthy `resource_id` cannot be spelled answers 500 with the TypeError's message and fetches nothing, whether or not `ni_webhook_uri` is set |
| Webhook.OwnToStringIdExample | functions/routes/ecom/webhook.js:41 | the order trigger whose `resource_id` is `{ "toString": 1 }` answers 500 and starts no relay |
| Webhook.UnprintableCustomerStopsRelay | functions/routes/ecom/webhook.js:48-49 | a cart whose first customer id cannot be spelled ends the relay after the cart fetch, with no customer fetch and no POST |
| Js.DecimalInjective | functions/routes/ecom/webhook.js:43 | two different non-negative numbers never get the same decimal spelling |
| Js.IntDecimalInjective | functions/routes/ecom/webhook.js:43 | two different numeric ids, of either sign, never give the same path segment |

## Left out

- The `getAppData` module, `appSdk.apiRequest` and `axios` are not part of this model. Their results are inputs: `AppDataResult` and the `api` function. The POST's own result is only logged, so the model leaves it out.
- Promise ordering. The relay runs after or concurrently with the answer. The model shows only that the answer does not depend on anything the relay observes.
- `console.log` and `console.error` output, which is logging only.
- The contents of the fetched order, cart and customer records. They are forwarded as opaque `Json` values. Only `customers` and `customers[0]` are read.
- A request body or app data that is not a JSON object is not modelled. In the source, `trigger.resource` or `appData.ignore_triggers` on `undefined` would throw a TypeError, which would give a 500.
- Numbers are safe integers (at most 2^53 - 1 in size). Fractional numbers, larger integers, exponent spellings such as "1e+21", `NaN` and `-0` are not modelled. This matters only for truthiness, for `===` in the ignore list and for spelling a numeric id in a path.
- Js.At: strings are sequences of Unicode characters, not UTF-16 code units. For a string whose first character lies outside the Basic Multilingual Plane, `customers[0]` gives the whole character here, but a lone surrogate in JavaScript.
- The TypeError message for an unprintable value is the one Node.js gives, "Cannot convert object to primitive value". Other engines word it differently.
- The JSON serialisation of a response or payload is not modelled. A `message` or `customer` that is `undefined` stays in the model's value, while `JSON.stringify` omits that key.
- A rejection value that is itself `undefined` or `null` is not modelled. It would make the handler's `.catch` throw and leave the request unanswered.
