# laravel-gigapay, modelled in Dafny

This project models the core of `mazimez/laravel-gigapay`, a Laravel client for the Gigapay payouts API, and proves properties of that model.

- **Transport layer.** `RequestManager` checks the configuration and builds the three headers. It sends one request and classifies what happens: a decoded body, a `GigapayException` for a rejected response, or a plain `Exception`.
- **Error flattening.** `GigapayException::getErrorMessage` turns a decoded error body into one comma-joined message.
- **List query builder.** `ListResource` appends `key=value` filters to a URL, choosing `?` or `&`.
- **The five resources.** For `Payout`, `Employee`, `Invoice`, `Webhook` and `Pricing`, the model covers:
  - the required-field checks, with their exact messages;
  - the ordered parameters that each `create*` method builds by guarded `array_merge` calls;
  - the URLs each method addresses;
  - the fixed updates that `update*`, `save`, `replace`, `destroy` and `expand*` make to an object's fields after the request.
- **Event dispatch.** `EventFactory::create` maps a webhook callback's event name, through the events mapping, to one of nine events, each of which wraps a resource.

## How it is modelled

- **PHP values.** A value is `Php.Value`: null, bool, int, string, an ordered array of `(key, value)` entries, or an `stdClass` object with ordered properties.
  - PHP truthiness and `isset` are predicates.
  - String conversion fails for an object. This is the PHP Error "Object of class stdClass could not be converted to string".
- **Parameter building.** `Php.Assemble` is the source's step-by-step sequence of `if (test) $params = array_merge($params, [k => v])`. `Php.Selected` is its specification: the candidates that pass the test, in order. Every resource's parameter function is proved equal to `Selected` over its candidates.
  - `Pricing::calculatePricing` merges `description` twice. The proof shows that the second merge overwrites an existing entry with the same value.
- **The HTTP call.** A call is an `Outcome` parameter: `Responded(body)`, `Rejected(body, reason)`, `RejectedWithoutResponse(reason)` or `Failed(reason)`.
  - Every operation returns the request it handed to the client (`sent`), or none when it threw first, together with its result or the `Failure` it throws.
  - A `Failure` is a plain `Exception`, a `GigapayException`, or a PHP Error raised by the engine.
- **Configuration.** `config('gigapay.*')` is a `Config` record. The events mapping is a `map<string, string>` parameter. `route('gigapay.webhooks', ...)` is a function parameter from the mapped name to either a callback URL or the message of the exception URL generation throws.
  - `json_decode` of a metadata string is an uninterpreted function parameter `decode`.
- **Resource objects.** Each resource object is a `class` whose fields the methods reassign.
  - `Values()` lists the fields in constructor order.
  - The constructor reads `ReadAll(Keys, json)`.
  - `GetJson()` returns an object that the constructor reads back into the same fields.
  - A mutating method states its whole new state in terms of `old(Values())`.
- **What the code does, where one might expect otherwise.** The model follows the code in these places:
  - **Error flattening.** The model does exactly what `getErrorMessage` does. It has no special case for an `events` key, no lookup of a nested `non_field_errors`, and no flattening of list-shaped bodies. For a list-shaped body, index 0 is a falsy key, so the bare object becomes the message, and constructing the exception then raises a TypeError (`Exceptions.ListShapedBodyIsNotFlattened`).
  - **Query separator.** `addFilter` tests `strpos($url, '?')`. A URL whose only '?' is at index 0 therefore gets another '?' (`Resources.SeparatorIsAmpersandIff`).
  - **Webhook `url` parameter.** `Webhook::create` guards the `url` parameter with the endpoint string instead of the callback URL, so `url` is always sent (`Webhooks.CreateAlwaysSendsUrl`).
  - **Invoice resend URL.** `Invoice::resend` PATCHes the payouts URL (`Invoices.ResendTargetsPayouts`).
  - **Missing events mapping.** The shipped configuration defines no `events_mapping`. Every switch case is then null, and only an empty event name would match (`Events.WithoutMapping`).

## Model

| member | source | states |
|---|---|---|
| Exceptions.GigapayException.constructor | src/Exceptions/GigapayException.php:30-38 | keeps the decoded body as `json`; the message is the flattened body converted as `Exception::__construct` converts it |
| Exceptions.GigapayException.GetJson | src/Exceptions/GigapayException.php:46-49 | returns the body exactly as received |
| Exceptions.GigapayException.GetErrorMessage | src/Exceptions/GigapayException.php:57-93 | the loop over the body's top-level entries returns `ErrorMessage(json)`, the fold of the per-entry step |
| Exceptions.MessageJoinsSegments | src/Exceptions/GigapayException.php:60-89 | for a body whose entries are well formed, the message is one segment per entry in iteration order, joined with ","; bare for `non_field_errors` and for falsy keys, "Problem with key->first message" otherwise; an empty body gives null |
| Exceptions.AccumulateJoins | src/Exceptions/GigapayException.php:61-89 | once a truthy message has been accumulated, each further entry appends "," and its segment |
| Exceptions.WellFormedStep | src/Exceptions/GigapayException.php:63-88 | one loop iteration: a prefixed or bare segment, appended after "," or starting the message |
| Exceptions.PrefixedTruthy | src/Exceptions/GigapayException.php:78-80 | a "Problem with ..." segment is never falsy |
| Exceptions.FalsyBodyHasNoMessage | src/Exceptions/GigapayException.php:59-60 | a falsy body (null, false, 0, "", "0", empty array) or an empty object gives a null message |
| Exceptions.FalsyMessageOverwritten | src/Exceptions/GigapayException.php:76-87 | a falsy message accumulated so far (such as "0") is dropped by the next entry instead of being joined |
| Exceptions.ListShapedBodyIsNotFlattened | src/Exceptions/GigapayException.php:61-86 | a list-shaped body keeps its first object bare as the message, and the exception cannot be constructed from it |
| Exceptions.ExceptionText | src/Exceptions/GigapayException.php:37 | the parent constructor accepts a scalar or null message and refuses an array or object |
| Managers.Headers | src/Managers/RequestManager.php:57-63 | the three headers, in order: `Authorization: Token <token>`, `Integration-Id`, `Accept-Language` |
| Managers.Options | src/Managers/RequestManager.php:77-81 | the client gets options exactly when `$params` is truthy, and then the params themselves |
| Managers.Sent | src/Managers/RequestManager.php:47-82 | no request exactly when token, integration id or language is falsy; otherwise the verb, URL and headers, with options exactly when the params are truthy |
| Managers.Classify | src/Managers/RequestManager.php:83-94 | a response gives its body; a rejection with a response gives a `GigapayException` over that body; any other failure a plain `Exception` with its message |
| Managers.Response | src/Managers/RequestManager.php:47-95 | without configuration "Please set up .env file", otherwise the classified outcome |
| Managers.RejectedKeepsBody | src/Managers/RequestManager.php:83-86 | a rejected response throws a `GigapayException` holding the received body and its flattened message, or the PHP Error that flattening raises |
| Managers.OptionsAreForwarded | src/Managers/RequestManager.php:78-79 | the `form_params` and `json` options the resources pass are never empty, so they always reach the client |
| Managers.RequestManager.constructor | src/Managers/RequestManager.php:10-38 | a new manager has no settings and no client |
| Managers.RequestManager.SetUpClient | src/Managers/RequestManager.php:47-64 | copies the three settings, succeeds exactly when all are truthy, and only then installs a client with `Headers(cfg)` |
| Managers.RequestManager.Rethrow | src/Managers/RequestManager.php:83-86 | a rejection with a response becomes a `GigapayException` whose JSON is the body and whose message is the flattened one, or the PHP Error that flattening raises |
| Managers.RequestManager.Receive | src/Managers/RequestManager.php:76-94 | the outcome of the request is exactly the classified one: the body, a `GigapayException` over a received error body, or a plain `Exception` with the failure's message |
| Managers.RequestManager.Prepare | src/Managers/RequestManager.php:77-81 | the request carries the verb, the URL, the client's headers and `Options(params)` |
| Managers.RequestManager.GetData | src/Managers/RequestManager.php:74-95 | sends `Sent(cfg, verb, url, params)` and returns or throws `Response(cfg, outcome)` |
| Managers.Call | src/Managers/RequestManager.php:74-95 | a fresh manager's `getData`, as every resource calls it |
| Resources.StrPos | src/Resources/ListResource.php:78 | `strpos`: the first index holding the character, none when absent |
| Resources.SeparatorIsAmpersandIff | src/Resources/ListResource.php:78-82 | `&` is used exactly when the URL has a '?' and the first one is not at index 0 |
| Resources.WithFilter | src/Resources/ListResource.php:76-84 | a filter only ever extends the URL |
| Resources.FiltersOnQuery | src/Resources/ListResource.php:78-79 | once the URL has a query, every filter appends `&key=value` |
| Resources.FiltersOnPlainBase | src/Resources/ListResource.php:78-82 | on a non-empty base without '?', the first filter opens the query with '?' and the rest join with '&' |
| Resources.TwoFilters | src/Resources/ListResource.php:36-41 | two filters applied in turn equal the filter sequence of length two |
| Resources.PaginateOnPlainBase | src/Resources/ListResource.php:36-41 | `paginate(p, s)` on a plain base gives `base?page=p&page_size=s` |
| Resources.ListResource.constructor | src/Resources/ListResource.php:23-26 | stores the URL unchanged |
| Resources.ListResource.AddFilter | src/Resources/ListResource.php:76-84 | the URL becomes `WithFilter(old url, key, value)` and the same object is returned |
| Resources.ListResource.Paginate | src/Resources/ListResource.php:36-41 | `page`, then `page_size`, with defaults 1 and 10 |
| Resources.ListResource.Search | src/Resources/ListResource.php:49-53 | the filter `search` |
| Resources.ListResource.Expand | src/Resources/ListResource.php:62-66 | the filter `expand` |
| Resources.ListResource.GetJson | src/Resources/ListResource.php:91-98 | a GET on the accumulated URL, with no options |
| Endpoints.ItemUrl | src/Employee.php:234 | `<collection>/<id>`; an object id raises a PHP Error, before any request |
| Endpoints.ResendUrl | src/Employee.php:503 | the item URL followed by `/resend`, failing exactly when the item URL does |
| Endpoints.CallAt | src/Invoice.php:131-138 | no request when the URL cannot be built; otherwise the call on it |
| Endpoints.ItemUrlsExtendCollection | src/Payout.php:423-440 | item URLs extend `<collection>/`, and resend URLs extend item URLs |
| Endpoints.EndpointsDiffer | src/Payout.php:156-159 | the five collection URLs are pairwise distinct |
| Endpoints.InlineExtendsPayouts | src/Payout.php:167-170 | the inline-employee URL is the payouts URL with `/?expand=employee` |
| Employees.CreateParams | src/Employee.php:124-155 | "Either email or cellphone_number is required." exactly when both are falsy; otherwise the truthy arguments in the order id, name, email, country, cellphone_number, metadata |
| Employees.CreateParamsHoldTruthyArguments | src/Employee.php:137-154 | a `create` argument is sent exactly when it is truthy |
| Employees.NamedParams | src/Employee.php:180-200 | "Name is required." exactly when `name` is unset; otherwise each set field in key order |
| Employees.NamedParamsHoldSetFields | src/Employee.php:181-200 | a field of the array is sent exactly when it is set |
| Employees.CreateByArrayParams | src/Employee.php:174-211 | the contact check comes first, then the name check, each with its own message; success exactly when both pass, with the set fields |
| Employees.EmptyEmailIsSetButFalsy | src/Employee.php:133-178 | an empty email is refused by `create` and accepted by `createByArray` |
| Employees.Employee.constructor | src/Employee.php:87-100 | each of the ten fields is read from the JSON, null when missing |
| Employees.Employee.GetJson | src/Employee.php:527-545 | an object with the ten fields that the constructor reads back into the same fields |
| Employees.Employee.UpdateId | src/Employee.php:248-263 | a one-key PATCH to the old id's URL; only `id` changes, and only when the call returned |
| Employees.Employee.UpdateName | src/Employee.php:272-287 | likewise for `name` |
| Employees.Employee.UpdateEmail | src/Employee.php:296-311 | likewise for `email` |
| Employees.Employee.UpdateMetaDate | src/Employee.php:320-335 | sends the new metadata; `metadata` becomes the response's `metadata` |
| Employees.Employee.UpdateCountry | src/Employee.php:344-359 | likewise for `country` |
| Employees.Employee.UpdateCellphoneNumber | src/Employee.php:368-383 | likewise for `cellphone_number` |
| Employees.Employee.SaveParams | src/Employee.php:400-407 | all six editable fields, set or not, in fixed order |
| Employees.Employee.Save | src/Employee.php:392-413 | PATCHes the six fields; afterwards only `metadata` changes, to the response's |
| Employees.Employee.Replace | src/Employee.php:422-467 | the URL is built before the name check; a PUT of the set fields; every field becomes the answer's except `cellphone_number`, which keeps its value |
| Employees.Employee.Destroy | src/Employee.php:475-493 | a DELETE; then all ten fields are null |
| Employees.Employee.Resend | src/Employee.php:501-510 | a PATCH on `/employees/{id}/resend`, then `findById` |
| Employees.Employee.GetAllPayouts | src/Employee.php:517-520 | a payouts list filtered by `employee=<id>`; an object id raises a PHP Error |
| Employees.AllPayoutsQuery | src/Employee.php:517-520 | on a server URL without '?', that list's URL is `/payouts?employee=<id>` |
| Employees.Create | src/Employee.php:124-165 | nothing is sent when the check throws; otherwise a POST of the form params and a new Employee from the answer |
| Employees.CreateByArray | src/Employee.php:174-211 | the same for the array form |
| Employees.List | src/Employee.php:220-223 | a list over `/employees` |
| Employees.FindById | src/Employee.php:232-239 | a GET on `/employees/{id}` and a new Employee from the answer |
| Invoices.Invoice.constructor | src/Invoice.php:87-101 | each of the ten fields is read from the JSON |
| Invoices.Invoice.GetJson | src/Invoice.php:260-278 | an object with the ten fields that the constructor reads back |
| Invoices.Invoice.UpdateId | src/Invoice.php:147-162 | only `id` changes, and only when the call returned |
| Invoices.Invoice.UpdateMetaDate | src/Invoice.php:171-186 | sends the string; `metadata` becomes its decoded form |
| Invoices.Invoice.Save | src/Invoice.php:194-210 | PATCHes `id` and `metadata`; then `metadata` is decoded from its string form, and an object raises a PHP Error after the request |
| Invoices.Invoice.Destroy | src/Invoice.php:218-236 | a DELETE; then all ten fields are null |
| Invoices.Invoice.Resend | src/Invoice.php:244-253 | a PATCH on the payouts resend URL, then `findById` on the invoices |
| Invoices.ResendTargetsPayouts | src/Invoice.php:246 | that resend URL is `/payouts/{id}/resend` and lies outside `/invoices/` |
| Invoices.List | src/Invoice.php:119-122 | a list over `/invoices` |
| Invoices.FindById | src/Invoice.php:131-138 | a GET on `/invoices/{id}` |
| Payouts.CreateParams | src/Payout.php:188-233 | "Either amount, cost or invoiced_amount is required." exactly when all three are falsy; otherwise the truthy arguments in the order id, amount, cost, currency, description, employee, invoiced_amount, metadata, start_at, end_at |
| Payouts.CreateParamsHoldTruthyArguments | src/Payout.php:204-233 | a `create` argument is sent exactly when it is truthy |
| Payouts.InlineParams | src/Payout.php:261-290 | "Invoiced_amount is required." exactly when it is falsy; otherwise the truthy arguments, `invoiced_amount` always among them |
| Payouts.CreateByArrayParams | src/Payout.php:311-351 | the amount, description and employee checks in that order, each exactly when the earlier ones pass; success exactly when all three pass, with the set fields |
| Payouts.EntryError | src/Payout.php:376-388 | an entry is refused exactly when it lacks `employee`, `description` or every amount; the employee message exactly when `employee` is unset, the description message exactly when `employee` is set and `description` is not, the amount message exactly when both are set and every amount is unset |
| Payouts.FirstErrorIsFirst | src/Payout.php:375-389 | the validation fails exactly when some entry fails, and then with the first failing entry's message |
| Payouts.Validate | src/Payout.php:375-389 | the validation loop returns the first entry's error |
| Payouts.Payout.constructor | src/Payout.php:129-149 | each of the sixteen fields is read from the JSON |
| Payouts.Payout.GetJson | src/Payout.php:516-540 | an object with the sixteen fields that the constructor reads back |
| Payouts.Payout.Destroy | src/Payout.php:438-462 | a DELETE; then all sixteen fields are null |
| Payouts.Payout.Resend | src/Payout.php:470-479 | a PATCH on `/payouts/{id}/resend`, then `findById` |
| Payouts.Payout.ExpandInvoice | src/Payout.php:486-494 | "No invoice found" for a falsy invoice; otherwise the invoice is fetched and `invoice` becomes its JSON |
| Payouts.Payout.ExpandEmployee | src/Payout.php:501-509 | likewise for `employee` |
| Payouts.SecondExpansionFails | src/Payout.php:486-509 | an expanded field is an object, so expanding it again raises a PHP Error while building the URL |
| Payouts.Create | src/Payout.php:188-245 | nothing is sent when the check throws; otherwise a POST of the form params |
| Payouts.CreateInline | src/Payout.php:261-302 | a POST with a `json` body to the inline-employee URL |
| Payouts.CreateByArray | src/Payout.php:311-362 | the same for the array form |
| Payouts.CreateMultiple | src/Payout.php:372-403 | nothing is sent when an entry fails validation; otherwise a POST of all entries as `json`, and one new Payout per entry of the answer |
| Payouts.Instantiate | src/Payout.php:398-401 | one new Payout per entry, in order, each read from its entry |
| Payouts.List | src/Payout.php:411-414 | a list over `/payouts` |
| Payouts.FindById | src/Payout.php:423-430 | a GET on `/payouts/{id}` |
| Pricings.PricingParams | src/Pricing.php:161-201 | "Either cost or amount or invoiced_amount is required." exactly when all three are falsy; otherwise the truthy arguments in the order employee, currency, cost, amount, invoiced_amount, description, full_salary_specification, metadata, start_at, end_at, id, with `description` once |
| Pricings.DescriptionMergedOnce | src/Pricing.php:181-201 | the twelve guarded merges, `description` twice, equal the eleven distinct selected parameters |
| Pricings.PricingParamsHoldTruthyArguments | src/Pricing.php:166-201 | an argument is sent exactly when it is truthy |
| Pricings.Pricing.constructor | src/Pricing.php:80-93 | each of the nine fields is read from the JSON |
| Pricings.Pricing.GetJson | src/Pricing.php:219-236 | an object with the nine fields that the constructor reads back |
| Pricings.CalculatePricing | src/Pricing.php:148-212 | nothing is sent when the check throws; otherwise a POST of the form params to `/pricing` |
| Pricings.List | src/Pricing.php:111-114 | a list over `/pricing` |
| Pricings.FindById | src/Pricing.php:123-130 | a GET on `/pricing/{id}` |
| Webhooks.CreateParams | src/Webhook.php:92-108 | `id` if truthy, `url` whenever the endpoint string is truthy, then events, secret_key and metadata if truthy |
| Webhooks.CreateAlwaysSendsUrl | src/Webhook.php:92-99 | the endpoint is always truthy, so `url` is always sent, whatever the callback URL |
| Webhooks.CallbackAndEventOnly | src/Webhook.php:93-108 | with only a callback URL and a truthy event, exactly `url` and `events` are sent |
| Webhooks.CreateByArrayParams | src/Webhook.php:128-149 | "Url and events are required" exactly when either is unset; otherwise the set fields in key order |
| Webhooks.CreateByArrayHoldsSetFields | src/Webhook.php:134-149 | `url` and `events` are always sent, the others exactly when set |
| Webhooks.Webhook.constructor | src/Webhook.php:52-61 | each of the five fields is read from the JSON |
| Webhooks.Webhook.GetJson | src/Webhook.php:455-468 | an object with the five fields that the constructor reads back |
| Webhooks.Webhook.UpdateId | src/Webhook.php:197-212 | only `id` changes, and only when the call returned |
| Webhooks.Webhook.UpdateUrl | src/Webhook.php:221-236 | likewise for `url` |
| Webhooks.Webhook.UpdateEvent | src/Webhook.php:245-260 | sends the event; `events` becomes the one-element list holding it |
| Webhooks.Webhook.UpdateMetaDate | src/Webhook.php:269-284 | sends the string; `metadata` becomes its decoded form |
| Webhooks.Webhook.UpdateSecretKey | src/Webhook.php:293-308 | likewise for `secret_key` |
| Webhooks.Webhook.SaveParams | src/Webhook.php:325-331 | all five fields, set or not, `metadata` before `secret_key` |
| Webhooks.Webhook.Save | src/Webhook.php:317-337 | after the PATCH, `metadata` is decoded from its string form, where an object raises a PHP Error, and only then is `events` wrapped in one more list |
| Webhooks.Webhook.Destroy | src/Webhook.php:345-358 | a DELETE; then all five fields are null |
| Webhooks.Create | src/Webhook.php:85-119 | no check; a POST of `CreateParams` to `/webhooks` |
| Webhooks.CreateByArray | src/Webhook.php:128-160 | nothing is sent when the check throws; otherwise a POST of the set fields |
| Webhooks.List | src/Webhook.php:169-172 | a list over `/webhooks` |
| Webhooks.FindById | src/Webhook.php:181-188 | a GET on `/webhooks/{id}` |
| Webhooks.EventWebhookParams | src/Webhook.php:365-448 | once the route gives a callback URL, a `create<E>Webhook` helper sends exactly that URL, then the event name E |
| Webhooks.CreateEventWebhook | src/Webhook.php:365-448 | the nine helpers: when `route` throws for `mapping[E]` (null without a mapping entry), that exception and no request; otherwise a POST of those two parameters |
| Events.EventName | src/Events/EventFactory.php:23-47 | each event's Gigapay name, never falsy |
| Events.ResourceNamesEvent | src/Events/EventFactory.php:23-48 | the wrapped resource is the one the event name starts with |
| Events.Dispatch | src/Events/EventFactory.php:22-50 | the selected case matches the name |
| Events.Create | src/Events/EventFactory.php:20-51 | null exactly when the switch selects no case; otherwise the selected event wrapping the payload's fields |
| Events.FirstMatchWins | src/Events/EventFactory.php:22-49 | the factory gives event `k` exactly when `k` matches and no earlier case does |
| Events.UnmatchedIsNull | src/Events/EventFactory.php:50-51 | the factory returns null exactly when no case matches |
| Events.CallbackNameSelectsEvent | src/Events/EventFactory.php:22-49 | when the mapping gives every event a name of its own, the callback name `mapping[E]` yields event E |
| Events.WithoutMapping | src/Events/EventFactory.php:23-49 | with no mapping, only the empty name yields an event, always `EmployeeCreated` |
| Php.AssembleSelects | src/Employee.php:136-154 | with distinct names, the guarded `array_merge` sequence equals the candidates that pass the test, in order |
| Php.MergeRepeat | src/Pricing.php:196-198 | merging a present candidate again does not change the parameters |
| Php.Merge | src/Payout.php:204-206 | `array_merge` with one string key overwrites where the key stands, otherwise appends |

## Left out

- The Guzzle client, the network and response bytes are left out. The call is an `Outcome`, and the body is already decoded.
- The internals of `json_decode` and `json_encode` are left out. A metadata string is decoded by the parameter `decode`. The round trip through `getJson` is modelled on decoded values as an object read back by the constructor.
- The internals of `config()`, `env()`, `route()` and `event()` are left out. They are parameters: a `Config` record, a mapping and a route function. Firing the event is left out.
- Floating-point amounts are not modelled because values carry integers only.
- PHP array key normalisation is not modelled: numeric-string keys in `array_merge` and integer keys of arrays passed by callers. Every key the library merges is a fixed non-numeric name.
- `src/Console/Commands/WebhookCommand.php` is console output only. Its exit code is 0 even on error.
- `src/Http/Controllers/WebhookController.php`, `src/routes/web.php` and `src/GigapayServiceProvider.php` are framework wiring only.
- Events.Wrap: the `$payload` of `EventFactory::createEvent` is an `Illuminate\Http\Request`, whose `->field` reads the request input and falls back to route parameters. The model takes the payload as an already decoded object and reads its properties.
- Webhooks.CreateEventWebhook: whether Laravel's URL generator throws for a null `{event}` part is the `route` parameter's business; the model only promises that a throwing route sends nothing.
- `src/Events/WebhookEvent.php` and the nine event classes are trivial holders. An event is a (kind, resource type, resource fields) value instead.
- Events.Matches: compares the name with the mapped string by string equality. PHP 8's loose `==` also equates numeric strings such as "1e1" and "10"; that case is not modelled.
- Exceptions.GigapayException.constructor: requires that the message converts. When the flattened message is an array or object, or flattening itself raises a PHP Error, the engine error is modelled by `Managers.Classify` and `Exceptions.ExceptionMessage` instead.
- Resources.ListResource.AddFilter: key and value are strings. Concatenating an array or object in PHP ("Array", or a PHP Error) is not modelled.
- Resources.ListResource.Paginate: page and page size are integers converted with their decimal form. Other PHP values are not accepted.
- Invoices.Invoice.UpdateMetaDate: the new metadata is a string, as `json_decode` requires. A non-string argument is not modelled.
- Webhooks.Webhook.UpdateMetaDate: the same restriction.
- Payouts.CreateMultiple: the payouts are an array of entries. For an entry that is an object, PHP's `isset($payout['employee'])` raises the Error "Cannot use object of type stdClass as array"; the model does not raise it and instead refuses the entry with "employee field is required.", as it does for any other entry without keys.
