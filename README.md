# Product inventory handler: a Dafny model

This project models the request handler of a small product-inventory service.
An API Gateway event carries an HTTP method and path. The handler routes the
event to one of five operations on a DynamoDB table of products keyed by
`productId`: get one, get all (a paginated scan), create, update one attribute,
and delete. It then wraps the result in a JSON response envelope. Any failure
of a store call is caught and reported as a 500 with a fixed message.

Modules, one per component:

- `Json` (`json.dfy`): an abstract JSON value, standing for request and response bodies.
- `Wrappers` (`wrappers.dfy`): `Option` (Python's `None`) and `Result`, the success-or-failure type of every store call.
- `UpdateExpression` (`update_expression.dfy`): the expression `set <updateKey> = :value` that the update handler builds, and how the store reads it back.
- `Store` (`store.dfy`): the table. The pure functions `Get`, `Put`, `Update` and `Delete` give the store's semantics on a `map<Key, Item>`. The class `Table` holds that map in a field, `items`, and its methods make the four calls. Each call is given a `fault`: the environment's choice of whether the service fails. A failed call changes nothing.
- `Store.UpdateRules` holds what the model leaves to the store about updates: whether an update of an absent key creates the record, the set of reserved words, and how the store reads any expression other than one plain assignment `set <name> = :<name>`. The model itself applies a plain assignment. For every other expression, the store's own reading decides the result.
- `Scan` (`scan.dfy`): a scan is a supplied sequence of replies, one per `scan` call. Each reply is a page (`Items` plus an optional `LastEvaluatedKey`) or a failure. This module also holds the specification of what the whole scan yields.
- `Responses` (`responses.dfy`): `buildResponse`.
- `Handlers` (`handlers.dfy`): the five handlers, written as methods. Beside each is a specification function of the table contents, and lemmas give the properties of those functions.
- `Router` (`router.dfy`): `Route`, the exact-match dispatch, and `LambdaHandler`, proved against `Handle`, its specification.

Three behaviours of the code worth noting:

- Deleting a missing key answers 200 with `"deletedItem": null`. `response.get("Attributes")` is `None`, which serialises as `null`, so the field is present, not absent.
- A request for one of the five routes whose fields cannot be extracted does not give 404. The source raises an uncaught exception. The model makes those fields a precondition, `Router.Extractable`.
- An update of a missing key is not decided by the handler, which makes no existence check. In the model it is the parameter `UpdateRules.createMissing`. With it set, the store creates the record, as DynamoDB's `UpdateItem` does. With it clear, the store raises, and the handler answers 500.

## Model

| member | source | states |
|---|---|---|
| Router.Route | lambda/lambda_function.py:32-45 | Each of the five operations is chosen if and only if its exact (method, path) pair is given: GET /product, GET /products, POST /product, PATCH /product, DELETE /product. |
| Router.LambdaHandler | lambda/lambda_function.py:23-47 | One invocation gives the response and the new table contents that `Handle` specifies. The table stays consistent. |
| Router.UnroutedIsNotFound | lambda/lambda_function.py:44-45 | Every (method, path) pair outside the five gets status 404 with body "Not Found". The table is left unchanged. |
| Router.ReadsLeaveTableUnchanged | lambda/lambda_function.py:32-35 | Get-one, get-all and unrouted requests never change the table. |
| Router.HandleKeepsConsistent | lambda/lambda_function.py:32-45 | After any invocation, every record is still stored under its own `productId`. |
| Responses.BuildResponse | lambda/lambda_function.py:132-145 | The status code is kept as given. The headers are exactly `Content-Type: application/json` and `Access-Control-Allow-Origin: *`. A body is present if and only if one was supplied other than `null` (Python's `None`), and it is that value. |
| Handlers.GetProduct | lambda/lambda_function.py:49-61 | The store is not changed. The response is 200 with exactly the stored record if the key is present, and 404 with `{"Message": "ProductId: <id> not found"}` if it is absent. The empty id, which the store refuses, and any store failure give 500 "Error getting product". |
| Handlers.GetProductFindsRequestedRecord | lambda/lambda_function.py:52-56 | A 200 from get-one carries the requested id as its `productId`. |
| Handlers.EmptyProductIdFails | lambda/lambda_function.py:49-130 | The empty string as `productId` makes get-one, update and delete answer with their 500 messages, and the table is unchanged. |
| Handlers.GetProducts | lambda/lambda_function.py:63-80 | The response is 200 with `{"products": ...}` holding what the whole scan yields, or 500 "Error getting products". The first scan call has no start key. Each later call passes the previous page's `LastEvaluatedKey`. The number of calls is `ScanCalls`. |
| Handlers.GetProductsReturnsEveryPage | lambda/lambda_function.py:63-77 | The products are every page's `Items`, concatenated in scan order, up to the first page without a `LastEvaluatedKey`. If the scan's last reply is a failure, the response is 500. |
| Handlers.ThreeRoundScan | lambda/lambda_function.py:66-72 | A table paged over three rounds takes exactly three scan calls and returns the three pages' records in order. |
| Handlers.SaveProduct | lambda/lambda_function.py:82-94 | The put is made with the submitted object. The new table and the response are as `SaveProductOutcome` specifies. |
| Handlers.SaveProductOverwrites | lambda/lambda_function.py:82-91 | There is no existence check. The key now maps to exactly the submitted object, whatever it held before, and no other key changes. The response is 200 `{"Operation": "SAVE", "Message": "SUCCESS", "Item": <submitted object>}`. |
| Handlers.GetProductAfterSave | lambda/lambda_function.py:82-91 | Get-one after a save returns 200 with exactly the submitted object. |
| Handlers.SaveProductWithoutKeyFails | lambda/lambda_function.py:84-94 | A body without a non-empty string `productId` is refused by the store. The response is 500 "Error saving product" and the table is unchanged. |
| Handlers.ModifyProduct | lambda/lambda_function.py:96-113 | The update is made with `"set " + updateKey + " = :value"` and `:value` bound to `updateValue`. The new table and the response are as `ModifyProductOutcome` specifies. |
| Handlers.ModifyProductSetsOneAttribute | lambda/lambda_function.py:99-110 | For a plain, non-reserved, non-key attribute of a present record, only that one attribute of that one key changes. The response is 200 `{"Operation": "UPDATE", "Message": "SUCCESS", "UpdatedAttributes": {updateKey: updateValue}}`. |
| Handlers.ModifyProductSendsKeyVerbatim | lambda/lambda_function.py:99-113 | An `updateKey` that is not a plain name is spliced unescaped: the store receives `"set " + updateKey + " = :value"` verbatim. Its reading of that text decides the result: 200 with the attributes it reports, or 500 with the table unchanged. |
| Handlers.InjectedKeySetsTwoAttributes | lambda/lambda_function.py:101-110 | With an `updateKey` such as `price = :value, stock`, a store that reads the spliced text as two assignments changes both attributes, and the handler answers 200 reporting both. |
| Handlers.ModifyProductReservedWordFails | lambda/lambda_function.py:99-113 | An update of an attribute whose name is a reserved word gives 500 "Error modifying product", and the table is unchanged. |
| Handlers.DeleteProduct | lambda/lambda_function.py:115-130 | The delete is made with `ReturnValues="ALL_OLD"`. The new table and the response are as `DeleteProductOutcome` specifies. |
| Handlers.DeleteProductReturnsPrior | lambda/lambda_function.py:118-127 | The key is removed and every other key is unchanged. The response is 200 with `deletedItem` equal to the prior record, or null if the key was absent, so a missing key still gets 200. |
| Handlers.GetProductAfterDelete | lambda/lambda_function.py:115-127 | Get-one after a delete answers 404 naming the id. |
| Handlers.StoreFailureIsOpaque | lambda/lambda_function.py:59-130 | A store failure gives each operation's fixed 500 message: "Error getting product", "Error getting products", "Error saving product", "Error modifying product" or "Error deleting product". The table is unchanged, and the response does not depend on the failure. |
| Store.Table.GetItem | lambda/lambda_function.py:52-54 | `get_item` answers with the stored record or `None`, unless the call fails. |
| Store.Table.PutItem | lambda/lambda_function.py:85 | `put_item` writes the record under its key, or fails and changes nothing. |
| Store.Table.UpdateItem | lambda/lambda_function.py:99-104 | `update_item` applies `Update` and returns the updated attributes, or fails and changes nothing. |
| Store.Table.DeleteItem | lambda/lambda_function.py:118-121 | `delete_item` removes the key and returns the prior record, or fails and changes nothing. |
| Store.PutStoresItem | lambda/lambda_function.py:85 | A put stores the submitted attributes under their key and leaves every other key as it was. |
| Store.PutFailsOnlyWithoutKey | lambda/lambda_function.py:85 | A put fails exactly when the item is not an object with a non-empty string `productId`. |
| Store.EmptyKeyRefused | lambda/lambda_function.py:52-121 | Get, put, update and delete all refuse the empty string as a key. |
| Store.GetAfterPut | lambda/lambda_function.py:52-56 | Reading a key just put returns exactly what was put. |
| Store.GetAfterDelete | lambda/lambda_function.py:118-121 | Reading a key just deleted finds nothing. |
| Store.UpdateSetsOneAttribute | lambda/lambda_function.py:99-104 | An update built from a plain, non-reserved, non-key name sets that attribute and keeps every other attribute and record. It reports only the new value. In create mode it also works on an absent key. |
| Store.UpdateReservedWordFails | lambda/lambda_function.py:101 | An assignment to a reserved word is refused. |
| Store.UpdateOtherExpression | lambda/lambda_function.py:99-104 | Any other expression is read by the store's own interpretation, which decides the result. Still only the record under the request's key can change, and it keeps its key attribute. |
| Store.UpdateMissingKeyFails | lambda/lambda_function.py:99-104 | When the store does not create missing records, a plain assignment to an absent key fails. |
| Store.DeleteReturnsPrior | lambda/lambda_function.py:118-125 | A delete returns the prior record, or `None`, and removes only that key. |
| Store.PutKeepsConsistent | lambda/lambda_function.py:85 | A put keeps every record under its own key. |
| Store.UpdateKeepsConsistent | lambda/lambda_function.py:99-104 | An update keeps every record under its own key. |
| Store.DeleteKeepsConsistent | lambda/lambda_function.py:118-121 | A delete keeps every record under its own key. |
| UpdateExpression.ParseSetExpression | lambda/lambda_function.py:101-102 | The expression `set <updateKey> = :value` is read as the single plain assignment "set updateKey from `:value`" if and only if `updateKey` is a plain attribute name. Any other key is left to the store's own reading. |
| Scan.ScanCallsStopAtFirstEnd | lambda/lambda_function.py:66-72 | Scan calls stop at the first reply that is a failure or a page without a `LastEvaluatedKey`. Every earlier reply is a page with one. The number of calls is one plus the number of pages read that carried a `LastEvaluatedKey`. |
| Scan.ScanAllIsConcatenation | lambda/lambda_function.py:66-72 | The scan yields the concatenation, in order, of the `Items` of every page read. If the last reply read is a failure, the scan fails with that error. |
| Scan.ConcatAppend | lambda/lambda_function.py:72 | Extending the result with one more page appends that page's `Items`. |

## Left out

- Creating the boto3 resource and `Table("product-inventory")`: a `Table` object is constructed with its initial contents instead.
- Logging (`logger.info`, `logger.exception`): side effects only.
- JSON text: `json.loads` of the request body and `json.dumps` of the response body are library calls. Bodies are the abstract `Json.Value`, and the response holds the value that would be serialised.
- `CustomEncoder` (Decimal to float): floating-point conversion. `Json.Number` holds an exact rational.
- Extraction failures (a missing `httpMethod`, `path`, `queryStringParameters`, `productId`, `updateKey`, `updateValue` or `body`, or a body that is not a JSON object where one is indexed): the source raises uncaught. These are the preconditions `Router.Extractable`.
- Router.Extractable: also requires `updateKey` to be a string, because Python's `str.format` rendering of other JSON values is not modelled.
- The Lambda `context` argument: unused.
- Scan contents: how the store sizes pages, and how page contents relate to `Table.items`, are the store's affair. The replies are a model input.
- Router.LambdaHandler: requires the scan replies to reach a page without a `LastEvaluatedKey` or a failure (`ScanEnds`). A store that returned continuation keys forever would keep the source looping, and that is not modelled.
- Store.Update: applies only an expression of the form `set <name> = :<name>`. Here a name is a letter or underscore followed by letters, digits or underscores. Every other expression (several clauses, nested paths such as `a.b`, `#n` names, other actions) is passed to `UpdateRules.otherwise`, which is left unconstrained. The model proves only that such an update changes just the record under the request's key and keeps its key attribute. What DynamoDB's expression grammar does with the text is not modelled.
- Store.Update: DynamoDB's list of reserved words is not enumerated. It is the parameter `UpdateRules.reserved`: a plain name in that set is refused, and any name outside it is accepted. So `ModifyProductSetsOneAttribute` gives 200 for a name such as `name` or `status` only under rules whose `reserved` set leaves it out, while the real store would refuse it.
- Store.Put: accepts any `Json.Number`, while boto3 refuses Python floats with a `TypeError` (caught, so 500). So in the model a body with a price of 9.99 is saved with 200, where the source answers 500 "Error saving product".
- Store.Update: accepts any `Json.Number` as `updateValue`, for the same reason. A float `updateValue` gets 200 in the model and 500 "Error modifying product" from the source.
- Store.Put: DynamoDB's other validations (empty sets, item size limits) are not modelled. Non-string and empty-string keys are refused by every call.
- Store.WithFault: a fault is an atomic no-op, because the model's call either takes full effect or fails with nothing changed. So `StoreFailureIsOpaque`'s "table unchanged" does not cover a call that the service applied but whose answer never arrived, such as a client-side timeout after a write.
- Store.Update: DynamoDB's limits on values are not modelled. Numbers beyond 38 significant digits and items over the size limit are accepted by the model's `Update` and `Put`, while the real store refuses them (caught, so 500).
- `ReturnValues` (`UPDATED_NEW`, `ALL_OLD`): fixed in what `Update` and `Delete` return rather than passed as values.
- The failure detail raised by a failing call is only ever logged. The model keeps it in `StoreError`, and the responses are proved not to depend on it.
