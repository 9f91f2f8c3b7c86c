/**
 * The five operation handlers. Each makes its store call(s), shapes the result
 * into a response, and turns any store failure into a 500 response with a
 * fixed message that says nothing about the failure.
 */
module Handlers {
  import opened Wrappers
  import opened Json
  import opened Store
  import opened Scan
  import opened UpdateExpression
  import opened Responses

  const GetProductFailed := "Error getting product"
  const GetProductsFailed := "Error getting products"
  const SaveProductFailed := "Error saving product"
  const ModifyProductFailed := "Error modifying product"
  const DeleteProductFailed := "Error deleting product"

  /** A handler's response together with the table contents it leaves behind. */
  datatype Outcome = Outcome(response: Response, items: Items)

  function NotFoundBody(productId: string): Value {
    Object(map["Message" := Str("ProductId: " + productId + " not found")])
  }

  function ProductsBody(products: seq<Item>): Value {
    Object(map["products" := Array(seq(|products|, i requires 0 <= i < |products| => Object(products[i])))])
  }

  function SaveBody(requestBody: Value): Value {
    Object(map["Operation" := Str("SAVE"), "Message" := Str("SUCCESS"), "Item" := requestBody])
  }

  function UpdateBody(attributes: Item): Value {
    Object(map["Operation" := Str("UPDATE"), "Message" := Str("SUCCESS"), "UpdatedAttributes" := Object(attributes)])
  }

  /** `response.get("Attributes")`: `None` serialises as JSON `null`. */
  function DeleteBody(prior: Option<Item>): Value {
    Object(map["Operation" := Str("DELETE"), "Message" := Str("SUCCESS"),
               "deletedItem" := if prior.Some? then Object(prior.value) else Null])
  }

  // Specifications of the handlers as functions of the table contents.

  function GetProductResponse(items: Items, productId: string, fault: Option<StoreError>): Response {
    match WithFault(fault, Get(items, Str(productId)))
    case Failure(_) => ErrorResponse(GetProductFailed)
    case Ok(found) =>
      if found.Some? then BuildResponse(200, Some(Object(found.value)))
      else BuildResponse(404, Some(NotFoundBody(productId)))
  }

  function GetProductsResponse(scan: Result<seq<Item>, StoreError>): Response {
    match scan
    case Failure(_) => ErrorResponse(GetProductsFailed)
    case Ok(products) => BuildResponse(200, Some(ProductsBody(products)))
  }

  function SaveProductOutcome(items: Items, requestBody: Value, fault: Option<StoreError>): Outcome {
    match WithFault(fault, Put(items, requestBody))
    case Failure(_) => Outcome(ErrorResponse(SaveProductFailed), items)
    case Ok(s) => Outcome(BuildResponse(200, Some(SaveBody(requestBody))), s)
  }

  function ModifyProductOutcome(items: Items, rules: UpdateRules, productId: Value, updateKey: string,
                                updateValue: Value, fault: Option<StoreError>): Outcome
  {
    match WithFault<(Items, Item)>(fault, Update(items, rules, productId, SetExpression(updateKey),
                                                 map[ValuePlaceholder := updateValue]))
    case Failure(_) => Outcome(ErrorResponse(ModifyProductFailed), items)
    case Ok((s, attributes)) => Outcome(BuildResponse(200, Some(UpdateBody(attributes))), s)
  }

  function DeleteProductOutcome(items: Items, productId: Value, fault: Option<StoreError>): Outcome {
    match WithFault<(Items, Option<Item>)>(fault, Delete(items, productId))
    case Failure(_) => Outcome(ErrorResponse(DeleteProductFailed), items)
    case Ok((s, prior)) => Outcome(BuildResponse(200, Some(DeleteBody(prior))), s)
  }

  // The handlers.

  /** `getProduct(productId)`: the stored record, 404 naming the id, or 500. */
  method GetProduct(table: Table, productId: string, fault: Option<StoreError>) returns (resp: Response)
    requires table.Valid()
    ensures resp == GetProductResponse(table.items, productId, fault)
    ensures fault.Some? ==> resp == ErrorResponse(GetProductFailed)
    ensures fault.None? && productId in table.items ==> resp == BuildResponse(200, Some(Object(table.items[productId])))
    ensures fault.None? && productId !in table.items && productId != ""
            ==> resp == BuildResponse(404, Some(NotFoundBody(productId)))
    ensures fault.None? && productId == "" ==> resp == ErrorResponse(GetProductFailed)
  {
    var r := table.GetItem(Str(productId), fault);
    match r
    case Failure(_) =>
      resp := ErrorResponse(GetProductFailed);
    case Ok(found) =>
      if found.Some? {
        resp := BuildResponse(200, Some(Object(found.value)));
      } else {
        resp := BuildResponse(404, Some(NotFoundBody(productId)));
      }
  }

  /**
   * `getProducts()`: scans until a page comes back without `LastEvaluatedKey`,
   * extending the result with each page's records. `startKeys` records the
   * `ExclusiveStartKey` of every scan call made, in order.
   */
  method GetProducts(replies: seq<ScanReply>) returns (resp: Response, startKeys: seq<Option<Item>>)
    requires Terminates(replies)
    ensures resp == GetProductsResponse(ScanAll(replies))
    ensures |startKeys| == ScanCalls(replies)
    ensures startKeys[0] == None
    ensures forall j :: 0 < j < |startKeys| ==>
              replies[j - 1].Ok? && replies[j - 1].value.lastEvaluatedKey.Some? &&
              startKeys[j] == replies[j - 1].value.lastEvaluatedKey
  {
    ScanCallsStopAtFirstEnd(replies);
    ScanAllIsConcatenation(replies);
    var i := 0;
    startKeys := [None];
    var response := replies[0];
    if response.Failure? {
      return ErrorResponse(GetProductsFailed), startKeys;
    }
    var result := response.value.items;
    assert replies[..1] == [] + [replies[0]];
    ConcatAppend([], replies[0]);
    while response.value.lastEvaluatedKey.Some?
      invariant 0 <= i < |replies| && response == replies[i] && response.Ok?
      invariant forall j :: 0 <= j < i ==> !Ends(replies[j])
      invariant result == Concat(replies[..i + 1])
      invariant |startKeys| == i + 1 && startKeys[0] == None
      invariant forall j :: 0 < j <= i ==>
                  replies[j - 1].Ok? && replies[j - 1].value.lastEvaluatedKey.Some? &&
                  startKeys[j] == replies[j - 1].value.lastEvaluatedKey
      decreases |replies| - i
    {
      var start := response.value.lastEvaluatedKey;
      assert !Ends(replies[i]);
      i := i + 1;
      response := replies[i];
      startKeys := startKeys + [start];
      if response.Failure? {
        return ErrorResponse(GetProductsFailed), startKeys;
      }
      assert replies[..i + 1] == replies[..i] + [replies[i]];
      ConcatAppend(replies[..i], replies[i]);
      result := result + response.value.items;
    }
    resp := GetProductsResponse(Ok(result));
  }

  /** `saveProduct(requestBody)`: an unconditional put, echoing the submitted object. */
  method SaveProduct(table: Table, requestBody: Value, fault: Option<StoreError>) returns (resp: Response)
    requires table.Valid()
    modifies table
    ensures table.Valid()
    ensures Outcome(resp, table.items) == SaveProductOutcome(old(table.items), requestBody, fault)
  {
    var error := table.PutItem(requestBody, fault);
    if error.Some? {
      resp := ErrorResponse(SaveProductFailed);
    } else {
      resp := BuildResponse(200, Some(SaveBody(requestBody)));
    }
  }

  /** `modifyProduct(productId, updateKey, updateValue)`: sets one attribute, reporting its new value. */
  method ModifyProduct(table: Table, productId: Value, updateKey: string, updateValue: Value, fault: Option<StoreError>)
    returns (resp: Response)
    requires table.Valid()
    modifies table
    ensures table.Valid()
    ensures Outcome(resp, table.items)
         == ModifyProductOutcome(old(table.items), table.rules, productId, updateKey, updateValue, fault)
  {
    var r := table.UpdateItem(productId, SetExpression(updateKey), map[ValuePlaceholder := updateValue], fault);
    match r
    case Failure(_) =>
      resp := ErrorResponse(ModifyProductFailed);
    case Ok(attributes) =>
      resp := BuildResponse(200, Some(UpdateBody(attributes)));
  }

  /** `deleteProduct(productId)`: removes the key, reporting what it held. */
  method DeleteProduct(table: Table, productId: Value, fault: Option<StoreError>) returns (resp: Response)
    requires table.Valid()
    modifies table
    ensures table.Valid()
    ensures Outcome(resp, table.items) == DeleteProductOutcome(old(table.items), productId, fault)
  {
    var r := table.DeleteItem(productId, fault);
    match r
    case Failure(_) =>
      resp := ErrorResponse(DeleteProductFailed);
    case Ok(prior) =>
      resp := BuildResponse(200, Some(DeleteBody(prior)));
  }

  // Properties of the handlers.

  /**
   * Get-all answers 200 with every page's records, concatenated in scan order,
   * when the last reply it reads is a page; otherwise 500.
   */
  lemma GetProductsReturnsEveryPage(replies: seq<ScanReply>)
    requires Terminates(replies)
    ensures var n := ScanCalls(replies);
      GetProductsResponse(ScanAll(replies))
        == if replies[n - 1].Failure? then ErrorResponse(GetProductsFailed)
           else BuildResponse(200, Some(ProductsBody(Concat(replies[..n]))))
  {
    ScanAllIsConcatenation(replies);
  }

  /**
   * Create performs no existence check: whatever the key held before, it now
   * holds exactly the submitted record, no other key changes, and the
   * response echoes the submitted object.
   */
  lemma SaveProductOverwrites(items: Items, requestBody: Value, k: Key)
    requires k != ""
    requires requestBody.Object? && KeyAttribute in requestBody.fields && requestBody.fields[KeyAttribute] == Str(k)
    ensures var o := SaveProductOutcome(items, requestBody, None);
      && o.response == BuildResponse(200, Some(SaveBody(requestBody)))
      && o.items == items[k := requestBody.fields]
  {
  }

  /** A saved record is what get-one then returns, unchanged. */
  lemma GetProductAfterSave(items: Items, requestBody: Value, k: Key)
    requires k != ""
    requires requestBody.Object? && KeyAttribute in requestBody.fields && requestBody.fields[KeyAttribute] == Str(k)
    ensures GetProductResponse(SaveProductOutcome(items, requestBody, None).items, k, None)
         == BuildResponse(200, Some(requestBody))
  {
  }

  /**
   * A save whose body has no non-empty string `productId` is refused by the
   * store and reported as a 500; the table is unchanged.
   */
  lemma SaveProductWithoutKeyFails(items: Items, requestBody: Value)
    requires !(requestBody.Object? && KeyAttribute in requestBody.fields && requestBody.fields[KeyAttribute].Str?
               && requestBody.fields[KeyAttribute].s != "")
    ensures SaveProductOutcome(items, requestBody, None) == Outcome(ErrorResponse(SaveProductFailed), items)
  {
  }

  /**
   * An update of a plain, non-reserved, non-key attribute changes exactly that
   * attribute of that record, and answers 200 with the attribute's new value.
   */
  lemma ModifyProductSetsOneAttribute(items: Items, rules: UpdateRules, k: Key, updateKey: string, updateValue: Value)
    requires IsName(updateKey) && updateKey != KeyAttribute && updateKey !in rules.reserved
    requires k != "" && k in items
    ensures var o := ModifyProductOutcome(items, rules, Str(k), updateKey, updateValue, None);
      && o.response == BuildResponse(200, Some(UpdateBody(map[updateKey := updateValue])))
      && o.items == items[k := items[k][updateKey := updateValue]]
  {
    ParseSetExpression(updateKey);
  }

  /** An update of an attribute whose name is a reserved word is refused: 500, table unchanged. */
  lemma ModifyProductReservedWordFails(items: Items, rules: UpdateRules, productId: Value, updateKey: string, updateValue: Value)
    requires IsName(updateKey) && updateKey in rules.reserved
    ensures ModifyProductOutcome(items, rules, productId, updateKey, updateValue, None)
         == Outcome(ErrorResponse(ModifyProductFailed), items)
  {
    ParseSetExpression(updateKey);
  }

  /**
   * The handler splices `updateKey` into the expression unescaped. When the key
   * is not a plain name, the store receives `"set " + updateKey + " = :value"`
   * verbatim, and its own reading of that text decides the answer.
   */
  lemma ModifyProductSendsKeyVerbatim(items: Items, rules: UpdateRules, k: Key, updateKey: string, updateValue: Value)
    requires k != "" && !IsName(updateKey)
    ensures var answer := rules.otherwise(if k in items then Some(items[k]) else None,
                                          "set " + updateKey + " = :value", map[":value" := updateValue]);
      ModifyProductOutcome(items, rules, Str(k), updateKey, updateValue, None)
        == if answer.Failure? then Outcome(ErrorResponse(ModifyProductFailed), items)
           else Outcome(BuildResponse(200, Some(UpdateBody(answer.value.1))),
                        items[k := answer.value.0[KeyAttribute := Str(k)]])
  {
    assert SetExpression(updateKey) == "set " + updateKey + " = :value";
    ParseSetExpression(updateKey);
    UpdateOtherExpression(items, rules, k, SetExpression(updateKey), map[ValuePlaceholder := updateValue]);
  }

  /**
   * An update key such as `price = :value, stock` is spliced whole into the
   * expression. A store that reads the result as two assignments makes one
   * request change two attributes, and the handler reports both with 200.
   */
  lemma InjectedKeySetsTwoAttributes(items: Items, rules: UpdateRules, k: Key, first: string, second: string, v: Value)
    requires k != "" && k in items
    requires first != KeyAttribute && second != KeyAttribute
    requires rules.otherwise(Some(items[k]), "set " + first + " = :value, " + second + " = :value", map[":value" := v])
          == Ok((items[k][first := v][second := v], map[first := v, second := v]))
    ensures var o := ModifyProductOutcome(items, rules, Str(k), first + " = :value, " + second, v, None);
      && o.response == BuildResponse(200, Some(UpdateBody(map[first := v, second := v])))
      && first in o.items[k] && o.items[k][first] == v
      && second in o.items[k] && o.items[k][second] == v
  {
    var key := first + " = :value, " + second;
    assert key[|first|] == ' ';
    assert "set " + key + " = :value" == "set " + first + " = :value, " + second + " = :value";
    ModifyProductSendsKeyVerbatim(items, rules, k, key, v);
  }

  /**
   * Delete answers 200 whether or not the key was present, with the prior
   * record (or null) as `deletedItem`, and removes only that key.
   */
  lemma DeleteProductReturnsPrior(items: Items, k: Key)
    requires k != ""
    ensures var o := DeleteProductOutcome(items, Str(k), None);
      && o.response == BuildResponse(200, Some(DeleteBody(if k in items then Some(items[k]) else None)))
      && o.items == items - {k}
  {
  }

  /** After a delete, get-one reports the id as not found. */
  lemma GetProductAfterDelete(items: Items, k: Key)
    requires k != ""
    ensures GetProductResponse(DeleteProductOutcome(items, Str(k), None).items, k, None)
         == BuildResponse(404, Some(NotFoundBody(k)))
  {
  }

  /**
   * A store failure gives each operation its fixed 500 message, leaves the
   * table unchanged, and the response is the same whatever the failure was.
   */
  lemma StoreFailureIsOpaque(items: Items, rules: UpdateRules, e: StoreError, productId: string, id: Value,
                             requestBody: Value, updateKey: string, updateValue: Value)
    ensures GetProductResponse(items, productId, Some(e)) == ErrorResponse(GetProductFailed)
    ensures GetProductsResponse(Failure(e)) == ErrorResponse(GetProductsFailed)
    ensures SaveProductOutcome(items, requestBody, Some(e)) == Outcome(ErrorResponse(SaveProductFailed), items)
    ensures ModifyProductOutcome(items, rules, id, updateKey, updateValue, Some(e))
         == Outcome(ErrorResponse(ModifyProductFailed), items)
    ensures DeleteProductOutcome(items, id, Some(e)) == Outcome(ErrorResponse(DeleteProductFailed), items)
  {
  }

  /** The empty string is never a usable id: get-one, update and delete answer 500 and change nothing. */
  lemma EmptyProductIdFails(items: Items, rules: UpdateRules, updateKey: string, updateValue: Value)
    ensures GetProductResponse(items, "", None) == ErrorResponse(GetProductFailed)
    ensures ModifyProductOutcome(items, rules, Str(""), updateKey, updateValue, None)
         == Outcome(ErrorResponse(ModifyProductFailed), items)
    ensures DeleteProductOutcome(items, Str(""), None) == Outcome(ErrorResponse(DeleteProductFailed), items)
  {
  }

  /** On a consistent table, a 200 from get-one carries the requested id as its `productId`. */
  lemma GetProductFindsRequestedRecord(items: Items, productId: string, fault: Option<StoreError>)
    requires Consistent(items)
    requires GetProductResponse(items, productId, fault).statusCode == 200
    ensures var body := GetProductResponse(items, productId, fault).body;
      body.Some? && body.value.Object? && KeyAttribute in body.value.fields
      && body.value.fields[KeyAttribute] == Str(productId)
  {
  }

  /** A table paged over three rounds: three scan calls, and all three pages' records in order. */
  lemma ThreeRoundScan(a: seq<Item>, b: seq<Item>, c: seq<Item>, k1: Item, k2: Item)
    ensures var replies := [Ok(Page(a, Some(k1))), Ok(Page(b, Some(k2))), Ok(Page(c, None))];
      && Terminates(replies)
      && ScanCalls(replies) == 3
      && GetProductsResponse(ScanAll(replies)) == BuildResponse(200, Some(ProductsBody(a + b + c)))
  {
    var replies: seq<ScanReply> := [Ok(Page(a, Some(k1))), Ok(Page(b, Some(k2))), Ok(Page(c, None))];
    assert replies[1..] == [Ok(Page(b, Some(k2))), Ok(Page(c, None))];
    assert replies[1..][1..] == [Ok(Page(c, None))];
    assert ScanAll(replies[1..][1..]) == Ok(c);
    assert ScanAll(replies[1..]) == Ok(b + c);
    assert ScanAll(replies) == Ok(a + (b + c));
    assert a + (b + c) == a + b + c;
  }
}
