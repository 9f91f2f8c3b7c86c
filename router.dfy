/** `lambda_handler`: exact-match dispatch on (httpMethod, path). */
module Router {
  import opened Wrappers
  import opened Json
  import opened Store
  import opened Scan
  import opened UpdateExpression
  import opened Responses
  import opened Handlers

  const GetMethod := "GET"
  const PostMethod := "POST"
  const PatchMethod := "PATCH"
  const DeleteMethod := "DELETE"
  const ProductPath := "/product"
  const ProductsPath := "/products"

  /** The request as the handler reads it; `body` is the already-parsed JSON body. */
  datatype Event = Event(httpMethod: string, path: string,
                         queryStringParameters: Option<map<string, string>>, body: Option<Value>)

  /** What the store does during one invocation: whether its single call fails, and its scan replies. */
  datatype Service = Service(fault: Option<StoreError>, scanReplies: seq<ScanReply>)

  datatype Operation = GetOne | GetAll | Create | Modify | Remove | Unrouted

  /** The if/elif chain: each operation is chosen by exactly one (method, path) pair. */
  function Route(httpMethod: string, path: string): (op: Operation)
    ensures op == GetOne <==> httpMethod == GetMethod && path == ProductPath
    ensures op == GetAll <==> httpMethod == GetMethod && path == ProductsPath
    ensures op == Create <==> httpMethod == PostMethod && path == ProductPath
    ensures op == Modify <==> httpMethod == PatchMethod && path == ProductPath
    ensures op == Remove <==> httpMethod == DeleteMethod && path == ProductPath
  {
    if httpMethod == GetMethod && path == ProductPath then GetOne
    else if httpMethod == GetMethod && path == ProductsPath then GetAll
    else if httpMethod == PostMethod && path == ProductPath then Create
    else if httpMethod == PatchMethod && path == ProductPath then Modify
    else if httpMethod == DeleteMethod && path == ProductPath then Remove
    else Unrouted
  }

  /** The request fields the chosen branch reads are present (otherwise the source raises). */
  predicate Extractable(event: Event) {
    match Route(event.httpMethod, event.path)
    case GetOne =>
      event.queryStringParameters.Some? && "productId" in event.queryStringParameters.value
    case Create => event.body.Some?
    case Modify =>
      event.body.Some? && event.body.value.Object?
      && "productId" in event.body.value.fields
      && "updateKey" in event.body.value.fields && event.body.value.fields["updateKey"].Str?
      && "updateValue" in event.body.value.fields
    case Remove =>
      event.body.Some? && event.body.value.Object? && "productId" in event.body.value.fields
    case _ => true
  }

  /** The scan the get-all branch runs comes to an end. */
  predicate ScanEnds(event: Event, service: Service) {
    Route(event.httpMethod, event.path) == GetAll ==> Terminates(service.scanReplies)
  }

  /** The specification of one invocation: its response and the table it leaves. */
  function Handle(items: Items, rules: UpdateRules, event: Event, service: Service): Outcome
    requires Extractable(event) && ScanEnds(event, service)
  {
    match Route(event.httpMethod, event.path)
    case GetOne =>
      Outcome(GetProductResponse(items, event.queryStringParameters.value["productId"], service.fault), items)
    case GetAll =>
      Outcome(GetProductsResponse(ScanAll(service.scanReplies)), items)
    case Create =>
      SaveProductOutcome(items, event.body.value, service.fault)
    case Modify =>
      var request := event.body.value.fields;
      ModifyProductOutcome(items, rules, request["productId"], request["updateKey"].s,
                           request["updateValue"], service.fault)
    case Remove =>
      DeleteProductOutcome(items, event.body.value.fields["productId"], service.fault)
    case Unrouted =>
      Outcome(BuildResponse(404, Some(Str("Not Found"))), items)
  }

  method LambdaHandler(table: Table, event: Event, service: Service) returns (resp: Response)
    requires table.Valid()
    requires Extractable(event) && ScanEnds(event, service)
    modifies table
    ensures table.Valid()
    ensures Outcome(resp, table.items) == Handle(old(table.items), table.rules, event, service)
  {
    var httpMethod := event.httpMethod;
    var path := event.path;
    if httpMethod == GetMethod && path == ProductPath {
      resp := GetProduct(table, event.queryStringParameters.value["productId"], service.fault);
    } else if httpMethod == GetMethod && path == ProductsPath {
      var startKeys;
      resp, startKeys := GetProducts(service.scanReplies);
    } else if httpMethod == PostMethod && path == ProductPath {
      resp := SaveProduct(table, event.body.value, service.fault);
    } else if httpMethod == PatchMethod && path == ProductPath {
      var request := event.body.value.fields;
      resp := ModifyProduct(table, request["productId"], request["updateKey"].s, request["updateValue"], service.fault);
    } else if httpMethod == DeleteMethod && path == ProductPath {
      resp := DeleteProduct(table, event.body.value.fields["productId"], service.fault);
    } else {
      resp := BuildResponse(404, Some(Str("Not Found")));
    }
  }

  /** Any (method, path) pair outside the five answers 404 "Not Found" and leaves the table alone. */
  lemma UnroutedIsNotFound(items: Items, rules: UpdateRules, event: Event, service: Service)
    requires !(event.httpMethod == GetMethod && event.path == ProductPath)
    requires !(event.httpMethod == GetMethod && event.path == ProductsPath)
    requires !(event.httpMethod == PostMethod && event.path == ProductPath)
    requires !(event.httpMethod == PatchMethod && event.path == ProductPath)
    requires !(event.httpMethod == DeleteMethod && event.path == ProductPath)
    ensures Extractable(event) && ScanEnds(event, service)
    ensures Handle(items, rules, event, service) == Outcome(BuildResponse(404, Some(Str("Not Found"))), items)
  {
  }

  /** Only create, update and delete can change the table. */
  lemma ReadsLeaveTableUnchanged(items: Items, rules: UpdateRules, event: Event, service: Service)
    requires Extractable(event) && ScanEnds(event, service)
    requires Route(event.httpMethod, event.path) in {GetOne, GetAll, Unrouted}
    ensures Handle(items, rules, event, service).items == items
  {
  }

  /** Every invocation keeps each record stored under its own `productId`. */
  lemma HandleKeepsConsistent(items: Items, rules: UpdateRules, event: Event, service: Service)
    requires Consistent(items)
    requires Extractable(event) && ScanEnds(event, service)
    ensures Consistent(Handle(items, rules, event, service).items)
  {
    var op := Route(event.httpMethod, event.path);
    if op == Modify {
      var request := event.body.value.fields;
      var u := Update(items, rules, request["productId"], SetExpression(request["updateKey"].s),
                      map[ValuePlaceholder := request["updateValue"]]);
      if service.fault.None? && u.Ok? {
        UpdateKeepsConsistent(items, rules, request["productId"], SetExpression(request["updateKey"].s),
                              map[ValuePlaceholder := request["updateValue"]]);
      }
    }
  }
}
