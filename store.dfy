/**
 * The product table, as the handler sees it: a map from `productId` to the
 * stored attribute map, with the four single-item calls the handler makes
 * (get, put, update, delete). Any call may fail: the environment supplies
 * a `fault`, and a failed call changes nothing.
 */
module Store {
  import opened Wrappers
  import opened Json
  import opened UpdateExpression

  /** The table's partition key attribute. */
  const KeyAttribute := "productId"

  type Key = string
  /** A product record: attribute name to value. */
  type Item = map<string, Value>
  /** The table's contents. */
  type Items = map<Key, Item>

  /** Why a store call raised: a service fault or a request the store refuses. */
  datatype StoreError = StoreError(reason: string)

  /**
   * How the store reads an update expression that is not one plain
   * assignment: from the record's current attributes (`None` when absent),
   * the expression and the bound values, it gives the record's new
   * attributes and the attributes it reports, or refuses.
   */
  type Interpretation = (Option<Item>, string, map<string, Value>) -> Result<(Item, Item), StoreError>

  /**
   * What the model leaves to the store about `update_item`: whether an update
   * of an absent key creates the record, which attribute names are reserved
   * words, and how any expression other than `set <name> = :<name>` is read.
   */
  datatype UpdateRules = UpdateRules(createMissing: bool, reserved: set<string>, otherwise: Interpretation)

  /** Every stored record sits under a non-empty key and carries that key under `productId`. */
  predicate Consistent(items: Items) {
    forall k | k in items :: k != "" && KeyAttribute in items[k] && items[k][KeyAttribute] == Str(k)
  }

  /** A failure injected by the environment takes precedence over the call's own result. */
  function WithFault<T>(fault: Option<StoreError>, r: Result<T, StoreError>): (f: Result<T, StoreError>)
    ensures fault.Some? ==> f == Failure(fault.value)
    ensures fault.None? ==> f == r
  {
    if fault.Some? then Failure(fault.value) else r
  }

  /** The key value of a request must be a non-empty string to match the table's key schema. */
  function StorageKey(key: Value): Result<Key, StoreError> {
    if !key.Str? then Failure(StoreError("The provided key element does not match the schema"))
    else if key.s == "" then Failure(StoreError("The AttributeValue for a key attribute cannot contain an empty string value"))
    else Ok(key.s)
  }

  /** `get_item`: the stored record, or `None` when the key is absent. */
  function Get(items: Items, key: Value): Result<Option<Item>, StoreError> {
    match StorageKey(key)
    case Failure(e) => Failure(e)
    case Ok(k) => Ok(if k in items then Some(items[k]) else None)
  }

  /** The key and attributes of a record submitted to `put_item`, if it has a usable key. */
  function ItemKey(item: Value): Result<(Key, Item), StoreError> {
    if item.Object? && KeyAttribute in item.fields then
      match StorageKey(item.fields[KeyAttribute])
      case Failure(e) => Failure(e)
      case Ok(k) => Ok((k, item.fields))
    else Failure(StoreError("One of the required keys was not given a value"))
  }

  /** `put_item`: an unconditional write of the whole record under its key. */
  function Put(items: Items, item: Value): Result<Items, StoreError> {
    match ItemKey(item)
    case Failure(e) => Failure(e)
    case Ok((k, fields)) => Ok(items[k := fields])
  }

  /**
   * `update_item` with `ReturnValues="UPDATED_NEW"`. A single plain assignment
   * is applied here: it sets that attribute and reports its new value. Any
   * other expression is read by `rules.otherwise`. Either way only the record
   * under the request's key changes, and its key attribute stays its key.
   */
  function Update(items: Items, rules: UpdateRules, key: Value, expression: string, values: map<string, Value>)
    : Result<(Items, Item), StoreError>
  {
    match StorageKey(key)
    case Failure(e) => Failure(e)
    case Ok(k) =>
      match ParseSet(expression)
      case None =>
        (match rules.otherwise(if k in items then Some(items[k]) else None, expression, values)
         case Failure(e) => Failure(e)
         case Ok((record, attributes)) => Ok((items[k := record[KeyAttribute := Str(k)]], attributes)))
      case Some(a) =>
        if a.attribute in rules.reserved then
          Failure(StoreError("Attribute name is a reserved keyword"))
        else if a.placeholder !in values then
          Failure(StoreError("An expression attribute value used in expression is not defined"))
        else if a.attribute == KeyAttribute then
          Failure(StoreError("Cannot update attribute productId. This attribute is part of the key"))
        else
          var v := values[a.placeholder];
          if k in items then Ok((items[k := items[k][a.attribute := v]], map[a.attribute := v]))
          else if rules.createMissing then Ok((items[k := map[KeyAttribute := Str(k), a.attribute := v]], map[a.attribute := v]))
          else Failure(StoreError("The conditional request failed"))
  }

  /** `delete_item` with `ReturnValues="ALL_OLD"`: removes the key and returns what it held. */
  function Delete(items: Items, key: Value): Result<(Items, Option<Item>), StoreError> {
    match StorageKey(key)
    case Failure(e) => Failure(e)
    case Ok(k) => Ok((items - {k}, if k in items then Some(items[k]) else None))
  }

  /** The store refuses the empty string as a key in every call. */
  lemma EmptyKeyRefused(items: Items, rules: UpdateRules, item: Value, expression: string, values: map<string, Value>)
    ensures Get(items, Str("")).Failure?
    ensures item.Object? && KeyAttribute in item.fields && item.fields[KeyAttribute] == Str("") ==> Put(items, item).Failure?
    ensures Update(items, rules, Str(""), expression, values).Failure?
    ensures Delete(items, Str("")).Failure?
  {
  }

  /** A successful put stores exactly the submitted record under its key and touches no other key. */
  lemma PutStoresItem(items: Items, item: Value, k: Key)
    requires ItemKey(item).Ok? && ItemKey(item).value.0 == k
    ensures Put(items, item).Ok?
    ensures Put(items, item).value.Keys == items.Keys + {k}
    ensures Put(items, item).value[k] == item.fields
    ensures forall other :: other in items && other != k ==> Put(items, item).value[other] == items[other]
  {
  }

  /** Put refuses a record without a non-empty string key, and only such a record. */
  lemma PutFailsOnlyWithoutKey(items: Items, item: Value)
    ensures Put(items, item).Failure? <==>
            !(item.Object? && KeyAttribute in item.fields && item.fields[KeyAttribute].Str?
              && item.fields[KeyAttribute].s != "")
  {
  }

  lemma PutKeepsConsistent(items: Items, item: Value)
    requires Consistent(items)
    requires Put(items, item).Ok?
    ensures Consistent(Put(items, item).value)
  {
  }

  /**
   * An update built from a plain, non-reserved, non-key attribute name changes
   * that one attribute of that one record, keeps every other attribute and
   * record, and reports the new value.
   */
  lemma UpdateSetsOneAttribute(items: Items, rules: UpdateRules, k: Key, attribute: string, v: Value)
    requires IsName(attribute) && attribute != KeyAttribute && attribute !in rules.reserved
    requires k != "" && (k in items || rules.createMissing)
    ensures var r := Update(items, rules, Str(k), SetExpression(attribute), map[ValuePlaceholder := v]);
      && r.Ok?
      && r.value.1 == map[attribute := v]
      && r.value.0.Keys == items.Keys + {k}
      && attribute in r.value.0[k] && r.value.0[k][attribute] == v
      && (forall other :: other in items && other != k ==> r.value.0[other] == items[other])
      && (forall a :: a in r.value.0[k] && a != attribute ==> a == KeyAttribute || (k in items && a in items[k]))
      && (k in items ==> forall a :: a in items[k] && a != attribute ==> a in r.value.0[k] && r.value.0[k][a] == items[k][a])
  {
    ParseSetExpression(attribute);
  }

  /** A plain assignment to a reserved word is refused. */
  lemma UpdateReservedWordFails(items: Items, rules: UpdateRules, key: Value, attribute: string, values: map<string, Value>)
    requires IsName(attribute) && attribute in rules.reserved
    ensures Update(items, rules, key, SetExpression(attribute), values).Failure?
  {
    ParseSetExpression(attribute);
  }

  /**
   * An expression that is not one plain assignment is the store's to read:
   * its answer decides the outcome, and still only the record under the
   * request's key can change, keeping its key attribute.
   */
  lemma UpdateOtherExpression(items: Items, rules: UpdateRules, k: Key, expression: string, values: map<string, Value>)
    requires k != "" && ParseSet(expression).None?
    ensures var r := Update(items, rules, Str(k), expression, values);
      var answer := rules.otherwise(if k in items then Some(items[k]) else None, expression, values);
      && (r.Ok? <==> answer.Ok?)
      && (r.Ok? ==> r.value.1 == answer.value.1
                    && r.value.0.Keys == items.Keys + {k}
                    && r.value.0[k] == answer.value.0[KeyAttribute := Str(k)]
                    && forall other :: other in items && other != k ==> r.value.0[other] == items[other])
  {
  }

  /** Without `createMissing`, a plain assignment to an absent key fails. */
  lemma UpdateMissingKeyFails(items: Items, rules: UpdateRules, k: Key, expression: string, values: map<string, Value>)
    requires k !in items && !rules.createMissing && ParseSet(expression).Some?
    ensures Update(items, rules, Str(k), expression, values).Failure?
  {
  }

  lemma UpdateKeepsConsistent(items: Items, rules: UpdateRules, key: Value, expression: string, values: map<string, Value>)
    requires Consistent(items)
    requires Update(items, rules, key, expression, values).Ok?
    ensures Consistent(Update(items, rules, key, expression, values).value.0)
  {
  }

  /** Delete returns the prior record (or `None`) and removes only that key. */
  lemma DeleteReturnsPrior(items: Items, k: Key)
    requires k != ""
    ensures Delete(items, Str(k)).Ok?
    ensures Delete(items, Str(k)).value.1 == (if k in items then Some(items[k]) else None)
    ensures Delete(items, Str(k)).value.0.Keys == items.Keys - {k}
    ensures forall other :: other in items && other != k ==> Delete(items, Str(k)).value.0[other] == items[other]
  {
  }

  lemma DeleteKeepsConsistent(items: Items, key: Value)
    requires Consistent(items)
    requires Delete(items, key).Ok?
    ensures Consistent(Delete(items, key).value.0)
  {
  }

  /** Reading back a record just put returns exactly what was put. */
  lemma GetAfterPut(items: Items, item: Value)
    requires Put(items, item).Ok?
    ensures Get(Put(items, item).value, item.fields[KeyAttribute]) == Ok(Some(item.fields))
  {
  }

  /** Reading back a key just deleted finds nothing. */
  lemma GetAfterDelete(items: Items, key: Value)
    requires Delete(items, key).Ok?
    ensures Get(Delete(items, key).value.0, key) == Ok(None)
  {
  }

  /**
   * The DynamoDB table the handler holds for its whole lifetime. `items` is the
   * table's contents; `rules` is what the store decides about updates.
   */
  class Table {
    var items: Items
    const rules: UpdateRules

    /** The store's key invariant; get-one relies on it to answer with the requested record. */
    ghost predicate Valid()
      reads this
    {
      Consistent(items)
    }

    constructor (initial: Items, rules: UpdateRules)
      requires Consistent(initial)
      ensures Valid()
      ensures items == initial && this.rules == rules
    {
      items := initial;
      this.rules := rules;
    }

    /** `table.get_item(Key={"productId": key})`. */
    method GetItem(key: Value, fault: Option<StoreError>) returns (r: Result<Option<Item>, StoreError>)
      ensures r == WithFault(fault, Get(items, key))
    {
      if fault.Some? {
        return Failure(fault.value);
      }
      match StorageKey(key)
      case Failure(e) =>
        r := Failure(e);
      case Ok(k) =>
        r := Ok(if k in items then Some(items[k]) else None);
    }

    /** `table.put_item(Item=item)`. */
    method PutItem(item: Value, fault: Option<StoreError>) returns (error: Option<StoreError>)
      requires Valid()
      modifies this
      ensures Valid()
      ensures match WithFault(fault, Put(old(items), item))
              case Ok(s) => error.None? && items == s
              case Failure(e) => error == Some(e) && items == old(items)
    {
      match WithFault<(Key, Item)>(fault, ItemKey(item))
      case Failure(e) =>
        error := Some(e);
      case Ok((k, fields)) =>
        items := items[k := fields];
        error := None;
    }

    /** `table.update_item(Key=…, UpdateExpression=…, ExpressionAttributeValues=…, ReturnValues="UPDATED_NEW")`. */
    method UpdateItem(key: Value, expression: string, values: map<string, Value>, fault: Option<StoreError>)
      returns (r: Result<Item, StoreError>)
      requires Valid()
      modifies this
      ensures Valid()
      ensures match WithFault<(Items, Item)>(fault, Update(old(items), rules, key, expression, values))
              case Ok((s, attributes)) => r == Ok(attributes) && items == s
              case Failure(e) => r == Failure(e) && items == old(items)
    {
      var u := WithFault(fault, Update(items, rules, key, expression, values));
      match u
      case Failure(e) =>
        r := Failure(e);
      case Ok((s, attributes)) =>
        UpdateKeepsConsistent(items, rules, key, expression, values);
        items := s;
        r := Ok(attributes);
    }

    /** `table.delete_item(Key=…, ReturnValues="ALL_OLD")`. */
    method DeleteItem(key: Value, fault: Option<StoreError>) returns (r: Result<Option<Item>, StoreError>)
      requires Valid()
      modifies this
      ensures Valid()
      ensures match WithFault<(Items, Option<Item>)>(fault, Delete(old(items), key))
              case Ok((s, prior)) => r == Ok(prior) && items == s
              case Failure(e) => r == Failure(e) && items == old(items)
    {
      if fault.Some? {
        return Failure(fault.value);
      }
      match StorageKey(key)
      case Failure(e) =>
        r := Failure(e);
      case Ok(k) =>
        var prior := if k in items then Some(items[k]) else None;
        items := items - {k};
        r := Ok(prior);
    }
  }
}
