/** The SubscriptionData helper: it gathers a newsletter subscriber's data (subscriber, customer,
    store, first order) into one record, cleans it, and maps it onto Inxmail attribute names.
    The Magento services it queries are passed in as values. */
module Subscription {
  import opened Wrappers
  import opened Failures
  import opened PhpValues
  import opened DateFormat
  import opened Mapping
  import opened Normalize
  import opened FieldMap

  datatype Subscriber = Subscriber(id: Scalar, status: Scalar, confirmCode: Scalar, storeId: int, customerId: int)

  /** The customer session: whether someone is logged in, and the session's customer id (0 for none). */
  datatype Session = Session(loggedIn: bool, customerId: int)

  datatype Customer = Customer(
    id: int, firstName: Scalar, lastName: Scalar, dob: Option<string>,
    gender: Scalar, groupId: Scalar, prefix: Scalar)

  datatype Store = Store(websiteId: int, name: Scalar, code: Scalar, groupId: int)
  datatype Website = Website(name: Scalar)
  datatype Group = Group(id: Scalar, name: Scalar)

  /** What the helper reads from Magento. A lookup whose id is not a key fails. `firstOrderCreatedAt`
      holds, per customer id with at least one order, the `created_at` of the first order of the
      collection (null as None). */
  datatype Magento = Magento(
    session: Session,
    customers: map<int, Customer>,
    stores: map<int, Store>,
    websites: map<int, Website>,
    groups: map<int, Group>,
    firstOrderCreatedAt: map<int, Option<string>>,
    parseDate: DateParser,
    toUtc: UtcConversion)

  /** The module's configuration (the map configuration and the decoded attributes setting) and the
      attribute catalog it is checked against (standard and mappable tables, the date-and-time code). */
  datatype Settings = Settings(
    mapConfig: seq<Override>,
    attributesConfig: Option<map<string, Scalar>>,
    standard: Table,
    mapable: Table,
    dateAndTime: Scalar)

  /** logger->critical() for a date of birth that could not be formatted. */
  datatype LogEvent = Critical(birthday: string)

  const BaseKeys: set<string> := {"subscriberId", "status", "subscriberToken", "storeId"}
  const StoreKeys: set<string> :=
    {"websiteId", "storeViewName", "storeViewId", "websiteName", "storeName", "storeCode"}
  const CustomerKeys: set<string> :=
    {"lastOrderDate", "firstName", "lastName", "birthday", "gender", "group", "prefix"}

  /** No field name belongs to two of the three parts of the record. */
  lemma KeyGroupsDisjoint()
    ensures (BaseKeys + StoreKeys) * CustomerKeys == {} && BaseKeys * StoreKeys == {}
  {
  }

  /** The gate of getCustomerData(): a customer id or a session customer id is positive. */
  predicate HasCustomer(customerId: int, session: Session) {
    customerId > 0 || session.customerId > 0
  }

  /** The id the customer is looked up by: the session's when logged in, the subscriber's otherwise. */
  function LookupId(customerId: int, session: Session): int {
    if session.loggedIn then session.customerId else customerId
  }

  /** No order, or the first order's date is empty() in PHP's sense. */
  predicate NoOrderDate(customerId: int, magento: Magento) {
    || customerId !in magento.firstOrderCreatedAt
    || magento.firstOrderCreatedAt[customerId].None?
    || IsEmpty(Str(magento.firstOrderCreatedAt[customerId].value))
  }

  /** getLastOrderDate(): "" when there is no order or no date, the formatted date otherwise. */
  function LastOrderDate(customerId: int, magento: Magento, settings: Settings): (r: Result<string, Failure>)
    ensures (r == Ok("")) <==> NoOrderDate(customerId, magento)
    ensures !NoOrderDate(customerId, magento) ==>
      r == FormatOrderDate(magento.firstOrderCreatedAt[customerId].value, magento.parseDate, magento.toUtc,
                           settings.attributesConfig, settings.dateAndTime)
  {
    if customerId !in magento.firstOrderCreatedAt then Ok("")
    else
      match magento.firstOrderCreatedAt[customerId]
      case None => Ok("")
      case Some(date) =>
        if IsEmpty(Str(date)) then Ok("")
        else FormatOrderDate(date, magento.parseDate, magento.toUtc, settings.attributesConfig, settings.dateAndTime)
  }

  /** What getCustomerData() returns, and the critical events it logs. */
  function CustomerData(customerId: int, magento: Magento, settings: Settings)
    : (out: (Result<Record, Failure>, seq<LogEvent>))
    ensures !HasCustomer(customerId, magento.session) ==> out == (Ok(map[]), [])
    ensures HasCustomer(customerId, magento.session) && LookupId(customerId, magento.session) !in magento.customers
      ==> out == (Err(NoSuchCustomer(LookupId(customerId, magento.session))), [])
    ensures HasCustomer(customerId, magento.session) && LookupId(customerId, magento.session) in magento.customers ==>
      var lastOrder := LastOrderDate(magento.customers[LookupId(customerId, magento.session)].id, magento, settings);
      && (out.0.Ok? <==> lastOrder.Ok?)
      && (lastOrder.Err? ==> out == (Err(lastOrder.error), []))
    ensures out.0.Ok? ==> out.0.value.Keys <= CustomerKeys
    ensures out.0.Ok? && HasCustomer(customerId, magento.session) ==>
      var c := magento.customers[LookupId(customerId, magento.session)];
      var birthday := FormatBirthday(c.dob, magento.parseDate);
      && CustomerKeys - {"birthday"} <= out.0.value.Keys
      && ("birthday" in out.0.value <==> birthday.text != "")
      && ("birthday" in out.0.value ==> out.0.value["birthday"] == Scalar(Str(birthday.text)))
      && LastOrderDate(c.id, magento, settings).Ok?
      && out.0.value["lastOrderDate"] == Scalar(Str(LastOrderDate(c.id, magento, settings).value))
      && out.0.value["firstName"] == Scalar(c.firstName)
      && out.0.value["lastName"] == Scalar(c.lastName)
      && out.0.value["gender"] == Scalar(c.gender)
      && out.0.value["group"] == Scalar(c.groupId)
      && out.0.value["prefix"] == Scalar(c.prefix)
      && out.1 == (if birthday.logged then [Critical(c.dob.value)] else [])
    ensures out.0.Err? ==> out.1 == []
  {
    if !HasCustomer(customerId, magento.session) then (Ok(map[]), [])
    else
      var id := LookupId(customerId, magento.session);
      if id !in magento.customers then (Err(NoSuchCustomer(id)), [])
      else
        var c := magento.customers[id];
        var lastOrder := LastOrderDate(c.id, magento, settings);
        if lastOrder.Err? then (Err(lastOrder.error), [])
        else
          var birthday := FormatBirthday(c.dob, magento.parseDate);
          var data := map[
            "lastOrderDate" := Scalar(Str(lastOrder.value)),
            "firstName" := Scalar(c.firstName),
            "lastName" := Scalar(c.lastName),
            "gender" := Scalar(c.gender),
            "group" := Scalar(c.groupId),
            "prefix" := Scalar(c.prefix)];
          var data := if birthday.text != "" then data["birthday" := Scalar(Str(birthday.text))] else data;
          (Ok(data), if birthday.logged then [Critical(c.dob.value)] else [])
  }

  /** getCustomerData(), building `$data` step by step. */
  method GetCustomerData(customerId: int, magento: Magento, settings: Settings)
    returns (r: Result<Record, Failure>, log: seq<LogEvent>)
    ensures (r, log) == CustomerData(customerId, magento, settings)
  {
    var data: Record := map[];
    log := [];
    if customerId > 0 || magento.session.customerId > 0 {
      var id := if magento.session.loggedIn then magento.session.customerId else customerId;
      if id !in magento.customers {
        return Err(NoSuchCustomer(id)), [];
      }
      var customer := magento.customers[id];
      var lastOrder := LastOrderDate(customer.id, magento, settings);
      if lastOrder.Err? {
        return Err(lastOrder.error), [];
      }
      data := data["lastOrderDate" := Scalar(Str(lastOrder.value))];
      data := data["firstName" := Scalar(customer.firstName)];
      data := data["lastName" := Scalar(customer.lastName)];
      var customerDob := FormatBirthday(customer.dob, magento.parseDate);
      if customerDob.logged {
        log := log + [Critical(customer.dob.value)];
      }
      if customerDob.text != "" {
        data := data["birthday" := Scalar(Str(customerDob.text))];
      }
      data := data["gender" := Scalar(customer.gender)];
      data := data["group" := Scalar(customer.groupId)];
      data := data["prefix" := Scalar(customer.prefix)];
      ghost var expected := CustomerData(customerId, magento, settings).0.value;
      assert data.Keys == expected.Keys;
      assert data == expected;
      assert log == CustomerData(customerId, magento, settings).1;
    }
    r := Ok(data);
  }

  /** What getStoreData() returns: the store view, its website and its store group. */
  function StoreData(storeId: int, magento: Magento): (r: Result<Record, Failure>)
    ensures storeId !in magento.stores ==> r == Err(NoSuchStore(storeId))
    ensures storeId in magento.stores && magento.stores[storeId].websiteId !in magento.websites
      ==> r == Err(NoSuchWebsite(magento.stores[storeId].websiteId))
    ensures storeId in magento.stores && magento.stores[storeId].websiteId in magento.websites
      && magento.stores[storeId].groupId !in magento.groups
      ==> r == Err(NoSuchGroup(magento.stores[storeId].groupId))
    ensures r.Ok? <==>
      && storeId in magento.stores
      && magento.stores[storeId].websiteId in magento.websites
      && magento.stores[storeId].groupId in magento.groups
    ensures r.Ok? ==>
      var store := magento.stores[storeId];
      && r.value.Keys == StoreKeys
      && r.value["websiteId"] == Scalar(Int(store.websiteId))
      && r.value["storeViewName"] == Scalar(store.name)
      && r.value["storeViewId"] == Scalar(store.code)
      && r.value["websiteName"] == Scalar(magento.websites[store.websiteId].name)
      && r.value["storeName"] == Scalar(magento.groups[store.groupId].name)
      && r.value["storeCode"] == Scalar(magento.groups[store.groupId].id)
  {
    if storeId !in magento.stores then Err(NoSuchStore(storeId))
    else
      var store := magento.stores[storeId];
      if store.websiteId !in magento.websites then Err(NoSuchWebsite(store.websiteId))
      else if store.groupId !in magento.groups then Err(NoSuchGroup(store.groupId))
      else
        var website := magento.websites[store.websiteId];
        var group := magento.groups[store.groupId];
        Ok(map[
          "websiteId" := Scalar(Int(store.websiteId)),
          "storeViewName" := Scalar(store.name),
          "storeViewId" := Scalar(store.code),
          "websiteName" := Scalar(website.name),
          "storeName" := Scalar(group.name),
          "storeCode" := Scalar(group.id)])
  }

  /** getStoreData(), building `$data` step by step. */
  method GetStoreData(storeId: int, magento: Magento) returns (r: Result<Record, Failure>)
    ensures r == StoreData(storeId, magento)
  {
    var data: Record := map[];
    if storeId !in magento.stores {
      return Err(NoSuchStore(storeId));
    }
    var store := magento.stores[storeId];
    data := data["websiteId" := Scalar(Int(store.websiteId))];
    if store.websiteId !in magento.websites {
      return Err(NoSuchWebsite(store.websiteId));
    }
    var website := magento.websites[store.websiteId];
    data := data["storeViewName" := Scalar(store.name)];
    data := data["storeViewId" := Scalar(store.code)];
    data := data["websiteName" := Scalar(website.name)];
    if store.groupId !in magento.groups {
      return Err(NoSuchGroup(store.groupId));
    }
    var storeView := magento.groups[store.groupId];
    data := data["storeName" := Scalar(storeView.name)];
    data := data["storeCode" := Scalar(storeView.id)];
    r := Ok(data);
  }

  /** The subscriber's own fields. */
  function BaseData(subscriber: Subscriber): Record {
    map[
      "subscriberId" := Scalar(subscriber.id),
      "status" := Scalar(subscriber.status),
      "subscriberToken" := Scalar(subscriber.confirmCode),
      "storeId" := Scalar(Int(subscriber.storeId))]
  }

  /** What getSubscriptionStaticData() returns: array_merge($data, $storeData, $customerData). The
      customer is looked up before the store, so its failure is the one reported when both fail. */
  function StaticData(subscriber: Subscriber, magento: Magento, settings: Settings)
    : (out: (Result<Record, Failure>, seq<LogEvent>))
    ensures out.1 == CustomerData(subscriber.customerId, magento, settings).1
    ensures CustomerData(subscriber.customerId, magento, settings).0.Err? ==>
      out.0 == CustomerData(subscriber.customerId, magento, settings).0
    ensures CustomerData(subscriber.customerId, magento, settings).0.Ok? && StoreData(subscriber.storeId, magento).Err? ==>
      out.0 == StoreData(subscriber.storeId, magento)
    ensures out.0.Ok? <==>
      CustomerData(subscriber.customerId, magento, settings).0.Ok? && StoreData(subscriber.storeId, magento).Ok?
    ensures out.0.Ok? ==>
      out.0.value == BaseData(subscriber) + StoreData(subscriber.storeId, magento).value
                     + CustomerData(subscriber.customerId, magento, settings).0.value
  {
    var (customer, log) := CustomerData(subscriber.customerId, magento, settings);
    if customer.Err? then (Err(customer.error), log)
    else
      var store := StoreData(subscriber.storeId, magento);
      if store.Err? then (Err(store.error), log)
      else (Ok(BaseData(subscriber) + store.value + customer.value), log)
  }

  /** The assembled record always has the subscriber's and the store's fields, has a customer field
      only when a customer is selected, and on a shared key the customer part beats the store part,
      which beats the subscriber's fields (array_merge() order). */
  lemma StaticDataShape(subscriber: Subscriber, magento: Magento, settings: Settings)
    requires StaticData(subscriber, magento, settings).0.Ok?
    ensures var record := StaticData(subscriber, magento, settings).0.value;
      && BaseKeys + StoreKeys <= record.Keys <= BaseKeys + StoreKeys + CustomerKeys
      && (!HasCustomer(subscriber.customerId, magento.session) ==> record.Keys == BaseKeys + StoreKeys)
    ensures var record := StaticData(subscriber, magento, settings).0.value;
      var customer := CustomerData(subscriber.customerId, magento, settings).0.value;
      var store := StoreData(subscriber.storeId, magento).value;
      forall k :: k in record ==>
        record[k] == if k in customer then customer[k] else if k in store then store[k] else BaseData(subscriber)[k]
  {
    assert BaseData(subscriber).Keys == BaseKeys;
  }

  /** getSubscriptionStaticData(), in the source's order: subscriber fields, customer, store id, store. */
  method GetSubscriptionStaticData(subscriber: Subscriber, magento: Magento, settings: Settings)
    returns (r: Result<Record, Failure>, log: seq<LogEvent>)
    ensures (r, log) == StaticData(subscriber, magento, settings)
  {
    var data: Record := map[];
    data := data["subscriberId" := Scalar(subscriber.id)];
    data := data["status" := Scalar(subscriber.status)];
    data := data["subscriberToken" := Scalar(subscriber.confirmCode)];
    var customerData;
    customerData, log := GetCustomerData(subscriber.customerId, magento, settings);
    if customerData.Err? {
      return Err(customerData.error), log;
    }
    data := data["storeId" := Scalar(Int(subscriber.storeId))];
    var storeData := GetStoreData(subscriber.storeId, magento);
    if storeData.Err? {
      return Err(storeData.error), log;
    }
    r := Ok(data + storeData.value + customerData.value);
  }

  /** getSubscriptionFields(): the subscriber's record, cleaned and mapped onto Inxmail attribute names
      by the resolved table. The result never has `email`, only has keys of the table, holds for each
      key the cleaned value of the Magento field the table names (present and not null), is clean
      throughout, and has no customer field when neither id selects a customer. */
  method GetSubscriptionFields(subscriber: Subscriber, magento: Magento, settings: Settings)
    returns (r: Result<Record, Failure>, log: seq<LogEvent>)
    ensures log == StaticData(subscriber, magento, settings).1
    ensures StaticData(subscriber, magento, settings).0.Err? ==> r == StaticData(subscriber, magento, settings).0
    ensures StaticData(subscriber, magento, settings).0.Ok? ==> r.Ok?
    ensures r.Ok? ==>
      var table := Resolve(settings.standard, settings.mapable, settings.mapConfig);
      var record := StaticData(subscriber, magento, settings).0.value;
      && EMAIL !in r.value
      && r.value.Keys <= table.Keys
      && (forall k :: k in r.value ==>
            table[k] in record && IsSet(record[table[k]]) && r.value[k] == CleanValue(record[table[k]]))
      && (forall k :: k in table && k != EMAIL && table[k] in record && IsSet(record[table[k]]) ==> k in r.value)
    ensures r.Ok? ==> forall k :: k in r.value ==> IsSet(r.value[k]) && IsCleanValue(r.value[k])
    ensures r.Ok? && !HasCustomer(subscriber.customerId, magento.session) ==>
      var table := Resolve(settings.standard, settings.mapable, settings.mapConfig);
      forall k :: k in r.value ==> table[k] !in CustomerKeys
  {
    var data;
    data, log := GetSubscriptionStaticData(subscriber, magento, settings);
    if data.Err? {
      return Err(data.error), log;
    }
    var cleaned := CleanData(data.value);
    var table := GetMapping(settings.standard, settings.mapable, settings.mapConfig);
    var result := MapFields(table, cleaned);
    r := Ok(result);
    MappedCleanRecord(table, data.value, cleaned, result);
    if !HasCustomer(subscriber.customerId, magento.session) {
      NoCustomerFieldMapped(subscriber, magento, settings, table, result);
    }
  }

  /** Mapping the cleaned record is mapping the record and cleaning what the table selects. */
  lemma MappedCleanRecord(table: Table, record: Record, cleaned: Record, result: Record)
    requires cleaned.Keys == record.Keys
    requires forall k :: k in cleaned ==> cleaned[k] == CleanValue(record[k])
    requires forall k :: k in cleaned ==> IsCleanValue(cleaned[k]) && (IsSet(cleaned[k]) <==> IsSet(record[k]))
    requires EMAIL !in result && result.Keys <= table.Keys
    requires forall k :: k in result ==> table[k] in cleaned && IsSet(cleaned[table[k]]) && result[k] == cleaned[table[k]]
    requires forall k :: k in table && k != EMAIL && table[k] in cleaned && IsSet(cleaned[table[k]]) ==> k in result
    ensures forall k :: k in result ==>
      table[k] in record && IsSet(record[table[k]]) && result[k] == CleanValue(record[table[k]])
    ensures forall k :: k in table && k != EMAIL && table[k] in record && IsSet(record[table[k]]) ==> k in result
    ensures forall k :: k in result ==> IsSet(result[k]) && IsCleanValue(result[k])
  {
  }

  /** Without a customer the static record has no customer field, so nothing mapped comes from one. */
  lemma NoCustomerFieldMapped(subscriber: Subscriber, magento: Magento, settings: Settings, table: Table, result: Record)
    requires StaticData(subscriber, magento, settings).0.Ok?
    requires !HasCustomer(subscriber.customerId, magento.session)
    requires forall k :: k in result ==> k in table && table[k] in StaticData(subscriber, magento, settings).0.value
    ensures forall k :: k in result ==> table[k] !in CustomerKeys
  {
    StaticDataShape(subscriber, magento, settings);
    KeyGroupsDisjoint();
    forall k | k in result ensures table[k] !in CustomerKeys {
      assert table[k] in BaseKeys + StoreKeys;
    }
  }
}
