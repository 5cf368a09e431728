/** The business and transaction registry of the application store in demo mode
    (src/store/useStore.js:367-455, 476-624). Local storage is a map from key to the list stored there;
    the clock (`Date.now()` and ISO timestamps) is a parameter. */
module Store {
  import opened Wrappers
  import opened Text
  import opened Seqs
  import opened Records
  import opened DemoData

  /** The value stored under a local-storage key (the JSON text, already parsed). */
  datatype Stored = BusinessTypeList(types: seq<BusinessType>) | BusinessList(businesses: seq<Business>)
                  | TransactionList(transactions: seq<Transaction>)

  const BusinessTypesKey: string := "mtd-business-types"
  const BusinessesKey: string := "mtd-businesses"

  /** `mtd-transactions-<businessId>`, the per-business transaction list. */
  function TransactionsKey(businessId: string): (k: string)
    ensures k != BusinessTypesKey && k != BusinessesKey
  {
    assert ("mtd-transactions-" + businessId)[4] == 't';
    "mtd-transactions-" + businessId
  }

  /** The errors the transaction actions throw (and record in `error`). */
  datatype StoreError = NoUserLoggedIn | NoBusinessSelected

  function Message(e: StoreError): string {
    match e
    case NoUserLoggedIn => "No user logged in"
    case NoBusinessSelected => "No business selected"
  }

  datatype Result<T> = Ok(value: T) | Err(error: StoreError)

  /** JavaScript truthiness of an optional id: `null` and `''` are false. */
  predicate Truthy(id: Option<string>) {
    id.Some? && id.value != ""
  }

  // ---- Pure list operations ----

  /** Position of the first entry of type `kind`, or `|types|`. */
  function TypeIndex(types: seq<BusinessType>, kind: string): nat {
    FirstIndex(types, (bt: BusinessType) => bt.kind == kind)
  }

  /** `businessTypes.find(bt => bt.type === kind)`: the first entry of that type, if any. */
  function FindType(types: seq<BusinessType>, kind: string): (r: Option<BusinessType>)
    ensures r.None? <==> forall i :: 0 <= i < |types| ==> types[i].kind != kind
    ensures r.Some? ==> r.value.kind == kind && r.value in types
  {
    var k := TypeIndex(types, kind);
    if k < |types| then Some(types[k]) else None
  }

  /** At most one business-type entry per type. */
  predicate OnePerKind(types: seq<BusinessType>) {
    forall i, j :: 0 <= i < j < |types| ==> types[i].kind != types[j].kind
  }

  /** The display name `createBusinessType` gives a new entry. */
  function TypeName(kind: string): string {
    if kind == "sole_trader" then "Sole Trader Businesses" else "Property Businesses"
  }

  /** `businesses.find(b => b.id === id)`. */
  function FindBusiness(bs: seq<Business>, id: string): (r: Option<Business>)
    ensures r.None? <==> forall i :: 0 <= i < |bs| ==> bs[i].id != id
    ensures r.Some? ==> r.value in bs && r.value.id == id
  {
    if bs == [] then None
    else if bs[0].id == id then Some(bs[0])
    else FindBusiness(bs[1..], id)
  }

  /** `{ ...business, ...updates, updatedAt: now }`. */
  function MergeBusiness(b: Business, u: BusinessUpdate, now: string): Business {
    b.(name := u.name, kind := u.kind, calendarElection := u.calendarElection, updatedAt := Some(now))
  }

  /** The list `updateBusiness` writes: the business with id `id` merged with `u`, every other unchanged. */
  function UpdateBusinesses(bs: seq<Business>, id: string, u: BusinessUpdate, now: string): (r: seq<Business>)
    ensures |r| == |bs|
    ensures forall i :: 0 <= i < |bs| ==>
      (r[i].id == bs[i].id && r[i].createdAt == bs[i].createdAt
       && r[i].businessTypeId == bs[i].businessTypeId && r[i].propertyReference == bs[i].propertyReference)
    ensures forall i :: 0 <= i < |bs| && bs[i].id != id ==> r[i] == bs[i]
    ensures forall i :: 0 <= i < |bs| && bs[i].id == id ==>
      r[i].name == u.name && r[i].kind == u.kind && r[i].calendarElection == u.calendarElection && r[i].updatedAt == Some(now)
  {
    seq(|bs|, i requires 0 <= i < |bs| => if bs[i].id == id then MergeBusiness(bs[i], u, now) else bs[i])
  }

  /** Updating an id no business has leaves the list as it was. */
  lemma UpdateUnknownBusiness(bs: seq<Business>, id: string, u: BusinessUpdate, now: string)
    requires FindBusiness(bs, id).None?
    ensures UpdateBusinesses(bs, id, u, now) == bs
  {
  }

  predicate KeepBusiness(id: string, b: Business) {
    b.id != id
  }

  /** The list `deleteBusiness` writes: every business except those with id `id`, in order. */
  function RemoveBusiness(bs: seq<Business>, id: string): (r: seq<Business>)
    ensures forall i :: 0 <= i < |r| ==> r[i].id != id && r[i] in bs
    ensures forall i :: 0 <= i < |bs| && bs[i].id != id ==> bs[i] in r
    ensures IsSubsequence(r, bs)
    ensures CountsFiltered(r, bs, b => KeepBusiness(id, b))
  {
    FilterIsSubsequence(bs, b => KeepBusiness(id, b));
    FilterMultiset(bs, b => KeepBusiness(id, b));
    Filter(bs, b => KeepBusiness(id, b))
  }

  /** The current id after `deleteBusiness(id)`: unchanged unless it was the one deleted, in which case
      the first remaining business's id, or null when none is left (or that id is empty). */
  function NextCurrent(current: Option<string>, deleted: string, remaining: seq<Business>): (r: Option<string>)
    ensures current != Some(deleted) ==> r == current
    ensures current == Some(deleted) && r.Some? ==> remaining != [] && r.value == remaining[0].id
    ensures current == Some(deleted) && remaining != [] && remaining[0].id != "" ==> r.Some?
  {
    if current == Some(deleted) then
      (if remaining != [] && remaining[0].id != "" then Some(remaining[0].id) else None)
    else current
  }

  predicate OfKind(kind: string, b: Business) {
    b.kind == kind
  }

  /** `getBusinessesByType(kind)`: the businesses of that type, in order. */
  function BusinessesByType(bs: seq<Business>, kind: string): (r: seq<Business>)
    ensures forall i :: 0 <= i < |r| ==> r[i].kind == kind && r[i] in bs
    ensures forall i :: 0 <= i < |bs| && bs[i].kind == kind ==> bs[i] in r
    ensures IsSubsequence(r, bs)
    ensures CountsFiltered(r, bs, b => OfKind(kind, b))
  {
    FilterIsSubsequence(bs, b => OfKind(kind, b));
    FilterMultiset(bs, b => OfKind(kind, b));
    Filter(bs, b => OfKind(kind, b))
  }

  /** `getCurrentBusiness()`: the business whose id is the current id, or null. */
  function CurrentBusiness(bs: seq<Business>, current: Option<string>): (r: Option<Business>)
    ensures r.Some? <==> current.Some? && exists i :: 0 <= i < |bs| && bs[i].id == current.value
    ensures r.Some? ==> r.value in bs && r.value.id == current.value
  {
    if current.None? then None else FindBusiness(bs, current.value)
  }

  /** The list `updateTransaction(id, updates)` writes: matching entries merged, same length and order. */
  function UpdateTransactions(ts: seq<Transaction>, id: string, updates: TransactionData, now: string): (r: seq<Transaction>)
    ensures |r| == |ts|
    ensures forall i :: 0 <= i < |ts| ==> r[i].id == ts[i].id && r[i].createdAt == ts[i].createdAt
    ensures forall i :: 0 <= i < |ts| && ts[i].id != id ==> r[i] == ts[i]
    ensures forall i :: 0 <= i < |ts| && ts[i].id == id ==> r[i] == Merge(ts[i], updates, now)
  {
    seq(|ts|, i requires 0 <= i < |ts| => if ts[i].id == id then Merge(ts[i], updates, now) else ts[i])
  }

  predicate KeepTransaction(id: string, t: Transaction) {
    t.id != id
  }

  /** The list `deleteTransaction(id)` writes: every entry with another id, in order. */
  function RemoveTransactions(ts: seq<Transaction>, id: string): (r: seq<Transaction>)
    ensures forall i :: 0 <= i < |r| ==> r[i].id != id && r[i] in ts
    ensures forall i :: 0 <= i < |ts| && ts[i].id != id ==> ts[i] in r
    ensures IsSubsequence(r, ts)
    ensures CountsFiltered(r, ts, t => KeepTransaction(id, t))
  {
    FilterIsSubsequence(ts, t => KeepTransaction(id, t));
    FilterMultiset(ts, t => KeepTransaction(id, t));
    Filter(ts, t => KeepTransaction(id, t))
  }

  /** The default list a business gets when nothing is stored for it. */
  function DefaultTransactions(kind: string): seq<Transaction> {
    if kind == "sole_trader" then DemoTransactions else DemoLandlordTransactions
  }

  /** Every business's `businessTypeId` names an entry of the type list. */
  predicate TypesResolve(bs: seq<Business>, types: seq<BusinessType>) {
    forall i :: 0 <= i < |bs| ==> HasTypeId(types, bs[i].businessTypeId)
  }

  /** Some entry of the type list has id `typeId`. */
  predicate HasTypeId(types: seq<BusinessType>, typeId: string) {
    exists j :: 0 <= j < |types| && types[j].id == typeId
  }

  /** The current id, when set, is the id of a business in the list. */
  predicate CurrentKnown(bs: seq<Business>, current: Option<string>) {
    current.Some? ==> exists i :: 0 <= i < |bs| && bs[i].id == current.value
  }

  /** Updating a business keeps every link: ids and type ids are not touched. */
  lemma UpdateKeepsLinks(bs: seq<Business>, types: seq<BusinessType>, current: Option<string>,
                         id: string, u: BusinessUpdate, now: string)
    requires TypesResolve(bs, types) && CurrentKnown(bs, current)
    ensures TypesResolve(UpdateBusinesses(bs, id, u, now), types)
    ensures CurrentKnown(UpdateBusinesses(bs, id, u, now), current)
  {
    var r := UpdateBusinesses(bs, id, u, now);
    forall i | 0 <= i < |r|
      ensures HasTypeId(types, r[i].businessTypeId)
    {
      assert r[i].businessTypeId == bs[i].businessTypeId;
    }
    if current.Some? {
      var i :| 0 <= i < |bs| && bs[i].id == current.value;
      assert r[i].id == bs[i].id;
    }
  }

  /** Removing a business keeps every remaining business's type link. */
  lemma RemoveKeepsTypes(bs: seq<Business>, types: seq<BusinessType>, id: string)
    requires TypesResolve(bs, types)
    ensures TypesResolve(RemoveBusiness(bs, id), types)
  {
    var r := RemoveBusiness(bs, id);
    forall i | 0 <= i < |r|
      ensures HasTypeId(types, r[i].businessTypeId)
    {
      var k :| 0 <= k < |bs| && bs[k] == r[i];
    }
  }

  /** After a removal, the next current id names a remaining business. */
  lemma RemoveKeepsCurrent(bs: seq<Business>, current: Option<string>, id: string)
    requires CurrentKnown(bs, current)
    ensures CurrentKnown(RemoveBusiness(bs, id), NextCurrent(current, id, RemoveBusiness(bs, id)))
  {
    var r := RemoveBusiness(bs, id);
    var next := NextCurrent(current, id, r);
    if next.Some? {
      if current == Some(id) {
        assert r[0].id == next.value;
      } else {
        var i :| 0 <= i < |bs| && bs[i].id == current.value;
        assert bs[i] in r;
        var k :| 0 <= k < |r| && r[k] == bs[i];
      }
    }
  }

  /** The persisted type and business lists, where present, are the lists held in memory. */
  ghost predicate ListsMirrored(storage: map<string, Stored>, types: seq<BusinessType>, bs: seq<Business>) {
    && (BusinessTypesKey in storage ==> storage[BusinessTypesKey] == BusinessTypeList(types))
    && (BusinessesKey in storage ==> storage[BusinessesKey] == BusinessList(bs))
  }

  /** A write under a per-business transactions key leaves the two list keys as they were. */
  lemma StorageWriteKeepsLists(storage: map<string, Stored>, key: string, v: Stored,
                               types: seq<BusinessType>, bs: seq<Business>)
    requires key != BusinessTypesKey && key != BusinessesKey
    requires ListsMirrored(storage, types, bs)
    ensures ListsMirrored(storage[key := v], types, bs)
  {
  }

  /** Writing a new business list and dropping a transactions key mirrors the new list and keeps the
      type list as it was. */
  lemma BusinessesWriteKeepsLists(storage: map<string, Stored>, id: string, types: seq<BusinessType>,
                                  bs: seq<Business>, bs': seq<Business>)
    requires ListsMirrored(storage, types, bs)
    ensures ListsMirrored(storage[BusinessesKey := BusinessList(bs')] - {TransactionsKey(id)}, types, bs')
  {
    var s' := storage[BusinessesKey := BusinessList(bs')] - {TransactionsKey(id)};
    assert BusinessTypesKey in s' ==> s'[BusinessTypesKey] == storage[BusinessTypesKey];
  }

  // ---- The store ----

  class Store {
    /** The signed-in user's id, if any. */
    var user: Option<string>
    var userType: Option<string>
    var businessTypes: seq<BusinessType>
    var businesses: seq<Business>
    var currentBusinessId: Option<string>
    /** The transactions on display: a mirror of the current business's stored list. */
    var transactions: seq<Transaction>
    var error: Option<string>
    var storage: map<string, Stored>

    /** The store's invariant: one type entry per type, every business's type entry exists, the current
        business exists, and what is stored under the two list keys mirrors the fields. */
    ghost predicate Valid()
      reads this
    {
      && OnePerKind(businessTypes)
      && TypesResolve(businesses, businessTypes)
      && CurrentKnown(businesses, currentBusinessId)
      && ListsMirrored(storage, businessTypes, businesses)
    }

    /** A session with nothing loaded yet. */
    constructor (user: Option<string>)
      ensures Valid()
      ensures this.user == user && businessTypes == [] && businesses == [] && currentBusinessId == None
      ensures transactions == [] && userType == None && error == None && storage == map[]
    {
      this.user := user;
      userType := None;
      businessTypes := [];
      businesses := [];
      currentBusinessId := None;
      transactions := [];
      error := None;
      storage := map[];
    }

    /** The stored transaction list of a business, or `[]` when none is stored (`JSON.parse(... || '[]')`). */
    function StoredTransactions(businessId: string): seq<Transaction>
      reads this
    {
      var key := TransactionsKey(businessId);
      if key in storage && storage[key].TransactionList? then storage[key].transactions else []
    }

    /** `createBusinessType`: returns the entry of that type if there is one; otherwise appends a new
        entry (not under the calendar election) and persists the list. */
    method CreateBusinessType(businessType: string, millis: int, now: string) returns (bt: BusinessType)
      requires Valid()
      modifies this
      ensures Valid()
      ensures bt.kind == businessType
      ensures old(FindType(businessTypes, businessType)).Some? ==>
        bt == old(FindType(businessTypes, businessType)).value
        && businessTypes == old(businessTypes) && storage == old(storage)
      ensures old(FindType(businessTypes, businessType)).None? ==>
        bt == BusinessType("type-" + businessType + "-" + IntToString(millis), businessType, TypeName(businessType), false, now)
        && businessTypes == old(businessTypes) + [bt]
        && storage == old(storage)[BusinessTypesKey := BusinessTypeList(businessTypes)]
      ensures FindType(businessTypes, businessType) == Some(bt)
      ensures businesses == old(businesses) && currentBusinessId == old(currentBusinessId)
      ensures transactions == old(transactions) && user == old(user) && userType == old(userType) && error == old(error)
    {
      var existingType := FindType(businessTypes, businessType);
      if existingType.Some? {
        return existingType.value;
      }
      bt := BusinessType("type-" + businessType + "-" + IntToString(millis), businessType, TypeName(businessType), false, now);
      var updatedBusinessTypes := businessTypes + [bt];
      FindTypeAppend(businessTypes, bt, businessType);
      assert OnePerKind(updatedBusinessTypes);
      forall i | 0 <= i < |businesses|
        ensures HasTypeId(updatedBusinessTypes, businesses[i].businessTypeId)
      {
        var j :| 0 <= j < |businessTypes| && businessTypes[j].id == businesses[i].businessTypeId;
        assert updatedBusinessTypes[j] == businessTypes[j];
      }
      businessTypes := updatedBusinessTypes;
      storage := storage[BusinessTypesKey := BusinessTypeList(updatedBusinessTypes)];
    }

    /** `addBusiness`: makes sure an entry for the business's type exists, then appends the business,
        linked to that entry, and persists the list. */
    method AddBusiness(businessData: BusinessData, millis: int, now: string) returns (newBusiness: Business)
      requires Valid()
      modifies this
      ensures Valid()
      ensures businesses == old(businesses) + [newBusiness]
      ensures newBusiness == Business("business-" + IntToString(millis), businessData.name, businessData.kind,
        businessData.calendarElection, businessData.propertyReference, newBusiness.businessTypeId, now, None)
      ensures FindType(businessTypes, businessData.kind).Some?
        && newBusiness.businessTypeId == FindType(businessTypes, businessData.kind).value.id
      ensures old(FindType(businessTypes, businessData.kind)).Some? ==> businessTypes == old(businessTypes)
      ensures old(FindType(businessTypes, businessData.kind)).None? ==>
        (|businessTypes| == |old(businessTypes)| + 1 && businessTypes[..|old(businessTypes)|] == old(businessTypes))
      ensures old(FindType(businessTypes, businessData.kind)).Some? ==>
        storage == old(storage)[BusinessesKey := BusinessList(businesses)]
      ensures old(FindType(businessTypes, businessData.kind)).None? ==>
        storage == old(storage)[BusinessTypesKey := BusinessTypeList(businessTypes)][BusinessesKey := BusinessList(businesses)]
      ensures currentBusinessId == old(currentBusinessId) && transactions == old(transactions)
      ensures user == old(user) && userType == old(userType) && error == old(error)
    {
      var businessType := FindType(businessTypes, businessData.kind);
      var bt: BusinessType;
      if businessType.None? {
        bt := CreateBusinessType(businessData.kind, millis, now);
      } else {
        bt := businessType.value;
      }
      newBusiness := Business("business-" + IntToString(millis), businessData.name, businessData.kind,
        businessData.calendarElection, businessData.propertyReference, bt.id, now, None);
      var updatedBusinesses := businesses + [newBusiness];
      forall i | 0 <= i < |updatedBusinesses|
        ensures HasTypeId(businessTypes, updatedBusinesses[i].businessTypeId)
      {
        if i == |businesses| {
          assert bt in businessTypes;
        } else {
          assert updatedBusinesses[i] == businesses[i];
        }
      }
      if currentBusinessId.Some? {
        var i :| 0 <= i < |businesses| && businesses[i].id == currentBusinessId.value;
        assert updatedBusinesses[i] == businesses[i];
      }
      businesses := updatedBusinesses;
      storage := storage[BusinessesKey := BusinessList(updatedBusinesses)];
    }

    /** `updateBusiness`: merges the update into the business with that id and persists the list. */
    method UpdateBusiness(businessId: string, updates: BusinessUpdate, now: string)
      requires Valid()
      modifies this
      ensures Valid()
      ensures businesses == UpdateBusinesses(old(businesses), businessId, updates, now)
      ensures storage == old(storage)[BusinessesKey := BusinessList(businesses)]
      ensures businessTypes == old(businessTypes) && currentBusinessId == old(currentBusinessId)
      ensures transactions == old(transactions) && user == old(user) && userType == old(userType) && error == old(error)
    {
      var updatedBusinesses := UpdateBusinesses(businesses, businessId, updates, now);
      UpdateKeepsLinks(businesses, businessTypes, currentBusinessId, businessId, updates, now);
      businesses := updatedBusinesses;
      storage := storage[BusinessesKey := BusinessList(updatedBusinesses)];
    }

    /** `deleteBusiness` (the later of its two identical definitions): drops the business, moves the
        current selection to the first remaining business when the current one was deleted, persists the
        list and removes the business's stored transactions. The displayed list is not reloaded. */
    method DeleteBusiness(businessId: string)
      requires Valid()
      modifies this
      ensures Valid()
      ensures businesses == RemoveBusiness(old(businesses), businessId)
      ensures currentBusinessId == NextCurrent(old(currentBusinessId), businessId, businesses)
      ensures storage == (old(storage)[BusinessesKey := BusinessList(businesses)] - {TransactionsKey(businessId)})
      ensures businessTypes == old(businessTypes) && transactions == old(transactions)
      ensures user == old(user) && userType == old(userType) && error == old(error)
    {
      var updatedBusinesses := RemoveBusiness(businesses, businessId);
      RemoveKeepsTypes(businesses, businessTypes, businessId);
      RemoveKeepsCurrent(businesses, currentBusinessId, businessId);
      var newStorage := storage[BusinessesKey := BusinessList(updatedBusinesses)] - {TransactionsKey(businessId)};
      BusinessesWriteKeepsLists(storage, businessId, businessTypes, businesses, updatedBusinesses);
      currentBusinessId, businesses, storage :=
        NextCurrent(currentBusinessId, businessId, updatedBusinesses), updatedBusinesses, newStorage;
    }

    /** `selectBusiness`: for a known id, makes it current, takes its type as the user type and loads
        its stored transactions, or its type's demo list (which it then stores) when none are stored. */
    method SelectBusiness(businessId: string)
      requires Valid()
      modifies this
      ensures Valid()
      ensures FindBusiness(old(businesses), businessId).None? ==>
        currentBusinessId == old(currentBusinessId) && userType == old(userType)
        && transactions == old(transactions) && storage == old(storage)
      ensures FindBusiness(old(businesses), businessId).Some? ==>
        var selected := FindBusiness(old(businesses), businessId).value;
        var key := TransactionsKey(businessId);
        && currentBusinessId == Some(businessId) && userType == Some(selected.kind)
        && (key in old(storage) ==>
              (storage == old(storage)
               && transactions == (if old(storage)[key].TransactionList? then old(storage)[key].transactions else [])))
        && (key !in old(storage) ==>
              (transactions == DefaultTransactions(selected.kind)
               && storage == old(storage)[key := TransactionList(transactions)]))
      ensures businesses == old(businesses) && businessTypes == old(businessTypes)
      ensures user == old(user) && error == old(error)
    {
      var selectedBusiness := FindBusiness(businesses, businessId);
      if selectedBusiness.Some? {
        assert CurrentKnown(businesses, Some(businessId));
        var key := TransactionsKey(businessId);
        var loaded, newStorage;
        if key in storage {
          loaded := if storage[key].TransactionList? then storage[key].transactions else [];
          newStorage := storage;
        } else {
          loaded := DefaultTransactions(selectedBusiness.value.kind);
          newStorage := storage[key := TransactionList(loaded)];
          StorageWriteKeepsLists(storage, key, TransactionList(loaded), businessTypes, businesses);
        }
        currentBusinessId, userType, transactions, storage := Some(businessId), Some(selectedBusiness.value.kind), loaded, newStorage;
      }
    }

    /** `getBusinessesByType`. */
    function GetBusinessesByType(businessType: string): (r: seq<Business>)
      reads this
      ensures forall i :: 0 <= i < |r| ==> r[i].kind == businessType && r[i] in businesses
      ensures forall i :: 0 <= i < |businesses| && businesses[i].kind == businessType ==> businesses[i] in r
    {
      BusinessesByType(businesses, businessType)
    }

    /** `getCurrentBusiness`: the current business, or `None` for null. */
    function GetCurrentBusiness(): (r: Option<Business>)
      reads this
      ensures r.Some? ==> r.value in businesses && Some(r.value.id) == currentBusinessId
      ensures Valid() ==> (r.Some? <==> currentBusinessId.Some?)
    {
      CurrentBusiness(businesses, currentBusinessId)
    }

    /** The checks every transaction action makes first: a signed-in user, then a (truthy) current business. */
    function Precheck(): (r: Option<StoreError>)
      reads this
      ensures r == None <==> user.Some? && Truthy(currentBusinessId)
      ensures r == Some(NoUserLoggedIn) <==> user.None?
    {
      if user.None? then Some(NoUserLoggedIn)
      else if !Truthy(currentBusinessId) then Some(NoBusinessSelected)
      else None
    }

    /** `addTransaction`: prepends a new transaction to the current business's stored list, stores the
        result and displays it; returns the new id. */
    method AddTransaction(transactionData: TransactionData, millis: int, now: string) returns (r: Result<string>)
      requires Valid()
      modifies this
      ensures Valid()
      ensures old(Precheck()).Some? ==>
        r == Err(old(Precheck()).value) && error == Some(Message(r.error))
        && transactions == old(transactions) && storage == old(storage)
      ensures old(Precheck()).None? ==>
        var current := old(currentBusinessId).value;
        var newTransaction := NewTransaction("demo-" + IntToString(millis), current, transactionData, now);
        && r == Ok(newTransaction.id)
        && transactions == [newTransaction] + old(StoredTransactions(current))
        && storage == old(storage)[TransactionsKey(current) := TransactionList(transactions)]
        && error == old(error)
      ensures businesses == old(businesses) && businessTypes == old(businessTypes)
      ensures currentBusinessId == old(currentBusinessId) && user == old(user) && userType == old(userType)
    {
      var check := Precheck();
      if check.Some? {
        error := Some(Message(check.value));
        return Err(check.value);
      }
      var current := currentBusinessId.value;
      var businessTransactions := StoredTransactions(current);
      var newTransaction := NewTransaction("demo-" + IntToString(millis), current, transactionData, now);
      var updatedTransactions := [newTransaction] + businessTransactions;
      storage := storage[TransactionsKey(current) := TransactionList(updatedTransactions)];
      transactions := updatedTransactions;
      return Ok(newTransaction.id);
    }

    /** `updateTransaction`: merges the update into every stored entry with that id, stores and displays
        the result. */
    method UpdateTransaction(transactionId: string, updates: TransactionData, now: string) returns (r: Result<()>)
      requires Valid()
      modifies this
      ensures Valid()
      ensures old(Precheck()).Some? ==>
        r == Err(old(Precheck()).value) && error == Some(Message(r.error))
        && transactions == old(transactions) && storage == old(storage)
      ensures old(Precheck()).None? ==>
        var current := old(currentBusinessId).value;
        && r == Ok(())
        && transactions == UpdateTransactions(old(StoredTransactions(current)), transactionId, updates, now)
        && storage == old(storage)[TransactionsKey(current) := TransactionList(transactions)]
        && error == old(error)
      ensures businesses == old(businesses) && businessTypes == old(businessTypes)
      ensures currentBusinessId == old(currentBusinessId) && user == old(user) && userType == old(userType)
    {
      var check := Precheck();
      if check.Some? {
        error := Some(Message(check.value));
        return Err(check.value);
      }
      var current := currentBusinessId.value;
      var businessTransactions := StoredTransactions(current);
      var updatedTransactions := UpdateTransactions(businessTransactions, transactionId, updates, now);
      storage := storage[TransactionsKey(current) := TransactionList(updatedTransactions)];
      transactions := updatedTransactions;
      return Ok(());
    }

    /** `deleteTransaction`: removes every stored entry with that id, stores and displays the result. */
    method DeleteTransaction(transactionId: string) returns (r: Result<()>)
      requires Valid()
      modifies this
      ensures Valid()
      ensures old(Precheck()).Some? ==>
        r == Err(old(Precheck()).value) && error == Some(Message(r.error))
        && transactions == old(transactions) && storage == old(storage)
      ensures old(Precheck()).None? ==>
        var current := old(currentBusinessId).value;
        && r == Ok(())
        && transactions == RemoveTransactions(old(StoredTransactions(current)), transactionId)
        && storage == old(storage)[TransactionsKey(current) := TransactionList(transactions)]
        && error == old(error)
      ensures businesses == old(businesses) && businessTypes == old(businessTypes)
      ensures currentBusinessId == old(currentBusinessId) && user == old(user) && userType == old(userType)
    {
      var check := Precheck();
      if check.Some? {
        error := Some(Message(check.value));
        return Err(check.value);
      }
      var current := currentBusinessId.value;
      var businessTransactions := StoredTransactions(current);
      var updatedTransactions := RemoveTransactions(businessTransactions, transactionId);
      storage := storage[TransactionsKey(current) := TransactionList(updatedTransactions)];
      transactions := updatedTransactions;
      return Ok(());
    }
  }

  /** Looking a type up after an append finds the old entry if there was one, else the appended one. */
  lemma {:induction false} FindTypeAppend(types: seq<BusinessType>, bt: BusinessType, kind: string)
    ensures FindType(types + [bt], kind) ==
      if FindType(types, kind).Some? then FindType(types, kind) else if bt.kind == kind then Some(bt) else None
  {
    var k := TypeIndex(types, kind);
    if k < |types| {
      assert (types + [bt])[k] == types[k];
      assert TypeIndex(types + [bt], kind) == k;
    } else {
      assert (types + [bt])[|types|] == bt;
    }
  }
}
