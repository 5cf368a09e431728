/** The records the store keeps: transactions, businesses and business types (src/store/useStore.js,
    demo mode). Optional JavaScript properties are `Option`s; a missing `notes` or `propertyReference`
    is the empty string, which every reader of those fields treats the same way. */
module Records {
  import opened Wrappers
  import opened Dates

  /** One income or expense entry. `kind` is the transaction's `type`, `"income"` or `"expense"`;
      `amount` is signed (negative for expenses written by the form); `businessId` is absent on the
      built-in demo entries. */
  datatype Transaction = Transaction(
    id: string,
    businessId: Option<string>,
    date: Date,
    kind: string,
    amount: real,
    description: string,
    category: string,
    notes: string,
    propertyReference: string,
    privateUsePercentage: int,
    isDisallowable: bool,
    receiptFileName: Option<string>,
    createdAt: string,
    updatedAt: string)

  /** The fields a transaction form submits (`transactionData`); `businessId` is absent when the caller
      leaves the store's current business to fill it in. */
  datatype TransactionData = TransactionData(
    businessId: Option<string>,
    date: Date,
    kind: string,
    amount: real,
    description: string,
    category: string,
    notes: string,
    propertyReference: string,
    privateUsePercentage: int,
    isDisallowable: bool,
    receiptFileName: Option<string>)

  /** `{ id, businessId: currentBusinessId, ...data, createdAt: now, updatedAt: now }`: the spread comes
      after `businessId`, so a business id in `data` wins over the current one. */
  function NewTransaction(id: string, currentBusinessId: string, data: TransactionData, now: string): (t: Transaction)
    ensures t.id == id && t.createdAt == now && t.updatedAt == now
    ensures t.businessId == Some(data.businessId.GetOr(currentBusinessId))
    ensures Merge(t, data, now) == t
  {
    Transaction(id, Some(data.businessId.GetOr(currentBusinessId)), data.date, data.kind, data.amount,
      data.description, data.category, data.notes, data.propertyReference, data.privateUsePercentage,
      data.isDisallowable, data.receiptFileName, now, now)
  }

  /** `{ ...t, ...updates, updatedAt: now }`: the submitted fields replace the stored ones; the id, the
      creation time and (when `updates` has none) the business id are kept. */
  function Merge(t: Transaction, updates: TransactionData, now: string): (r: Transaction)
    ensures r.id == t.id && r.createdAt == t.createdAt && r.updatedAt == now
    ensures r.businessId == (if updates.businessId.Some? then updates.businessId else t.businessId)
  {
    t.(businessId := if updates.businessId.Some? then updates.businessId else t.businessId,
       date := updates.date, kind := updates.kind, amount := updates.amount,
       description := updates.description, category := updates.category, notes := updates.notes,
       propertyReference := updates.propertyReference,
       privateUsePercentage := updates.privateUsePercentage, isDisallowable := updates.isDisallowable,
       receiptFileName := updates.receiptFileName, updatedAt := now)
  }

  /** A business: `kind` is its `type`, `"sole_trader"` or `"landlord"`; `propertyReference` is present
      only when the form supplied one; `updatedAt` appears after the first update. */
  datatype Business = Business(
    id: string,
    name: string,
    kind: string,
    calendarElection: bool,
    propertyReference: Option<string>,
    businessTypeId: string,
    createdAt: string,
    updatedAt: Option<string>)

  /** The payload of `addBusiness`. */
  datatype BusinessData = BusinessData(
    name: string,
    kind: string,
    calendarElection: bool,
    propertyReference: Option<string>)

  /** The payload of `updateBusiness` as the edit form builds it. */
  datatype BusinessUpdate = BusinessUpdate(name: string, kind: string, calendarElection: bool)

  /** A group of businesses of one type (its `businesses` list is always empty and is not modelled). */
  datatype BusinessType = BusinessType(
    id: string,
    kind: string,
    name: string,
    calendarElection: bool,
    createdAt: string)
}
