/** The write path of the transaction form (src/components/transactions/TransactionForm.jsx:62-165,
    404-428): which categories are offered, how a submitted form becomes a transaction payload, and
    which store actions a submission runs. */
module TransactionForm {
  import opened Wrappers
  import opened Text
  import opened Seqs
  import opened Dates
  import opened Records
  import opened Categories
  import opened Ledger
  import opened Store

  /** The registered form fields as submitted. `businessId` is `''` when nothing is chosen; `kind` is the
      `type` select (`''` before a choice); `amount` is the parsed amount field. */
  datatype FormValues = FormValues(
    businessId: string,
    date: Date,
    kind: string,
    amount: real,
    description: string,
    category: string,
    notes: string,
    propertyReference: string)

  /** The component state kept outside the form: the expense adjustments and the uploaded receipt. */
  datatype FormState = FormState(
    privateUsePercentage: int,
    isDisallowable: bool,
    uploadedFileName: Option<string>)

  predicate IsIncomeCategory(c: Category) {
    c.kind == "income"
  }

  predicate IsExpenseCategory(c: Category) {
    c.kind == "expense"
  }

  /** `availableCategories`: the selected business type's categories (sole trader when no business is
      selected) of kind income when the chosen type is `'income'`, and of kind expense for any other
      choice, including none. */
  function AvailableCategories(selected: Option<Business>, kind: string): (r: seq<Category>)
    ensures var cats := GetUserCategories(Some(if selected.Some? then selected.value.kind else "sole_trader"));
      && (forall i :: 0 <= i < |r| ==> r[i] in cats)
      && (forall i :: 0 <= i < |r| ==> r[i].kind == (if kind == "income" then "income" else "expense"))
      && (forall i :: 0 <= i < |cats| && cats[i].kind == (if kind == "income" then "income" else "expense") ==> cats[i] in r)
  {
    var cats := GetUserCategories(Some(if selected.Some? then selected.value.kind else "sole_trader"));
    if kind == "income" then Filter(cats, IsIncomeCategory) else Filter(cats, IsExpenseCategory)
  }

  /** A sole trader is offered 2 income and 17 expense categories, a landlord 4 and 8. */
  lemma AvailableCategoryCounts(selected: Option<Business>)
    ensures selected.None? ==> |AvailableCategories(selected, "income")| == 2 && |AvailableCategories(selected, "expense")| == 17
    ensures selected.Some? && selected.value.kind == "landlord" ==>
      |AvailableCategories(selected, "income")| == 4 && |AvailableCategories(selected, "")| == 8
  {
    if selected.None? {
      OfferedList(selected, "income");
      OfferedList(selected, "expense");
      SoleTraderSplit();
    } else if selected.value.kind == "landlord" {
      OfferedList(selected, "income");
      OfferedList(selected, "");
      LandlordSplit();
    }
  }

  /** The offered list is the income or expense filter of the landlord list for a selected landlord
      business, and of the sole-trader list otherwise. */
  lemma OfferedList(selected: Option<Business>, kind: string)
    ensures var cats := if selected.Some? && selected.value.kind == "landlord" then LandlordCategories else SoleTraderCategories;
      AvailableCategories(selected, kind) == if kind == "income" then Filter(cats, IsIncomeCategory) else Filter(cats, IsExpenseCategory)
  {
  }

  lemma SoleTraderSplit()
    ensures |Filter(SoleTraderCategories, IsIncomeCategory)| == 2
    ensures |Filter(SoleTraderCategories, IsExpenseCategory)| == 17
  {
    TaxonomyKinds();
    SoleTraderShape();
    FilterSplit(SoleTraderCategories, 2, IsIncomeCategory, IsExpenseCategory);
  }

  lemma LandlordSplit()
    ensures |Filter(LandlordCategories, IsIncomeCategory)| == 4
    ensures |Filter(LandlordCategories, IsExpenseCategory)| == 8
  {
    TaxonomyKinds();
    LandlordShape();
    FilterSplit(LandlordCategories, 4, IsIncomeCategory, IsExpenseCategory);
  }

  /** When `p` holds on exactly the first `k` elements and `q` on exactly the rest, filtering by `p`
      keeps `k` elements and filtering by `q` keeps the other `|s| - k`. */
  lemma FilterSplit<T>(s: seq<T>, k: nat, p: T -> bool, q: T -> bool)
    requires k <= |s|
    requires forall i :: 0 <= i < k ==> p(s[i]) && !q(s[i])
    requires forall i :: k <= i < |s| ==> !p(s[i]) && q(s[i])
    ensures |Filter(s, p)| == k && |Filter(s, q)| == |s| - k
  {
    FilterFrontCount(s, k, p);
    FilterBackCount(s, k, q);
  }

  /** Filtering by a predicate that holds exactly on the first `k` elements keeps `k` of them. */
  lemma {:induction false} FilterFrontCount<T>(s: seq<T>, k: nat, p: T -> bool)
    requires k <= |s|
    requires forall i :: 0 <= i < k ==> p(s[i])
    requires forall i :: k <= i < |s| ==> !p(s[i])
    ensures |Filter(s, p)| == k
  {
    if |s| == k {
      FilterAll(s, p);
    } else {
      var init := s[..|s| - 1];
      assert Filter(s, p) == Filter(init, p);
      FilterFrontCount(init, k, p);
    }
  }

  /** Filtering by a predicate that holds exactly after the first `k` elements keeps `|s| - k`. */
  lemma {:induction false} FilterBackCount<T>(s: seq<T>, k: nat, q: T -> bool)
    requires k <= |s|
    requires forall i :: 0 <= i < k ==> !q(s[i])
    requires forall i :: k <= i < |s| ==> q(s[i])
    ensures |Filter(s, q)| == |s| - k
  {
    if |s| == k {
      FilterNone(s, q);
    } else {
      var init := s[..|s| - 1];
      assert Filter(s, q) == Filter(init, q) + [s[|s| - 1]];
      FilterBackCount(init, k, q);
    }
  }

  lemma {:induction false} FilterNone<T>(s: seq<T>, p: T -> bool)
    requires forall i :: 0 <= i < |s| ==> !p(s[i])
    ensures Filter(s, p) == []
  {
    if s != [] {
      FilterNone(s[..|s| - 1], p);
    }
  }

  /** `data.businessId || currentBusinessId`. */
  function ResolveBusinessId(formBusinessId: string, current: Option<string>): Option<string> {
    if formBusinessId != "" then Some(formBusinessId) else current
  }

  /** The amount written: `-Math.abs(amount)` for an expense, `Math.abs(amount)` for anything else. */
  function SignedAmount(kind: string, amount: real): (r: real)
    ensures Abs(r) == Abs(amount)
    ensures kind == "expense" ==> r <= 0.0
    ensures kind != "expense" ==> r >= 0.0
  {
    if kind == "expense" then -Abs(amount) else Abs(amount)
  }

  /** `uploadedFile?.name || null`. */
  function ReceiptName(uploaded: Option<string>): (r: Option<string>)
    ensures r.Some? <==> uploaded.Some? && uploaded.value != ""
    ensures r.Some? ==> r == uploaded
  {
    if uploaded.Some? && uploaded.value != "" then uploaded else None
  }

  /** The `transactionData` that `onSubmit` hands to the store: the form fields with the resolved business
      id, the signed amount, adjustments only for an expense, and a property reference only for a
      landlord business. */
  function Payload(form: FormValues, state: FormState, businessId: string, selected: Option<Business>): (d: TransactionData)
    ensures d.businessId == Some(businessId) && d.kind == form.kind && d.date == form.date
    ensures d.description == form.description && d.category == form.category && d.notes == form.notes
    ensures Abs(d.amount) == Abs(form.amount)
    ensures d.kind == "expense" ==> d.amount <= 0.0
    ensures d.kind != "expense" ==> d.amount >= 0.0
    ensures d.kind == "expense" ==> d.privateUsePercentage == state.privateUsePercentage && d.isDisallowable == state.isDisallowable
    ensures d.kind != "expense" ==> d.privateUsePercentage == 0 && !d.isDisallowable
    ensures d.propertyReference != "" ==>
      selected.Some? && selected.value.kind == "landlord" && d.propertyReference == form.propertyReference
    ensures selected.Some? && selected.value.kind == "landlord" ==> d.propertyReference == form.propertyReference
    ensures d.receiptFileName == ReceiptName(state.uploadedFileName)
  {
    var isExpense := form.kind == "expense";
    TransactionData(Some(businessId), form.date, form.kind, SignedAmount(form.kind, form.amount),
      form.description, form.category, form.notes,
      if selected.Some? && selected.value.kind == "landlord" then form.propertyReference else "",
      if isExpense then state.privateUsePercentage else 0,
      isExpense && state.isDisallowable,
      ReceiptName(state.uploadedFileName))
  }

  /** The deductible preview under the slider: `amount * (100 - p) / 100`. */
  function PreviewDeductible(amount: real, p: int): real {
    amount * (100 - p) as real / 100.0
  }

  /** The private-share preview: `amount * p / 100`. */
  function PreviewPrivate(amount: real, p: int): real {
    amount * p as real / 100.0
  }

  /** What a saved transaction will count as deductible: its full size unless it is an expense; for an
      expense with a slider percentage, between 0 and its size, 0 when disallowable, and exactly the
      previewed amount (for a non-negative typed amount) when allowable with a positive percentage. The
      two previews add up to the typed amount. */
  lemma PayloadDeductible(form: FormValues, state: FormState, businessId: string, selected: Option<Business>,
                          id: string, current: string, now: string)
    ensures var t := NewTransaction(id, current, Payload(form, state, businessId, selected), now);
      && (form.kind != "expense" ==> TaxDeductible(t) == Abs(form.amount))
      && (form.kind == "expense" && 0 <= state.privateUsePercentage <= 100 ==>
            0.0 <= TaxDeductible(t) <= Abs(form.amount))
      && (form.kind == "expense" && state.isDisallowable ==> TaxDeductible(t) == 0.0)
      && (form.kind == "expense" && !state.isDisallowable && 0 < state.privateUsePercentage && form.amount >= 0.0 ==>
            TaxDeductible(t) == PreviewDeductible(form.amount, state.privateUsePercentage))
    ensures PreviewPrivate(form.amount, state.privateUsePercentage)
      + PreviewDeductible(form.amount, state.privateUsePercentage) == form.amount
  {
    var d := Payload(form, state, businessId, selected);
    var t := NewTransaction(id, current, d, now);
    assert t.kind == form.kind && t.amount == d.amount;
    if form.kind != "expense" && form.kind != "income" {
      assert t.privateUsePercentage == 0 && !t.isDisallowable;
      assert TaxDeductible(t) == Abs(t.amount);
    }
  }

  /** How a submission ended: no business to save to (the alert), saved, or refused by the store. */
  datatype Outcome = NoBusinessChosen | Saved | Failed(error: StoreError)

  /** The list the save starts from once the business is resolved: the stored list of the business
      (`[]` when none), or, when the submission first selects that business and nothing is stored for
      it, the demo list `selectBusiness` stores. */
  function BaseList(stored: seq<Transaction>, keyStored: bool, reselected: bool, kind: string): seq<Transaction> {
    if reselected && !keyStored then DefaultTransactions(kind) else stored
  }

  /** The save at the end of `onSubmit`: `updateTransaction(editing.id, payload)` when a transaction is
      being edited, otherwise `addTransaction(payload)`; exactly one of them runs. */
  method Save(store: Store, payload: TransactionData, editing: Option<Transaction>, millis: int, now: string)
      returns (outcome: Outcome)
    requires store.Valid()
    modifies store
    ensures store.Valid()
    ensures outcome != NoBusinessChosen
    ensures outcome == Saved <==> old(store.Precheck()).None?
    ensures store.businesses == old(store.businesses) && store.businessTypes == old(store.businessTypes)
    ensures store.currentBusinessId == old(store.currentBusinessId)
    ensures store.user == old(store.user) && store.userType == old(store.userType)
    ensures outcome != Saved ==> store.transactions == old(store.transactions) && store.storage == old(store.storage)
    ensures outcome.Failed? ==> outcome.error == old(store.Precheck()).value && store.error == Some(Message(outcome.error))
    ensures outcome == Saved ==>
      var current := old(store.currentBusinessId).value;
      && store.storage == old(store.storage)[TransactionsKey(current) := TransactionList(store.transactions)]
      && store.error == old(store.error)
      && (editing.None? ==>
            store.transactions == [NewTransaction("demo-" + IntToString(millis), current, payload, now)]
                                  + old(store.StoredTransactions(current)))
      && (editing.Some? ==>
            store.transactions == UpdateTransactions(old(store.StoredTransactions(current)), editing.value.id, payload, now))
  {
    if editing.Some? {
      var r := store.UpdateTransaction(editing.value.id, payload, now);
      outcome := if r.Ok? then Saved else Failed(r.error);
    } else {
      var r := store.AddTransaction(payload, millis, now);
      outcome := if r.Ok? then Saved else Failed(r.error);
    }
  }

  /** The part of the store that the selection step of `onSubmit` may change, as a value. */
  datatype Selection = Selection(currentBusinessId: Option<string>, userType: Option<string>,
                                 transactions: seq<Transaction>, storage: map<string, Stored>)

  /** What `selectBusiness(businessId)` leaves when a submission selects the business: nothing changes
      when it is already current (no call) or unknown; otherwise it becomes current, its type becomes the
      user type, and its stored list is shown, or its type's demo list, stored too, when nothing is stored
      under its key. */
  function AfterReselect(businesses: seq<Business>, before: Selection, businessId: string): Selection {
    var found := FindBusiness(businesses, businessId);
    var key := TransactionsKey(businessId);
    if before.currentBusinessId == Some(businessId) || found.None? then before
    else if key in before.storage then
      Selection(Some(businessId), Some(found.value.kind),
                if before.storage[key].TransactionList? then before.storage[key].transactions else [], before.storage)
    else
      Selection(Some(businessId), Some(found.value.kind), DefaultTransactions(found.value.kind),
                before.storage[key := TransactionList(DefaultTransactions(found.value.kind))])
  }

  /** After selecting a known business, it is current, the list shown is the one a later read of its key
      gives, and no other stored key changes. */
  lemma SelectionShowsStored(businesses: seq<Business>, before: Selection, businessId: string)
    requires FindBusiness(businesses, businessId).Some?
    ensures var r := AfterReselect(businesses, before, businessId);
      var key := TransactionsKey(businessId);
      && r.currentBusinessId == Some(businessId)
      && r.storage - {key} == before.storage - {key}
      && (before.currentBusinessId != Some(businessId) ==>
            && r.userType == Some(FindBusiness(businesses, businessId).value.kind)
            && key in r.storage
            && r.transactions == (if r.storage[key].TransactionList? then r.storage[key].transactions else []))
  {
    var key := TransactionsKey(businessId);
    if before.currentBusinessId != Some(businessId) && key !in before.storage {
      assert before.storage[key := TransactionList(DefaultTransactions(FindBusiness(businesses, businessId).value.kind))] - {key}
          == before.storage - {key};
    }
  }

  /** The selection step of `onSubmit`: `selectBusiness(businessId)` when the resolved id is not the
      current one. For a known business it leaves that business current, with `BaseList` as its list. */
  method Reselect(store: Store, businessId: string)
    requires store.Valid()
    modifies store
    ensures store.Valid()
    ensures store.businesses == old(store.businesses) && store.businessTypes == old(store.businessTypes)
    ensures store.user == old(store.user) && store.error == old(store.error)
    ensures Selection(store.currentBusinessId, store.userType, store.transactions, store.storage)
      == AfterReselect(old(store.businesses),
                       old(Selection(store.currentBusinessId, store.userType, store.transactions, store.storage)), businessId)
    ensures FindBusiness(old(store.businesses), businessId).Some? ==>
      && store.currentBusinessId == Some(businessId)
      && store.StoredTransactions(businessId) ==
           BaseList(old(store.StoredTransactions(businessId)), TransactionsKey(businessId) in old(store.storage),
                    old(store.currentBusinessId) != Some(businessId), FindBusiness(old(store.businesses), businessId).value.kind)
  {
    if Some(businessId) != store.currentBusinessId {
      store.SelectBusiness(businessId);
    }
  }

  /** `onSubmit`: resolves the business id (alerting when there is none), selects the business when it is
      not the current one, builds the payload, fixes the amount's sign, then saves. */
  method Submit(store: Store, form: FormValues, state: FormState, editing: Option<Transaction>, millis: int, now: string)
      returns (outcome: Outcome)
    requires store.Valid()
    modifies store
    ensures store.Valid()
    ensures !Truthy(ResolveBusinessId(form.businessId, old(store.currentBusinessId))) ==>
      outcome == NoBusinessChosen && unchanged(store)
    ensures Truthy(ResolveBusinessId(form.businessId, old(store.currentBusinessId))) ==> outcome != NoBusinessChosen
    ensures store.businesses == old(store.businesses) && store.businessTypes == old(store.businessTypes)
    ensures store.user == old(store.user)
    ensures Truthy(ResolveBusinessId(form.businessId, old(store.currentBusinessId))) ==>
      var businessId := ResolveBusinessId(form.businessId, old(store.currentBusinessId)).value;
      var sel := AfterReselect(old(store.businesses),
                               old(Selection(store.currentBusinessId, store.userType, store.transactions, store.storage)), businessId);
      && store.currentBusinessId == sel.currentBusinessId && store.userType == sel.userType
      && (outcome == Saved <==> old(store.user).Some? && Truthy(sel.currentBusinessId))
      && (outcome.Failed? ==>
            && outcome.error == (if old(store.user).None? then NoUserLoggedIn else NoBusinessSelected)
            && store.error == Some(Message(outcome.error))
            && store.transactions == sel.transactions && store.storage == sel.storage)
      && (outcome == Saved ==>
            && store.storage == sel.storage[TransactionsKey(sel.currentBusinessId.value) := TransactionList(store.transactions)]
            && store.error == old(store.error))
    ensures outcome == Saved ==>
      var businessId := ResolveBusinessId(form.businessId, old(store.currentBusinessId)).value;
      FindBusiness(old(store.businesses), businessId).None? ==>
      var current := old(store.currentBusinessId).value;
      var payload := Payload(form, state, businessId, None);
      && (editing.None? ==>
            store.transactions == [NewTransaction("demo-" + IntToString(millis), current, payload, now)]
                                  + old(store.StoredTransactions(current)))
      && (editing.Some? ==>
            store.transactions == UpdateTransactions(old(store.StoredTransactions(current)), editing.value.id, payload, now))
    ensures outcome == Saved ==>
      var businessId := ResolveBusinessId(form.businessId, old(store.currentBusinessId)).value;
      FindBusiness(old(store.businesses), businessId).Some? ==>
      var selected := FindBusiness(old(store.businesses), businessId);
      var payload := Payload(form, state, businessId, selected);
      var base := BaseList(old(store.StoredTransactions(businessId)), TransactionsKey(businessId) in old(store.storage),
                           old(store.currentBusinessId) != Some(businessId), selected.value.kind);
      && store.currentBusinessId == Some(businessId)
      && (editing.None? ==> store.transactions == [NewTransaction("demo-" + IntToString(millis), businessId, payload, now)] + base)
      && (editing.Some? ==> store.transactions == UpdateTransactions(base, editing.value.id, payload, now))
  {
    var businessId := ResolveBusinessId(form.businessId, store.currentBusinessId);
    if !Truthy(businessId) {
      return NoBusinessChosen;
    }
    var selectedBusiness := FindBusiness(store.businesses, businessId.value);
    Reselect(store, businessId.value);
    var transactionData := Payload(form, state, businessId.value, selectedBusiness).(amount := form.amount);
    if form.kind == "expense" {
      transactionData := transactionData.(amount := -Abs(transactionData.amount));
    } else {
      transactionData := transactionData.(amount := Abs(transactionData.amount));
    }
    assert transactionData == Payload(form, state, businessId.value, selectedBusiness);
    outcome := Save(store, transactionData, editing, millis, now);
  }
}
