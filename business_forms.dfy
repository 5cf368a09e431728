/** The business screens (src/components/business/): the add form, the edit form and the business
    manager's list actions, each driving the store. */
module BusinessForms {
  import opened Wrappers
  import opened Text
  import opened Records
  import opened Dates
  import opened TaxCalendar
  import opened Store

  // ---- Shared form fields ----

  /** The calendar-election field: the boolean default, or the string value of the chosen radio button. */
  datatype ElectionInput = Flag(flag: bool) | Radio(text: string)

  /** `data.calendarElection === 'true' || data.calendarElection === true`. */
  function Elected(e: ElectionInput): (r: bool)
    ensures r <==> e == Flag(true) || e == Radio("true")
  {
    match e
    case Flag(b) => b
    case Radio(s) => s == "true"
  }

  /** The name field's rules: required, then at least 2 characters; both look at the text as typed,
      before trimming. `None` when the name is accepted. */
  function NameError(name: string): (r: Option<string>)
    ensures r.None? <==> |name| >= 2
    ensures name == [] ==> r == Some("Business name is required")
  {
    if name == [] then Some("Business name is required")
    else if |name| < 2 then Some("Business name must be at least 2 characters")
    else None
  }

  /** A name of blanks passes both rules and is saved empty: the length rule is applied before trimming. */
  lemma BlankNameAccepted(name: string)
    requires |name| >= 2 && AllWhitespace(name)
    ensures NameError(name).None? && Trim(name) == []
  {
    TrimEmptyIffAllWhitespace(name);
  }

  // ---- Add business ----

  /** The add form's fields. `kind` is the type selector's value. */
  datatype AddFormValues = AddFormValues(name: string, kind: string, calendarElection: ElectionInput,
                                         propertyReference: string)

  /** `watchType`: the type the form was opened for, else the selector's value. */
  function AddFormType(businessType: Option<string>, values: AddFormValues): (r: string)
    ensures businessType.Some? && businessType.value != "" ==> r == businessType.value
    ensures businessType.None? || businessType.value == "" ==> r == values.kind
  {
    if businessType.Some? && businessType.value != "" then businessType.value else values.kind
  }

  /** `businessData`: the trimmed name, the type, the coerced election, and the trimmed property
      reference only for a landlord with a non-empty (untrimmed) reference field. */
  function AddBusinessPayload(businessType: Option<string>, values: AddFormValues): (r: BusinessData)
    ensures r.name == Trim(values.name) && r.kind == AddFormType(businessType, values)
    ensures r.calendarElection <==> values.calendarElection == Flag(true) || values.calendarElection == Radio("true")
    ensures r.propertyReference.Some? <==> r.kind == "landlord" && values.propertyReference != ""
    ensures r.propertyReference.Some? ==> r.propertyReference.value == Trim(values.propertyReference)
  {
    var kind := AddFormType(businessType, values);
    BusinessData(Trim(values.name), kind, Elected(values.calendarElection),
                 if kind == "landlord" && values.propertyReference != "" then Some(Trim(values.propertyReference)) else None)
  }

  /** The saved name and reference carry no surrounding white space. */
  lemma PayloadTrimmed(businessType: Option<string>, values: AddFormValues)
    ensures var r := AddBusinessPayload(businessType, values);
      && (r.name != [] ==> !IsWhitespace(r.name[0]) && !IsWhitespace(r.name[|r.name| - 1]))
      && (r.propertyReference.Some? && r.propertyReference.value != [] ==>
            !IsWhitespace(r.propertyReference.value[0]))
  {
    var r := AddBusinessPayload(businessType, values);
    assert r.name == Trim(values.name);
    TrimIsIdempotent(values.name);
    if r.propertyReference.Some? {
      assert r.propertyReference.value == Trim(values.propertyReference);
      TrimIsIdempotent(values.propertyReference);
    }
  }

  /** A sole-trader business never carries a property reference. */
  lemma SoleTraderHasNoReference(businessType: Option<string>, values: AddFormValues)
    requires AddFormType(businessType, values) == "sole_trader"
    ensures AddBusinessPayload(businessType, values).propertyReference.None?
  {
  }

  datatype SubmitOutcome = Rejected(message: string) | Submitted

  /** `onSubmit` of the add form, reached only when the name passes its rules: ensures the type's entry
      exists, then adds the business. */
  method SubmitAddBusiness(store: Store, businessType: Option<string>, values: AddFormValues, millis: int, now: string)
      returns (outcome: SubmitOutcome)
    requires store.Valid()
    modifies store
    ensures store.Valid()
    ensures NameError(values.name).Some? ==> outcome == Rejected(NameError(values.name).value) && unchanged(store)
    ensures NameError(values.name).None? ==>
      var data := AddBusinessPayload(businessType, values);
      && outcome == Submitted
      && |store.businesses| == |old(store.businesses)| + 1
      && store.businesses[..|old(store.businesses)|] == old(store.businesses)
      && var added := store.businesses[|old(store.businesses)|];
      && added == Business("business-" + IntToString(millis), data.name, data.kind, data.calendarElection,
                           data.propertyReference, added.businessTypeId, now, None)
      && FindType(store.businessTypes, data.kind).Some?
      && added.businessTypeId == FindType(store.businessTypes, data.kind).value.id
      && (old(FindType(store.businessTypes, data.kind)).Some? ==>
            store.businessTypes == old(store.businessTypes)
            && store.storage == old(store.storage)[BusinessesKey := BusinessList(store.businesses)])
      && (old(FindType(store.businessTypes, data.kind)).None? ==>
            store.businessTypes == old(store.businessTypes)
              + [BusinessType("type-" + data.kind + "-" + IntToString(millis), data.kind, TypeName(data.kind), false, now)]
            && store.storage == old(store.storage)[BusinessTypesKey := BusinessTypeList(store.businessTypes)]
                                                  [BusinessesKey := BusinessList(store.businesses)])
      && store.currentBusinessId == old(store.currentBusinessId) && store.transactions == old(store.transactions)
      && store.user == old(store.user) && store.userType == old(store.userType) && store.error == old(store.error)
  {
    var nameError := NameError(values.name);
    if nameError.Some? {
      return Rejected(nameError.value);
    }
    var data := AddBusinessPayload(businessType, values);
    var _ := store.CreateBusinessType(data.kind, millis, now);
    var added := store.AddBusiness(data, millis, now);
    outcome := Submitted;
  }

  // ---- Edit business ----

  /** The edit form's fields; `kind` has no input and keeps the value the form was reset to. */
  datatype EditFormValues = EditFormValues(name: string, kind: string, calendarElection: ElectionInput)

  /** The values the form is reset to for `business`. */
  function EditDefaults(business: Business): (r: EditFormValues)
    ensures r.name == business.name && r.kind == business.kind && Elected(r.calendarElection) == business.calendarElection
  {
    EditFormValues(business.name, business.kind, Flag(business.calendarElection))
  }

  /** `businessData` of the edit form: trimmed name, type, coerced election. */
  function EditBusinessPayload(values: EditFormValues): (r: BusinessUpdate)
    ensures r.name == Trim(values.name) && r.kind == values.kind
    ensures r.calendarElection <==> values.calendarElection == Flag(true) || values.calendarElection == Radio("true")
  {
    BusinessUpdate(Trim(values.name), values.kind, Elected(values.calendarElection))
  }

  /** Saving the form untouched changes a business whose name is already trimmed only in `updatedAt`. */
  lemma UntouchedEditKeepsBusiness(business: Business, now: string)
    requires Trim(business.name) == business.name
    ensures MergeBusiness(business, EditBusinessPayload(EditDefaults(business)), now) == business.(updatedAt := Some(now))
  {
  }

  /** An edit never changes a business's type. */
  lemma EditKeepsType(business: Business, name: string, election: ElectionInput, now: string)
    ensures var values := EditDefaults(business).(name := name, calendarElection := election);
      MergeBusiness(business, EditBusinessPayload(values), now).kind == business.kind
  {
  }

  /** `onSubmit` of the edit form, reached only when the name passes its rules: updates the business
      with the edited one's id. */
  method SubmitEditBusiness(store: Store, business: Business, values: EditFormValues, now: string)
      returns (outcome: SubmitOutcome)
    requires store.Valid()
    modifies store
    ensures store.Valid()
    ensures NameError(values.name).Some? ==> outcome == Rejected(NameError(values.name).value) && unchanged(store)
    ensures NameError(values.name).None? ==>
      && outcome == Submitted
      && store.businesses == UpdateBusinesses(old(store.businesses), business.id, EditBusinessPayload(values), now)
      && store.storage == old(store.storage)[BusinessesKey := BusinessList(store.businesses)]
      && store.businessTypes == old(store.businessTypes) && store.currentBusinessId == old(store.currentBusinessId)
      && store.transactions == old(store.transactions)
      && store.user == old(store.user) && store.userType == old(store.userType) && store.error == old(store.error)
  {
    var nameError := NameError(values.name);
    if nameError.Some? {
      return Rejected(nameError.value);
    }
    store.UpdateBusiness(business.id, EditBusinessPayload(values), now);
    outcome := Submitted;
  }

  /** `hasOtherLandlordBusiness`: some landlord business other than the one edited (every business when
      none is edited, since `undefined` equals no id). Computed by the form but not used by it. */
  function HasOtherLandlordBusiness(bs: seq<Business>, business: Option<Business>): (r: bool)
    ensures r <==> exists i :: 0 <= i < |bs| && bs[i].kind == "landlord" && (business.None? || bs[i].id != business.value.id)
  {
    if bs == [] then false
    else if bs[0].kind == "landlord" && (business.None? || bs[0].id != business.value.id) then true
    else
      var rest := HasOtherLandlordBusiness(bs[1..], business);
      assert forall i :: 0 < i < |bs| ==> bs[i] == bs[1..][i - 1];
      rest
  }

  /** A user's only landlord business is not "another" one when it is the one edited. */
  lemma OnlyLandlordIsNotOther(bs: seq<Business>, business: Business)
    requires forall i :: 0 <= i < |bs| && bs[i].kind == "landlord" ==> bs[i].id == business.id
    ensures !HasOtherLandlordBusiness(bs, Some(business))
  {
  }

  // ---- Business manager ----

  /** `formatTaxYear`. */
  function FormatTaxYear(calendarElection: bool): string {
    if calendarElection then "1 Jan - 31 Dec" else "6 Apr - 5 Apr"
  }

  /** The manager's label for an elected business names 1 January, while the windows such a business
      reports on start on 1 April; without the election both say 6 April. */
  lemma TaxYearLabelVersusWindows(taxYear: int)
    ensures FormatTaxYear(true)[..5] == "1 Jan" && QuarterStart(taxYear, true) == Date(taxYear, 3, 1)
    ensures FormatTaxYear(false)[..5] == "6 Apr" && QuarterStart(taxYear, false) == Date(taxYear, 3, 6)
  {
  }

  /** The new `activeDropdown` after `toggleDropdown(businessId)`: closed if that menu was open,
      otherwise that menu. */
  function Toggled(active: Option<string>, businessId: string): (r: Option<string>)
    ensures r.None? <==> active == Some(businessId)
    ensures r.Some? ==> r == Some(businessId)
  {
    if active == Some(businessId) then None else Some(businessId)
  }

  /** Toggling the same menu twice restores the state exactly when no other menu was open. */
  lemma ToggleTwice(active: Option<string>, businessId: string)
    ensures Toggled(Toggled(active, businessId), businessId) == active <==> active.None? || active == Some(businessId)
  {
  }

  /** Distinct ids, as `"business-" + Date.now()` gives for businesses created at different times. */
  predicate DistinctIds(bs: seq<Business>) {
    forall i, j :: 0 <= i < j < |bs| ==> bs[i].id != bs[j].id
  }

  /** With two or more businesses of distinct ids, deleting one leaves at least one. */
  lemma DeleteLeavesABusiness(bs: seq<Business>, id: string)
    requires |bs| >= 2 && DistinctIds(bs)
    ensures RemoveBusiness(bs, id) != []
  {
    var k := if bs[0].id != id then 0 else 1;
    assert bs[k].id != id;
    assert bs[k] in RemoveBusiness(bs, id);
  }

  /** The manager's own state: which business's menu is open and which business is being edited. */
  class ManagerView {
    var activeDropdown: Option<string>
    var editingBusiness: Option<Business>
    var showEditForm: bool

    constructor ()
      ensures activeDropdown.None? && editingBusiness.None? && !showEditForm
    {
      activeDropdown := None;
      editingBusiness := None;
      showEditForm := false;
    }

    /** `toggleDropdown`. */
    method ToggleDropdown(businessId: string)
      modifies this
      ensures activeDropdown == Toggled(old(activeDropdown), businessId)
      ensures editingBusiness == old(editingBusiness) && showEditForm == old(showEditForm)
    {
      activeDropdown := Toggled(activeDropdown, businessId);
    }

    /** `handleEditBusiness`: opens the edit form on the business and closes the menu. */
    method HandleEditBusiness(business: Business)
      modifies this
      ensures editingBusiness == Some(business) && showEditForm && activeDropdown.None?
    {
      editingBusiness := Some(business);
      showEditForm := true;
      activeDropdown := None;
    }

    /** `handleDeleteBusiness`: refuses to delete the last business (the menu stays as it was); otherwise
        deletes the business if the user confirms, and closes the menu either way. */
    method HandleDeleteBusiness(store: Store, business: Business, confirmed: bool)
      requires store.Valid()
      modifies this, store
      ensures store.Valid()
      ensures editingBusiness == old(editingBusiness) && showEditForm == old(showEditForm)
      ensures |old(store.businesses)| == 1 ==> unchanged(store) && activeDropdown == old(activeDropdown)
      ensures |old(store.businesses)| != 1 ==> activeDropdown.None?
      ensures |old(store.businesses)| != 1 && !confirmed ==> unchanged(store)
      ensures |old(store.businesses)| != 1 && confirmed ==>
        && store.businesses == RemoveBusiness(old(store.businesses), business.id)
        && store.currentBusinessId == NextCurrent(old(store.currentBusinessId), business.id, store.businesses)
        && store.storage == (old(store.storage)[BusinessesKey := BusinessList(store.businesses)]
                             - {TransactionsKey(business.id)})
        && store.businessTypes == old(store.businessTypes) && store.transactions == old(store.transactions)
        && store.user == old(store.user) && store.userType == old(store.userType) && store.error == old(store.error)
    {
      if |store.businesses| == 1 {
        return;
      }
      if confirmed {
        store.DeleteBusiness(business.id);
      }
      activeDropdown := None;
    }
  }
}
