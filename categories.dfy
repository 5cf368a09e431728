/** The fixed HMRC category taxonomies of the two business types, and their look-ups
    (src/config/categories.js). */
module Categories {
  import opened Wrappers

  /** One category: its id, its display label (`title`) and its type, `"income"` or `"expense"`. */
  datatype Category = Category(id: string, title: string, kind: string)

  const SoleTraderCategories: seq<Category> := [
    Category("turnover", "Turnover", "income"),
    Category("other_income", "Other Income", "income"),
    Category("cost_of_goods", "Cost of Goods", "expense"),
    Category("other_direct_costs", "Other Direct Costs", "expense"),
    Category("construction_subcontractor", "Construction Industry Subcontractor Costs", "expense"),
    Category("employee_costs", "Employee Costs", "expense"),
    Category("motor_expenses", "Motor Expenses", "expense"),
    Category("travel_subsistence", "Travel and Subsistence", "expense"),
    Category("premises_costs", "Premises Costs", "expense"),
    Category("repairs", "Repairs", "expense"),
    Category("admin_expenses", "General Administrative Expenses", "expense"),
    Category("entertainment", "Business Entertainment Costs", "expense"),
    Category("advertising", "Advertising and Promotion Costs", "expense"),
    Category("interest", "Interest", "expense"),
    Category("financial_charges", "Other Financial Charges", "expense"),
    Category("bad_debts", "Bad Debts", "expense"),
    Category("legal_professional", "Legal and Professional Costs", "expense"),
    Category("depreciation", "Depreciation and Loss/Profit on Sale of Assets", "expense"),
    Category("other_business", "Other Business Expenses", "expense")
  ]

  const LandlordCategories: seq<Category> := [
    Category("income", "Income", "income"),
    Category("other_income", "Other Income", "income"),
    Category("lease_premiums", "Lease Premiums", "income"),
    Category("reverse_premiums", "Reverse Premiums", "income"),
    Category("premises_costs", "Premises Costs", "expense"),
    Category("repairs_maintenance", "Repairs and Maintenance", "expense"),
    Category("financial_costs", "Financial Costs", "expense"),
    Category("professional_fees", "Professional Fees", "expense"),
    Category("cost_of_services", "Cost of Services", "expense"),
    Category("travel_costs", "Travel Costs", "expense"),
    Category("other_costs", "Other Costs", "expense"),
    Category("residential_finance", "Residential Finance Costs for Current Period", "expense")
  ]

  /** No id appears twice in `cats`. */
  predicate UniqueIds(cats: seq<Category>) {
    forall i, j :: 0 <= i < j < |cats| ==> cats[i].id != cats[j].id
  }

  /** The categories of a user type: `"landlord"` selects the landlord list, `"sole_trader"`, any other
      string and a missing type (`None`) select the sole-trader list. */
  function GetUserCategories(userType: Option<string>): (r: seq<Category>)
    ensures r == LandlordCategories || r == SoleTraderCategories
    ensures r == LandlordCategories <==> userType == Some("landlord")
  {
    assert LandlordCategories[0] != SoleTraderCategories[0];
    match userType
    case Some(t) => if t == "sole_trader" then SoleTraderCategories
                    else if t == "landlord" then LandlordCategories
                    else SoleTraderCategories
    case None => SoleTraderCategories
  }

  /** Index of the first category with id `id`, or `|cats|` when there is none. */
  function FirstIndexOf(cats: seq<Category>, id: string): (k: nat)
    ensures k <= |cats|
    ensures forall j :: 0 <= j < k ==> cats[j].id != id
    ensures k < |cats| ==> cats[k].id == id
  {
    if cats == [] || cats[0].id == id then 0 else 1 + FirstIndexOf(cats[1..], id)
  }

  /** `cats.find(cat => cat.id === id)`: the first category with that id, or `None` (`undefined`). */
  function Find(cats: seq<Category>, id: string): (r: Option<Category>)
    ensures r.Some? <==> exists i :: 0 <= i < |cats| && cats[i].id == id
    ensures r.Some? ==> r.value in cats && r.value.id == id
  {
    var k := FirstIndexOf(cats, id);
    if k < |cats| then Some(cats[k]) else None
  }

  /** `getCategoryById(userType, id)`. */
  function GetCategoryById(userType: Option<string>, id: string): (r: Option<Category>)
    ensures r.Some? <==> exists i :: 0 <= i < |GetUserCategories(userType)| && GetUserCategories(userType)[i].id == id
    ensures r.Some? ==> r.value in GetUserCategories(userType) && r.value.id == id
  {
    Find(GetUserCategories(userType), id)
  }

  /** When ids are unique the look-up is exact: it finds `c` precisely when `c` is the list's entry for `id`. */
  lemma FindUnique(cats: seq<Category>, id: string, c: Category)
    requires UniqueIds(cats)
    ensures Find(cats, id) == Some(c) <==> c in cats && c.id == id
  {
    if c in cats && c.id == id {
      var i :| 0 <= i < |cats| && cats[i] == c;
      assert FirstIndexOf(cats, id) <= i;
    }
  }

  /** Proof aids: the length and the first letter of each sole-trader id, in order. No two
      sole-trader ids agree on both, which is much cheaper to check than comparing whole ids. */
  const SoleTraderIdLengths: seq<nat> := [8, 12, 13, 18, 26, 14, 14, 18, 14, 7, 14, 13, 11, 8, 17, 9, 18, 12, 14]
  const SoleTraderIdInitials: string := "tococemtpraeaifbldo"

  lemma SoleTraderIdTables()
    ensures forall i :: 0 <= i < |SoleTraderCategories| ==> |SoleTraderCategories[i].id| == SoleTraderIdLengths[i]
    ensures forall i :: 0 <= i < |SoleTraderCategories| ==> SoleTraderCategories[i].id[0] == SoleTraderIdInitials[i]
  {
  }

  lemma SoleTraderIdTablesDistinct()
    ensures forall i, j :: 0 <= i < j < |SoleTraderIdLengths| && j < |SoleTraderIdInitials| ==>
      SoleTraderIdLengths[i] != SoleTraderIdLengths[j] || SoleTraderIdInitials[i] != SoleTraderIdInitials[j]
  {
  }

  /** The sole-trader taxonomy has 19 categories with unique ids. */
  lemma SoleTraderShape()
    ensures UniqueIds(SoleTraderCategories) && |SoleTraderCategories| == 19
  {
    SoleTraderIdTables();
    SoleTraderIdTablesDistinct();
  }

  /** The landlord taxonomy has 12 categories with unique ids. */
  lemma LandlordShape()
    ensures UniqueIds(LandlordCategories) && |LandlordCategories| == 12
  {
  }

  /** Every category is income or expense; the income categories are the first two sole-trader
      entries and the first four landlord entries. */
  lemma TaxonomyKinds()
    ensures forall i :: 0 <= i < |SoleTraderCategories| ==>
      SoleTraderCategories[i].kind == (if i < 2 then "income" else "expense")
    ensures forall i :: 0 <= i < |LandlordCategories| ==>
      LandlordCategories[i].kind == (if i < 4 then "income" else "expense")
  {
  }

  /** The only ids the two taxonomies share are `other_income` and `premises_costs`. */
  lemma SharedIds()
    ensures forall i, j :: 0 <= i < |SoleTraderCategories| && 0 <= j < |LandlordCategories| ==>
      (SoleTraderCategories[i].id == LandlordCategories[j].id ==>
         SoleTraderCategories[i].id == "other_income" || SoleTraderCategories[i].id == "premises_costs")
    ensures SoleTraderCategories[1].id == LandlordCategories[1].id == "other_income"
    ensures SoleTraderCategories[8].id == LandlordCategories[4].id == "premises_costs"
  {
  }
}
