/** The built-in demo transactions (src/data/demoData.js), used by the store as the default list of a
    business and here as concrete test vectors. Missing optional properties take the values every reader
    gives them: no private use, allowable, no property reference, no receipt, no business id. */
module DemoData {
  import opened Wrappers
  import opened Dates
  import opened Records
  import opened Categories
  import opened Ledger

  function Demo(id: string, date: Date, description: string, amount: real, kind: string, category: string,
                privateUsePercentage: int, isDisallowable: bool, notes: string, stamp: string): Transaction
  {
    Transaction(id, None, date, kind, amount, description, category, notes, "", privateUsePercentage,
      isDisallowable, None, stamp, stamp)
  }

  /** `DEMO_TRANSACTIONS`, the sole-trader list. */
  const DemoTransactions: seq<Transaction> := [
    Demo("demo-1", Date(2025, 6, 15), "Client Payment - Web Development", 2500.0, "income", "turnover",
         0, false, "Payment for website development project", "2025-07-15T10:30:00.000Z"),
    Demo("demo-2", Date(2025, 6, 14), "Office Supplies - Stationery", -45.99, "expense", "admin_expenses",
         0, false, "Pens, paper, folders for office", "2025-07-14T14:20:00.000Z"),
    Demo("demo-3", Date(2025, 6, 13), "Fuel - Business Travel", -78.50, "expense", "motor_expenses",
         20, false, "Fuel for client visit to London", "2025-07-13T09:15:00.000Z"),
    Demo("demo-4", Date(2025, 6, 12), "Consulting Fee", 1200.0, "income", "turnover",
         0, false, "Business consultation services", "2025-07-12T16:45:00.000Z"),
    Demo("demo-5", Date(2025, 6, 10), "Business Lunch", -65.00, "expense", "entertainment",
         0, true, "Lunch meeting with potential client", "2025-07-10T12:30:00.000Z"),
    Demo("demo-6", Date(2025, 5, 28), "Quarterly Software Subscription", -299.99, "expense", "general_admin",
         0, false, "Project management software quarterly payment", "2025-06-28T09:00:00.000Z"),
    Demo("demo-7", Date(2025, 5, 25), "Client Payment - Mobile App", 3200.0, "income", "turnover",
         0, false, "Payment for mobile app development", "2025-06-25T15:30:00.000Z"),
    Demo("demo-8", Date(2025, 5, 20), "Internet & Phone Bill", -85.50, "expense", "admin_expenses",
         30, false, "Monthly business internet and phone charges", "2025-06-20T11:15:00.000Z")
  ]

  /** `DEMO_LANDLORD_TRANSACTIONS`. */
  const DemoLandlordTransactions: seq<Transaction> := [
    Demo("demo-l1", Date(2025, 6, 1), "Rental Income - Property 1", 1500.0, "income", "income",
         0, false, "Monthly rent from 123 Main Street", "2025-07-01T09:00:00.000Z"),
    Demo("demo-l2", Date(2025, 6, 5), "Property Maintenance", -450.00, "expense", "repairs_maintenance",
         0, false, "Plumbing repair at rental property", "2025-07-05T14:30:00.000Z"),
    Demo("demo-l3", Date(2025, 6, 8), "Property Insurance", -325.00, "expense", "premises_costs",
         0, false, "Annual property insurance premium", "2025-07-08T11:15:00.000Z"),
    Demo("demo-l4", Date(2025, 6, 1), "Rental Income - Property 2", 1200.0, "income", "income",
         0, false, "Monthly rent from 456 Oak Avenue", "2025-07-01T09:00:00.000Z"),
    Demo("demo-l5", Date(2025, 5, 28), "Property Management Fee", -180.00, "expense", "admin_expenses",
         0, false, "Monthly property management fee", "2025-06-28T14:00:00.000Z"),
    Demo("demo-l6", Date(2025, 5, 15), "Garden Maintenance", -125.00, "expense", "repairs_maintenance",
         0, false, "Monthly garden maintenance service", "2025-06-15T10:30:00.000Z")
  ]

  /** `general_admin` is not a sole-trader category. */
  lemma GeneralAdminNotSoleTrader()
    ensures forall i :: 0 <= i < |SoleTraderCategories| ==> SoleTraderCategories[i].id != "general_admin"
    ensures GetCategoryById(Some("sole_trader"), "general_admin").None?
  {
    SoleTraderIdTables();
    assert forall i :: 0 <= i < |SoleTraderIdLengths| && i < |SoleTraderIdInitials| ==>
      SoleTraderIdLengths[i] != 13 || SoleTraderIdInitials[i] != 'g';
  }

  /** `admin_expenses` is not a landlord category. */
  lemma AdminExpensesNotLandlord()
    ensures GetCategoryById(Some("landlord"), "admin_expenses").None?
  {
    assert forall i :: 0 <= i < |LandlordCategories| ==> LandlordCategories[i].id != "admin_expenses";
  }

  /** Two demo expenses use a category their own taxonomy lacks (`general_admin` for the sole trader,
      `admin_expenses` for the landlord), so a quarter summary counts them in the totals only. */
  lemma DemoCategoriesOutsideTaxonomy(s: Summary)
    requires s.categoryBreakdown == InitBreakdown(SoleTraderCategories)
    ensures GetCategoryById(Some("sole_trader"), DemoTransactions[5].category).None?
    ensures GetCategoryById(Some("landlord"), DemoLandlordTransactions[4].category).None?
    ensures Step(s, DemoTransactions[5]).categoryBreakdown == s.categoryBreakdown
  {
    var t := DemoTransactions[5];
    assert t.category == "general_admin";
    assert DemoLandlordTransactions[4].category == "admin_expenses";
    GeneralAdminNotSoleTrader();
    AdminExpensesNotLandlord();
    InitBreakdownKeys(SoleTraderCategories, "general_admin");
    UnknownCategoryOnlyTotals(s, t);
  }

  /** The demo expenses' deductible amounts: 20% private fuel, a disallowable lunch, 30% private bills. */
  lemma DemoDeductibles()
    ensures TaxDeductible(DemoTransactions[2]) == 62.8
    ensures TaxDeductible(DemoTransactions[4]) == 0.0
    ensures TaxDeductible(DemoTransactions[7]) == 59.85
    ensures TaxDeductible(DemoTransactions[1]) == 45.99
  {
  }
}
