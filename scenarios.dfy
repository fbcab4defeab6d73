/** Concrete runs of the model: the situations the repository's tests
    exercise, and a five-item fixture covering each case of the filter, stated
    as client code of the store whose results are proved from the store's
    contracts alone. */
module Scenarios {
  import opened Wrappers
  import opened Dates
  import opened BudgetItems
  import opened MonthlyInstances

  /** The item draft of the budget item tests, with a given cost. */
  function RentDraft(cost: Decimal, today: Date): Draft {
    Draft("Monthly Rent", "John Doe", Some(cost), true, Some(today), None)
  }

  /** A cost of 0.00 fails validation (below the minimum), 0.01 passes and is
      stored as one cent, 0.005 fails on both the decimal places and the
      minimum, and a missing cost fails as missing only. */
  lemma CostValidationExamples(today: Date)
    ensures FullClean(RentDraft(Decimal(0, 2), today)) == Failure({CostBelowMinimum})
    ensures FullClean(RentDraft(Decimal(1, 2), today)).Success?
    ensures FullClean(RentDraft(Decimal(1, 2), today)).value.cost == 1
    ensures FullClean(RentDraft(Decimal(5, 3), today)) == Failure({CostTooManyDecimalPlaces, CostBelowMinimum})
    ensures FullClean(RentDraft(Decimal(120000, 2), today)).value.cost == 120000
    ensures FullClean(Draft("Monthly Rent", "John Doe", None, true, Some(today), None)) == Failure({CostRequired})
  {
    assert Pow10(3) == 1000;
    assert !AtLeastOneCent(Decimal(0, 2)) && !AtLeastOneCent(Decimal(5, 3));
    var zero := FullClean(RentDraft(Decimal(0, 2), today));
    assert zero.Failure? && zero.error == {CostBelowMinimum};
    var tiny := FullClean(RentDraft(Decimal(5, 3), today));
    assert tiny.Failure? && tiny.error == {CostTooManyDecimalPlaces, CostBelowMinimum};
    var missing := FullClean(Draft("Monthly Rent", "John Doe", None, true, Some(today), None));
    assert missing.Failure? && missing.error == {CostRequired};
  }

  /** A five-item fixture covering each case of the filter: active, not yet
      started, expired, non-repeating, and active with a later end date. */
  function Fixture(): map<ItemId, BudgetItem> {
    map[
      0 := BudgetItem("Active", "Owner", 10000, true, Date(2024, 1, 1), None),
      1 := BudgetItem("Future", "Owner", 20000, true, Date(2024, 12, 1), None),
      2 := BudgetItem("Expired", "Owner", 30000, true, Date(2024, 1, 1), Some(Date(2024, 3, 31))),
      3 := BudgetItem("One-off", "Owner", 40000, false, Date(2024, 1, 1), None),
      4 := BudgetItem("Bounded", "Owner", 50000, true, Date(2024, 1, 1), Some(Date(2024, 12, 31)))
    ]
  }

  /** In June 2024 exactly the active item and the one with a later end date
      are selected. */
  lemma FixtureActiveInJune()
    ensures ActiveItems(Fixture(), Date(2024, 6, 1)) == {0, 4}
  {
    var active := ActiveItems(Fixture(), Date(2024, 6, 1));
    forall id | id in active ensures id == 0 || id == 4 {
      ActiveItemsExactly(Fixture(), Date(2024, 6, 1), id);
    }
    ActiveItemsExactly(Fixture(), Date(2024, 6, 1), 0);
    ActiveItemsExactly(Fixture(), Date(2024, 6, 1), 4);
  }

  /** A store holding the two repeating items of the instance tests, both
      starting on `today`. */
  method TwoItemStore(today: Date) returns (s: Store, rent: ItemId, insurance: ItemId)
    ensures fresh(s) && s.Valid() && s.instances == map[]
    ensures s.items == map[rent := BudgetItem("Rent", "John", 120000, true, today, None),
                           insurance := BudgetItem("Insurance", "Jane", 15000, true, today, None)]
    ensures rent != insurance
  {
    s := new Store();
    rent := s.CreateItem(BudgetItem("Rent", "John", 120000, true, today, None));
    insurance := s.CreateItem(BudgetItem("Insurance", "Jane", 15000, true, today, None));
  }

  /** Creating the instance for 2024-01-01 when both items start later
      populates nothing and stores a total of 0.00. */
  method CreateBeforeItemsStart(today: Date) returns (linked: set<ItemId>, total: Cents)
    requires Lt(Date(2024, 1, 1), today)
    ensures linked == {} && total == 0
  {
    var s, rent, insurance := TwoItemStore(today);
    var r := s.Save(None, Date(2024, 1, 1), 0, "");
    assert r.Success?;
    ActiveEmptyBeforeStart(s.items, Date(2024, 1, 1));
    linked := s.instances[r.value].budgetItems;
    total := s.instances[r.value].totalAmount;
  }

  /** Adding the two items by hand and calculating gives 1200.00 + 150.00 =
      1350.00, both as the returned value and as the stored total. */
  method TotalOfManuallyAddedItems(today: Date) returns (total: Cents, stored: Cents)
    ensures total == 135000 && stored == 135000
  {
    var s, rent, insurance := TwoItemStore(today);
    var r := s.Save(None, Date(2024, 1, 1), 0, "");
    assert r.Success?;
    var id := r.value;
    s.AddBudgetItems(id, {rent, insurance});
    total := s.CalculateTotal(id);
    stored := s.instances[id].totalAmount;
    assert s.instances[id].budgetItems == {rent, insurance};
    SumCostsPair(s.items, rent, insurance);
  }

  /** With every item starting after `month`, nothing is active in `month`. */
  lemma ActiveEmptyBeforeStart(items: map<ItemId, BudgetItem>, month: Date)
    requires forall id :: id in items ==> Lt(month, items[id].startdate)
    ensures ActiveItems(items, month) == {}
  {
    forall id | id in ActiveItems(items, month) ensures false {
      InactiveCases(items[id], month);
    }
  }

  /** A second instance for 2024-01-01 is refused and the stored instances
      stay as they were. */
  method SecondInstanceForSameMonth(today: Date) returns (failed: bool, untouched: bool)
    ensures failed && untouched
  {
    var s, rent, insurance := TwoItemStore(today);
    var first := s.Save(None, Date(2024, 1, 1), 0, "");
    assert first.Success?;
    var before := s.instances;
    assert s.MonthTaken(Date(2024, 1, 1), None) by {
      assert s.instances[first.value].month == Date(2024, 1, 1);
    }
    var second := s.Save(None, Date(2024, 1, 1), 0, "");
    failed := second.Failure?;
    untouched := s.instances == before;
  }

  /** Creating the instance for June 2024 over the fixture items selects the
      two active items (total 600.00); a non-repeating item added by hand is
      dropped when population runs again, which yields the same two items and
      the same total, with no duplicates. */
  method RepopulateDropsManualItem()
    returns (first: set<ItemId>, firstTotal: Cents, withManual: set<ItemId>, oneOff: ItemId,
             second: set<ItemId>, secondTotal: Cents)
    ensures |first| == 2 && firstTotal == 60000
    ensures oneOff !in first && withManual == first + {oneOff}
    ensures second == first && secondTotal == firstTotal
  {
    var f := Fixture();
    var s := new Store();
    var active := s.CreateItem(f[0]);
    var future := s.CreateItem(f[1]);
    var expired := s.CreateItem(f[2]);
    oneOff := s.CreateItem(f[3]);
    var bounded := s.CreateItem(f[4]);
    var june := Date(2024, 6, 1);
    assert ActiveItems(s.items, june) == {active, bounded} by {
      forall id | id in ActiveItems(s.items, june) ensures id == active || id == bounded {
        ActiveItemsExactly(s.items, june, id);
      }
      ActiveItemsExactly(s.items, june, active);
      ActiveItemsExactly(s.items, june, bounded);
    }
    SumCostsPair(s.items, active, bounded);
    var r := s.Save(None, june, 0, "");
    assert r.Success?;
    var id := r.value;
    first, firstTotal := s.instances[id].budgetItems, s.instances[id].totalAmount;
    s.AddBudgetItems(id, {oneOff});
    withManual := s.instances[id].budgetItems;
    s.AutoPopulate(id);
    second, secondTotal := s.instances[id].budgetItems, s.instances[id].totalAmount;
  }
}
