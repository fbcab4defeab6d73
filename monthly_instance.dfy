/** The `MonthlyInstance` aggregate and the record store it lives in: the
    active-item matcher, the cost sum, and the three methods of the source
    that change stored state (`save`, `auto_populate_repeating_items`,
    `calculate_total`). */
module MonthlyInstances {
  import opened Wrappers
  import opened Dates
  import opened BudgetItems

  /** Primary keys, as the store assigns them. */
  type ItemId = nat
  type InstanceId = nat

  /** A stored monthly instance: its month, the ids of the budget items it
      references (a many-to-many relation, hence a set), the cached total and
      the free-text notes. */
  datatype Instance = Instance(
    month: Date,
    budgetItems: set<ItemId>,
    totalAmount: Cents,
    notes: string)

  /** The only error the store raises here: the unique constraint on `month`. */
  datatype StoreError = UniqueMonthViolation

  /** No two stored instances share a month. */
  ghost predicate UniqueMonths(instances: map<InstanceId, Instance>) {
    forall i, j :: i in instances && j in instances && instances[i].month == instances[j].month ==> i == j
  }

  /** The matcher: the ids of every stored item that is active in `month`. */
  function ActiveItems(items: map<ItemId, BudgetItem>, month: Date): (r: set<ItemId>)
    ensures r <= items.Keys
  {
    set id | id in items && IsActive(items[id], month)
  }

  /** The matcher selects exactly the repeating items that have started on or
      before `month` and have no end date or end on or after it. */
  lemma ActiveItemsExactly(items: map<ItemId, BudgetItem>, month: Date, id: ItemId)
    ensures id in ActiveItems(items, month) <==>
      && id in items
      && items[id].repeats
      && Le(items[id].startdate, month)
      && (items[id].endDate.None? || Le(month, items[id].endDate.value))
  {
  }

  /** The sum of the costs of the items `ids` names, zero for no items. */
  ghost function SumCosts(items: map<ItemId, BudgetItem>, ids: set<ItemId>): Cents
    requires ids <= items.Keys
    decreases ids
  {
    if ids == {} then 0
    else
      var id :| id in ids;
      items[id].cost + SumCosts(items, ids - {id})
  }

  /** The sum does not depend on the order in which items are taken: any item
      can be taken out first. */
  lemma {:induction false} SumCostsRemove(items: map<ItemId, BudgetItem>, ids: set<ItemId>, x: ItemId)
    requires ids <= items.Keys && x in ids
    ensures SumCosts(items, ids) == items[x].cost + SumCosts(items, ids - {x})
    decreases ids
  {
    var y :| y in ids && SumCosts(items, ids) == items[y].cost + SumCosts(items, ids - {y});
    if y != x {
      SumCostsRemove(items, ids - {y}, x);
      SumCostsRemove(items, ids - {x}, y);
      assert ids - {y} - {x} == ids - {x} - {y};
    }
  }

  /** The sum over two disjoint sets of items is the sum of the two sums. */
  lemma {:induction false} SumCostsUnion(items: map<ItemId, BudgetItem>, a: set<ItemId>, b: set<ItemId>)
    requires a <= items.Keys && b <= items.Keys && a !! b
    ensures SumCosts(items, a + b) == SumCosts(items, a) + SumCosts(items, b)
    decreases a
  {
    if a == {} {
      assert a + b == b;
    } else {
      var x :| x in a;
      SumCostsRemove(items, a, x);
      SumCostsRemove(items, a + b, x);
      assert (a + b) - {x} == (a - {x}) + b;
      SumCostsUnion(items, a - {x}, b);
    }
  }

  /** The sum over two distinct items is the sum of their two costs. */
  lemma SumCostsPair(items: map<ItemId, BudgetItem>, x: ItemId, y: ItemId)
    requires x in items && y in items && x != y
    ensures SumCosts(items, {x, y}) == items[x].cost + items[y].cost
  {
    SumCostsRemove(items, {x, y}, x);
    assert {x, y} - {x} == {y};
    SumCostsRemove(items, {y}, y);
  }

  /** Every item that passed validation costs at least one cent, so the total
      of such items is at least one cent per item. */
  lemma {:induction false} SumCostsAtLeastCount(items: map<ItemId, BudgetItem>, ids: set<ItemId>)
    requires ids <= items.Keys
    requires forall id :: id in ids ==> items[id].cost >= 1
    ensures SumCosts(items, ids) >= |ids|
    decreases ids
  {
    if ids != {} {
      var x :| x in ids;
      SumCostsRemove(items, ids, x);
      SumCostsAtLeastCount(items, ids - {x});
    }
  }

  /** The sum reads only the costs of the items it sums: stores that agree on
      those costs give the same sum. */
  lemma {:induction false} SumCostsOnlyReadsIds(items: map<ItemId, BudgetItem>, other: map<ItemId, BudgetItem>, ids: set<ItemId>)
    requires ids <= items.Keys && ids <= other.Keys
    requires forall id :: id in ids ==> items[id].cost == other[id].cost
    ensures SumCosts(items, ids) == SumCosts(other, ids)
    decreases ids
  {
    if ids != {} {
      var x :| x in ids;
      SumCostsRemove(items, ids, x);
      SumCostsRemove(other, ids, x);
      SumCostsOnlyReadsIds(items, other, ids - {x});
    }
  }

  /** The sum `calculate_total` computes: starting from 0.00, add the cost of
      every referenced item, in whatever order the relation yields them. */
  method ComputeTotal(items: map<ItemId, BudgetItem>, ids: set<ItemId>) returns (total: Cents)
    requires ids <= items.Keys
    ensures total == SumCosts(items, ids)
  {
    total := 0;
    var rest := ids;
    while rest != {}
      invariant rest <= ids
      invariant total + SumCosts(items, rest) == SumCosts(items, ids)
      decreases rest
    {
      var id :| id in rest;
      SumCostsRemove(items, rest, id);
      total := total + items[id].cost;
      rest := rest - {id};
    }
  }

  /** An instance after `auto_populate_repeating_items`: its items replaced by
      the active set for its month, its total the sum of their costs. */
  ghost function Populate(items: map<ItemId, BudgetItem>, inst: Instance): (p: Instance)
    ensures p.month == inst.month && p.notes == inst.notes
    ensures p.budgetItems <= items.Keys
  {
    var active := ActiveItems(items, inst.month);
    inst.(budgetItems := active, totalAmount := SumCosts(items, active))
  }

  /** Population is a replacement, not an addition: populating twice gives
      what populating once gives. */
  lemma PopulateIsIdempotent(items: map<ItemId, BudgetItem>, inst: Instance)
    ensures Populate(items, Populate(items, inst)) == Populate(items, inst)
  {
  }

  /** The result of population does not depend on the items or the total
      the instance held before: the item set is replaced, not extended. */
  lemma PopulateIgnoresPriorItems(items: map<ItemId, BudgetItem>, inst: Instance, prior: set<ItemId>, priorTotal: Cents)
    ensures Populate(items, inst) == Populate(items, inst.(budgetItems := prior, totalAmount := priorTotal))
  {
  }

  /** Population drops every previously referenced item that is not active,
      such as a manually added non-repeating item, and keeps the total equal
      to the sum of what remains. */
  lemma PopulateDropsInactive(items: map<ItemId, BudgetItem>, inst: Instance, id: ItemId)
    requires id in items && !IsActive(items[id], inst.month)
    ensures id !in Populate(items, inst).budgetItems
  {
  }

  /** The record store: the budget item table, the monthly instance table
      (with the many-to-many relation folded into each instance) and the
      primary-key counters. */
  class Store {
    var items: map<ItemId, BudgetItem>
    var instances: map<InstanceId, Instance>
    var nextItemId: nat
    var nextInstanceId: nat

    /** Keys are below their counters, every referenced item exists, and no
        two instances share a month. */
    ghost predicate Valid()
      reads this
    {
      && (forall id :: id in items ==> id < nextItemId)
      && (forall id :: id in instances ==> id < nextInstanceId)
      && (forall id :: id in instances ==> instances[id].budgetItems <= items.Keys)
      && UniqueMonths(instances)
    }

    constructor ()
      ensures Valid()
      ensures items == map[] && instances == map[]
    {
      items, instances := map[], map[];
      nextItemId, nextInstanceId := 0, 0;
    }

    /** Some stored instance other than `pk` already has `month`. */
    predicate MonthTaken(month: Date, pk: Option<InstanceId>)
      reads this
    {
      exists id :: id in instances && instances[id].month == month && pk != Some(id)
    }

    /** `BudgetItem.objects.create`: inserts the item under a fresh key. Like
        Django's `create`, this does not run field validation. */
    method CreateItem(item: BudgetItem) returns (id: ItemId)
      requires Valid()
      modifies this
      ensures Valid()
      ensures id !in old(items) && items == old(items)[id := item]
      ensures instances == old(instances) && nextInstanceId == old(nextInstanceId)
    {
      id := nextItemId;
      items := items[id := item];
      nextItemId := nextItemId + 1;
    }

    /** `budget_items.add(...)`: adds references to existing items, leaving
        the cached total as it was. */
    method AddBudgetItems(id: InstanceId, ids: set<ItemId>)
      requires Valid() && id in instances && ids <= items.Keys
      modifies this
      ensures Valid()
      ensures items == old(items) && nextItemId == old(nextItemId) && nextInstanceId == old(nextInstanceId)
      ensures instances == old(instances)[id := old(instances)[id].(budgetItems := old(instances)[id].budgetItems + ids)]
    {
      instances := instances[id := instances[id].(budgetItems := instances[id].budgetItems + ids)];
    }

    /** `MonthlyInstance.save`. With no primary key the record is inserted
        under a fresh key and then populated; with a key the row is written
        (inserted if absent) and its item references are left alone. Either
        way a month another instance already has is refused and nothing
        changes. */
    method Save(pk: Option<InstanceId>, month: Date, totalAmount: Cents, notes: string)
      returns (r: Result<InstanceId, StoreError>)
      requires Valid()
      modifies this
      decreases if pk.None? then 3 else 0
      ensures Valid()
      ensures items == old(items) && nextItemId == old(nextItemId)
      ensures r.Failure? <==> old(MonthTaken(month, pk))
      ensures r.Failure? ==> instances == old(instances) && nextInstanceId == old(nextInstanceId)
      ensures pk.Some? && pk.value in old(instances) ==> nextInstanceId == old(nextInstanceId)
      ensures r.Success? && pk.Some? ==>
        && r.value == pk.value
        && instances == old(instances)[pk.value := Instance(
             month,
             if pk.value in old(instances) then old(instances)[pk.value].budgetItems else {},
             totalAmount,
             notes)]
      ensures r.Success? && pk.None? ==>
        && r.value !in old(instances)
        && instances == old(instances)[r.value := Populate(items, Instance(month, {}, totalAmount, notes))]
    {
      if MonthTaken(month, pk) {
        return Failure(UniqueMonthViolation);
      }
      match pk {
        case Some(id) =>
          var linked := if id in instances then instances[id].budgetItems else {};
          instances := instances[id := Instance(month, linked, totalAmount, notes)];
          if nextInstanceId <= id {
            nextInstanceId := id + 1;
          }
          r := Success(id);
        case None =>
          var id := nextInstanceId;
          instances := instances[id := Instance(month, {}, totalAmount, notes)];
          nextInstanceId := nextInstanceId + 1;
          AutoPopulate(id);
          r := Success(id);
      }
    }

    /** `auto_populate_repeating_items`: replaces the instance's item
        references with the active set for its month, then recomputes and
        stores the total. No item and no other instance changes. */
    method AutoPopulate(id: InstanceId)
      requires Valid() && id in instances
      modifies this
      decreases 2
      ensures Valid()
      ensures items == old(items) && nextItemId == old(nextItemId) && nextInstanceId == old(nextInstanceId)
      ensures instances == old(instances)[id := Populate(items, old(instances)[id])]
    {
      var active := ActiveItems(items, instances[id].month);
      instances := instances[id := instances[id].(budgetItems := active)];
      var _ := CalculateTotal(id);
    }

    /** `calculate_total`: sums the costs of the referenced items, stores the
        sum as the total through a save of the existing record (which does not
        populate again) and returns it. No item and no other instance changes. */
    method CalculateTotal(id: InstanceId) returns (total: Cents)
      requires Valid() && id in instances
      modifies this
      decreases 1
      ensures Valid()
      ensures items == old(items) && nextItemId == old(nextItemId) && nextInstanceId == old(nextInstanceId)
      ensures total == SumCosts(items, old(instances)[id].budgetItems)
      ensures instances == old(instances)[id := old(instances)[id].(totalAmount := total)]
    {
      var inst := instances[id];
      total := ComputeTotal(items, inst.budgetItems);
      var r := Save(Some(id), inst.month, total, inst.notes);
      assert r.Success?;
    }
  }
}
