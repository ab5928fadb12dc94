/** The public plans router: `list_active_plans`, the catalogue shown on the
    pricing page. */
module Plans {
  import opened Records
  import opened Query
  import opened Database

  predicate Offered(p: Plan) {
    p.isActive
  }

  function Price(p: Plan): int {
    p.price
  }

  /** `filter(Plan.is_active == True).order_by(Plan.price.asc())`: the active
      plans, cheapest first. */
  function ListActivePlans(plans: seq<Plan>): (r: seq<Plan>)
    ensures forall p :: p in r ==> p in plans && p.isActive
    ensures forall i, j :: 0 <= i < j < |r| ==> r[i].price <= r[j].price
    ensures multiset(r) == multiset(Filter(plans, Offered))
  {
    FilterSpec(plans, Offered);
    var r := SortBy(Filter(plans, Offered), Price);
    forall p | p in r ensures p in plans && p.isActive {
      assert p in multiset(r);
      assert p in Filter(plans, Offered);
    }
    r
  }

  /** Every active plan of a table whose rows are distinct (as primary keys
      make them) is listed exactly once, and nothing else is listed. */
  lemma ActivePlansListedOnce(plans: seq<Plan>)
    requires PlanIdsArePositions(plans)
    ensures forall p :: p in plans && p.isActive ==> multiset(ListActivePlans(plans))[p] == 1
    ensures forall p :: p in plans && !p.isActive ==> p !in ListActivePlans(plans)
  {
    assert NoDuplicates(plans) by {
      forall i, j | 0 <= i < j < |plans| ensures plans[i] != plans[j] {
        assert plans[i].id != plans[j].id;
      }
    }
    NoDuplicatesOccurOnce(plans);
    FilterSpec(plans, Offered);
  }

  /** A plan of the table is in the catalogue exactly when it is active. */
  lemma ListedIffActive(plans: seq<Plan>, p: Plan)
    requires p in plans
    ensures p in ListActivePlans(plans) <==> p.isActive
  {
    FilterSpec(plans, Offered);
    if p.isActive {
      assert p in multiset(Filter(plans, Offered));
    }
  }
}
