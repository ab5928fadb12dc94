/** The admin plans router: the full plan list, plan creation, partial plan
    update and the activity toggle. Admin authentication is not modelled. */
module AdminPlans {
  import opened Records
  import opened Query
  import opened Database
  import opened Plans

  function Newness(p: Plan): int {
    -p.createdAt
  }

  /** `order_by(Plan.created_at.desc()).all()`: every plan, active or not,
      newest first. */
  function AdminListPlans(plans: seq<Plan>): (r: seq<Plan>)
    ensures forall i, j :: 0 <= i < j < |r| ==> r[i].createdAt >= r[j].createdAt
    ensures multiset(r) == multiset(plans)
  {
    SortBy(plans, Newness)
  }

  /** The body of a create request; an absent currency or activity flag takes
      the schema default ("INR", active). */
  datatype PlanCreate = PlanCreate(
    name: string,
    description: Option<string>,
    price: int,
    currency: Option<string>,
    tokensPerMonth: int,
    isActive: Option<bool>)

  /** The row `admin_create_plan` stores, with the next key. */
  function NewPlan(plans: seq<Plan>, req: PlanCreate, now: int): Plan {
    Plan(|plans| + 1, req.name, req.description, req.price, req.currency.GetOr(DefaultCurrency),
         req.tokensPerMonth, req.isActive.GetOr(DefaultIsActive), now)
  }

  /** A plan created active shows up, once, in the public catalogue; one
      created inactive does not. */
  lemma CreatedPlanListing(plans: seq<Plan>, req: PlanCreate, now: int)
    requires PlanIdsArePositions(plans)
    ensures var p := NewPlan(plans, req, now);
      && (p.isActive ==> multiset(ListActivePlans(plans + [p]))[p] == 1)
      && (!p.isActive ==> p !in ListActivePlans(plans + [p]))
  {
    ActivePlansListedOnce(plans + [NewPlan(plans, req, now)]);
  }

  /** `admin_create_plan` */
  method AdminCreatePlan(db: Db, req: PlanCreate, now: int) returns (plan: Plan)
    requires db.Valid()
    modifies db
    ensures db.Valid()
    ensures plan == NewPlan(old(db.plans), req, now) && db.plans == old(db.plans) + [plan]
    ensures db.users == old(db.users) && db.subs == old(db.subs) && db.payments == old(db.payments)
    ensures db.messages == old(db.messages) && db.usage == old(db.usage)
  {
    plan := NewPlan(db.plans, req, now);
    db.plans := db.plans + [plan];
  }

  /** The body of an update request: `None` marks a field left unset. */
  datatype PlanUpdate = PlanUpdate(
    name: Option<string>,
    description: Option<string>,
    price: Option<int>,
    currency: Option<string>,
    tokensPerMonth: Option<int>,
    isActive: Option<bool>)

  /** One entry of `plan_in.dict(exclude_unset=True)`. */
  datatype FieldValue =
    | NameValue(name: string)
    | DescriptionValue(description: string)
    | PriceValue(price: int)
    | CurrencyValue(currency: string)
    | TokensValue(tokensPerMonth: int)
    | ActiveValue(isActive: bool)

  function Entry<T>(v: Option<T>, f: T -> FieldValue): seq<FieldValue> {
    match v
    case None => []
    case Some(x) => [f(x)]
  }

  /** The supplied fields of an update, in declaration order. */
  function SuppliedFields(u: PlanUpdate): (r: seq<FieldValue>)
    ensures |r| <= 6
  {
    Entry(u.name, (x: string) => NameValue(x))
    + Entry(u.description, (x: string) => DescriptionValue(x))
    + Entry(u.price, (x: int) => PriceValue(x))
    + Entry(u.currency, (x: string) => CurrencyValue(x))
    + Entry(u.tokensPerMonth, (x: int) => TokensValue(x))
    + Entry(u.isActive, (x: bool) => ActiveValue(x))
  }

  /** `setattr(plan, field, value)` */
  function SetField(p: Plan, f: FieldValue): Plan {
    match f
    case NameValue(x) => p.(name := x)
    case DescriptionValue(x) => p.(description := Some(x))
    case PriceValue(x) => p.(price := x)
    case CurrencyValue(x) => p.(currency := x)
    case TokensValue(x) => p.(tokensPerMonth := x)
    case ActiveValue(x) => p.(isActive := x)
  }

  /** The effect of setting `fields` one after the other. */
  function SetFields(p: Plan, fields: seq<FieldValue>): Plan {
    if fields == [] then p else SetField(SetFields(p, fields[..|fields| - 1]), fields[|fields| - 1])
  }

  /** What an update means: every supplied field takes the supplied value,
      every other column (the key and creation time included) keeps its
      value. */
  function Patched(p: Plan, u: PlanUpdate): Plan {
    Plan(p.id,
         u.name.GetOr(p.name),
         if u.description.Some? then u.description else p.description,
         u.price.GetOr(p.price),
         u.currency.GetOr(p.currency),
         u.tokensPerMonth.GetOr(p.tokensPerMonth),
         u.isActive.GetOr(p.isActive),
         p.createdAt)
  }

  lemma {:induction false} SetFieldsAppend(p: Plan, a: seq<FieldValue>, b: seq<FieldValue>)
    ensures SetFields(p, a + b) == SetFields(SetFields(p, a), b)
    decreases |b|
  {
    if b == [] {
      assert a + b == a;
    } else {
      var n := |b| - 1;
      assert (a + b)[..|a + b| - 1] == a + b[..n];
      assert (a + b)[|a + b| - 1] == b[n];
      SetFieldsAppend(p, a, b[..n]);
    }
  }

  /** Setting at most one field. */
  lemma SetFieldsEntry<T>(q: Plan, v: Option<T>, f: T -> FieldValue)
    ensures SetFields(q, Entry(v, f)) == if v.Some? then SetField(q, f(v.value)) else q
  {
    if v.Some? {
      assert Entry(v, f)[..0] == [];
    }
  }

  /** Setting the supplied fields one by one yields the patched plan. */
  lemma {:induction false} SuppliedFieldsPatch(p: Plan, u: PlanUpdate)
    ensures SetFields(p, SuppliedFields(u)) == Patched(p, u)
  {
    var f1 := (x: string) => NameValue(x);
    var f2 := (x: string) => DescriptionValue(x);
    var f3 := (x: int) => PriceValue(x);
    var f4 := (x: string) => CurrencyValue(x);
    var f5 := (x: int) => TokensValue(x);
    var f6 := (x: bool) => ActiveValue(x);
    var e1, e2, e3 := Entry(u.name, f1), Entry(u.description, f2), Entry(u.price, f3);
    var e4, e5, e6 := Entry(u.currency, f4), Entry(u.tokensPerMonth, f5), Entry(u.isActive, f6);
    assert SuppliedFields(u) == e1 + e2 + e3 + e4 + e5 + e6;
    SetFieldsAppend(p, e1, e2);
    SetFieldsAppend(p, e1 + e2, e3);
    SetFieldsAppend(p, e1 + e2 + e3, e4);
    SetFieldsAppend(p, e1 + e2 + e3 + e4, e5);
    SetFieldsAppend(p, e1 + e2 + e3 + e4 + e5, e6);
    assert SetFields(p, e1) == p.(name := u.name.GetOr(p.name)) by {
      SetFieldsEntry(p, u.name, f1);
    }
    var q1 := SetFields(p, e1);
    assert SetFields(q1, e2) == q1.(description := if u.description.Some? then u.description else p.description) by {
      SetFieldsEntry(q1, u.description, f2);
    }
    var q2 := SetFields(q1, e2);
    assert SetFields(q2, e3) == q2.(price := u.price.GetOr(p.price)) by {
      SetFieldsEntry(q2, u.price, f3);
    }
    var q3 := SetFields(q2, e3);
    assert SetFields(q3, e4) == q3.(currency := u.currency.GetOr(p.currency)) by {
      SetFieldsEntry(q3, u.currency, f4);
    }
    var q4 := SetFields(q3, e4);
    assert SetFields(q4, e5) == q4.(tokensPerMonth := u.tokensPerMonth.GetOr(p.tokensPerMonth)) by {
      SetFieldsEntry(q4, u.tokensPerMonth, f5);
    }
    var q5 := SetFields(q4, e5);
    assert SetFields(q5, e6) == q5.(isActive := u.isActive.GetOr(p.isActive)) by {
      SetFieldsEntry(q5, u.isActive, f6);
    }
  }

  /** Applying the same update twice changes nothing more than applying it
      once. */
  lemma PatchIdempotent(p: Plan, u: PlanUpdate)
    ensures SetFields(SetFields(p, SuppliedFields(u)), SuppliedFields(u)) == SetFields(p, SuppliedFields(u))
  {
    SuppliedFieldsPatch(p, u);
    SuppliedFieldsPatch(Patched(p, u), u);
  }

  /** The update loop of `admin_update_plan`, on the loaded row. */
  method ApplyUpdate(p: Plan, u: PlanUpdate) returns (q: Plan)
    ensures q == Patched(p, u)
  {
    var fields := SuppliedFields(u);
    q := p;
    var i := 0;
    while i < |fields|
      invariant 0 <= i <= |fields|
      invariant q == SetFields(p, fields[..i])
    {
      assert fields[..i + 1][..i] == fields[..i];
      q := SetField(q, fields[i]);
      i := i + 1;
    }
    assert fields[..i] == fields;
    SuppliedFieldsPatch(p, u);
  }

  /** `admin_update_plan`: 404 when no plan has the key; otherwise the plan
      is patched in place and returned. */
  method AdminUpdatePlan(db: Db, planId: int, u: PlanUpdate) returns (r: Result<Plan>)
    requires db.Valid()
    modifies db
    ensures db.Valid()
    ensures PlanById(old(db.plans), planId).None? ==> r == Err(NotFound) && db.plans == old(db.plans)
    ensures PlanById(old(db.plans), planId).Some? ==>
      var i := PlanById(old(db.plans), planId).value;
      && r == Ok(Patched(old(db.plans)[i], u))
      && db.plans == old(db.plans)[i := Patched(old(db.plans)[i], u)]
    ensures db.users == old(db.users) && db.subs == old(db.subs) && db.payments == old(db.payments)
    ensures db.messages == old(db.messages) && db.usage == old(db.usage)
  {
    var found := PlanById(db.plans, planId);
    if found.None? {
      return Err(NotFound);
    }
    var i := found.value;
    var q := ApplyUpdate(db.plans[i], u);
    db.plans := db.plans[i := q];
    r := Ok(q);
  }

  /** `plan.is_active = not plan.is_active` */
  function Toggled(p: Plan): Plan {
    p.(isActive := !p.isActive)
  }

  /** Toggling a plan moves it into the public catalogue if it was inactive
      and out of it if it was active; toggling twice restores the row. */
  lemma ToggleFlipsListing(plans: seq<Plan>, i: nat)
    requires i < |plans|
    ensures var after := plans[i := Toggled(plans[i])];
      && (Toggled(plans[i]) in ListActivePlans(after) <==> plans[i] !in ListActivePlans(plans))
      && Toggled(Toggled(plans[i])) == plans[i]
  {
    var after := plans[i := Toggled(plans[i])];
    ListedIffActive(plans, plans[i]);
    ListedIffActive(after, after[i]);
  }

  /** `admin_toggle_plan_active`: 404 when no plan has the key; otherwise
      its activity flag is flipped and the plan returned. */
  method AdminTogglePlan(db: Db, planId: int) returns (r: Result<Plan>)
    requires db.Valid()
    modifies db
    ensures db.Valid()
    ensures PlanById(old(db.plans), planId).None? ==> r == Err(NotFound) && db.plans == old(db.plans)
    ensures PlanById(old(db.plans), planId).Some? ==>
      var i := PlanById(old(db.plans), planId).value;
      && r == Ok(Toggled(old(db.plans)[i]))
      && db.plans == old(db.plans)[i := Toggled(old(db.plans)[i])]
    ensures db.users == old(db.users) && db.subs == old(db.subs) && db.payments == old(db.payments)
    ensures db.messages == old(db.messages) && db.usage == old(db.usage)
  {
    var found := PlanById(db.plans, planId);
    if found.None? {
      return Err(NotFound);
    }
    var i := found.value;
    var q := Toggled(db.plans[i]);
    db.plans := db.plans[i := q];
    r := Ok(q);
  }
}
