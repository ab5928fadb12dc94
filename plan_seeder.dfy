/** `PlanSeeder.run`: the three default plans, inserted only into an empty
    plans table. Prices are in paise (299 and 599 rupees). */
module PlanSeeder {
  import opened Records
  import opened Database
  import opened Auth

  /** The plans inserted into an empty table, with their auto-increment keys
      and the insertion time as creation time. */
  function DefaultPlans(now: int): (r: seq<Plan>)
    ensures |r| == 3
    ensures forall p :: p in r ==> p.isActive && p.currency == INR
    ensures PlanIdsArePositions(r)
  {
    [ Plan(1, "Free Tier", Some("Features: Limited response speed\nTokens/Month: 50 requests"),
           0, INR, 50, true, now),
      Plan(2, "Pro Monthly", Some("Features: Fast responses\nTokens/Month: 1000 requests"),
           29900, INR, 1000, true, now),
      Plan(3, "Pro Plus", Some("Features: Priority support\nTokens/Month: 3000 requests"),
           59900, INR, 3000, true, now) ]
  }

  /** The plans table after a run: seeded when empty, untouched otherwise. */
  function SeededPlans(plans: seq<Plan>, now: int): (r: seq<Plan>)
    ensures plans != [] ==> r == plans
    ensures plans == [] ==> |r| == 3
  {
    if |plans| == 0 then DefaultPlans(now) else plans
  }

  /** A second run, at any time, leaves the table as the first run left it. */
  lemma SeedPlansIdempotent(plans: seq<Plan>, first: int, second: int)
    ensures SeededPlans(SeededPlans(plans, first), second) == SeededPlans(plans, first)
  {
  }

  /** The "Free Tier" plan is the free plan registration detects. */
  lemma FreeTierIsTheFreePlan(now: int)
    ensures FreePlan(DefaultPlans(now)) == Some(0)
    ensures DefaultPlans(now)[0].name == "Free Tier" && DefaultPlans(now)[0].tokensPerMonth == 50
  {
    assert DefaultPlans(now)[0].price == 0 && DefaultPlans(now)[0].isActive;
  }

  /** `PlanSeeder.run` */
  method SeedPlans(db: Db, now: int)
    requires db.Valid()
    modifies db
    ensures db.Valid()
    ensures db.plans == SeededPlans(old(db.plans), now)
    ensures db.users == old(db.users) && db.subs == old(db.subs) && db.payments == old(db.payments)
    ensures db.messages == old(db.messages) && db.usage == old(db.usage)
  {
    if |db.plans| == 0 {
      db.plans := DefaultPlans(now);
    }
  }
}
