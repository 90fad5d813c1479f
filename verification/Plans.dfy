/** Validation of the plans file, which makes plan lookup well defined. */
module Plans {
  import opened Wrappers
  import opened Params

  predicate IsHex(c: char) { '0' <= c <= '9' || 'a' <= c <= 'f' }

  /** Lower-case hexadecimal groups of 8, 4, 4, 4 and 12 digits. */
  predicate IsUuid(s: string)
  {
    |s| == 36 && forall i | 0 <= i < 36 :: if i in {8, 13, 18, 23} then s[i] == '-' else IsHex(s[i])
  }

  predicate IsHexText(s: string, length: nat) { |s| == length && forall i | 0 <= i < length :: IsHex(s[i]) }

  /** The five groups that such an id is made of, and nothing else. */
  lemma UuidsAreFiveGroups(s: string)
    ensures IsUuid(s) <==>
      exists a, b, c, d, e
        | IsHexText(a, 8) && IsHexText(b, 4) && IsHexText(c, 4) && IsHexText(d, 4) && IsHexText(e, 12) ::
        s == a + "-" + b + "-" + c + "-" + d + "-" + e
  {
    if IsUuid(s) {
      var a, b, c, d, e := s[..8], s[9..13], s[14..18], s[19..23], s[24..];
      assert s == a + "-" + b + "-" + c + "-" + d + "-" + e;
      assert IsHexText(a, 8) && IsHexText(b, 4) && IsHexText(c, 4) && IsHexText(d, 4) && IsHexText(e, 12);
    }
  }

  predicate WellFormed(p: Plan)
  {
    && p.id != "" && p.name != "" && p.description != "" && IsUuid(p.id)
    && p.storageGb >= 1 && p.maxConnections >= 1
  }

  predicate Distinct(p: Plan, q: Plan) { p.id != q.id && p.name != q.name }

  /** Plans that a broker may serve: some plan, each well formed, ids and names pairwise different. */
  predicate Usable(plans: seq<Plan>)
  {
    && plans != [] && (forall i | 0 <= i < |plans| :: WellFormed(plans[i]))
    && (forall i, j | 0 <= i < j < |plans| :: Distinct(plans[i], plans[j]))
  }

  function Ids(plans: seq<Plan>): set<string> { set p | p in plans :: p.id }

  function PlanNames(plans: seq<Plan>): set<string> { set p | p in plans :: p.name }

  lemma ClashIsUnusable(plans: seq<Plan>, i: nat)
    requires i < |plans| && (plans[i].id in Ids(plans[..i]) || plans[i].name in PlanNames(plans[..i]))
    ensures !Usable(plans)
  {
    var j :| 0 <= j < i && (plans[j].id == plans[i].id || plans[j].name == plans[i].name);
    assert !Distinct(plans[j], plans[i]);
  }

  /** The loop over the plans file, remembering the ids and names it has seen. */
  method ValidatePlans(plans: seq<Plan>) returns (ok: bool)
    ensures ok <==> Usable(plans)
  {
    if plans == [] {
      return false;
    }
    var seenIds: map<string, bool>, seenNames: map<string, bool> := map[], map[];
    for i := 0 to |plans|
      invariant seenIds.Keys == Ids(plans[..i]) && seenNames.Keys == PlanNames(plans[..i])
      invariant i > 0 ==> Usable(plans[..i])
    {
      var plan := plans[i];
      assert plan in plans && plans[..i + 1] == plans[..i] + [plan];
      if plan.id == "" || plan.name == "" || plan.description == "" {
        return false;
      } else if !IsUuid(plan.id) {
        return false;
      } else if plan.id in seenIds {
        ClashIsUnusable(plans, i);
        return false;
      } else if plan.name in seenNames {
        ClashIsUnusable(plans, i);
        return false;
      } else if plan.storageGb < 1 || plan.maxConnections < 1 {
        return false;
      }
      assert WellFormed(plan);
      seenIds := seenIds[plan.id := true];
      seenNames := seenNames[plan.name := true];
    }
    assert plans[..|plans|] == plans;
    ok := true;
  }

  /** The first plan with an id. */
  function Lookup(plans: seq<Plan>, id: string): Option<Plan>
  {
    if plans == [] then None
    else if plans[0].id == id then Some(plans[0])
    else Lookup(plans[1..], id)
  }

  method FindPlan(plans: seq<Plan>, id: string) returns (plan: Option<Plan>)
    ensures plan == Lookup(plans, id)
  {
    for i := 0 to |plans|
      invariant Lookup(plans, id) == Lookup(plans[i..], id)
    {
      if plans[i].id == id {
        return Some(plans[i]);
      }
    }
    plan := None;
  }

  /** On a usable file the first plan with an id is the only one: lookup inverts the list. */
  lemma {:induction false} LookupFindsEachPlan(plans: seq<Plan>, i: nat)
    requires Usable(plans) && i < |plans|
    ensures Lookup(plans, plans[i].id) == Some(plans[i])
  {
    if i > 0 {
      LookupFindsEachPlan(plans[1..], i - 1);
    }
  }

  lemma {:induction false} LookupIsMember(plans: seq<Plan>, id: string)
    requires Lookup(plans, id).Some?
    ensures Lookup(plans, id).value in plans && Lookup(plans, id).value.id == id
  {
    if plans[0].id != id {
      LookupIsMember(plans[1..], id);
    }
  }
}
