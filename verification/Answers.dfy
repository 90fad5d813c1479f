/** What clients get for what they ask: requests judged by the published rules, records and catalog objects made of the
    very values asked for, and readers that answer with what is stored. */
module Answers {
  import opened Wrappers
  import opened Names
  import opened Sql
  import opened State
  import opened Lifecycle
  import opened Membership
  import opened Sparing
  import opened Operations
  import opened Safety
  import opened Isolation
  import opened Secrets
  import opened Quotas
  import opened Runs
  import opened Repeats
  import Params
  import Plans
  import Tenancy
  import Vault

  type Fields = Params.Fields

  // ------------------------------------------------- the published rules

  /** The parameters of a request: none and `null` are an empty object. */
  predicate Carries(raw: Params.Raw, fields: Fields)
  {
    ((raw.Absent? || raw.NullLiteral?) && fields == map[]) || raw == Params.Document(Params.Object(fields))
  }

  predicate IsText(fields: Fields, key: string) { key in fields ==> fields[key].String? }

  predicate IsOneOf(fields: Fields, key: string, choices: set<string>)
  {
    key in fields ==> fields[key].String? && fields[key].text in choices
  }

  predicate IsCount(fields: Fields, key: string, maximum: int)
  {
    key in fields ==>
      fields[key].Number? && var x := fields[key].value; x == x.Floor as real && 1 <= x.Floor <= maximum
  }

  predicate HasChoices(fields: Fields)
  {
    && IsOneOf(fields, "compatibility", {"PG", "A", "B", "C"})
    && IsOneOf(fields, "encoding", {"UTF8", "GBK", "GB18030", "Latin1"})
  }

  predicate HasQuotas(plan: Params.Plan, fields: Fields)
  {
    IsCount(fields, "max_connections", plan.maxConnections) && IsCount(fields, "storage_gb", plan.storageGb)
  }

  predicate MayProvision(plan: Params.Plan, fields: Fields)
  {
    HasChoices(fields) && HasQuotas(plan, fields) && IsText(fields, "name")
  }

  /** An update's schema is about the quotas only; the choices are judged all the same when they are given. */
  predicate MayUpdate(plan: Params.Plan, fields: Fields) { HasChoices(fields) && HasQuotas(plan, fields) }

  // ------------------------------------------------- the values asked for

  function TextOf(fields: Fields, key: string, otherwise: string): string
  {
    if key in fields && fields[key].String? then fields[key].text else otherwise
  }

  predicate IsAmount(fields: Fields, key: string, otherwise: int, amount: int)
  {
    if key in fields && fields[key].Number? then fields[key].value == amount as real else amount == otherwise
  }

  /** The two quotas asked for, and the plan's where the request is silent. */
  predicate QuotasAsked(plan: Params.Plan, fields: Fields, maxConnections: int, storageGb: int)
  {
    && IsAmount(fields, "max_connections", plan.maxConnections, maxConnections)
    && IsAmount(fields, "storage_gb", plan.storageGb, storageGb)
  }

  predicate Asked(plan: Params.Plan, fields: Fields, p: InstanceParams)
  {
    && QuotasAsked(plan, fields, p.maxConnections, p.storageGb)
    && p.compatibility == TextOf(fields, "compatibility", "PG") && p.encoding == TextOf(fields, "encoding", "UTF8")
    && p.name == TextOf(fields, "name", "")
  }

  lemma AskedIsUnique(plan: Params.Plan, fields: Fields, p: InstanceParams, q: InstanceParams)
    requires Asked(plan, fields, p)
    ensures Asked(plan, fields, q) <==> q == p
  {
  }

  /** The published schemas say what the rules say. */
  lemma InstanceSchemaIsTheRules(plan: Params.Plan, fields: Fields)
    ensures Params.Valid(Params.InstanceSchema(plan), fields) <==> MayProvision(plan, fields)
  {
    assert forall key | key in Params.InstanceSchema(plan) ::
      key == "compatibility" || key == "encoding" || key == "max_connections" || key == "storage_gb" || key == "name";
  }

  lemma UpdatableSchemaIsTheRules(plan: Params.Plan, fields: Fields)
    ensures Params.Valid(Params.UpdatableSchema(plan), fields) <==> HasQuotas(plan, fields)
  {
    assert Params.UPDATABLE[0] == "max_connections" && Params.UPDATABLE[1] == "storage_gb";
    assert forall key | key in Params.UpdatableSchema(plan) :: key == "max_connections" || key == "storage_gb";
  }

  lemma CountsAreExact(lib: Params.Library, plan: Params.Plan, fields: Fields, key: string, maximum: int, value: int)
    requires Params.Lawful(lib) && IsCount(fields, key, maximum) && 1 <= maximum <= Params.EXACT
    ensures Params.IsRequested(lib, fields, key, maximum, value) <==> IsAmount(fields, key, maximum, value)
  {
    if key in fields {
      var x := fields[key].value;
      assert Params.IsWhole(x) && lib.round(x) == x;
    }
  }

  /** Parameters that keep the rules are resolved to what they ask for. */
  lemma ResolvedIsAsked(lib: Params.Library, plan: Params.Plan, fields: Fields)
    requires Params.Lawful(lib) && Params.Sized(plan) && HasQuotas(plan, fields)
    ensures Params.Resolve(lib, plan, fields).Some? <==> HasChoices(fields)
    ensures HasChoices(fields) ==>
      var p := Params.Resolve(lib, plan, fields).value;
      QuotasAsked(plan, fields, p.maxConnections, p.storageGb) && (IsText(fields, "name") ==> Asked(plan, fields, p))
  {
    ResolvesExactly(lib, plan, fields);
    if HasChoices(fields) {
      var p := Params.Resolve(lib, plan, fields).value;
      Params.ResolvedIsTheRequest(lib, plan, fields);
      CountsAreExact(lib, plan, fields, "max_connections", plan.maxConnections, p.maxConnections);
      CountsAreExact(lib, plan, fields, "storage_gb", plan.storageGb, p.storageGb);
    }
  }

  lemma ResolvesExactly(lib: Params.Library, plan: Params.Plan, fields: Fields)
    requires Params.Lawful(lib) && Params.Sized(plan) && HasQuotas(plan, fields)
    ensures Params.Resolve(lib, plan, fields).Some? <==> HasChoices(fields)
  {
    if "compatibility" in fields {
      Params.OnlyTextPrintsAsChoice(lib, fields["compatibility"]);
    }
    if "encoding" in fields {
      Params.OnlyTextPrintsAsChoice(lib, fields["encoding"]);
    }
    CountIsBounded(lib, fields, "max_connections", plan.maxConnections);
    CountIsBounded(lib, fields, "storage_gb", plan.storageGb);
  }

  lemma CountIsBounded(lib: Params.Library, fields: Fields, key: string, maximum: int)
    requires Params.Lawful(lib) && IsCount(fields, key, maximum) && 1 <= maximum <= Params.EXACT
    ensures Params.BoundedInt(lib, fields, key, maximum, maximum).Some?
  {
    Params.BoundedIntAgrees(lib, fields, key, maximum);
    if key in fields {
      var x := fields[key].value;
      assert Params.IsWhole(x) && lib.round(x) == x;
    }
  }

  // ------------------------------------------------- from parameters to what the broker works with

  lemma PlanIsFound(cfg: Config, plan: Params.Plan)
    requires Plans.Usable(cfg.plans) && plan in cfg.plans
    ensures Plans.Lookup(cfg.plans, plan.id) == Some(plan)
  {
    var i :| 0 <= i < |cfg.plans| && cfg.plans[i] == plan;
    Plans.LookupFindsEachPlan(cfg.plans, i);
  }

  /** The plan that a request names, and the parameters it carries. */
  predicate Means(cfg: Config, planId: string, raw: Params.Raw, plan: Params.Plan, fields: Fields)
  {
    plan in cfg.plans && plan.id == planId && Carries(raw, fields)
  }

  lemma CarriedIsParsed(schema: Params.Schema, raw: Params.Raw, fields: Fields)
    requires Carries(raw, fields)
    ensures Params.Parse(schema, raw) == if Params.Valid(schema, fields) then Some(fields) else None
  {
    hide Params.Valid;
    if raw.Absent? || raw.NullLiteral? {
      NothingIsValid(schema);
    }
  }

  lemma NothingIsValid(schema: Params.Schema)
    ensures Params.Valid(schema, map[])
  {
  }

  lemma ParsedIsCarried(schema: Params.Schema, raw: Params.Raw)
    requires Params.Parse(schema, raw).Some?
    ensures Carries(raw, Params.Parse(schema, raw).value)
  {
  }

  /** What a provision works with is what is asked for. */
  lemma SpecIsAsked(cfg: Config, planId: string, raw: Params.Raw, plan: Params.Plan, fields: Fields)
    requires Served(cfg) && Plans.Usable(cfg.plans) && Means(cfg, planId, raw, plan, fields)
    ensures Spec(cfg, planId, raw).Some? <==> MayProvision(plan, fields)
    ensures MayProvision(plan, fields) ==> Asked(plan, fields, Spec(cfg, planId, raw).value)
  {
    hide MayProvision, HasChoices, HasQuotas, IsText, Params.Valid, Params.InstanceSchema, Params.Parse, Params.Resolve,
        Asked, QuotasAsked;
    LawsOf(cfg, plan);
    PlanIsFound(cfg, plan);
    CarriedIsParsed(Params.InstanceSchema(plan), raw, fields);
    InstanceSchemaIsTheRules(plan, fields);
    RulesOf(plan, fields);
    if MayProvision(plan, fields) {
      ResolvedIsAsked(cfg.params, plan, fields);
    }
  }

  lemma RulesOf(plan: Params.Plan, fields: Fields)
    ensures MayProvision(plan, fields) <==> HasChoices(fields) && HasQuotas(plan, fields) && IsText(fields, "name")
    ensures MayUpdate(plan, fields) <==> HasChoices(fields) && HasQuotas(plan, fields)
  {
  }

  lemma LawsOf(cfg: Config, plan: Params.Plan)
    requires Served(cfg) && plan in cfg.plans
    ensures Params.Lawful(cfg.params) && Params.Sized(plan)
  {
  }

  /** What an update works with is what is asked for. */
  lemma ChangeIsAsked(cfg: Config, planId: string, raw: Params.Raw, plan: Params.Plan, fields: Fields)
    requires Served(cfg) && Plans.Usable(cfg.plans) && Means(cfg, planId, raw, plan, fields)
    ensures Change(cfg, planId, raw).Some? <==> MayUpdate(plan, fields)
    ensures MayUpdate(plan, fields) ==>
      var p := Change(cfg, planId, raw).value; QuotasAsked(plan, fields, p.maxConnections, p.storageGb)
  {
    hide MayUpdate, HasChoices, HasQuotas, IsText, Params.Valid, Params.UpdatableSchema, Params.Parse, Params.Resolve,
        Asked, QuotasAsked;
    LawsOf(cfg, plan);
    PlanIsFound(cfg, plan);
    CarriedIsParsed(Params.UpdatableSchema(plan), raw, fields);
    UpdatableSchemaIsTheRules(plan, fields);
    RulesOf(plan, fields);
    if HasQuotas(plan, fields) {
      ResolvedIsAsked(cfg.params, plan, fields);
    }
  }

  /** ... and there is nothing to work with unless a plan is named and an object carried. */
  lemma SomethingIsMeant(cfg: Config, planId: string, raw: Params.Raw) returns (plan: Params.Plan, fields: Fields)
    requires Spec(cfg, planId, raw).Some? || Change(cfg, planId, raw).Some?
    ensures Means(cfg, planId, raw, plan, fields)
  {
    hide Params.Resolve, Params.InstanceSchema, Params.UpdatableSchema, Params.Parse;
    plan := Plans.Lookup(cfg.plans, planId).value;
    Plans.LookupIsMember(cfg.plans, planId);
    var schema := if Spec(cfg, planId, raw).Some? then Params.InstanceSchema(plan) else Params.UpdatableSchema(plan);
    ParsedIsCarried(schema, raw);
    fields := Params.Parse(schema, raw).value;
  }

  /** What a bind works with is the name asked for. */
  lemma BindingSpecIsAsked(cfg: Config, raw: Params.Raw, fields: Fields)
    requires Carries(raw, fields)
    ensures BindingSpec(cfg, raw) ==
      if IsText(fields, "name") then Some(BindingParams(TextOf(fields, "name", ""))) else None
  {
    CarriedIsParsed(Params.BINDING_SCHEMA, raw, fields);
    assert "name" in Params.BINDING_SCHEMA;
    hide Params.Parse;
  }

  // ------------------------------------------------- requests that are refused

  /** The request names a plan and keeps its rules. */
  ghost predicate ProvisionIsValid(cfg: Config, service: string, planId: string, raw: Params.Raw)
  {
    service == cfg.serviceId && exists plan, fields ::
        Means(cfg, planId, raw, plan, fields) && MayProvision(plan, fields)
  }

  /** The stored plan is a plan still, and the request keeps its rules for updates. */
  ghost predicate UpdateIsValid(cfg: Config, planId: string, raw: Params.Raw)
  {
    exists plan, fields :: Means(cfg, planId, raw, plan, fields) && MayUpdate(plan, fields)
  }

  ghost predicate BindIsValid(raw: Params.Raw)
  {
    exists fields :: Carries(raw, fields) && IsText(fields, "name")
  }

  lemma ValidIsSpecified(cfg: Config, planId: string, raw: Params.Raw)
    requires Served(cfg) && Plans.Usable(cfg.plans)
    ensures forall service :: ProvisionIsValid(cfg, service, planId, raw) <==>
      service == cfg.serviceId && Spec(cfg, planId, raw).Some?
    ensures Change(cfg, planId, raw).Some? <==> UpdateIsValid(cfg, planId, raw)
  {
    hide Spec, Change, Means, MayProvision, MayUpdate;
    if exists plan, fields :: Means(cfg, planId, raw, plan, fields) {
      forall plan, fields | Means(cfg, planId, raw, plan, fields)
        ensures Spec(cfg, planId, raw).Some? <==> MayProvision(plan, fields)
        ensures Change(cfg, planId, raw).Some? <==> MayUpdate(plan, fields)
      {
        SpecIsAsked(cfg, planId, raw, plan, fields);
        ChangeIsAsked(cfg, planId, raw, plan, fields);
      }
    } else if Spec(cfg, planId, raw).Some? || Change(cfg, planId, raw).Some? {
      var plan, fields := SomethingIsMeant(cfg, planId, raw);
    }
  }

  lemma ValidIsBindable(cfg: Config, raw: Params.Raw)
    ensures BindingSpec(cfg, raw).Some? <==> BindIsValid(raw)
  {
    hide Carries, IsText, Params.Parse;
    if exists fields :: Carries(raw, fields) {
      forall fields | Carries(raw, fields) ensures BindingSpec(cfg, raw).Some? <==> IsText(fields, "name") {
        BindingSpecIsAsked(cfg, raw, fields);
      }
    } else if Params.Parse(Params.BINDING_SCHEMA, raw).Some? {
      ParsedIsCarried(Params.BINDING_SCHEMA, raw);
    }
  }

  lemma TreesAreNotInvalid(admin: Tree<Tenancy.Status>, id: string, r: InstanceRecord, b: BindingRecord, done: Reply,
          s: State, faults: Faults, clock: nat)
    ensures Execute(After(admin, PutInstance(id, r, Success)), s, faults, clock).result in
      {Success, Conflict, Failure(Administering), Failure(Writing)}
    ensures Execute(After(admin, PutBinding(id, b, done)), s, faults, clock).result in
      {done, Conflict, Failure(Administering), Failure(Writing)}
  {
    var a := Execute(admin, s, faults, clock);
    AfterExecutes(admin, PutInstance(id, r, Success), s, faults, clock);
    AfterExecutes(admin, PutBinding(id, b, done), s, faults, clock);
    PutInstanceExecutes(id, r, a.state, faults, a.clock);
    PutBindingExecutes(id, b, done, a.state, faults, a.clock);
  }

  lemma TreeReplies(cfg: Config, e: Vault.Encryptor, env: Env, id: string, planId: string, p: InstanceParams,
          r: InstanceRecord, b: string, bp: BindingParams, s: State, clock: nat)
    ensures var done := {Success, Conflict, Failure(Administering), Failure(Writing)};
      && Execute(ProvisionTree(cfg, id, planId, p, env.password), s, env.faults, clock).result in done
      && Execute(UpdateTree(cfg, id, r), s, env.faults, clock).result in done
    ensures var reply := Execute(BindTree(cfg, e, env, id, r, b, bp), s, env.faults, clock).result;
      reply.Bound? || reply in {Conflict, Failure(Administering), Failure(Writing)}
  {
    hide Tenancy.Provision, Tenancy.Update, Tenancy.Bind, After, PutInstance, PutBinding, Execute, NewBinding;
    var n, m := cfg.naming.instance(id, p.name), cfg.naming.instance(id, r.params.name);
    var none := BindingRecord("", "", BindingParams(""), "");
    TreesAreNotInvalid(Tenancy.Provision(cfg.server, n, p, env.password), id,
      InstanceRecord(cfg.serviceId, planId, n.database, p), none, Success, s, env.faults, clock);
    TreesAreNotInvalid(Tenancy.Update(cfg.server, m, r.params), id, r, none, Success, s, env.faults, clock);
    var user := cfg.naming.user(b, bp.name);
    TreesAreNotInvalid(Tenancy.Bind(cfg.server, m, user, env.password), b, r, NewBinding(cfg, e, env, id, m, b, bp),
      Bound(cfg.credentials(m.database, user, env.password)), s, env.faults, clock);
  }

  /** A provision is invalid exactly when it is for another service, for no plan, or not by the plan's rules; then
      nothing is read and nothing changes. */
  lemma ProvisionIsJudged(cfg: Config, key: Vault.Encryptor, id: string, service: string, planId: string,
          raw: Params.Raw, env: Env, s: State)
    requires Served(cfg) && Plans.Usable(cfg.plans)
    ensures var o := Serve(cfg, key, Request.Provision(id, service, planId, raw), env, s);
      && (o.result == Invalid <==> !ProvisionIsValid(cfg, service, planId, raw))
      && (o.result == Invalid ==> o == Outcome(s, Invalid, 0))
  {
    hide Spec, Execute, ProvisionTree, Served, ProvisionIsValid;
    ValidIsSpecified(cfg, planId, raw);
    if Spec(cfg, planId, raw).Some? {
      TreeReplies(cfg, key, env, id, planId, Spec(cfg, planId, raw).value,
          InstanceRecord("", "", "", Spec(cfg, planId, raw).value), "", BindingParams(""), s, 1);
    }
  }

  /** An update of a stored instance is invalid exactly when it is for another service or, keeping the plan, not by the
      rules; an invalid one changes nothing. */
  lemma UpdateIsJudged(cfg: Config, key: Vault.Encryptor, id: string, service: string, planId: string, raw: Params.Raw,
          env: Env, s: State)
    requires Served(cfg) && Plans.Usable(cfg.plans) && id in s.instances && !env.faults(0)
    ensures var o := Serve(cfg, key, Request.Update(id, service, planId, raw), env, s);
      && (o.result == Invalid <==>
            service != cfg.serviceId
            || (planId in {"", s.instances[id].planId} && !UpdateIsValid(cfg, s.instances[id].planId, raw)))
      && (o.result == PlanChange <==> service == cfg.serviceId && planId !in {"", s.instances[id].planId})
      && (o.result in {Invalid, PlanChange} ==> o.state == s)
  {
    hide Change, Execute, UpdateTree, Served, Updated, UpdateIsValid;
    var r := s.instances[id];
    ValidIsSpecified(cfg, r.planId, raw);
    if Change(cfg, r.planId, raw).Some? {
      TreeReplies(cfg, key, env, id, planId, r.params, Updated(r, Change(cfg, r.planId, raw).value), "",
          BindingParams(""), s, 1);
    }
  }

  /** A bind to a stored instance is invalid exactly when it is for another service or its name is not text; an invalid
      one changes nothing. */
  lemma BindIsJudged(cfg: Config, key: Vault.Encryptor, id: string, b: string, service: string, raw: Params.Raw,
          env: Env, s: State)
    requires id in s.instances && !env.faults(0)
    ensures var o := Serve(cfg, key, Request.Bind(id, b, service, raw), env, s);
      && (o.result == Invalid <==> service != cfg.serviceId || !BindIsValid(raw))
      && (o.result == Invalid ==> o.state == s)
  {
    hide BindingSpec, Execute, BindTree, Info, BindIsValid;
    ValidIsBindable(cfg, raw);
    if BindingSpec(cfg, raw).Some? {
      TreeReplies(cfg, key, env, id, "", s.instances[id].params, s.instances[id], b, BindingSpec(cfg, raw).value, s, 2);
    }
  }

  // ------------------------------------------------- requests that are done

  /** The catalog objects of a new tenant, made of these parameters. */
  predicate Stands(w: World, c: Tenancy.Server, n: Names, p: InstanceParams, password: string)
  {
    && n.database in w.databases && n.tablespace in w.tablespaces && n.groupRole in w.roles
    && w.roles[n.groupRole] == Role(false, password)
    && w.tablespaces[n.tablespace] == Tablespace(n.groupRole, c.location + "/" + n.tablespace, p.storageGb)
    && var d := w.databases[n.database];
       && d.owner == n.groupRole && d.tablespace == n.tablespace && d.limit == p.maxConnections
       && d.encoding == p.encoding && d.compatibility == p.compatibility
       && !d.publicConnect && d.connect == {n.groupRole, c.user} && d.usage == {n.groupRole}
       && d.create == {n.groupRole}
       && d.privateObjects && d.defaults == {} && d.objects == map[] && d.schemas == map[]
  }

  lemma ProvisionedStands(w: World, c: Tenancy.Server, n: Names, p: InstanceParams, password: string)
    ensures Stands(Provisioned(w, c, n, p, password), c, n, p, password)
  {
  }

  /** An undisturbed provision on free names that keeps the plan's rules makes and records exactly what it asks for:
      its own numbers and texts, and the plan's quotas, PG, UTF8 and no name where it is silent. */
  lemma ProvisionMakesWhatIsAsked(cfg: Config, key: Vault.Encryptor, id: string, plan: Params.Plan, raw: Params.Raw,
          fields: Fields, env: Env, s: State)
    requires Served(cfg) && Plans.Usable(cfg.plans) && Safe(cfg, s) && id !in s.instances && Quiet(env.faults, 0)
    requires plan in cfg.plans && Carries(raw, fields) && MayProvision(plan, fields)
    requires Fresh(s.world, cfg.naming.instance(id, TextOf(fields, "name", "")))
    ensures var o := Serve(cfg, key, Request.Provision(id, cfg.serviceId, plan.id, raw), env, s);
      var n := cfg.naming.instance(id, TextOf(fields, "name", ""));
      && o.result == Success && id in o.state.instances
      && var r := o.state.instances[id];
         && r.serviceId == cfg.serviceId && r.planId == plan.id && r.database == n.database
         && Asked(plan, fields, r.params)
         && Stands(o.state.world, cfg.server, n, r.params, env.password)
         && o.state.instances == s.instances[id := r] && o.state.bindings == s.bindings
  {
    hide Served, Safe, Serve, Spec, Fresh, Provisioned, Stands, Carries, MayProvision;
    SpecIsAsked(cfg, plan.id, raw, plan, fields);
    var p := Spec(cfg, plan.id, raw).value;
    ProvisionUnderOneFault(cfg, key, id, plan.id, raw, env, s, 0);
    ProvisionedStands(s.world, cfg.server, cfg.naming.instance(id, p.name), p, env.password);
  }

  /** A stored instance asked for again: it exists already exactly when plan and values are the recorded ones, and is in
      conflict otherwise; nothing changes. */
  lemma StoredInstanceIsCompared(cfg: Config, key: Vault.Encryptor, id: string, plan: Params.Plan, raw: Params.Raw,
          fields: Fields, env: Env, s: State)
    requires Served(cfg) && Plans.Usable(cfg.plans) && id in s.instances && !env.faults(0)
    requires plan in cfg.plans && Carries(raw, fields) && MayProvision(plan, fields)
    ensures Serve(cfg, key, Request.Provision(id, cfg.serviceId, plan.id, raw), env, s) ==
      Outcome(s, if s.instances[id].planId == plan.id && Asked(plan, fields, s.instances[id].params)
                 then AlreadyExists else Conflict, 1)
  {
    hide Served, Serve, Spec, Carries, MayProvision, Asked;
    SpecIsAsked(cfg, plan.id, raw, plan, fields);
    AskedIsUnique(plan, fields, Spec(cfg, plan.id, raw).value, s.instances[id].params);
    ProvisionAgain(cfg, key, id, plan.id, raw, env, s);
  }

  /** An undisturbed update by the rules sets and records exactly the two quotas it asks for, the plan's own where it is
      silent, and nothing else. */
  lemma UpdateMakesWhatIsAsked(cfg: Config, key: Vault.Encryptor, id: string, plan: Params.Plan, planId: string,
          raw: Params.Raw, fields: Fields, env: Env, s: State)
    requires Served(cfg) && Plans.Usable(cfg.plans) && Safe(cfg, s) && id in s.instances && Quiet(env.faults, 0)
    requires plan in cfg.plans && plan.id == s.instances[id].planId && planId in {"", plan.id}
    requires Carries(raw, fields) && MayUpdate(plan, fields)
    requires var n := NamesOf(cfg, id, s.instances[id]);
      n.database in s.world.databases && n.tablespace in s.world.tablespaces
    ensures var o := Serve(cfg, key, Request.Update(id, cfg.serviceId, planId, raw), env, s);
      var n, was := NamesOf(cfg, id, s.instances[id]), s.instances[id];
      && o.result == Success && id in o.state.instances
      && var r := o.state.instances[id];
         && QuotasAsked(plan, fields, r.params.maxConnections, r.params.storageGb)
         && r == was.(params := was.params.(maxConnections := r.params.maxConnections, storageGb := r.params.storageGb))
         && o.state.instances == s.instances[id := r] && o.state.bindings == s.bindings
         && n.database in o.state.world.databases && n.tablespace in o.state.world.tablespaces
         && o.state.world.databases == s.world.databases[n.database :=
              s.world.databases[n.database].(limit := r.params.maxConnections)]
         && o.state.world.tablespaces == s.world.tablespaces[n.tablespace :=
              s.world.tablespaces[n.tablespace].(maxGb := r.params.storageGb)]
         && o.state.world.roles == s.world.roles
         && o.state.world.members == s.world.members - {(n.groupRole, cfg.server.user)}
  {
    hide Served, Safe, Execute, Change, UpdateTree, Carries, MayUpdate, QuotasAsked;
    ChangeIsAsked(cfg, plan.id, raw, plan, fields);
    UpdateInPeace(cfg, id, Change(cfg, plan.id, raw).value, s, env.faults, 1);
  }

  lemma UpdateInPeace(cfg: Config, id: string, p: InstanceParams, s: State, faults: Faults, clock: nat)
    requires Safe(cfg, s) && id in s.instances && Quiet(faults, 0)
    requires var n := NamesOf(cfg, id, s.instances[id]);
      n.database in s.world.databases && n.tablespace in s.world.tablespaces
    ensures var r := Updated(s.instances[id], p);
      var o := Execute(UpdateTree(cfg, id, r), s, faults, clock);
      && o.result == Success
      && o.state == s.(instances := s.instances[id := r],
                       world := Resized(s.world, cfg.server, NamesOf(cfg, id, s.instances[id]), r.params))
  {
    hide Safe, Resized, Execute, Tenancy.Update, Interrupted;
    var r := Updated(s.instances[id], p);
    var n := NamesOf(cfg, id, r);
    var t := Tenancy.Update(cfg.server, n, r.params);
    var a := Execute(t, s, faults, clock);
    AfterExecutes(t, PutInstance(id, r, Success), s, faults, clock);
    PutInstanceExecutes(id, r, a.state, faults, a.clock);
    ReadyInstance(cfg, s, id);
    UpdateSucceedsExactly(s, cfg.server, n, r.params, faults, clock);
    QuietIsUninterrupted(faults, clock, 5);
  }

  lemma QuietIsUninterrupted(faults: Faults, clock: nat, count: nat)
    requires Quiet(faults, 0)
    ensures !Interrupted(faults, clock, count)
  {
  }

  /** An undisturbed bind whose user name is free makes the user of the name it asks for, records that name, and answers
      with that user's credentials. */
  lemma BindMakesWhatIsAsked(cfg: Config, key: Vault.Encryptor, id: string, b: string, raw: Params.Raw, fields: Fields,
          env: Env, s: State)
    requires Served(cfg) && Safe(cfg, s) && id in s.instances && b !in s.bindings && Quiet(env.faults, 0)
    requires Carries(raw, fields) && IsText(fields, "name")
    requires s.instances[id].database in s.world.databases
    requires cfg.naming.user(b, TextOf(fields, "name", "")) !in s.world.roles
    ensures var o := Serve(cfg, key, Request.Bind(id, b, cfg.serviceId, raw), env, s);
      var user := cfg.naming.user(b, TextOf(fields, "name", ""));
      && o.result == Bound(cfg.credentials(s.instances[id].database, user, env.password))
      && "username" in o.result.credentials && o.result.credentials["username"] == user
      && user in o.state.world.roles && o.state.world.roles[user] == Role(true, env.password)
      && o.state.world.members == s.world.members + {(NamesOf(cfg, id, s.instances[id]).groupRole, user)}
      && b in o.state.bindings && o.state.instances == s.instances
      && var r := o.state.bindings[b];
         && r.instanceId == id && r.username == user && r.params == BindingParams(TextOf(fields, "name", ""))
         && o.state.bindings == s.bindings[b := r]
  {
    hide Safe, Serve, BindingSpec, Joined, Carries, IsText, Served, NewBinding;
    BindingSpecIsAsked(cfg, raw, fields);
    DatabaseOfInstance(cfg, s, id);
    CatalogOf(cfg, s);
    BindUnderOneFault(cfg, key, id, b, raw, env, s, 0);
    var p, n := BindingSpec(cfg, raw).value, NamesOf(cfg, id, s.instances[id]);
    var user := cfg.naming.user(b, p.name);
    CredentialsName(cfg, n.database, user, env.password);
    NewBindingName(cfg, key, env, id, n, b, p);
    JoinedUser(s.world, cfg.server, n, user, env.password);
  }

  lemma CredentialsName(cfg: Config, database: string, user: string, password: string)
    requires Served(cfg)
    ensures var c := cfg.credentials(database, user, password);
      "database" in c && c["database"] == database && "username" in c && c["username"] == user
  {
  }

  lemma JoinedUser(w: World, c: Tenancy.Server, n: Names, user: string, password: string)
    requires c.database in w.databases && n.database in w.databases && n.database != c.database
    ensures var j := Joined(w, c, n, user, password);
      && user in j.roles && j.roles[user] == Role(true, password) && j.members == w.members + {(n.groupRole, user)}
  {
  }

  /** A stored binding asked for again: the stored credentials when instance and name are the recorded ones, and a
      conflict otherwise; nothing changes. */
  lemma StoredBindingIsCompared(cfg: Config, key: Vault.Encryptor, id: string, b: string, raw: Params.Raw,
          fields: Fields, env: Env, s: State)
    requires Served(cfg) && Safe(cfg, s) && AllWork(cfg, {key}, s) && id in s.instances && b in s.bindings
    requires Carries(raw, fields) && IsText(fields, "name") && !env.faults(0) && !env.faults(1)
    ensures s.bindings[b].instanceId in s.instances && s.bindings[b].username in s.world.roles
    ensures Serve(cfg, key, Request.Bind(id, b, cfg.serviceId, raw), env, s) ==
      Outcome(s, if s.bindings[b].instanceId == id && s.bindings[b].params.name == TextOf(fields, "name", "")
                 then AlreadyBound(CredentialsOf(cfg, s, b)) else Conflict, 2)
  {
    hide Safe, Serve, BindingSpec, Carries, IsText, Served, AllWork, Info, CredentialsOf;
    BindingSpecIsAsked(cfg, raw, fields);
    StoredBindingIsRead(cfg, key, s, b);
    BindAgain(cfg, key, id, b, raw, env, s);
  }

  // ------------------------------------------------- readers

  lemma StoredBindingIsRead(cfg: Config, key: Vault.Encryptor, s: State, b: string)
    requires Served(cfg) && Safe(cfg, s) && AllWork(cfg, {key}, s) && b in s.bindings
    ensures s.bindings[b].instanceId in s.instances && s.bindings[b].username in s.world.roles
    ensures Info(cfg, key, s.bindings[b]) ==
      Some(BindingInfo(s.bindings[b].instanceId, s.bindings[b].username, s.bindings[b].params,
          CredentialsOf(cfg, s, b)))
  {
    hide Safe, Served;
    var r := s.bindings[b];
    assert BindingWorks(cfg, {key}, s, r);
    WorkingCredentialsAreRead(cfg, key, s.world, r, s.instances[r.instanceId].database);
  }

  /** A reader gets the stored record itself, and not found exactly when there is none; a failed read is a failure. */
  lemma GetInstanceAnswersTheRecord(cfg: Config, key: Vault.Encryptor, id: string, env: Env, s: State)
    ensures Serve(cfg, key, Request.GetInstance(id), env, s) ==
      Outcome(s, if env.faults(0) then Failure(Reading)
                 else if id in s.instances then Instance(s.instances[id]) else NotFound, 1)
  {
  }

  /** A reader gets the parameters of a stored binding and the credentials that open its tenant now: the tenant's
      database, the binding's user, and the password that user has in the catalog. */
  lemma GetBindingAnswersTheCredentials(cfg: Config, key: Vault.Encryptor, b: string, env: Env, s: State)
    requires Served(cfg) && Safe(cfg, s) && AllWork(cfg, {key}, s)
    ensures b in s.bindings ==> s.bindings[b].instanceId in s.instances && s.bindings[b].username in s.world.roles
    ensures Serve(cfg, key, Request.GetBinding(b), env, s) ==
      Outcome(s, if env.faults(0) then Failure(Reading)
                 else if b in s.bindings then Reply.Binding(CredentialsOf(cfg, s, b), s.bindings[b].params)
                 else NotFound, 1)
  {
    hide Safe, Served, AllWork, Info, CredentialsOf;
    if b in s.bindings {
      StoredBindingIsRead(cfg, key, s, b);
    }
  }

  /** A stored binding that the key in use cannot decrypt is a failure to everyone who asks for it, never a missing one:
      it is not bound over, not unbound, and its instance is not removed. */
  lemma UnreadableIsNeverMissing(cfg: Config, key: Vault.Encryptor, id: string, b: string, raw: Params.Raw, env: Env,
          s: State)
    requires b in s.bindings && Vault.Read(cfg.vault, key, s.bindings[b].credentials) == None
    requires id in s.instances && BindIsValid(raw) && !env.faults(0) && !env.faults(1)
    ensures Serve(cfg, key, Request.GetBinding(b), env, s) == Outcome(s, Failure(Reading), 1)
    ensures Serve(cfg, key, Request.Bind(id, b, cfg.serviceId, raw), env, s) == Outcome(s, Failure(Reading), 2)
    ensures Serve(cfg, key, Request.Unbind(id, b, cfg.serviceId), env, s) == Outcome(s, Failure(Reading), 2)
    ensures s.bindings[b].instanceId == id ==>
      Serve(cfg, key, Request.Deprovision(id, cfg.serviceId), env, s) == Outcome(s, Failure(Reading), 2)
  {
    hide BindingSpec, BindIsValid, Execute, BindTree, UnbindTree, DeprovisionTree, Vault.Read;
    ValidIsBindable(cfg, raw);
    assert Info(cfg, key, s.bindings[b]).None?;
  }

  /** A request for another service is invalid at once. */
  lemma ForeignServiceIsRefused(cfg: Config, key: Vault.Encryptor, req: Request, env: Env, s: State)
    requires !req.GetInstance? && !req.GetBinding? && req.serviceId != cfg.serviceId
    ensures Serve(cfg, key, req, env, s) == Outcome(s, Invalid, 0)
  {
  }

  /** What a bind has given is what readers get: after any run that does not unbind it, rotations included. */
  lemma GivenCredentialsAreRead(cfg: Config, node: Node, id: string, b: string, raw: Params.Raw, env: Env,
                                events: seq<Event>, end: Node, env': Env)
    requires Served(cfg) && Good(cfg, node) && node.retiring.None? && |env.nonce| == Vault.NONCE_SIZE
    requires var o := Serve(cfg, node.key, Request.Bind(id, b, cfg.serviceId, raw), env, node.state);
      && o.result.Bound? && Reaches(cfg, node.(state := o.state), events, end)
      && AllTidy(cfg, node.(state := o.state), events)
    requires forall i | 0 <= i < |events| :: !UnbindsAt(events[i], b)
    requires end.retiring.None? && !env'.faults(0)
    ensures var given := Serve(cfg, node.key, Request.Bind(id, b, cfg.serviceId, raw), env, node.state).result;
      var got := Serve(cfg, end.key, Request.GetBinding(b), env', end.state).result;
      got.Binding? && got.credentials == given.credentials && b in end.state.bindings
          && got.params == end.state.bindings[b].params
  {
    hide Served, Safe, AllWork, Execute, Reaches, AllTidy, UnbindsAt, BindingSpec, CredentialsOf, Info, SameIdentity,
        Serve;
    var req := Request.Bind(id, b, cfg.serviceId, raw);
    var o := Serve(cfg, node.key, req, env, node.state);
    var after := node.(state := o.state);
    BindStores(cfg, node.key, id, b, raw, env, node.state);
    StepIsServe(cfg, node, req, env);
    StepKeepsGood(cfg, node, Handle(req, env));
    BindingOutlivesRun(cfg, after, events, end, b);
    RunsStayGood(cfg, after, events, end);
    SameCredentials(cfg, after.state, end.state, b);
    GetBindingAnswersTheCredentials(cfg, end.key, b, env', end.state);
  }
}
