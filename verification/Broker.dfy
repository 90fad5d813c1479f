/** The Open Service Broker layer: requests in terms of the admin and the store. */
module Broker {
  import opened Wrappers
  import opened Names
  import opened State
  import opened Driver
  import opened Admin
  import opened Storage
  import opened Operations
  import Params
  import Plans
  import Safety
  import Tenancy
  import Vault

  class Broker {
    const cfg: Config
    const admin: Admin
    const store: Store

    ghost predicate Valid()
      reads this, store, store.instances, store.bindings
    {
      store.Valid() && store.cfg == cfg && admin.server == cfg.server
    }

    /** Everything the broker shares between requests. */
    ghost function Now(): State
      reads admin.db, store.instances, store.bindings
    {
      State(admin.db.world, store.instances.Contents(), store.bindings.Contents())
    }

    /** The ownership invariant: stored instances and bindings own their catalog objects, and never the same ones. */
    ghost predicate Owned()
      reads admin.db, store.instances, store.bindings
    {
      Safety.Safe(cfg, Now())
    }

    /** What is known of any request before it runs. */
    lemma RequestKeepsOwned(req: Request, env: Env, s: State)
      ensures Safety.Served(cfg) && Safety.Safe(cfg, s) ==>
        (Safety.Safe(cfg, Serve(cfg, store.encryptor, req, env, s).state) <==>
            !Safety.Severs(cfg, store.encryptor, req, env, s))
    {
      if Safety.Served(cfg) && Safety.Safe(cfg, s) {
        Safety.ServeKeepsSafe(cfg, store.encryptor, req, env, s);
      }
    }

    constructor (cfg: Config, admin: Admin, store: Store)
      requires store.Valid() && store.cfg == cfg && admin.server == cfg.server
      ensures Valid() && this.cfg == cfg && this.admin == admin && this.store == store
    {
      this.cfg, this.admin, this.store := cfg, admin, store;
    }

    /** The admin's verdict, with its conflict in place of a taken name. */
    function MapStatus(status: Tenancy.Status): Reply
      requires status != Tenancy.Done
    {
      if status == Tenancy.Taken then Conflict else Failure(Administering)
    }

    method Provision(ctx: Context, id: string, serviceId: string, planId: string, raw: Params.Raw,
                     password: string, nonce: Vault.Bytes) returns (reply: Reply)
      requires Valid() && ctx.clock == 0
      modifies admin.db, store.instances, ctx
      ensures Valid()
      ensures Serve(cfg, store.encryptor, Request.Provision(id, serviceId, planId, raw),
          Env(ctx.faults, password, nonce), old(Now()))
           == Outcome(Now(), reply, ctx.clock)
      ensures Safety.Served(cfg) && old(Owned()) ==> Owned()
    {
      hide Safety.Safe, Safety.Served, Execute, ProvisionTree, Params.Resolve, Params.Parse, Params.InstanceSchema;
      RequestKeepsOwned(Request.Provision(id, serviceId, planId, raw), Env(ctx.faults, password, nonce), Now());
      ghost var s := Now();
      if serviceId != cfg.serviceId {
        return Invalid;
      }
      var plan := Plans.FindPlan(cfg.plans, planId);
      if plan.None? {
        return Invalid;
      }
      var fields := Params.Parse(Params.InstanceSchema(plan.value), raw);
      if fields.None? {
        return Invalid;
      }
      var spec, ok := Params.ResolveInstanceParams(cfg.params, plan.value, fields.value);
      if !ok {
        return Invalid;
      }
      assert Spec(cfg, planId, raw) == Some(spec);
      var existing := store.GetInstance(ctx, id, s);
      match existing
      case Unreadable =>
        reply := Failure(Reading);
      case Present(record) =>
        reply := if record.planId == planId && record.params == spec then AlreadyExists else Conflict;
      case Missing =>
        reply := Create(ctx, id, planId, spec, password, s);
    }

    method Create(ctx: Context, id: string, planId: string, spec: InstanceParams, password: string,
            ghost s: State) returns (reply: Reply)
      requires Valid() && s == Now()
      modifies admin.db, store.instances, ctx
      ensures Valid()
      ensures Execute(ProvisionTree(cfg, id, planId, spec, password), s, ctx.faults, old(ctx.clock)) ==
        Outcome(Now(), reply, ctx.clock)
    {
      hide Execute, Tenancy.Provision, PutInstance;
      var n := cfg.naming.instance(id, spec.name);
      var record := InstanceRecord(cfg.serviceId, planId, n.database, spec);
      Safety.AfterExecutes(Tenancy.Provision(cfg.server, n, spec, password), PutInstance(id, record, Success), s,
          ctx.faults, ctx.clock);
      var status := admin.Provision(ctx, n, spec, password, s);
      if status != Tenancy.Done {
        return MapStatus(status);
      }
      var ok := store.PutInstance(ctx, id, record, Now());
      reply := if ok then Success else Failure(Writing);
    }

    method Update(ctx: Context, id: string, serviceId: string, planId: string, raw: Params.Raw,
                  password: string, nonce: Vault.Bytes) returns (reply: Reply)
      requires Valid() && ctx.clock == 0
      modifies admin.db, store.instances, ctx
      ensures Valid()
      ensures Serve(cfg, store.encryptor, Request.Update(id, serviceId, planId, raw), Env(ctx.faults, password, nonce),
          old(Now()))
           == Outcome(Now(), reply, ctx.clock)
      ensures Safety.Served(cfg) && old(Owned()) ==> Owned()
    {
      hide Safety.Safe, Safety.Served, Execute, UpdateTree, Params.Resolve, Params.Parse, Params.UpdatableSchema;
      RequestKeepsOwned(Request.Update(id, serviceId, planId, raw), Env(ctx.faults, password, nonce), Now());
      ghost var s := Now();
      if serviceId != cfg.serviceId {
        return Invalid;
      }
      var existing := store.GetInstance(ctx, id, s);
      if existing.Unreadable? {
        return Failure(Reading);
      }
      if existing.Missing? {
        return NotFound;
      }
      var record := existing.value;
      if planId != "" && planId != record.planId {
        return PlanChange;
      }
      var plan := Plans.FindPlan(cfg.plans, record.planId);
      if plan.None? {
        return Invalid;
      }
      var schema := Params.BuildUpdatableSchema(plan.value);
      var fields := Params.Parse(schema, raw);
      if fields.None? {
        return Invalid;
      }
      var requested, ok := Params.ResolveInstanceParams(cfg.params, plan.value, fields.value);
      if !ok {
        return Invalid;
      }
      assert Change(cfg, record.planId, raw) == Some(requested);
      // Only the two quotas are updatable.
      record := record.(params := record.params.(maxConnections := requested.maxConnections));
      record := record.(params := record.params.(storageGb := requested.storageGb));
      reply := Resize(ctx, id, record, s);
    }

    method Resize(ctx: Context, id: string, record: InstanceRecord, ghost s: State) returns (reply: Reply)
      requires Valid() && s == Now()
      modifies admin.db, store.instances, ctx
      ensures Valid()
      ensures Execute(UpdateTree(cfg, id, record), s, ctx.faults, old(ctx.clock)) == Outcome(Now(), reply, ctx.clock)
    {
      hide Execute, Tenancy.Update, PutInstance;
      var n := cfg.naming.instance(id, record.params.name);
      Safety.AfterExecutes(Tenancy.Update(cfg.server, n, record.params), PutInstance(id, record, Success), s,
          ctx.faults, ctx.clock);
      var status := admin.Update(ctx, n, record.params, s);
      if status != Tenancy.Done {
        return MapStatus(status);
      }
      var ok := store.PutInstance(ctx, id, record, Now());
      reply := if ok then Success else Failure(Writing);
    }

    method Deprovision(ctx: Context, id: string, serviceId: string, password: string,
            nonce: Vault.Bytes) returns (reply: Reply)
      requires Valid() && ctx.clock == 0
      modifies admin.db, store.instances, ctx
      ensures Valid()
      ensures Serve(cfg, store.encryptor, Request.Deprovision(id, serviceId), Env(ctx.faults, password, nonce),
          old(Now()))
           == Outcome(Now(), reply, ctx.clock)
      ensures Safety.Served(cfg) && old(Owned()) ==>
        (Owned() <==> !Safety.Severs(cfg, store.encryptor, Request.Deprovision(id, serviceId),
            Env(ctx.faults, password, nonce), old(Now())))
    {
      hide Safety.Safe, Safety.Served, Safety.FailsFirstAt, Safety.Removes, Execute, DeprovisionTree, InfosOf,
          Decrypted, OfInstance, AsMap;
      RequestKeepsOwned(Request.Deprovision(id, serviceId), Env(ctx.faults, password, nonce), Now());
      ghost var s := Now();
      if serviceId != cfg.serviceId {
        return Invalid;
      }
      var instance := store.GetInstance(ctx, id, s);
      if instance.Unreadable? {
        return Failure(Reading);
      }
      if instance.Missing? {
        return NotFound;
      }
      EmptyListMeansUnbound(cfg, store.encryptor, store.bindings.rows, id);
      var bindings := store.BindingsForInstance(ctx, id);
      if bindings.None? {
        return Failure(Reading);
      }
      if |bindings.value| > 0 {
        return Invalid;
      }
      reply := Remove(ctx, id, instance.value, s);
    }

    method Remove(ctx: Context, id: string, record: InstanceRecord, ghost s: State) returns (reply: Reply)
      requires Valid() && s == Now()
      modifies admin.db, store.instances, ctx
      ensures Valid()
      ensures Execute(DeprovisionTree(cfg, id, record), s, ctx.faults, old(ctx.clock)) ==
        Outcome(Now(), reply, ctx.clock)
    {
      hide Execute, Tenancy.Deprovision, DeleteInstance;
      var n := cfg.naming.instance(id, record.params.name);
      Safety.AfterExecutes(Tenancy.Deprovision(cfg.server, n), DeleteInstance(id), s, ctx.faults, ctx.clock);
      var status := admin.Deprovision(ctx, n, s);
      if status != Tenancy.Done {
        return MapStatus(status);
      }
      var ok := store.DeleteInstance(ctx, id, Now());
      reply := if ok then Success else Failure(Deleting);
    }

    method Bind(ctx: Context, id: string, bindingId: string, serviceId: string, raw: Params.Raw,
                password: string, nonce: Vault.Bytes) returns (reply: Reply)
      requires Valid() && ctx.clock == 0
      modifies admin.db, store.bindings, ctx
      ensures Valid()
      ensures Serve(cfg, store.encryptor, Request.Bind(id, bindingId, serviceId, raw), Env(ctx.faults, password, nonce),
          old(Now()))
           == Outcome(Now(), reply, ctx.clock)
      ensures Safety.Served(cfg) && old(Owned()) ==> Owned()
    {
      hide Safety.Safe, Safety.Served, Execute, BindTree, Info, Params.Parse;
      RequestKeepsOwned(Request.Bind(id, bindingId, serviceId, raw), Env(ctx.faults, password, nonce), Now());
      ghost var s := Now();
      if serviceId != cfg.serviceId {
        return Invalid;
      }
      var instance := store.GetInstance(ctx, id, s);
      if instance.Unreadable? {
        return Failure(Reading);
      }
      if instance.Missing? {
        return NotFound;
      }
      var fields := Params.Parse(Params.BINDING_SCHEMA, raw);
      if fields.None? {
        return Invalid;
      }
      var spec := BindingParams("");
      if "name" in fields.value {
        spec := spec.(name := Params.Sprint(cfg.params, fields.value["name"]));
      }
      assert BindingSpec(cfg, raw) == Some(spec);
      var existing := store.GetBinding(ctx, bindingId, s);
      match existing
      case Unreadable =>
        reply := Failure(Reading);
      case Present(info) =>
        reply := if info.instanceId == id && info.params == spec then AlreadyBound(info.credentials) else Conflict;
      case Missing =>
        reply := Join(ctx, id, instance.value, bindingId, spec, password, nonce, s);
    }

    method Join(ctx: Context, id: string, record: InstanceRecord, bindingId: string, spec: BindingParams,
                password: string, nonce: Vault.Bytes, ghost s: State) returns (reply: Reply)
      requires Valid() && s == Now()
      modifies admin.db, store.bindings, ctx
      ensures Valid()
      ensures Execute(BindTree(cfg, store.encryptor, Env(ctx.faults, password, nonce), id, record, bindingId, spec), s,
          ctx.faults, old(ctx.clock))
           == Outcome(Now(), reply, ctx.clock)
    {
      hide Execute, Tenancy.Bind, PutBinding;
      var n := cfg.naming.instance(id, record.params.name);
      var username := cfg.naming.user(bindingId, spec.name);
      var credentials := cfg.credentials(n.database, username, password);
      ghost var stored := NewBinding(cfg, store.encryptor, Env(ctx.faults, password, nonce), id, n, bindingId, spec);
      Safety.AfterExecutes(Tenancy.Bind(cfg.server, n, username, password),
          PutBinding(bindingId, stored, Bound(credentials)), s, ctx.faults, ctx.clock);
      var status := admin.Bind(ctx, n, username, password, s);
      if status != Tenancy.Done {
        return MapStatus(status);
      }
      var ok := store.PutBinding(ctx, bindingId, username, id, spec, credentials, nonce, Bound(credentials), Now());
      reply := if ok then Bound(credentials) else Failure(Writing);
    }

    method Unbind(ctx: Context, id: string, bindingId: string, serviceId: string, password: string,
            nonce: Vault.Bytes) returns (reply: Reply)
      requires Valid() && ctx.clock == 0
      modifies admin.db, store.bindings, ctx
      ensures Valid()
      ensures Serve(cfg, store.encryptor, Request.Unbind(id, bindingId, serviceId), Env(ctx.faults, password, nonce),
          old(Now()))
           == Outcome(Now(), reply, ctx.clock)
      ensures Safety.Served(cfg) && old(Owned()) ==>
        (Owned() <==> !Safety.Severs(cfg, store.encryptor, Request.Unbind(id, bindingId, serviceId),
            Env(ctx.faults, password, nonce), old(Now())))
    {
      hide Safety.Safe, Safety.Served, Execute, UnbindTree, Info;
      RequestKeepsOwned(Request.Unbind(id, bindingId, serviceId), Env(ctx.faults, password, nonce), Now());
      ghost var s := Now();
      if serviceId != cfg.serviceId {
        return Invalid;
      }
      var instance := store.GetInstance(ctx, id, s);
      if instance.Unreadable? {
        return Failure(Reading);
      }
      var binding := store.GetBinding(ctx, bindingId, s);
      if binding.Unreadable? {
        return Failure(Reading);
      }
      if instance.Missing? || binding.Missing? || binding.value.instanceId != id {
        return NotFound;
      }
      reply := Leave(ctx, id, instance.value, bindingId, binding.value.username, s);
    }

    method Leave(ctx: Context, id: string, record: InstanceRecord, bindingId: string, username: string,
            ghost s: State) returns (reply: Reply)
      requires Valid() && s == Now()
      modifies admin.db, store.bindings, ctx
      ensures Valid()
      ensures Execute(UnbindTree(cfg, id, record, bindingId, username), s, ctx.faults, old(ctx.clock)) ==
        Outcome(Now(), reply, ctx.clock)
    {
      hide Execute, Tenancy.Unbind, DeleteBinding;
      var n := cfg.naming.instance(id, record.params.name);
      Safety.AfterExecutes(Tenancy.Unbind(cfg.server, n, username), DeleteBinding(bindingId), s, ctx.faults, ctx.clock);
      var status := admin.Unbind(ctx, n, username, s);
      if status != Tenancy.Done {
        return MapStatus(status);
      }
      var ok := store.DeleteBinding(ctx, bindingId, Now());
      reply := if ok then Success else Failure(Deleting);
    }

    method GetInstance(ctx: Context, id: string, password: string, nonce: Vault.Bytes) returns (reply: Reply)
      requires Valid() && ctx.clock == 0
      modifies ctx
      ensures Serve(cfg, store.encryptor, Request.GetInstance(id), Env(ctx.faults, password, nonce), Now()) ==
        Outcome(Now(), reply, ctx.clock)
    {
      var found := store.GetInstance(ctx, id, Now());
      match found
      case Unreadable => reply := Failure(Reading);
      case Missing => reply := NotFound;
      case Present(record) => reply := Instance(record);
    }

    method GetBinding(ctx: Context, bindingId: string, password: string, nonce: Vault.Bytes) returns (reply: Reply)
      requires Valid() && ctx.clock == 0
      modifies ctx
      ensures Serve(cfg, store.encryptor, Request.GetBinding(bindingId), Env(ctx.faults, password, nonce), Now()) ==
        Outcome(Now(), reply, ctx.clock)
    {
      hide Info;
      var found := store.GetBinding(ctx, bindingId, Now());
      match found
      case Unreadable => reply := Failure(Reading);
      case Missing => reply := NotFound;
      case Present(info) => reply := Binding(info.credentials, info.params);
    }
  }
}
