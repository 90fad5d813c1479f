/** The object lifecycle of a tenant, as the broker performs it: probes, batches, and best-effort rollback. */
module Admin {
  import opened Wrappers
  import opened Names
  import opened Sql
  import opened State
  import opened Driver
  import opened Tenancy
  import Lifecycle
  import Membership

  class Admin {
    const server: Server
    const db: Driver.Database

    constructor (server: Server, db: Driver.Database)
      ensures this.server == server && this.db == db
    {
      this.server, this.db := server, db;
    }

    /** Done when the name is free, Taken when it is not, Broken when the catalog cannot be read. */
    method EnsureAbsent(ctx: Context, catalog: Catalog, name: string) returns (status: Status)
      modifies ctx
      ensures ctx.clock == old(ctx.clock) + 1
      ensures status == if ctx.faults(old(ctx.clock)) || server.database !in db.world.databases then Broken
                        else if Listed(db.world, catalog, name) then Taken else Done
    {
      var found := db.Exists(ctx, OnAdmin(server), catalog, name);
      match found
      case None => status := Broken;
      case Some(listed) => status := if listed then Taken else Done;
    }

    method Provision(ctx: Context, n: Names, p: InstanceParams, password: string,
            ghost s: State) returns (status: Status)
      requires s.world == db.world
      modifies db, ctx
      ensures Execute(Tenancy.Provision(server, n, p, password), s, ctx.faults, old(ctx.clock)) ==
        Outcome(s.(world := db.world), status, ctx.clock)
    {
      hide Execute, ProvisionAdmin, ProvisionTenant, Tenancy.Deprovision, Failing, Graft;
      ghost var clock, create := ctx.clock, Creation(server, n, p, password);
      ghost var third := Absent(OnAdmin(server), Tablespaces, n.tablespace, create);
      ghost var second := Absent(OnAdmin(server), Roles, n.groupRole, third);
      Lifecycle.AbsentExecutes(OnAdmin(server), Databases, n.database, second, s, ctx.faults, clock);
      Lifecycle.AbsentExecutes(OnAdmin(server), Roles, n.groupRole, third, s, ctx.faults, clock + 1);
      Lifecycle.AbsentExecutes(OnAdmin(server), Tablespaces, n.tablespace, create, s, ctx.faults, clock + 2);
      status := EnsureAbsent(ctx, Databases, n.database);
      if status != Done {
        return;
      }
      status := EnsureAbsent(ctx, Roles, n.groupRole);
      if status != Done {
        return;
      }
      status := EnsureAbsent(ctx, Tablespaces, n.tablespace);
      if status != Done {
        return;
      }
      status := Create(ctx, n, p, password, s);
    }

    /** The two creating batches; a failure of either is answered by removing the whole tenant. */
    method Create(ctx: Context, n: Names, p: InstanceParams, password: string, ghost s: State) returns (status: Status)
      requires s.world == db.world
      modifies db, ctx
      ensures Execute(Creation(server, n, p, password), s, ctx.faults, old(ctx.clock)) ==
        Outcome(s.(world := db.world), status, ctx.clock)
    {
      hide Execute, ProvisionAdmin, ProvisionTenant, Tenancy.Deprovision;
      ghost var undo := Failing(Tenancy.Deprovision(server, n));
      ghost var rest := Attempting(OnTenant(server, n), ProvisionTenant(n), Leaf(Done), undo);
      Lifecycle.AttemptingExecutes(OnAdmin(server), ProvisionAdmin(server, n, p, password), rest, undo, s, ctx.faults,
          ctx.clock);
      var ok := db.Exec(ctx, OnAdmin(server), ProvisionAdmin(server, n, p, password), s);
      if !ok {
        status := RollBackTenant(ctx, n, s.(world := db.world));
        return;
      }
      ghost var s1, clock := s.(world := db.world), ctx.clock;
      Lifecycle.AttemptingExecutes(OnTenant(server, n), ProvisionTenant(n), Leaf(Done), undo, s1, ctx.faults, clock);
      ok := db.Exec(ctx, OnTenant(server, n), ProvisionTenant(n), s1);
      if !ok {
        status := RollBackTenant(ctx, n, s.(world := db.world));
        return;
      }
      LeafExecutes(Done, s.(world := db.world), ctx.faults, ctx.clock);
      status := Done;
    }

    /** Best-effort rollback of a partial creation: the operation has failed whatever becomes of it. */
    method RollBackTenant(ctx: Context, n: Names, ghost s: State) returns (status: Status)
      requires s.world == db.world
      modifies db, ctx
      ensures Execute(Failing(Tenancy.Deprovision(server, n)), s, ctx.faults, old(ctx.clock)) ==
        Outcome(s.(world := db.world), status, ctx.clock)
    {
      hide Execute, Tenancy.Deprovision, Failing;
      Lifecycle.FailingExecutes(Tenancy.Deprovision(server, n), s, ctx.faults, ctx.clock);
      var _ := Deprovision(ctx, n, s);
      status := Broken;
    }

    method Deprovision(ctx: Context, n: Names, ghost s: State) returns (status: Status)
      requires s.world == db.world
      modifies db, ctx
      ensures Execute(Tenancy.Deprovision(server, n), s, ctx.faults, old(ctx.clock)) ==
        Outcome(s.(world := db.world), status, ctx.clock)
    {
      hide DeprovisionAdmin, Batch;
      Lifecycle.AttemptingExecutes(OnAdmin(server), DeprovisionAdmin(server, n), Leaf(Done), Leaf(Broken), s,
          ctx.faults, ctx.clock);
      var ok := db.Exec(ctx, OnAdmin(server), DeprovisionAdmin(server, n), s);
      status := if ok then Done else Broken;
    }

    method Update(ctx: Context, n: Names, p: InstanceParams, ghost s: State) returns (status: Status)
      requires s.world == db.world
      modifies db, ctx
      ensures Execute(Tenancy.Update(server, n, p), s, ctx.faults, old(ctx.clock)) ==
        Outcome(s.(world := db.world), status, ctx.clock)
    {
      hide UpdateAdmin, Batch;
      Lifecycle.AttemptingExecutes(OnAdmin(server), UpdateAdmin(server, n, p), Leaf(Done), Leaf(Broken), s, ctx.faults,
          ctx.clock);
      var ok := db.Exec(ctx, OnAdmin(server), UpdateAdmin(server, n, p), s);
      status := if ok then Done else Broken;
    }

    method Bind(ctx: Context, n: Names, user: string, password: string, ghost s: State) returns (status: Status)
      requires s.world == db.world
      modifies db, ctx
      ensures Execute(Tenancy.Bind(server, n, user, password), s, ctx.faults, old(ctx.clock)) ==
        Outcome(s.(world := db.world), status, ctx.clock)
    {
      hide Execute, Joining;
      Lifecycle.AbsentExecutes(OnAdmin(server), Roles, user, Joining(server, n, user, password), s, ctx.faults,
          ctx.clock);
      status := EnsureAbsent(ctx, Roles, user);
      if status != Done {
        return;
      }
      status := Join(ctx, n, user, password, s);
    }

    method Join(ctx: Context, n: Names, user: string, password: string, ghost s: State) returns (status: Status)
      requires s.world == db.world
      modifies db, ctx
      ensures Execute(Joining(server, n, user, password), s, ctx.faults, old(ctx.clock)) ==
        Outcome(s.(world := db.world), status, ctx.clock)
    {
      hide Execute, BindAdmin, BindTenant, Tenancy.Unbind;
      ghost var undo := Failing(Tenancy.Unbind(server, n, user));
      ghost var rest := Attempting(OnTenant(server, n), BindTenant(n, user), Leaf(Done), undo);
      Lifecycle.AttemptingExecutes(OnAdmin(server), BindAdmin(n, user, password), rest, undo, s, ctx.faults, ctx.clock);
      var ok := db.Exec(ctx, OnAdmin(server), BindAdmin(n, user, password), s);
      if !ok {
        status := RollBackUser(ctx, n, user, s.(world := db.world));
        return;
      }
      ghost var s1, clock := s.(world := db.world), ctx.clock;
      Lifecycle.AttemptingExecutes(OnTenant(server, n), BindTenant(n, user), Leaf(Done), undo, s1, ctx.faults, clock);
      ok := db.Exec(ctx, OnTenant(server, n), BindTenant(n, user), s1);
      if !ok {
        status := RollBackUser(ctx, n, user, s.(world := db.world));
        return;
      }
      LeafExecutes(Done, s.(world := db.world), ctx.faults, ctx.clock);
      status := Done;
    }

    method RollBackUser(ctx: Context, n: Names, user: string, ghost s: State) returns (status: Status)
      requires s.world == db.world
      modifies db, ctx
      ensures Execute(Failing(Tenancy.Unbind(server, n, user)), s, ctx.faults, old(ctx.clock)) ==
        Outcome(s.(world := db.world), status, ctx.clock)
    {
      hide Execute, Tenancy.Unbind, Failing;
      Lifecycle.FailingExecutes(Tenancy.Unbind(server, n, user), s, ctx.faults, ctx.clock);
      var _ := Unbind(ctx, n, user, s);
      status := Broken;
    }

    method Unbind(ctx: Context, n: Names, user: string, ghost s: State) returns (status: Status)
      requires s.world == db.world
      modifies db, ctx
      ensures Execute(Tenancy.Unbind(server, n, user), s, ctx.faults, old(ctx.clock)) ==
        Outcome(s.(world := db.world), status, ctx.clock)
    {
      hide Execute, UnbindTenant, UnbindAdmin, Tenancy.Unbind;
      Membership.UnbindExecutes(s, server, n, user, ctx.faults, ctx.clock);
      var ok := db.Exec(ctx, OnTenant(server, n), UnbindTenant(user), s);
      if !ok {
        return Broken;
      }
      ok := db.Exec(ctx, OnAdmin(server), UnbindAdmin(user), s.(world := db.world));
      status := if ok then Done else Broken;
    }
  }

  lemma LeafExecutes(status: Status, s: State, faults: Faults, clock: nat)
    ensures Execute(Leaf(status), s, faults, clock) == Outcome(s, status, clock)
  {
  }
}
