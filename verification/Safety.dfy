/** What every request keeps: who owns which database object, whatever the environment makes fail. */
module Safety {
  import opened Wrappers
  import opened Names
  import opened Sql
  import opened State
  import opened Lifecycle
  import opened Membership
  import opened Sparing
  import opened Operations
  import Tenancy
  import Params
  import Plans
  import Vault

  /** A configuration the broker starts with, over lawful libraries. */
  ghost predicate Served(cfg: Config)
  {
    && Sound(cfg.naming) && Params.Lawful(cfg.params) && Vault.Lawful(cfg.vault)
    && (forall p | p in cfg.plans :: Params.Sized(p))
    && (forall d, u, p :: var c := cfg.credentials(d, u, p);
          "database" in c && c["database"] == d && "username" in c && c["username"] == u)
  }

  function NamesOf(cfg: Config, id: string, r: InstanceRecord): Names
  {
    cfg.naming.instance(id, r.params.name)
  }

  predicate WithinItsPlan(cfg: Config, planId: string, p: InstanceParams)
  {
    match Plans.Lookup(cfg.plans, planId)
    case None => false
    case Some(plan) => Params.WithinPlan(plan, p)
  }

  ghost predicate InstanceSafe(cfg: Config, w: World, id: string, r: InstanceRecord)
  {
    && TenantSafe(w, cfg.server, NamesOf(cfg, id, r))
    && r.serviceId == cfg.serviceId && r.database == NamesOf(cfg, id, r).database
    && WithinItsPlan(cfg, r.planId, r.params)
  }

  ghost predicate UserOfBinding(cfg: Config, w: World, b: string, r: BindingRecord, i: InstanceRecord)
  {
    && r.username == cfg.naming.user(b, r.params.name)
    && UserSafe(w, cfg.server, NamesOf(cfg, r.instanceId, i), r.username)
  }

  ghost predicate BindingSafe(cfg: Config, s: State, b: string, r: BindingRecord)
  {
    r.instanceId in s.instances && UserOfBinding(cfg, s.world, b, r, s.instances[r.instanceId])
  }

  ghost predicate CatalogReady(cfg: Config, w: World)
  {
    Consistent(w) && cfg.server.user in w.roles && cfg.server.database in w.databases
  }

  ghost predicate DistinctRoles(cfg: Config, instances: map<string, InstanceRecord>)
  {
    forall i, j | i in instances && j in instances && i != j ::
      NamesOf(cfg, i, instances[i]).groupRole != NamesOf(cfg, j, instances[j]).groupRole
  }

  ghost predicate DistinctUsers(bindings: map<string, BindingRecord>)
  {
    forall a, b | a in bindings && b in bindings && a != b :: bindings[a].username != bindings[b].username
  }

  /** Every record stays safe in a changed catalog. */
  ghost predicate StoredSafe(cfg: Config, s: State, w: World)
  {
    && CatalogReady(cfg, w)
    && (forall id | id in s.instances :: InstanceSafe(cfg, w, id, s.instances[id]))
    && (forall b | b in s.bindings :: BindingSafe(cfg, s.(world := w), b, s.bindings[b]))
  }

  /** The ownership invariant: stored instances and bindings own their catalog objects, and never the same ones. */
  ghost predicate Safe(cfg: Config, s: State)
  {
    StoredSafe(cfg, s, s.world) && DistinctRoles(cfg, s.instances) && DistinctUsers(s.bindings)
  }

  lemma DifferentRolesAreApart(cfg: Config, id: string, name: string, id': string, name': string)
    requires Served(cfg)
    requires cfg.naming.instance(id, name).groupRole != cfg.naming.instance(id', name').groupRole
    ensures Apart(cfg.naming.instance(id, name), cfg.naming.instance(id', name'))
  {
  }

  // ------------------------------------------------- store writes

  lemma PutInstanceExecutes(id: string, r: InstanceRecord, s: State, faults: Faults, clock: nat)
    ensures var o := Execute(PutInstance(id, r, Success), s, faults, clock);
      if faults(clock) || faults(clock + 1) then o.result == Failure(Writing) && o.state == s
      else o.result == Success && o.state == s.(instances := s.instances[id := r])
  {
    var write := if id in s.instances then ReplaceInstance(id, r) else InsertInstance(id, r);
    assert Execute(Act(write, Leaf(Success), Refuse(Writing), Refuse(Writing)), s, faults, clock + 1) ==
      if faults(clock + 1) then Outcome(s, Failure(Writing), clock + 2)
      else Outcome(s.(instances := s.instances[id := r]), Success, clock + 2);
  }

  lemma PutBindingExecutes(id: string, r: BindingRecord, done: Reply, s: State, faults: Faults, clock: nat)
    ensures var o := Execute(PutBinding(id, r, done), s, faults, clock);
      if faults(clock) || faults(clock + 1) then o.result == Failure(Writing) && o.state == s
      else o.result == done && o.state == s.(bindings := s.bindings[id := r])
  {
    var write := if id in s.bindings then ReplaceBinding(id, r) else InsertBinding(id, r);
    assert Execute(Act(write, Leaf(done), Refuse(Writing), Refuse(Writing)), s, faults, clock + 1) ==
      if faults(clock + 1) then Outcome(s, Failure(Writing), clock + 2)
      else Outcome(s.(bindings := s.bindings[id := r]), done, clock + 2);
  }

  lemma DeleteInstanceExecutes(id: string, s: State, faults: Faults, clock: nat)
    ensures Execute(DeleteInstance(id), s, faults, clock) ==
      if faults(clock) then Outcome(s, Failure(Deleting), clock + 1)
      else Outcome(s.(instances := s.instances - {id}), Success, clock + 1)
  {
  }

  lemma DeleteBindingExecutes(id: string, s: State, faults: Faults, clock: nat)
    ensures Execute(DeleteBinding(id), s, faults, clock) ==
      if faults(clock) then Outcome(s, Failure(Deleting), clock + 1)
      else Outcome(s.(bindings := s.bindings - {id}), Success, clock + 1)
  {
  }

  lemma AfterExecutes(admin: Tree<Tenancy.Status>, record: Tree<Reply>, s: State, faults: Faults, clock: nat)
    ensures var o := Execute(admin, s, faults, clock);
      Execute(After(admin, record), s, faults, clock) ==
      match o.result
      case Done => Execute(record, o.state, faults, o.clock)
      case Taken => Outcome(o.state, Conflict, o.clock)
      case Broken => Outcome(o.state, Failure(Administering), o.clock)
  {
    ExecuteGraft(admin, Recording(record), s, faults, clock);
  }

  // ------------------------------------------------- provision

  /** Everything stored stays safe while another tenant is worked on. */
  lemma TenantWorkSparesStored<R>(cfg: Config, t: Tree<R>, s: State, faults: Faults, clock: nat, id: string,
          name: string)
    requires Served(cfg) && Safe(cfg, s) && id !in s.instances
    requires var n := cfg.naming.instance(id, name);
      && SqlOnly(t, Tenancy.TenantStatements(cfg.server, n)) && Tenancy.OwnsDatabase(s.world, n)
      && n.groupRole !in s.world.roles && n.database !in s.world.databases
    ensures var o := Execute(t, s, faults, clock);
      && (forall j | j in s.instances :: InstanceSafe(cfg, o.state.world, j, s.instances[j]))
      && (forall b | b in s.bindings :: BindingSafe(cfg, s.(world := o.state.world), b, s.bindings[b]))
  {
    var n := cfg.naming.instance(id, name);
    forall j | j in s.instances ensures InstanceSafe(cfg, Execute(t, s, faults, clock).state.world, j, s.instances[j]) {
      DifferentRolesAreApart(cfg, id, name, j, s.instances[j].params.name);
      TenantOperationSparesTenant(t, s, faults, clock, cfg.server, n, NamesOf(cfg, j, s.instances[j]));
    }
    forall b | b in s.bindings
      ensures BindingSafe(cfg, s.(world := Execute(t, s, faults, clock).state.world), b, s.bindings[b])
    {
      var j := s.bindings[b].instanceId;
      assert InstanceSafe(cfg, s.world, j, s.instances[j]);
      DifferentRolesAreApart(cfg, id, name, j, s.instances[j].params.name);
      TenantOperationSparesUser(t, s, faults, clock, cfg.server, n, NamesOf(cfg, j, s.instances[j]),
          s.bindings[b].username);
    }
  }

  lemma WorldChangeKeepsSafe(cfg: Config, s: State, w: World)
    requires Safe(cfg, s) && StoredSafe(cfg, s, w)
    ensures Safe(cfg, s.(world := w))
  {
    assert s.(world := w).(world := w) == s.(world := w);
  }

  lemma AddInstanceKeepsSafe(cfg: Config, s: State, id: string, r: InstanceRecord)
    requires Safe(cfg, s) && id !in s.instances && InstanceSafe(cfg, s.world, id, r)
    requires forall j | j in s.instances :: NamesOf(cfg, j, s.instances[j]).groupRole != NamesOf(cfg, id, r).groupRole
    ensures Safe(cfg, s.(instances := s.instances[id := r]))
  {
    hide TenantSafe, UserSafe, Consistent, WithinItsPlan;
    var s' := s.(instances := s.instances[id := r]);
    forall b | b in s'.bindings ensures BindingSafe(cfg, s', b, s'.bindings[b]) {
      assert BindingSafe(cfg, s, b, s.bindings[b]);
    }
    assert StoredSafe(cfg, s', s'.world);
  }

  lemma NewTenantIsSafe(w: World, c: Tenancy.Server, n: Names, p: InstanceParams, password: string)
    requires Ready(w, c, n) && Fresh(w, n)
    requires Ready(Provisioned(w, c, n, p, password), c, n) && Contained(Provisioned(w, c, n, p, password), n)
    ensures TenantSafe(Provisioned(w, c, n, p, password), c, n)
  {
  }

  /** A creation on free names, wherever it is stopped, and whether or not its record can be written. */
  lemma CreationKeepsSafe(cfg: Config, id: string, p: InstanceParams, password: string, s: State, faults: Faults,
          clock: nat)
    requires Served(cfg) && Safe(cfg, s) && id !in s.instances && Fresh(s.world, cfg.naming.instance(id, p.name))
    ensures var n := cfg.naming.instance(id, p.name);
      var o := Execute(Tenancy.Creation(cfg.server, n, p, password), s, faults, clock);
      && o.state == s.(world := o.state.world) && Safe(cfg, o.state)
      && (o.result == Tenancy.Done ==> TenantSafe(o.state.world, cfg.server, n))
  {
    var c, n := cfg.server, cfg.naming.instance(id, p.name);
    var t := Tenancy.Creation(c, n, p, password);
    var o := Execute(t, s, faults, clock);
    Tenancy.TenantOperationsStayInside(c, n, p, password);
    FreshLeavesNothing(s.world, n);
    TenantFrame(t, s, faults, clock, c, n);
    StaysReady(s.world, o.state.world, c, n);
    TenantWorkSparesStored(cfg, t, s, faults, clock, id, p.name);
    WorldChangeKeepsSafe(cfg, s, o.state.world);
    CreationDone(s, c, n, p, password, faults, clock);
    if o.result == Tenancy.Done {
      NewTenantIsSafe(s.world, c, n, p, password);
    }
  }

  lemma StoredRolesExist(cfg: Config, s: State, n: Names)
    requires Safe(cfg, s) && n.groupRole !in s.world.roles
    ensures forall j | j in s.instances :: NamesOf(cfg, j, s.instances[j]).groupRole != n.groupRole
  {
    forall j | j in s.instances ensures NamesOf(cfg, j, s.instances[j]).groupRole != n.groupRole {
      assert InstanceSafe(cfg, s.world, j, s.instances[j]);
    }
  }

  lemma ProvisionKeepsSafe(cfg: Config, id: string, planId: string, p: InstanceParams, password: string, s: State,
          faults: Faults, clock: nat)
    requires Served(cfg) && Safe(cfg, s) && id !in s.instances && WithinItsPlan(cfg, planId, p)
    ensures var o := Execute(ProvisionTree(cfg, id, planId, p, password), s, faults, clock);
      Safe(cfg, o.state) && o.result != Failure(Deleting)
  {
    var c, n := cfg.server, cfg.naming.instance(id, p.name);
    var r := InstanceRecord(cfg.serviceId, planId, n.database, p);
    var a := Execute(Tenancy.Provision(c, n, p, password), s, faults, clock);
    AfterExecutes(Tenancy.Provision(c, n, p, password), PutInstance(id, r, Success), s, faults, clock);
    ProvisionProbes(s, c, n, p, password, faults, clock);
    PutInstanceExecutes(id, r, a.state, faults, a.clock);
    if Fresh(s.world, n) {
      CreationKeepsSafe(cfg, id, p, password, s, faults, clock + 3);
      StoredRolesExist(cfg, s, n);
      if a.result == Tenancy.Done {
        AddInstanceKeepsSafe(cfg, a.state, id, r);
      }
    }
  }

  // ------------------------------------------------- update

  lemma OtherTenantsStaySafe<R>(cfg: Config, t: Tree<R>, s: State, faults: Faults, clock: nat, id: string)
    requires Served(cfg) && Safe(cfg, s) && id in s.instances
    requires SqlOnly(t, Tenancy.TenantStatements(cfg.server, NamesOf(cfg, id, s.instances[id])))
    ensures var o := Execute(t, s, faults, clock);
      && (forall j | j in s.instances && j != id :: InstanceSafe(cfg, o.state.world, j, s.instances[j]))
      && (forall b | b in s.bindings && s.bindings[b].instanceId != id ::
            BindingSafe(cfg, s.(world := o.state.world), b, s.bindings[b]))
  {
    var n := NamesOf(cfg, id, s.instances[id]);
    assert InstanceSafe(cfg, s.world, id, s.instances[id]);
    forall j | j in s.instances && j != id
      ensures InstanceSafe(cfg, Execute(t, s, faults, clock).state.world, j, s.instances[j])
    {
      assert InstanceSafe(cfg, s.world, j, s.instances[j]);
      DifferentRolesAreApart(cfg, id, s.instances[id].params.name, j, s.instances[j].params.name);
      TenantOperationSparesTenant(t, s, faults, clock, cfg.server, n, NamesOf(cfg, j, s.instances[j]));
    }
    forall b | b in s.bindings && s.bindings[b].instanceId != id
      ensures BindingSafe(cfg, s.(world := Execute(t, s, faults, clock).state.world), b, s.bindings[b])
    {
      assert BindingSafe(cfg, s, b, s.bindings[b]);
      var j := s.bindings[b].instanceId;
      DifferentRolesAreApart(cfg, id, s.instances[id].params.name, j, s.instances[j].params.name);
      TenantOperationSparesUser(t, s, faults, clock, cfg.server, n, NamesOf(cfg, j, s.instances[j]),
          s.bindings[b].username);
    }
  }

  lemma KeepingWorkKeepsSafe<R>(cfg: Config, t: Tree<R>, s: State, faults: Faults, clock: nat, id: string)
    requires Served(cfg) && Safe(cfg, s) && id in s.instances
    requires SqlOnly(t, KeepingStatements(cfg.server, NamesOf(cfg, id, s.instances[id])))
    ensures var o := Execute(t, s, faults, clock);
      o.state == s.(world := o.state.world) && Safe(cfg, o.state)
  {
    hide Consistent, Tenancy.Removed, UserSafe, Tenancy.OwnsDatabase, Closed;
    var c, n := cfg.server, NamesOf(cfg, id, s.instances[id]);
    var o := Execute(t, s, faults, clock);
    assert InstanceSafe(cfg, s.world, id, s.instances[id]);
    KeepingOperationSparesItself(t, s, faults, clock, c, n);
    TenantFrame(t, s, faults, clock, c, n);
    StaysReady(s.world, o.state.world, c, n);
    GroupRoleNeverJoins(t, s, faults, clock, c, n);
    LaterOperationKeepsClosed(t, s, faults, clock, c, n);
    OtherTenantsStaySafe(cfg, t, s, faults, clock, id);
    forall b | b in s.bindings && s.bindings[b].instanceId == id
      ensures BindingSafe(cfg, s.(world := o.state.world), b, s.bindings[b])
    {
      assert BindingSafe(cfg, s, b, s.bindings[b]);
      TenantOperationSparesUser(t, s, faults, clock, c, n, n, s.bindings[b].username);
    }
    WorldChangeKeepsSafe(cfg, s, o.state.world);
  }

  lemma SameNamesSameUser(cfg: Config, w: World, b: string, r: BindingRecord, i: InstanceRecord, i': InstanceRecord)
    requires UserOfBinding(cfg, w, b, r, i) && i.params.name == i'.params.name
    ensures UserOfBinding(cfg, w, b, r, i')
  {
  }

  lemma SameNamesStayDistinct(cfg: Config, instances: map<string, InstanceRecord>, id: string, r: InstanceRecord)
    requires DistinctRoles(cfg, instances) && id in instances && r.params.name == instances[id].params.name
    ensures DistinctRoles(cfg, instances[id := r])
  {
  }

  lemma ReplaceInstanceKeepsSafe(cfg: Config, s: State, id: string, r: InstanceRecord)
    requires Safe(cfg, s) && id in s.instances && InstanceSafe(cfg, s.world, id, r)
    requires r.params.name == s.instances[id].params.name
    ensures Safe(cfg, s.(instances := s.instances[id := r]))
  {
    var s' := s.(instances := s.instances[id := r]);
    forall b | b in s'.bindings ensures BindingSafe(cfg, s', b, s'.bindings[b]) {
      assert BindingSafe(cfg, s, b, s.bindings[b]);
      SameNamesSameUser(cfg, s.world, b, s.bindings[b], s.instances[s.bindings[b].instanceId],
          s'.instances[s.bindings[b].instanceId]);
    }
    forall j | j in s'.instances ensures InstanceSafe(cfg, s'.world, j, s'.instances[j]) {
      assert j != id ==> InstanceSafe(cfg, s.world, j, s.instances[j]);
    }
    assert StoredSafe(cfg, s', s'.world);
    SameNamesStayDistinct(cfg, s.instances, id, r);
  }

  lemma UpdateKeepsSafe(cfg: Config, id: string, p: InstanceParams, s: State, faults: Faults, clock: nat)
    requires Served(cfg) && Safe(cfg, s) && id in s.instances && WithinItsPlan(cfg, s.instances[id].planId, p)
    ensures var o := Execute(UpdateTree(cfg, id, Updated(s.instances[id], p)), s, faults, clock);
      Safe(cfg, o.state) && o.result != Failure(Deleting)
  {
    var c, r := cfg.server, Updated(s.instances[id], p);
    var n := NamesOf(cfg, id, r);
    var a := Execute(Tenancy.Update(c, n, r.params), s, faults, clock);
    AfterExecutes(Tenancy.Update(c, n, r.params), PutInstance(id, r, Success), s, faults, clock);
    UpdateDropsNothing(c, n, r.params);
    KeepingWorkKeepsSafe(cfg, Tenancy.Update(c, n, r.params), s, faults, clock, id);
    assert InstanceSafe(cfg, a.state.world, id, s.instances[id]);
    ReplaceInstanceKeepsSafe(cfg, a.state, id, r);
    PutInstanceExecutes(id, r, a.state, faults, a.clock);
  }

  // ------------------------------------------------- deprovision

  predicate Unbound(s: State, id: string)
  {
    forall b | b in s.bindings :: s.bindings[b].instanceId != id
  }

  /** What a deprovision leaves: everything as safe as before if it stopped short, everything but the
      instance itself if its statements all went through. */
  lemma DeprovisionSql(cfg: Config, id: string, s: State, faults: Faults, clock: nat)
    requires Served(cfg) && Safe(cfg, s) && id in s.instances && Unbound(s, id)
    ensures var n := NamesOf(cfg, id, s.instances[id]);
      var o := Execute(Tenancy.Deprovision(cfg.server, n), s, faults, clock);
      && o.state == s.(world := o.state.world) && o.result != Tenancy.Taken
      && (o.result == Tenancy.Broken ==>
            Safe(cfg, o.state) && Tenancy.Removed(o.state.world, n) == Tenancy.Removed(s.world, n))
      && (o.result == Tenancy.Done <==> !Interrupted(faults, clock, 7))
      && (o.result == Tenancy.Done ==> o.state.world == Tenancy.Removed(s.world, n) && o.clock == clock + 7)
      && (o.result == Tenancy.Done ==> Safe(cfg, o.state.(instances := o.state.instances - {id})))
  {
    hide Consistent, Tenancy.Removed, UserSafe, Interrupted, Closed;
    var c, n := cfg.server, NamesOf(cfg, id, s.instances[id]);
    var t := Tenancy.Deprovision(c, n);
    var o := Execute(t, s, faults, clock);
    assert InstanceSafe(cfg, s.world, id, s.instances[id]);
    Tenancy.TenantOperationsStayInside(c, n, s.instances[id].params, "");
    StoppedDeprovisionKeepsToken(s, c, n, faults, clock);
    DeprovisionDone(s, c, n, faults, clock);
    TenantFrame(t, s, faults, clock, c, n);
    GroupRoleNeverJoins(t, s, faults, clock, c, n);
    DeprovisionMakesNothing(c, n);
    LaterOperationKeepsClosed(t, s, faults, clock, c, n);
    OtherTenantsStaySafe(cfg, t, s, faults, clock, id);
    StaysReady(s.world, o.state.world, c, n);
    if o.result == Tenancy.Broken {
      WorldChangeKeepsSafe(cfg, s, o.state.world);
    } else {
      RemoveInstanceKeepsSafe(cfg, s, o.state.world, id);
    }
  }

  lemma RemoveInstanceKeepsSafe(cfg: Config, s: State, w: World, id: string)
    requires Safe(cfg, s) && Unbound(s, id)
    requires CatalogReady(cfg, w)
    requires forall j | j in s.instances && j != id :: InstanceSafe(cfg, w, j, s.instances[j])
    requires forall b | b in s.bindings && s.bindings[b].instanceId != id ::
      BindingSafe(cfg, s.(world := w), b, s.bindings[b])
    ensures Safe(cfg, s.(world := w, instances := s.instances - {id}))
  {
    hide TenantSafe, UserSafe, Consistent, WithinItsPlan;
    var s' := s.(world := w, instances := s.instances - {id});
    forall b | b in s'.bindings ensures BindingSafe(cfg, s', b, s'.bindings[b]) {
      assert BindingSafe(cfg, s.(world := w), b, s.bindings[b]);
    }
    forall j | j in s'.instances ensures InstanceSafe(cfg, s'.world, j, s'.instances[j]) {
      assert InstanceSafe(cfg, w, j, s.instances[j]);
    }
    assert StoredSafe(cfg, s', s'.world);
    assert DistinctRoles(cfg, s'.instances);
  }

  lemma RemovedHasNoRole(w: World, n: Names)
    ensures n.groupRole !in Tenancy.Removed(w, n).roles
  {
  }

  lemma RemovedIsUnsafe(cfg: Config, s: State, id: string)
    requires id in s.instances && NamesOf(cfg, id, s.instances[id]).groupRole !in s.world.roles
    ensures !Safe(cfg, s)
  {
    assert !InstanceSafe(cfg, s.world, id, s.instances[id]);
  }

  /** A deprovision keeps the invariant exactly when one of its seven steps is made to fail, or the deletion of its
      record is not; otherwise the record names a group role that no longer exists. */
  lemma DeprovisionKeepsSafe(cfg: Config, id: string, s: State, faults: Faults, clock: nat)
    requires Served(cfg) && Safe(cfg, s) && id in s.instances && Unbound(s, id)
    ensures var o := Execute(DeprovisionTree(cfg, id, s.instances[id]), s, faults, clock);
      && (Safe(cfg, o.state) <==> Interrupted(faults, clock, 7) || !faults(clock + 7))
      && (o.result == Failure(Deleting) <==> !Safe(cfg, o.state))
      && (!Safe(cfg, o.state) ==> o.state == s.(world := Tenancy.Removed(s.world, NamesOf(cfg, id, s.instances[id]))))
  {
    hide Safe, Interrupted, Tenancy.Removed;
    var c, n := cfg.server, NamesOf(cfg, id, s.instances[id]);
    var a := Execute(Tenancy.Deprovision(c, n), s, faults, clock);
    AfterExecutes(Tenancy.Deprovision(c, n), DeleteInstance(id), s, faults, clock);
    DeprovisionSql(cfg, id, s, faults, clock);
    DeleteInstanceExecutes(id, a.state, faults, a.clock);
    RemovedHasNoRole(s.world, n);
    RemovedIsUnsafe(cfg, s.(world := Tenancy.Removed(s.world, n)), id);
  }

  // ------------------------------------------------- bind and unbind

  /** A user of the broker's own naming that is no stored binding's user. */
  predicate Stranger(s: State, user: string)
  {
    forall b | b in s.bindings :: s.bindings[b].username != user
  }

  /** Everything stored stays safe while the user of another binding is worked on. */
  lemma UserWorkSparesStored<R>(cfg: Config, t: Tree<R>, s: State, faults: Faults, clock: nat, id: string, b: string,
          name: string)
    requires Served(cfg) && Safe(cfg, s) && id in s.instances
    requires SqlOnly(t, Tenancy.UserStatements(cfg.server, NamesOf(cfg, id, s.instances[id]), cfg.naming.user(b, name)))
    requires cfg.naming.user(b, name) != cfg.server.user
    ensures var w := Execute(t, s, faults, clock).state.world;
      && (forall j | j in s.instances :: InstanceSafe(cfg, w, j, s.instances[j]))
      && (forall x | x in s.bindings && s.bindings[x].username != cfg.naming.user(b, name) ::
            BindingSafe(cfg, s.(world := w), x, s.bindings[x]))
  {
    hide TenantSafe, UserSafe, Consistent, SqlOnly;
    var c, n, user := cfg.server, NamesOf(cfg, id, s.instances[id]), cfg.naming.user(b, name);
    var w := Execute(t, s, faults, clock).state.world;
    InstanceNames(cfg, s.world, id, s.instances[id]);
    forall j | j in s.instances ensures InstanceSafe(cfg, w, j, s.instances[j]) {
      if j != id {
        DifferentRolesAreApart(cfg, id, s.instances[id].params.name, j, s.instances[j].params.name);
      }
      UserOperationSparesTenant(t, s, faults, clock, c, n, user, NamesOf(cfg, j, s.instances[j]));
    }
    forall x | x in s.bindings && s.bindings[x].username != user
      ensures BindingSafe(cfg, s.(world := w), x, s.bindings[x])
    {
      assert BindingSafe(cfg, s, x, s.bindings[x]);
      var j := s.bindings[x].instanceId;
      UserOperationSparesUser(t, s, faults, clock, c, n, user, NamesOf(cfg, j, s.instances[j]), s.bindings[x].username);
    }
  }

  lemma InstanceNames(cfg: Config, w: World, id: string, r: InstanceRecord)
    requires InstanceSafe(cfg, w, id, r)
    ensures NamesOf(cfg, id, r).database != cfg.server.database
    ensures Ready(w, cfg.server, NamesOf(cfg, id, r)) && CatalogReady(cfg, w)
    ensures NamesOf(cfg, id, r).groupRole in w.roles
  {
  }

  lemma NewUserIsSafe(w: World, c: Tenancy.Server, n: Names, user: string, password: string)
    requires Joinable(w, c, n, user) && n.database in w.databases
    requires Consistent(Joined(w, c, n, user, password))
    requires Tenancy.Unjoined(Joined(w, c, n, user, password), c, n, user) == Tenancy.Unjoined(w, c, n, user)
    ensures UserSafe(Joined(w, c, n, user, password), c, n, user)
  {
    hide Tenancy.Unjoined, Mentions;
    FreshUser(w, c, n, user);
  }

  /** Joining a new user, wherever it is stopped, and whether or not its record can be written. */
  lemma JoiningKeepsSafe(cfg: Config, id: string, b: string, name: string, password: string, s: State,
          faults: Faults, clock: nat)
    requires Served(cfg) && Safe(cfg, s) && id in s.instances && cfg.naming.user(b, name) !in s.world.roles
    ensures var n, user := NamesOf(cfg, id, s.instances[id]), cfg.naming.user(b, name);
      var o := Execute(Tenancy.Joining(cfg.server, n, user, password), s, faults, clock);
      && o.state == s.(world := o.state.world) && Safe(cfg, o.state)
      && (o.result == Tenancy.Done ==> UserSafe(o.state.world, cfg.server, n, user))
  {
    hide TenantSafe, Consistent, Tenancy.Unjoined, Joined;
    var c, n, user := cfg.server, NamesOf(cfg, id, s.instances[id]), cfg.naming.user(b, name);
    var t := Tenancy.Joining(c, n, user, password);
    var o := Execute(t, s, faults, clock);
    InstanceNames(cfg, s.world, id, s.instances[id]);
    Tenancy.UserOperationsStayInside(c, n, user, password);
    UserWorkSparesStored(cfg, t, s, faults, clock, id, b, name);
    UserFrame(t, s, faults, clock, c, n, user);
    InstanceNames(cfg, o.state.world, id, s.instances[id]);
    StoredUsersExist(cfg, s, user);
    WorldChangeKeepsSafe(cfg, s, o.state.world);
    JoiningDone(s, c, n, user, password, faults, clock);
    if o.result == Tenancy.Done {
      NewUserIsSafe(s.world, c, n, user, password);
    }
  }

  lemma StoredUsersExist(cfg: Config, s: State, user: string)
    requires Safe(cfg, s) && user !in s.world.roles
    ensures Stranger(s, user)
  {
    hide Consistent;
    forall b | b in s.bindings ensures s.bindings[b].username != user {
      assert BindingSafe(cfg, s, b, s.bindings[b]);
    }
  }

  lemma AddBindingKeepsSafe(cfg: Config, s: State, b: string, r: BindingRecord)
    requires Safe(cfg, s) && b !in s.bindings && BindingSafe(cfg, s, b, r) && Stranger(s, r.username)
    ensures Safe(cfg, s.(bindings := s.bindings[b := r]))
  {
    hide InstanceSafe, UserOfBinding, CatalogReady;
    var s' := s.(bindings := s.bindings[b := r]);
    forall x | x in s'.bindings ensures BindingSafe(cfg, s', x, s'.bindings[x]) {
      assert x != b ==> BindingSafe(cfg, s, x, s.bindings[x]);
    }
    assert StoredSafe(cfg, s', s'.world);
  }

  lemma BindKeepsSafe(cfg: Config, e: Vault.Encryptor, env: Env, id: string, b: string, p: BindingParams, s: State,
          clock: nat)
    requires Served(cfg) && Safe(cfg, s) && id in s.instances && b !in s.bindings
    ensures var o := Execute(BindTree(cfg, e, env, id, s.instances[id], b, p), s, env.faults, clock);
      Safe(cfg, o.state) && o.result != Failure(Deleting)
  {
    hide Safe, UserSafe;
    var c, n, user := cfg.server, NamesOf(cfg, id, s.instances[id]), cfg.naming.user(b, p.name);
    var t := Tenancy.Bind(c, n, user, env.password);
    var r := NewBinding(cfg, e, env, id, n, b, p);
    var done := Bound(cfg.credentials(n.database, user, env.password));
    var a := Execute(t, s, env.faults, clock);
    AfterExecutes(t, PutBinding(b, r, done), s, env.faults, clock);
    BindProbes(s, c, n, user, env.password, env.faults, clock);
    PutBindingExecutes(b, r, done, a.state, env.faults, a.clock);
    if user !in s.world.roles {
      JoiningKeepsSafe(cfg, id, b, p.name, env.password, s, env.faults, clock + 1);
      StoredUsersExist(cfg, s, user);
      if a.result == Tenancy.Done {
        assert BindingSafe(cfg, a.state, b, r);
        AddBindingKeepsSafe(cfg, a.state, b, r);
      }
    }
  }

  /** A user whose unbind stopped short is as safe as before. */
  lemma StoppedUnbindKeepsUserSafe(s: State, c: Tenancy.Server, n: Names, user: string, faults: Faults, clock: nat)
    requires UserSafe(s.world, c, n, user)
    ensures var o := Execute(Tenancy.Unbind(c, n, user), s, faults, clock);
      && o.result != Tenancy.Taken && o.state == s.(world := o.state.world)
      && (o.result == Tenancy.Done <==> !Interrupted(faults, clock, 6))
      && (o.result == Tenancy.Done ==> o.clock == clock + 6)
      && (o.result == Tenancy.Broken && c.user in o.state.world.roles ==> UserSafe(o.state.world, c, n, user))
      && (o.result == Tenancy.Done ==> o.state.world == Tenancy.Unjoined(s.world, c, n, user))
  {
    hide Consistent, Tenancy.Unjoined;
    UnbindCanBeRepeated(s, c, n, user, faults, clock);
    StoppedUnbindKeepsMembers(s, c, n, user, faults, clock);
  }

  lemma RemoveBindingKeepsSafe(cfg: Config, s: State, w: World, b: string)
    requires Safe(cfg, s) && b in s.bindings && CatalogReady(cfg, w)
    requires forall j | j in s.instances :: InstanceSafe(cfg, w, j, s.instances[j])
    requires forall x | x in s.bindings && x != b :: BindingSafe(cfg, s.(world := w), x, s.bindings[x])
    ensures Safe(cfg, s.(world := w, bindings := s.bindings - {b}))
  {
    hide InstanceSafe, UserOfBinding, CatalogReady;
    var s' := s.(world := w, bindings := s.bindings - {b});
    forall x | x in s'.bindings ensures BindingSafe(cfg, s', x, s'.bindings[x]) {
      assert BindingSafe(cfg, s.(world := w), x, s.bindings[x]);
    }
    assert StoredSafe(cfg, s', s'.world);
  }

  /** What an unbind leaves: everything as safe as before if it stopped short, everything but the
      binding itself if its statements all went through. */
  lemma UnbindSql(cfg: Config, b: string, s: State, faults: Faults, clock: nat)
    requires Served(cfg) && Safe(cfg, s) && b in s.bindings && s.bindings[b].instanceId in s.instances
    ensures var r := s.bindings[b];
      var n := NamesOf(cfg, r.instanceId, s.instances[r.instanceId]);
      var o := Execute(Tenancy.Unbind(cfg.server, n, r.username), s, faults, clock);
      && o.state == s.(world := o.state.world) && o.result != Tenancy.Taken
      && (o.result == Tenancy.Done <==> !Interrupted(faults, clock, 6))
      && (o.result == Tenancy.Done ==> o.clock == clock + 6)
      && (o.result == Tenancy.Broken ==> Safe(cfg, o.state))
      && (o.result == Tenancy.Done ==> o.state.world == Tenancy.Unjoined(s.world, cfg.server, n, r.username))
      && (o.result == Tenancy.Done ==> Safe(cfg, o.state.(bindings := o.state.bindings - {b})))
  {
    hide UserSafe, TenantSafe, Consistent, Tenancy.Unjoined, Interrupted;
    var r := s.bindings[b];
    var id := r.instanceId;
    var c, n := cfg.server, NamesOf(cfg, id, s.instances[id]);
    var t := Tenancy.Unbind(c, n, r.username);
    var w := Execute(t, s, faults, clock).state.world;
    assert BindingSafe(cfg, s, b, r);
    BindingUser(cfg, s, b);
    Tenancy.UserOperationsStayInside(c, n, r.username, "");
    UserWorkSparesStored(cfg, t, s, faults, clock, id, b, r.params.name);
    InstanceNames(cfg, w, id, s.instances[id]);
    StoppedUnbindKeepsUserSafe(s, c, n, r.username, faults, clock);
    if Execute(t, s, faults, clock).result == Tenancy.Broken {
      assert BindingSafe(cfg, s.(world := w), b, r);
      assert StoredSafe(cfg, s, w);
      WorldChangeKeepsSafe(cfg, s, w);
    } else {
      RemoveBindingKeepsSafe(cfg, s, w, b);
    }
  }

  lemma BindingUser(cfg: Config, s: State, b: string)
    requires Safe(cfg, s) && b in s.bindings
    ensures var r := s.bindings[b];
      r.username == cfg.naming.user(b, r.params.name) && r.username != cfg.server.user && r.username in s.world.roles
      && r.instanceId in s.instances
  {
    hide Consistent;
    assert BindingSafe(cfg, s, b, s.bindings[b]);
  }

  lemma UnjoinedIsUnsafe(cfg: Config, s: State, b: string)
    requires b in s.bindings && s.bindings[b].username !in s.world.roles
    ensures !Safe(cfg, s)
  {
    hide Consistent;
    assert !BindingSafe(cfg, s, b, s.bindings[b]);
  }

  /** An unbind keeps the invariant exactly when one of its six steps is made to fail, or the deletion of its record
      is not; otherwise the record names a user that no longer exists. */
  lemma UnbindKeepsSafe(cfg: Config, b: string, s: State, faults: Faults, clock: nat)
    requires Served(cfg) && Safe(cfg, s) && b in s.bindings && s.bindings[b].instanceId in s.instances
    ensures var r := s.bindings[b];
      var o := Execute(UnbindTree(cfg, r.instanceId, s.instances[r.instanceId], b, r.username), s, faults, clock);
      && (Safe(cfg, o.state) <==> Interrupted(faults, clock, 6) || !faults(clock + 6))
      && (o.result == Failure(Deleting) <==> !Safe(cfg, o.state))
  {
    hide Safe, Interrupted;
    var r := s.bindings[b];
    var c, n := cfg.server, NamesOf(cfg, r.instanceId, s.instances[r.instanceId]);
    var t := Tenancy.Unbind(c, n, r.username);
    var a := Execute(t, s, faults, clock);
    AfterExecutes(t, DeleteBinding(b), s, faults, clock);
    UnbindSql(cfg, b, s, faults, clock);
    DeleteBindingExecutes(b, a.state, faults, a.clock);
    UnjoinedIsUnsafe(cfg, s.(world := Tenancy.Unjoined(s.world, c, n, r.username)), b);
  }

  // ------------------------------------------------- requests

  lemma SpecIsWithinPlan(cfg: Config, planId: string, raw: Params.Raw)
    requires Served(cfg)
    ensures Spec(cfg, planId, raw).Some? ==> WithinItsPlan(cfg, planId, Spec(cfg, planId, raw).value)
    ensures Change(cfg, planId, raw).Some? ==> WithinItsPlan(cfg, planId, Change(cfg, planId, raw).value)
  {
    var plan := Plans.Lookup(cfg.plans, planId);
    if plan.Some? {
      Plans.LookupIsMember(cfg.plans, planId);
      var created := Params.Parse(Params.InstanceSchema(plan.value), raw);
      if created.Some? && Params.Resolve(cfg.params, plan.value, created.value).Some? {
        Params.ResolvedIsWithinPlan(cfg.params, plan.value, created.value);
      }
      var changed := Params.Parse(Params.UpdatableSchema(plan.value), raw);
      if changed.Some? && Params.Resolve(cfg.params, plan.value, changed.value).Some? {
        Params.ResolvedIsWithinPlan(cfg.params, plan.value, changed.value);
      }
    }
  }

  /** An empty list of bindings is the truth: no record is overlooked. */
  lemma NoBindingsMeansUnbound(cfg: Config, e: Vault.Encryptor, s: State, id: string)
    requires InfosOf(cfg, e, s.bindings, id) == TheBindings(map[])
    ensures Unbound(s, id)
  {
    var infos := InfosOf(cfg, e, s.bindings, id).bindings;
    forall b | b in s.bindings ensures s.bindings[b].instanceId != id {
      assert b !in infos;
    }
  }

  /** What a request runs, beyond reading: the tree of its kind, for stored records as they are. */
  ghost predicate Acts(cfg: Config, e: Vault.Encryptor, req: Request, env: Env, s: State, o: Outcome<Reply>)
  {
    match req
    case Provision(id, _, plan, raw) =>
      && id !in s.instances && Spec(cfg, plan, raw).Some?
      && o == Execute(ProvisionTree(cfg, id, plan, Spec(cfg, plan, raw).value, env.password), s, env.faults, 1)
    case Update(id, _, _, raw) =>
      && id in s.instances && Change(cfg, s.instances[id].planId, raw).Some?
      && o == Execute(UpdateTree(cfg, id, Updated(s.instances[id], Change(cfg, s.instances[id].planId, raw).value)), s,
          env.faults, 1)
    case Deprovision(id, _) =>
      && id in s.instances && Unbound(s, id)
      && o == Execute(DeprovisionTree(cfg, id, s.instances[id]), s, env.faults, 2)
    case Bind(id, b, _, raw) =>
      && id in s.instances && b !in s.bindings && BindingSpec(cfg, raw).Some?
      && o == Execute(BindTree(cfg, e, env, id, s.instances[id], b, BindingSpec(cfg, raw).value), s, env.faults, 2)
    case Unbind(id, b, _) =>
      && id in s.instances && b in s.bindings && s.bindings[b].instanceId == id
      && o == Execute(UnbindTree(cfg, id, s.instances[id], b, s.bindings[b].username), s, env.faults, 2)
    case GetInstance(_) => false
    case GetBinding(_) => false
  }

  ghost predicate SomeReadFails(cfg: Config, e: Vault.Encryptor, env: Env, s: State)
  {
    exists q: Question, i: nat | i <= 1 :: Fetch(cfg, e, q, s, env.faults(i)).Unknown?
  }

  /** A request either answers from what it read, changing nothing, or acts. */
  lemma ServeAnswersOrActs(cfg: Config, e: Vault.Encryptor, req: Request, env: Env, s: State)
    ensures var o := Serve(cfg, e, req, env, s);
      || (o.state == s && o.clock <= 2
          && (o.result.Failure? ==> o.result == Failure(Reading) && SomeReadFails(cfg, e, env, s)))
      || Acts(cfg, e, req, env, s, o)
  {
    hide Execute, Spec, Change, InfosOf, Info, BindingSpec, ProvisionTree, UpdateTree, DeprovisionTree, BindTree,
        UnbindTree;
    match req
    case Provision(id, _, plan, raw) =>
    case Update(id, _, _, raw) =>
    case Deprovision(id, _) =>
      if id in s.instances && InfosOf(cfg, e, s.bindings, id) == TheBindings(map[]) {
        NoBindingsMeansUnbound(cfg, e, s, id);
      }
    case Bind(id, b, _, raw) =>
    case Unbind(id, b, _) =>
      if b in s.bindings {
        InfoKeepsColumns(cfg, e, s.bindings[b]);
      }
    case GetInstance(_) =>
    case GetBinding(_) =>
  }

  lemma InfoKeepsColumns(cfg: Config, e: Vault.Encryptor, b: BindingRecord)
    ensures Info(cfg, e, b).Some? ==>
      Info(cfg, e, b).value.instanceId == b.instanceId && Info(cfg, e, b).value.username == b.username
  {
  }

  /** The request asks to remove something that is there to be removed. */
  predicate Removes(cfg: Config, e: Vault.Encryptor, req: Request, s: State)
  {
    match req
    case Deprovision(id, service) => service == cfg.serviceId && id in s.instances && Unbound(s, id)
    case Unbind(id, b, service) =>
      && service == cfg.serviceId && id in s.instances && b in s.bindings && s.bindings[b].instanceId == id
      && Info(cfg, e, s.bindings[b]).Some?
    case _ => false
  }

  ghost predicate FailsFirstAt(faults: Faults, at: nat) { faults(at) && !Interrupted(faults, 0, at) }

  /** The environment lets a removal through and makes nothing but the deletion of its record fail: two reads come
      before, and the seven steps of a deprovision or the six of an unbind. */
  ghost predicate Severs(cfg: Config, e: Vault.Encryptor, req: Request, env: Env, s: State)
  {
    Removes(cfg, e, req, s) && FailsFirstAt(env.faults, if req.Deprovision? then 9 else 8)
  }

  /** A removal acts exactly when there is something to remove and both of its reads go through. */
  lemma RemovalActs(cfg: Config, e: Vault.Encryptor, req: Request, env: Env, s: State)
    requires req.Deprovision? || req.Unbind?
    ensures var o := Serve(cfg, e, req, env, s);
      if Removes(cfg, e, req, s) && !Interrupted(env.faults, 0, 2)
      then o == Execute(if req.Deprovision? then DeprovisionTree(cfg, req.id, s.instances[req.id])
                        else UnbindTree(cfg, req.id, s.instances[req.id], req.bindingId,
                            s.bindings[req.bindingId].username), s, env.faults, 2)
      else o.state == s && o.result != Failure(Deleting)
  {
    hide Execute, Info, DeprovisionTree, UnbindTree;
    assert Interrupted(env.faults, 0, 2) <==> env.faults(0) || env.faults(1);
    match req
    case Deprovision(id, _) =>
      hide InfosOf;
      UnboundIsListedEmpty(cfg, e, s, id);
    case Unbind(_, b, _) =>
      if b in s.bindings {
        InfoKeepsColumns(cfg, e, s.bindings[b]);
      }
  }

  lemma UnboundIsListedEmpty(cfg: Config, e: Vault.Encryptor, s: State, id: string)
    ensures Unbound(s, id) <==> InfosOf(cfg, e, s.bindings, id) == TheBindings(map[])
    ensures InfosOf(cfg, e, s.bindings, id).Unknown? || InfosOf(cfg, e, s.bindings, id).TheBindings?
  {
    if InfosOf(cfg, e, s.bindings, id) == TheBindings(map[]) {
      NoBindingsMeansUnbound(cfg, e, s, id);
    }
  }

  lemma RemovalKeepsSafe(cfg: Config, e: Vault.Encryptor, req: Request, env: Env, s: State)
    requires Served(cfg) && Safe(cfg, s) && (req.Deprovision? || req.Unbind?)
    ensures var o := Serve(cfg, e, req, env, s);
      && (Safe(cfg, o.state) <==> !Severs(cfg, e, req, env, s))
      && (o.result == Failure(Deleting) <==> Severs(cfg, e, req, env, s))
  {
    hide Safe, Served, Serve, Execute, DeprovisionTree, UnbindTree, Info, Interrupted, Unbound;
    RemovalActs(cfg, e, req, env, s);
    InterruptedInParts(env.faults, 0, 2, if req.Deprovision? then 7 else 6);
    if Removes(cfg, e, req, s) {
      if req.Deprovision? {
        DeprovisionKeepsSafe(cfg, req.id, s, env.faults, 2);
      } else {
        UnbindKeepsSafe(cfg, req.bindingId, s, env.faults, 2);
      }
    }
  }

  /** Every request, whatever the environment makes fail, keeps the ownership invariant, with one exact exception: a
      removal that meets its first failure in the deletion of its record. */
  lemma ServeKeepsSafe(cfg: Config, e: Vault.Encryptor, req: Request, env: Env, s: State)
    requires Served(cfg) && Safe(cfg, s)
    ensures var o := Serve(cfg, e, req, env, s);
      && (Safe(cfg, o.state) <==> !Severs(cfg, e, req, env, s))
      && (o.result == Failure(Deleting) <==> Severs(cfg, e, req, env, s))
  {
    hide Safe, Served, Serve, Execute, Spec, Change, BindingSpec, ProvisionTree, UpdateTree, DeprovisionTree,
        BindTree, UnbindTree, FailsFirstAt, Info, Unbound;
    if req.Deprovision? || req.Unbind? {
      RemovalKeepsSafe(cfg, e, req, env, s);
    } else {
      ServeAnswersOrActs(cfg, e, req, env, s);
      if Acts(cfg, e, req, env, s, Serve(cfg, e, req, env, s)) {
        match req
        case Provision(id, _, plan, raw) =>
          SpecIsWithinPlan(cfg, plan, raw);
          ProvisionKeepsSafe(cfg, id, plan, Spec(cfg, plan, raw).value, env.password, s, env.faults, 1);
        case Update(id, _, _, raw) =>
          SpecIsWithinPlan(cfg, s.instances[id].planId, raw);
          UpdateKeepsSafe(cfg, id, Change(cfg, s.instances[id].planId, raw).value, s, env.faults, 1);
        case Bind(id, b, _, raw) =>
          BindKeepsSafe(cfg, e, env, id, b, BindingSpec(cfg, raw).value, s, 2);
      }
    }
  }
}
