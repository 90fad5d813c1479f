/** Agreement between the records and the catalog: the quotas a record states are the ones the server
    enforces, and a run in which nothing fails from outside fails nowhere. */
module Quotas {
  import opened Wrappers
  import opened Names
  import opened Sql
  import opened State
  import opened Lifecycle
  import opened Membership
  import opened Sparing
  import opened Operations
  import opened Safety
  import opened Isolation
  import opened Secrets
  import Params
  import Tenancy
  import Vault

  /** The server enforces the recorded quotas, and the admin's temporary membership is over. */
  predicate QuotasAgree(c: Tenancy.Server, w: World, n: Names, p: InstanceParams)
  {
    && n.database in w.databases && w.databases[n.database].limit == p.maxConnections
    && n.tablespace in w.tablespaces && w.tablespaces[n.tablespace].maxGb == p.storageGb
    && (n.groupRole, c.user) !in w.members
  }

  predicate Intact(cfg: Config, w: World, id: string, r: InstanceRecord)
  {
    var n := NamesOf(cfg, id, r);
    && QuotasAgree(cfg.server, w, n, r.params)
    && w.databases[n.database].encoding == r.params.encoding
    && w.databases[n.database].compatibility == r.params.compatibility
  }

  predicate AllIntact(cfg: Config, s: State)
  {
    forall id | id in s.instances :: Intact(cfg, s.world, id, s.instances[id])
  }

  // ------------------------------------------------- success establishes agreement

  lemma ProvisionedIsIntact(w: World, c: Tenancy.Server, n: Names, p: InstanceParams, password: string)
    requires Consistent(w) && Fresh(w, n)
    ensures QuotasAgree(c, Provisioned(w, c, n, p, password), n, p)
    ensures Provisioned(w, c, n, p, password).databases[n.database].encoding == p.encoding
    ensures Provisioned(w, c, n, p, password).databases[n.database].compatibility == p.compatibility
  {
    assert (n.groupRole, c.user) !in w.members;
  }

  /** A provision that reports success has made a database with exactly the recorded parameters. */
  lemma SuccessfulProvisionIsIntact(cfg: Config, id: string, planId: string, p: InstanceParams, password: string,
          s: State, faults: Faults, clock: nat)
    requires Served(cfg) && Safe(cfg, s) && id !in s.instances
    ensures var o := Execute(ProvisionTree(cfg, id, planId, p, password), s, faults, clock);
      o.result == Success ==> id in o.state.instances && o.state.instances[id].params == p && Intact(cfg, o.state.world,
          id, o.state.instances[id])
  {
    hide Safe, Consistent, Provisioned, QuotasAgree;
    var c, n := cfg.server, cfg.naming.instance(id, p.name);
    var r := InstanceRecord(cfg.serviceId, planId, n.database, p);
    var t := Tenancy.Provision(c, n, p, password);
    var a := Execute(t, s, faults, clock);
    AfterExecutes(t, PutInstance(id, r, Success), s, faults, clock);
    ProvisionProbes(s, c, n, p, password, faults, clock);
    PutInstanceExecutes(id, r, a.state, faults, a.clock);
    if Fresh(s.world, n) {
      IsReadyWhenCreated(cfg, s, id, p, password, faults, clock + 3);
    }
  }

  lemma IsReadyWhenCreated(cfg: Config, s: State, id: string, p: InstanceParams, password: string, faults: Faults,
          clock: nat)
    requires Served(cfg) && Safe(cfg, s) && id !in s.instances && Fresh(s.world, cfg.naming.instance(id, p.name))
    ensures var n := cfg.naming.instance(id, p.name);
      var o := Execute(Tenancy.Creation(cfg.server, n, p, password), s, faults, clock);
      && Ready(s.world, cfg.server, n)
      && (o.result == Tenancy.Done ==>
            (&& QuotasAgree(cfg.server, o.state.world, n, p)
             && o.state.world.databases[n.database].encoding == p.encoding
             && o.state.world.databases[n.database].compatibility == p.compatibility))
      && (Quiet(faults, 0) ==> o.result == Tenancy.Done)
  {
    hide Provisioned, StoredSafe;
    var n := cfg.naming.instance(id, p.name);
    CatalogIsReady(cfg, s, n);
    CreationDone(s, cfg.server, n, p, password, faults, clock);
    ProvisionedIsIntact(s.world, cfg.server, n, p, password);
    if Quiet(faults, 0) {
      CreationIsAllOrNothing(s, cfg.server, n, p, password, faults, clock, 0);
    }
  }

  lemma CatalogIsReady(cfg: Config, s: State, n: Names)
    requires Safe(cfg, s)
    ensures CatalogReady(cfg, s.world) && (Fresh(s.world, n) ==> Ready(s.world, cfg.server, n))
  {
  }

  // ------------------------------------------------- updates

  /** An update is done exactly when the tenant's database and tablespace exist and none of its five steps is made to
      fail. One that is not done has changed nothing if the environment stopped it before its GRANT had gone through;
      after that it leaves the admin a member of the group role. */
  lemma UpdateSucceedsExactly(s: State, c: Tenancy.Server, n: Names, p: InstanceParams, faults: Faults, clock: nat)
    requires Ready(s.world, c, n) && n.groupRole in s.world.roles && Tenancy.OwnsDatabase(s.world, n)
    ensures var o := Execute(Tenancy.Update(c, n, p), s, faults, clock);
      var there := n.database in s.world.databases && n.tablespace in s.world.tablespaces;
      if there && !Interrupted(faults, clock, 5) then o.result == Tenancy.Done
          && o.state == s.(world := Resized(s.world, c, n, p))
      else
        && o.result == Tenancy.Broken
        && if faults(clock) || faults(clock + 1) then o.state == s
           else o.state.world.members == s.world.members + {(n.groupRole, c.user)}
  {
    hide Consistent, Resized, Mentions, Interrupted, Leads;
    var on, b := Tenancy.OnAdmin(c), Tenancy.UpdateAdmin(c, n, p);
    Lifecycle.AttemptingExecutes(on, b, Leaf(Tenancy.Done), Leaf(Tenancy.Broken), s, faults, clock);
    StoppedUpdate(s, c, n, p, faults, clock);
    if n.database in s.world.databases && n.tablespace in s.world.tablespaces {
      UpdateAccepted(s.world, c, n, p);
      AcceptedBatch(on, b, s, Resized(s.world, c, n, p), faults, clock);
    } else {
      UpdateNeedsTenant(s, c, n, p, faults, clock + 1);
    }
  }

  /** The batch's last statement is the one that ends the membership: stopped before it, the membership stands. */
  lemma StoppedUpdate(s: State, c: Tenancy.Server, n: Names, p: InstanceParams, faults: Faults, clock: nat)
    requires c.user in s.world.roles && c.database in s.world.databases && n.groupRole in s.world.roles
    ensures var o := Execute(Batch(Tenancy.OnAdmin(c), Tenancy.UpdateAdmin(c, n, p)), s, faults, clock);
      !o.result ==>
        if faults(clock) || faults(clock + 1) then o.state == s
        else o.state.world.members == s.world.members + {(n.groupRole, c.user)}
  {
    var on, b := Tenancy.OnAdmin(c), Tenancy.UpdateAdmin(c, n, p);
    var granted := s.(world := s.world.(members := s.world.members + {(n.groupRole, c.user)}));
    GrantApplies(s.world, on, n.groupRole, c.user);
    hide Apply;
    StatementStep(on, b, s, faults, clock + 1);
    assert b[1..] == [b[1], b[2], b[3]];
    MembersOutliveBatch(on, b[1..], granted, faults, clock + 2);
  }

  /** Without the tenant's database or tablespace an update never gets through. */
  lemma UpdateNeedsTenant(s: State, c: Tenancy.Server, n: Names, p: InstanceParams, faults: Faults, clock: nat)
    requires !(n.database in s.world.databases && n.tablespace in s.world.tablespaces)
    ensures !Execute(Statements(Tenancy.OnAdmin(c), Tenancy.UpdateAdmin(c, n, p)), s, faults, clock).result
  {
    var on, b := Tenancy.OnAdmin(c), Tenancy.UpdateAdmin(c, n, p);
    hide Execute, Mentions, Unreferenced, Unused;
    assert b[1..][0] == b[1] && b[1..][1..] == b[2..] && b[2..][0] == b[2];
    StatementStep(on, b, s, faults, clock);
    if !faults(clock) && Apply(s.world, on, b[0]).Applied? {
      var s1 := s.(world := Apply(s.world, on, b[0]).world);
      StatementStep(on, b[1..], s1, faults, clock + 1);
      if !faults(clock + 1) && Apply(s1.world, on, b[1]).Applied? {
        StatementStep(on, b[2..], s1.(world := Apply(s1.world, on, b[1]).world), faults, clock + 2);
      }
    }
  }

  lemma ResizedAgrees(w: World, c: Tenancy.Server, n: Names, p: InstanceParams)
    requires n.database in w.databases && n.tablespace in w.tablespaces
    ensures QuotasAgree(c, Resized(w, c, n, p), n, p)
    ensures var d := Resized(w, c, n, p).databases[n.database];
      d.encoding == w.databases[n.database].encoding && d.compatibility == w.databases[n.database].compatibility
  {
  }

  lemma ReadyInstance(cfg: Config, s: State, id: string)
    requires Safe(cfg, s) && id in s.instances
    ensures var n := NamesOf(cfg, id, s.instances[id]);
      Ready(s.world, cfg.server, n) && n.groupRole in s.world.roles && Tenancy.OwnsDatabase(s.world, n)
  {
    hide BindingSafe;
    InstanceMembers(cfg, s, id);
    assert InstanceSafe(cfg, s.world, id, s.instances[id]);
  }

  /** An update that reports success has made the server enforce exactly the quotas it recorded and has ended the
      temporary membership, whatever state earlier failures had left them in. */
  lemma SuccessfulUpdateAgrees(cfg: Config, id: string, p: InstanceParams, s: State, faults: Faults, clock: nat)
    requires Served(cfg) && Safe(cfg, s) && id in s.instances
    ensures var o := Execute(UpdateTree(cfg, id, Updated(s.instances[id], p)), s, faults, clock);
      && (o.result == Success ==>
            (&& o.state.instances == s.instances[id := Updated(s.instances[id], p)]
             && QuotasAgree(cfg.server, o.state.world, NamesOf(cfg, id, s.instances[id]), o.state.instances[id].params)
             && (Intact(cfg, s.world, id, s.instances[id]) ==> Intact(cfg, o.state.world, id, o.state.instances[id]))))
      && (Intact(cfg, s.world, id, s.instances[id]) && Quiet(faults, 0) ==> o.result == Success)
  {
    hide Safe, Consistent, Resized;
    var c, r := cfg.server, Updated(s.instances[id], p);
    var n := NamesOf(cfg, id, r);
    var t := Tenancy.Update(c, n, r.params);
    var a := Execute(t, s, faults, clock);
    AfterExecutes(t, PutInstance(id, r, Success), s, faults, clock);
    PutInstanceExecutes(id, r, a.state, faults, a.clock);
    ReadyInstance(cfg, s, id);
    UpdateSucceedsExactly(s, c, n, r.params, faults, clock);
    if n.database in s.world.databases && n.tablespace in s.world.tablespaces {
      ResizedAgrees(s.world, c, n, r.params);
    }
  }

  // ------------------------------------------------- bindings leave agreement alone

  lemma UserSqlKeepsIntact<R>(cfg: Config, t: Tree<R>, s: State, faults: Faults, clock: nat, id: string, user: string)
    requires Served(cfg) && Safe(cfg, s) && id in s.instances && user != cfg.server.user
    requires SqlOnly(t, Tenancy.UserStatements(cfg.server, NamesOf(cfg, id, s.instances[id]), user))
    requires Intact(cfg, s.world, id, s.instances[id])
    ensures Intact(cfg, Execute(t, s, faults, clock).state.world, id, s.instances[id])
  {
    hide Safe, Consistent;
    var c, n := cfg.server, NamesOf(cfg, id, s.instances[id]);
    var w' := Execute(t, s, faults, clock).state.world;
    ReadyInstance(cfg, s, id);
    UserFrame(t, s, faults, clock, c, n, user);
    UserJoinsOwnGroupOnly(t, s, faults, clock, c, n, user);
    SameDatabases(s.world, w', c, n, user);
    assert Tenancy.Unjoined(w', c, n, user).databases[n.database] == Disowned(w'.databases[n.database], user);
    assert Tenancy.Unjoined(s.world, c, n, user).databases[n.database] == Disowned(s.world.databases[n.database], user);
  }

  lemma ViewKeepsIntact(cfg: Config, s: State, s': State, j: string)
    requires j in s.instances && j in s'.instances && ViewOf(cfg, s', j) == ViewOf(cfg, s, j)
    ensures Intact(cfg, s'.world, j, s'.instances[j]) == Intact(cfg, s.world, j, s.instances[j])
  {
    var n := NamesOf(cfg, j, s.instances[j]);
    assert s'.instances[j] == s.instances[j];
    assert ObjectsOf(s'.world, n) == ObjectsOf(s.world, n);
    SameMember(s.world, s'.world, n, cfg.server.user);
  }

  lemma SameMember(w: World, w': World, n: Names, user: string)
    requires ObjectsOf(w', n).members == ObjectsOf(w, n).members
    ensures (n.groupRole, user) in w.members <==> (n.groupRole, user) in w'.members
  {
    assert (n.groupRole, user) in w.members <==> (n.groupRole, user) in ObjectsOf(w, n).members;
    assert (n.groupRole, user) in w'.members <==> (n.groupRole, user) in ObjectsOf(w', n).members;
  }

  // ------------------------------------------------- runs without outside faults

  lemma BindInPeace(cfg: Config, e: Vault.Encryptor, env: Env, id: string, b: string, p: BindingParams, s: State,
          clock: nat)
    requires Served(cfg) && Safe(cfg, s) && id in s.instances && b !in s.bindings
    requires Intact(cfg, s.world, id, s.instances[id]) && Quiet(env.faults, 0)
    ensures var o := Execute(BindTree(cfg, e, env, id, s.instances[id], b, p), s, env.faults, clock);
      && !o.result.Failure? && o.state.instances == s.instances && Intact(cfg, o.state.world, id, s.instances[id])
  {
    hide Safe, UserSafe, Consistent, TenantSafe, Joined, Intact, Registered, Find, Interrupted, Joinable, NewBinding;
    var c, n, user := cfg.server, NamesOf(cfg, id, s.instances[id]), cfg.naming.user(b, p.name);
    var t := Tenancy.Bind(c, n, user, env.password);
    var r := NewBinding(cfg, e, env, id, n, b, p);
    var done := Bound(cfg.credentials(n.database, user, env.password));
    var a := Execute(t, s, env.faults, clock);
    AfterExecutes(t, PutBinding(b, r, done), s, env.faults, clock);
    CatalogOf(cfg, s);
    BindProbes(s, c, n, user, env.password, env.faults, clock);
    PutBindingExecutes(b, r, done, a.state, env.faults, a.clock);
    if user !in s.world.roles {
      HasDatabase(cfg, s, id);
      IsJoinable(cfg, s, id, user);
      Tenancy.UserOperationsStayInside(c, n, user, env.password);
      JoiningDone(s, c, n, user, env.password, env.faults, clock + 1);
      BindCompensation(s, c, n, user, env.password, env.faults, clock + 1, 0);
      UserSqlKeepsIntact(cfg, Tenancy.Joining(c, n, user, env.password), s, env.faults, clock + 1, id, user);
      UserSqlKeepsUsers(cfg, Tenancy.Joining(c, n, user, env.password), s, env.faults, clock + 1, id, user);
    }
  }

  lemma HasDatabase(cfg: Config, s: State, id: string)
    requires id in s.instances && Intact(cfg, s.world, id, s.instances[id])
    ensures NamesOf(cfg, id, s.instances[id]).database in s.world.databases
  {
  }

  lemma CatalogOf(cfg: Config, s: State)
    requires Safe(cfg, s)
    ensures cfg.server.user in s.world.roles && cfg.server.database in s.world.databases && Consistent(s.world)
  {
    hide Consistent, InstanceSafe, BindingSafe;
  }

  lemma UnbindInPeace(cfg: Config, b: string, s: State, faults: Faults, clock: nat)
    requires Served(cfg) && Safe(cfg, s) && b in s.bindings && s.bindings[b].instanceId in s.instances
    requires Intact(cfg, s.world, s.bindings[b].instanceId, s.instances[s.bindings[b].instanceId])
    ensures var r := s.bindings[b];
      var o := Execute(UnbindTree(cfg, r.instanceId, s.instances[r.instanceId], b, r.username), s, faults, clock);
      && o.state.instances == s.instances && Intact(cfg, o.state.world, r.instanceId, s.instances[r.instanceId])
      && (Quiet(faults, clock) ==> o.result == Success)
  {
    hide Safe, UserSafe, Consistent, TenantSafe, Intact, Tenancy.Unjoined, Find;
    var r := s.bindings[b];
    var c, n := cfg.server, NamesOf(cfg, r.instanceId, s.instances[r.instanceId]);
    var t := Tenancy.Unbind(c, n, r.username);
    var a := Execute(t, s, faults, clock);
    AfterExecutes(t, DeleteBinding(b), s, faults, clock);
    DeleteBindingExecutes(b, a.state, faults, a.clock);
    BindingUser(cfg, s, b);
    IsLeavable(cfg, s, b);
    Tenancy.UserOperationsStayInside(c, n, r.username, "");
    UserSqlKeepsIntact(cfg, t, s, faults, clock, r.instanceId, r.username);
    UnbindCanBeRepeated(s, c, n, r.username, faults, clock);
  }

  lemma IsLeavable(cfg: Config, s: State, b: string)
    requires Safe(cfg, s) && b in s.bindings && s.bindings[b].instanceId in s.instances
    ensures var r := s.bindings[b];
      Leavable(s.world, cfg.server, NamesOf(cfg, r.instanceId, s.instances[r.instanceId]), r.username)
  {
    hide InstanceSafe;
    assert BindingSafe(cfg, s, b, s.bindings[b]);
  }

  lemma IsRemovable(cfg: Config, s: State, id: string)
    requires Safe(cfg, s) && id in s.instances
    ensures Removable(s.world, cfg.server, NamesOf(cfg, id, s.instances[id]))
  {
    hide BindingSafe;
    assert InstanceSafe(cfg, s.world, id, s.instances[id]);
  }

  lemma DeprovisionInPeace(cfg: Config, id: string, s: State, faults: Faults, clock: nat)
    requires Served(cfg) && Safe(cfg, s) && id in s.instances && Quiet(faults, clock)
    ensures var n := NamesOf(cfg, id, s.instances[id]);
      Execute(DeprovisionTree(cfg, id, s.instances[id]), s, faults, clock)
      == Outcome(s.(world := Tenancy.Removed(s.world, n), instances := s.instances - {id}), Success, clock + 8)
  {
    hide Safe, Consistent, Tenancy.Removed;
    var c, n := cfg.server, NamesOf(cfg, id, s.instances[id]);
    var t := Tenancy.Deprovision(c, n);
    var a := Execute(t, s, faults, clock);
    AfterExecutes(t, DeleteInstance(id), s, faults, clock);
    IsRemovable(cfg, s, id);
    DeprovisionSucceeds(s, c, n, faults, clock);
    DeleteInstanceExecutes(id, a.state, faults, a.clock);
  }

  /** The store can read whatever works. */
  lemma WorkingBindingsAreRead(cfg: Config, key: Vault.Encryptor, s: State)
    requires Served(cfg) && AllWork(cfg, {key}, s)
    ensures forall b | b in s.bindings :: Info(cfg, key, s.bindings[b]).Some?
    ensures forall id :: InfosOf(cfg, key, s.bindings, id).TheBindings?
  {
    hide Works, Served;
    forall b | b in s.bindings ensures Info(cfg, key, s.bindings[b]).Some? {
      assert BindingWorks(cfg, {key}, s, s.bindings[b]);
      WorkingCredentialsAreRead(cfg, key, s.world, s.bindings[b], s.instances[s.bindings[b].instanceId].database);
    }
  }

  lemma ReadsSucceed(cfg: Config, key: Vault.Encryptor, env: Env, s: State)
    requires Served(cfg) && AllWork(cfg, {key}, s) && Quiet(env.faults, 0)
    ensures !SomeReadFails(cfg, key, env, s)
  {
    hide Served, AllWork, Info;
    WorkingBindingsAreRead(cfg, key, s);
  }

  /** Every statement's precondition holds when it is reached: a request that nothing disturbs does not fail,
      and afterwards every record's quotas are the ones the server enforces and the admin has left every group. */
  lemma UndisturbedRequestsSucceed(cfg: Config, key: Vault.Encryptor, req: Request, env: Env, s: State)
    requires Served(cfg) && Safe(cfg, s) && AllWork(cfg, {key}, s) && AllIntact(cfg, s)
    requires Quiet(env.faults, 0)
    ensures var o := Serve(cfg, key, req, env, s);
      !o.result.Failure? && AllIntact(cfg, o.state)
  {
    hide Safe, Served, Serve, Spec, Change, BindingSpec, AllWork, ViewOf, Intact, Acts;
    hide ProvisionTree, UpdateTree, DeprovisionTree, BindTree, UnbindTree;
    var o := Serve(cfg, key, req, env, s);
    ServeAnswersOrActs(cfg, key, req, env, s);
    ReadsSucceed(cfg, key, env, s);
    if Acts(cfg, key, req, env, s, o) {
      UndisturbedActsSucceed(cfg, key, req, env, s);
      forall j | j in s.instances && Target(req) != Some(j)
        ensures j in o.state.instances && Intact(cfg, o.state.world, j, o.state.instances[j])
      {
        OtherTenantsAreUntouched(cfg, key, req, env, s, j);
        ViewKeepsIntact(cfg, s, o.state, j);
      }
    }
  }

  lemma UndisturbedActsSucceed(cfg: Config, key: Vault.Encryptor, req: Request, env: Env, s: State)
    requires Served(cfg) && Safe(cfg, s) && AllIntact(cfg, s) && Quiet(env.faults, 0)
    requires Acts(cfg, key, req, env, s, Serve(cfg, key, req, env, s))
    ensures var o := Serve(cfg, key, req, env, s);
      && !o.result.Failure? && Target(req).Some?
      && (forall j | j in o.state.instances && j !in s.instances :: Target(req) == Some(j))
      && (Target(req).value in o.state.instances ==>
            Intact(cfg, o.state.world, Target(req).value, o.state.instances[Target(req).value]))
  {
    hide Safe, Served, Serve, Execute, Spec, Change, BindingSpec, Intact, Fresh, Ready;
    hide ProvisionTree, UpdateTree, DeprovisionTree, BindTree, UnbindTree;
    match req
    case Provision(id, _, plan, raw) =>
      ProvisionInPeace(cfg, id, plan, Spec(cfg, plan, raw).value, env.password, s, env.faults, 1);
    case Update(id, _, _, raw) =>
      SuccessfulUpdateAgrees(cfg, id, Change(cfg, s.instances[id].planId, raw).value, s, env.faults, 1);
    case Deprovision(id, _) =>
      DeprovisionInPeace(cfg, id, s, env.faults, 2);
    case Bind(id, b, _, raw) =>
      BindInPeace(cfg, key, env, id, b, BindingSpec(cfg, raw).value, s, 2);
    case Unbind(id, b, _) =>
      UnbindInPeace(cfg, b, s, env.faults, 2);
  }

  lemma ProvisionInPeace(cfg: Config, id: string, planId: string, p: InstanceParams, password: string, s: State,
          faults: Faults, clock: nat)
    requires Served(cfg) && Safe(cfg, s) && id !in s.instances && Quiet(faults, 0)
    ensures var o := Execute(ProvisionTree(cfg, id, planId, p, password), s, faults, clock);
      && !o.result.Failure?
      && (forall j | j in o.state.instances && j !in s.instances :: j == id)
      && (id in o.state.instances ==> Intact(cfg, o.state.world, id, o.state.instances[id]))
  {
    hide Safe, Consistent, Provisioned, QuotasAgree;
    var c, n := cfg.server, cfg.naming.instance(id, p.name);
    var r := InstanceRecord(cfg.serviceId, planId, n.database, p);
    var t := Tenancy.Provision(c, n, p, password);
    var a := Execute(t, s, faults, clock);
    AfterExecutes(t, PutInstance(id, r, Success), s, faults, clock);
    CatalogOf(cfg, s);
    ProvisionProbes(s, c, n, p, password, faults, clock);
    PutInstanceExecutes(id, r, a.state, faults, a.clock);
    if Fresh(s.world, n) {
      IsReadyWhenCreated(cfg, s, id, p, password, faults, clock + 3);
      CreationKeepsSafe(cfg, id, p, password, s, faults, clock + 3);
    }
  }

  // ------------------------------------------------- exact replies

  /** Undisturbed, a new instance is provisioned exactly when all three of its derived names are free, and otherwise
      refused with nothing changed. */
  lemma ProvisionReply(cfg: Config, key: Vault.Encryptor, id: string, plan: string, raw: Params.Raw, env: Env, s: State)
    requires Served(cfg) && Safe(cfg, s) && id !in s.instances && Spec(cfg, plan, raw).Some? && Quiet(env.faults, 0)
    ensures var o := Serve(cfg, key, Request.Provision(id, cfg.serviceId, plan, raw), env, s);
      if Fresh(s.world, cfg.naming.instance(id, Spec(cfg, plan, raw).value.name))
      then o.result == Success && id in o.state.instances && o.state.instances[id].params == Spec(cfg, plan, raw).value
      else o.result == Conflict && o.state == s
  {
    hide Served, Safe, Execute, Spec, ProvisionTree, Fresh;
    ProvisionTreeReply(cfg, id, plan, Spec(cfg, plan, raw).value, env.password, s, env.faults, 1);
  }

  lemma ProvisionTreeReply(cfg: Config, id: string, planId: string, p: InstanceParams, password: string, s: State,
          faults: Faults, clock: nat)
    requires Served(cfg) && Safe(cfg, s) && id !in s.instances && Quiet(faults, 0)
    ensures var o := Execute(ProvisionTree(cfg, id, planId, p, password), s, faults, clock);
      if Fresh(s.world, cfg.naming.instance(id, p.name))
      then o.result == Success && id in o.state.instances && o.state.instances[id].params == p
      else o.result == Conflict && o.state == s
  {
    hide Safe, Consistent, Provisioned, QuotasAgree;
    var c, n := cfg.server, cfg.naming.instance(id, p.name);
    var r := InstanceRecord(cfg.serviceId, planId, n.database, p);
    var t := Tenancy.Provision(c, n, p, password);
    var a := Execute(t, s, faults, clock);
    AfterExecutes(t, PutInstance(id, r, Success), s, faults, clock);
    CatalogOf(cfg, s);
    ProvisionProbes(s, c, n, p, password, faults, clock);
    PutInstanceExecutes(id, r, a.state, faults, a.clock);
    if Fresh(s.world, n) {
      IsReadyWhenCreated(cfg, s, id, p, password, faults, clock + 3);
    }
  }

  /** An instance whose derived names are those of a stored one is refused, whatever fails, and changes nothing. */
  lemma NamesakeIsRefused(cfg: Config, key: Vault.Encryptor, id: string, plan: string, raw: Params.Raw, env: Env,
          s: State, j: string)
    requires Served(cfg) && Safe(cfg, s) && id !in s.instances && Spec(cfg, plan, raw).Some? && j in s.instances
    requires cfg.naming.instance(id, Spec(cfg, plan, raw).value.name).database ==
      NamesOf(cfg, j, s.instances[j]).database
    ensures var o := Serve(cfg, key, Request.Provision(id, cfg.serviceId, plan, raw), env, s);
      o.state == s && (o.result == Conflict || o.result.Failure?)
  {
    hide Served, Safe, Execute, Spec, ProvisionTree;
    var p := Spec(cfg, plan, raw).value;
    SharedDatabaseIsShared(cfg, id, p.name, j, s.instances[j].params.name);
    ReadyInstance(cfg, s, j);
    TakenNamesAreRefused(cfg, id, plan, p, env.password, s, env.faults, 1);
  }

  lemma SharedDatabaseIsShared(cfg: Config, id: string, name: string, j: string, name': string)
    requires Served(cfg) && cfg.naming.instance(id, name).database == cfg.naming.instance(j, name').database
    ensures cfg.naming.instance(id, name) == cfg.naming.instance(j, name')
  {
  }

  lemma TakenNamesAreRefused(cfg: Config, id: string, planId: string, p: InstanceParams, password: string, s: State,
          faults: Faults, clock: nat)
    requires cfg.naming.instance(id, p.name).groupRole in s.world.roles
    ensures var o := Execute(ProvisionTree(cfg, id, planId, p, password), s, faults, clock);
      o.state == s && (o.result == Conflict || o.result == Failure(Administering))
  {
    var c, n := cfg.server, cfg.naming.instance(id, p.name);
    var r := InstanceRecord(cfg.serviceId, planId, n.database, p);
    var t := Tenancy.Provision(c, n, p, password);
    AfterExecutes(t, PutInstance(id, r, Success), s, faults, clock);
    ProvisionProbes(s, c, n, p, password, faults, clock);
    hide Execute;
  }

  /** Undisturbed, a new binding of an intact instance gets its credentials exactly when its user name is free. */
  lemma BindReply(cfg: Config, key: Vault.Encryptor, id: string, b: string, raw: Params.Raw, env: Env, s: State)
    requires Served(cfg) && Safe(cfg, s) && id in s.instances && b !in s.bindings && BindingSpec(cfg, raw).Some?
    requires Intact(cfg, s.world, id, s.instances[id]) && Quiet(env.faults, 0)
    ensures var user := cfg.naming.user(b, BindingSpec(cfg, raw).value.name);
      var o := Serve(cfg, key, Request.Bind(id, b, cfg.serviceId, raw), env, s);
      if user !in s.world.roles
      then o.result == Bound(cfg.credentials(s.instances[id].database, user, env.password)) && b in o.state.bindings
      else o.result == Conflict && o.state == s
  {
    hide Served, Safe, Execute, BindTree, Info, BindingSpec, Intact;
    BindTreeReply(cfg, key, env, id, b, BindingSpec(cfg, raw).value, s, 2);
  }

  lemma BindTreeReply(cfg: Config, e: Vault.Encryptor, env: Env, id: string, b: string, p: BindingParams, s: State,
          clock: nat)
    requires Served(cfg) && Safe(cfg, s) && id in s.instances && b !in s.bindings
    requires Intact(cfg, s.world, id, s.instances[id]) && Quiet(env.faults, 0)
    ensures var user := cfg.naming.user(b, p.name);
      var o := Execute(BindTree(cfg, e, env, id, s.instances[id], b, p), s, env.faults, clock);
      if user !in s.world.roles
      then o.result == Bound(cfg.credentials(s.instances[id].database, user, env.password)) && b in o.state.bindings
      else o.result == Conflict && o.state == s
  {
    hide Safe, UserSafe, Consistent, TenantSafe, Joined, Intact, Registered, Find;
    var c, n, user := cfg.server, NamesOf(cfg, id, s.instances[id]), cfg.naming.user(b, p.name);
    var t := Tenancy.Bind(c, n, user, env.password);
    var r := NewBinding(cfg, e, env, id, n, b, p);
    var done := Bound(cfg.credentials(n.database, user, env.password));
    var a := Execute(t, s, env.faults, clock);
    AfterExecutes(t, PutBinding(b, r, done), s, env.faults, clock);
    CatalogOf(cfg, s);
    BindProbes(s, c, n, user, env.password, env.faults, clock);
    PutBindingExecutes(b, r, done, a.state, env.faults, a.clock);
    DatabaseOfInstance(cfg, s, id);
    if user !in s.world.roles {
      HasDatabase(cfg, s, id);
      IsJoinable(cfg, s, id, user);
      BindCompensation(s, c, n, user, env.password, env.faults, clock + 1, 0);
    }
  }

  /** Undisturbed, an update of an intact instance takes effect exactly when it keeps the plan and its parameters are
      valid; it then records the two requested quotas and nothing else. */
  lemma UpdateReply(cfg: Config, key: Vault.Encryptor, id: string, plan: string, raw: Params.Raw, env: Env, s: State)
    requires Served(cfg) && Safe(cfg, s) && AllIntact(cfg, s) && Quiet(env.faults, 0)
    ensures var o := Serve(cfg, key, Request.Update(id, cfg.serviceId, plan, raw), env, s);
      if id !in s.instances then o.result == NotFound && o.state == s
      else if plan != "" && plan != s.instances[id].planId then o.result == PlanChange && o.state == s
      else if Change(cfg, s.instances[id].planId, raw).None? then o.result == Invalid && o.state == s
      else
        var p := Change(cfg, s.instances[id].planId, raw).value;
        && o.result == Success
        && o.state.instances == s.instances[id := s.instances[id].(params :=
             s.instances[id].params.(maxConnections := p.maxConnections, storageGb := p.storageGb))]
  {
    hide Served, Safe, Execute, UpdateTree, Change, Intact;
    if id in s.instances && Change(cfg, s.instances[id].planId, raw).Some? {
      SuccessfulUpdateAgrees(cfg, id, Change(cfg, s.instances[id].planId, raw).value, s, env.faults, 1);
    }
  }
}
