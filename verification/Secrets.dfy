/** Credentials: what the store keeps of them stays true of the catalog, and later requests change no name. */
module Secrets {
  import opened Wrappers
  import opened Names
  import opened Sql
  import opened State
  import opened Lifecycle
  import opened Membership
  import opened Sparing
  import opened Operations
  import opened Safety
  import opened Isolation
  import Tenancy
  import Vault

  /** Later requests never change an instance's name, choices, plan, service or database. */
  predicate SameIdentity(a: InstanceRecord, b: InstanceRecord)
  {
    && a.serviceId == b.serviceId && a.planId == b.planId && a.database == b.database
    && a.params.name == b.params.name && a.params.compatibility == b.params.compatibility
    && a.params.encoding == b.params.encoding
  }

  /** The stored column is these credentials, encrypted under this key. */
  ghost predicate WrittenWith(cfg: Config, key: Vault.Encryptor, r: BindingRecord, credentials: Vault.Credentials,
          nonce: Vault.Bytes)
  {
    |nonce| == Vault.NONCE_SIZE && r.credentials == Vault.Store(cfg.vault, key, cfg.vault.marshal(credentials), nonce)
  }

  /** The stored credentials open the tenant: they name its database and the binding's own user, they hold that
      user's present password, and one of the keys decrypts them. */
  ghost predicate Works(cfg: Config, keys: set<Vault.Encryptor>, w: World, r: BindingRecord, database: string)
  {
    && r.username in w.roles && w.roles[r.username].login
    && exists key, nonce | key in keys ::
          WrittenWith(cfg, key, r, cfg.credentials(database, r.username, w.roles[r.username].password), nonce)
  }

  ghost predicate BindingWorks(cfg: Config, keys: set<Vault.Encryptor>, s: State, r: BindingRecord)
  {
    r.instanceId in s.instances && Works(cfg, keys, s.world, r, s.instances[r.instanceId].database)
  }

  ghost predicate AllWork(cfg: Config, keys: set<Vault.Encryptor>, s: State)
  {
    forall b | b in s.bindings :: BindingWorks(cfg, keys, s, s.bindings[b])
  }

  /** What the request does to the store besides one addition or removal: nothing that identifies a record. */
  ghost predicate KeepsRecords(s: State, s': State)
  {
    && (forall i | i in s.instances && i in s'.instances :: SameIdentity(s.instances[i], s'.instances[i]))
    && (forall b | b in s.bindings && b in s'.bindings ::
          s'.bindings[b] == s.bindings[b]
              && Find(s'.world.roles, s.bindings[b].username) == Find(s.world.roles, s.bindings[b].username))
  }

  lemma TenantSqlKeepsUsers<R>(cfg: Config, t: Tree<R>, s: State, faults: Faults, clock: nat, id: string, name: string)
    requires Served(cfg) && Safe(cfg, s)
    requires var m := cfg.naming.instance(id, name);
      SqlOnly(t, Tenancy.TenantStatements(cfg.server, m)) && Tenancy.OwnsDatabase(s.world, m)
    ensures var o := Execute(t, s, faults, clock);
      o.state == s.(world := o.state.world)
      && forall b | b in s.bindings ::
            Find(o.state.world.roles, s.bindings[b].username) == Find(s.world.roles, s.bindings[b].username)
  {
    hide Consistent, Find, InstanceSafe, BindingSafe;
    var m := cfg.naming.instance(id, name);
    TenantFrame(t, s, faults, clock, cfg.server, m);
    var w' := Execute(t, s, faults, clock).state.world;
    forall b | b in s.bindings
      ensures Find(w'.roles, s.bindings[b].username) == Find(s.world.roles, s.bindings[b].username)
    {
      BindingUser(cfg, s, b);
      KeepsKey(s.world.roles, w'.roles, m.groupRole, s.bindings[b].username);
    }
  }

  lemma UserSqlKeepsUsers<R>(cfg: Config, t: Tree<R>, s: State, faults: Faults, clock: nat, id: string, user: string)
    requires Served(cfg) && Safe(cfg, s) && id in s.instances
    requires SqlOnly(t, Tenancy.UserStatements(cfg.server, NamesOf(cfg, id, s.instances[id]), user))
    ensures var o := Execute(t, s, faults, clock);
      o.state == s.(world := o.state.world)
      && forall b | b in s.bindings && s.bindings[b].username != user ::
           Find(o.state.world.roles, s.bindings[b].username) == Find(s.world.roles, s.bindings[b].username)
  {
    hide Consistent, Find, TenantSafe, BindingSafe;
    var m := NamesOf(cfg, id, s.instances[id]);
    InstanceNames(cfg, s.world, id, s.instances[id]);
    UserFrame(t, s, faults, clock, cfg.server, m, user);
    var w' := Execute(t, s, faults, clock).state.world;
    forall b | b in s.bindings && s.bindings[b].username != user
      ensures Find(w'.roles, s.bindings[b].username) == Find(s.world.roles, s.bindings[b].username)
    {
      KeepsKey(s.world.roles, w'.roles, user, s.bindings[b].username);
    }
  }

  lemma AddedInstanceKeepsRecords(s: State, w: World, id: string, r: InstanceRecord)
    requires forall x | x in s.bindings ::
      Find(w.roles, s.bindings[x].username) == Find(s.world.roles, s.bindings[x].username)
    ensures KeepsRecords(s, s.(world := w))
    ensures id !in s.instances ==> KeepsRecords(s, s.(world := w, instances := s.instances[id := r]))
  {
    hide Find;
  }

  lemma ProvisionKeepsRecords(cfg: Config, id: string, planId: string, p: InstanceParams, password: string, s: State,
          faults: Faults, clock: nat)
    requires Served(cfg) && Safe(cfg, s) && id !in s.instances
    ensures var s' := Execute(ProvisionTree(cfg, id, planId, p, password), s, faults, clock).state;
      && KeepsRecords(s, s') && s'.bindings == s.bindings
      && s.instances.Keys <= s'.instances.Keys <= s.instances.Keys + {id}
      && (forall j | j in s.instances :: s'.instances[j] == s.instances[j])
  {
    hide Consistent, StoredSafe, Find, KeepsRecords;
    var c, n := cfg.server, cfg.naming.instance(id, p.name);
    var r := InstanceRecord(cfg.serviceId, planId, n.database, p);
    var t := Tenancy.Provision(c, n, p, password);
    var a := Execute(t, s, faults, clock);
    AfterExecutes(t, PutInstance(id, r, Success), s, faults, clock);
    ProvisionProbes(s, c, n, p, password, faults, clock);
    PutInstanceExecutes(id, r, a.state, faults, a.clock);
    if Fresh(s.world, n) {
      Tenancy.TenantOperationsStayInside(c, n, p, password);
      TenantSqlKeepsUsers(cfg, Tenancy.Creation(c, n, p, password), s, faults, clock + 3, id, p.name);
    }
    AddedInstanceKeepsRecords(s, a.state.world, id, r);
  }

  lemma UpdateKeepsRecords(cfg: Config, id: string, p: InstanceParams, s: State, faults: Faults, clock: nat)
    requires Served(cfg) && Safe(cfg, s) && id in s.instances
    ensures var s' := Execute(UpdateTree(cfg, id, Updated(s.instances[id], p)), s, faults, clock).state;
      && KeepsRecords(s, s') && s'.bindings == s.bindings && s'.instances.Keys == s.instances.Keys
      && (forall j | j in s.instances && j != id :: s'.instances[j] == s.instances[j])
  {
    hide Consistent, StoredSafe, Find;
    var c, r := cfg.server, Updated(s.instances[id], p);
    var n := NamesOf(cfg, id, r);
    var t := Tenancy.Update(c, n, r.params);
    var a := Execute(t, s, faults, clock);
    AfterExecutes(t, PutInstance(id, r, Success), s, faults, clock);
    PutInstanceExecutes(id, r, a.state, faults, a.clock);
    InstanceMembers(cfg, s, id);
    Tenancy.TenantOperationsStayInside(c, n, r.params, "");
    TenantSqlKeepsUsers(cfg, t, s, faults, clock, id, r.params.name);
  }

  lemma DeprovisionKeepsRecords(cfg: Config, id: string, s: State, faults: Faults, clock: nat)
    requires Served(cfg) && Safe(cfg, s) && id in s.instances
    ensures var s' := Execute(DeprovisionTree(cfg, id, s.instances[id]), s, faults, clock).state;
      && KeepsRecords(s, s') && s'.bindings == s.bindings
      && s.instances.Keys - {id} <= s'.instances.Keys <= s.instances.Keys
      && (forall j | j in s'.instances :: s'.instances[j] == s.instances[j])
  {
    hide Consistent, StoredSafe, Find;
    var c, r := cfg.server, s.instances[id];
    var n := NamesOf(cfg, id, r);
    var t := Tenancy.Deprovision(c, n);
    var a := Execute(t, s, faults, clock);
    AfterExecutes(t, DeleteInstance(id), s, faults, clock);
    DeleteInstanceExecutes(id, a.state, faults, a.clock);
    InstanceMembers(cfg, s, id);
    Tenancy.TenantOperationsStayInside(c, n, r.params, "");
    TenantSqlKeepsUsers(cfg, t, s, faults, clock, id, r.params.name);
  }

  lemma SameUsersKeepRecords(s: State, w: World, b: string, r: BindingRecord)
    requires forall x | x in s.bindings ::
      Find(w.roles, s.bindings[x].username) == Find(s.world.roles, s.bindings[x].username)
    ensures KeepsRecords(s, s.(world := w))
    ensures b !in s.bindings ==> KeepsRecords(s, s.(world := w, bindings := s.bindings[b := r]))
  {
    hide Find;
  }

  /** A bind that stores a record stores the password it has just given the user. */
  lemma BindKeepsRecords(cfg: Config, e: Vault.Encryptor, env: Env, id: string, b: string, p: BindingParams,
          s: State, clock: nat)
    requires Served(cfg) && Safe(cfg, s) && id in s.instances && b !in s.bindings
    ensures var r := NewBinding(cfg, e, env, id, NamesOf(cfg, id, s.instances[id]), b, p);
      var s' := Execute(BindTree(cfg, e, env, id, s.instances[id], b, p), s, env.faults, clock).state;
      && KeepsRecords(s, s') && s'.instances == s.instances
      && (s'.bindings == s.bindings
          || (s'.bindings == s.bindings[b := r] && Find(s'.world.roles, r.username) == Some(Role(true, env.password))))
  {
    hide Safe, UserSafe, Consistent, TenantSafe, Joined, Registered, Find, Interrupted;
    var c, n, user := cfg.server, NamesOf(cfg, id, s.instances[id]), cfg.naming.user(b, p.name);
    var t := Tenancy.Bind(c, n, user, env.password);
    var r := NewBinding(cfg, e, env, id, n, b, p);
    var done := Bound(cfg.credentials(n.database, user, env.password));
    var a := Execute(t, s, env.faults, clock);
    AfterExecutes(t, PutBinding(b, r, done), s, env.faults, clock);
    BindProbes(s, c, n, user, env.password, env.faults, clock);
    PutBindingExecutes(b, r, done, a.state, env.faults, a.clock);
    if user !in s.world.roles {
      StoredUsersExist(cfg, s, user);
      Tenancy.UserOperationsStayInside(c, n, user, env.password);
      UserSqlKeepsUsers(cfg, Tenancy.Joining(c, n, user, env.password), s, env.faults, clock + 1, id, user);
      IsJoinable(cfg, s, id, user);
      JoiningDone(s, c, n, user, env.password, env.faults, clock + 1);
      if a.result == Tenancy.Done {
        JoinedHasPassword(s.world, c, n, user, env.password);
      }
    }
    SameUsersKeepRecords(s, a.state.world, b, r);
  }

  lemma JoinedHasPassword(w: World, c: Tenancy.Server, n: Names, user: string, password: string)
    requires c.database in w.databases && n.database in w.databases && n.database != c.database
    ensures Find(Joined(w, c, n, user, password).roles, user) == Some(Role(true, password))
  {
  }

  lemma IsJoinable(cfg: Config, s: State, id: string, user: string)
    requires Safe(cfg, s) && id in s.instances && user !in s.world.roles
    ensures Joinable(s.world, cfg.server, NamesOf(cfg, id, s.instances[id]), user)
  {
    hide BindingSafe;
    assert InstanceSafe(cfg, s.world, id, s.instances[id]);
    InstanceNames(cfg, s.world, id, s.instances[id]);
  }

  lemma UnbindKeepsRecords(cfg: Config, b: string, s: State, faults: Faults, clock: nat)
    requires Served(cfg) && Safe(cfg, s) && b in s.bindings && s.bindings[b].instanceId in s.instances
    ensures var r := s.bindings[b];
      var o := Execute(UnbindTree(cfg, r.instanceId, s.instances[r.instanceId], b, r.username), s, faults, clock);
      && o.state.instances == s.instances && s.bindings.Keys - {b} <= o.state.bindings.Keys <= s.bindings.Keys
      && (o.result != Failure(Deleting) ==> KeepsRecords(s, o.state))
  {
    hide Consistent, StoredSafe, Find;
    var r := s.bindings[b];
    var c, n := cfg.server, NamesOf(cfg, r.instanceId, s.instances[r.instanceId]);
    var t := Tenancy.Unbind(c, n, r.username);
    var a := Execute(t, s, faults, clock);
    AfterExecutes(t, DeleteBinding(b), s, faults, clock);
    DeleteBindingExecutes(b, a.state, faults, a.clock);
    BindingUser(cfg, s, b);
    Tenancy.UserOperationsStayInside(c, n, r.username, "");
    UserSqlKeepsUsers(cfg, t, s, faults, clock, r.instanceId, r.username);
    StoppedUnbindKeepsRole(s, c, n, r.username, faults, clock);
  }

  lemma StoppedUnbindKeepsRole(s: State, c: Tenancy.Server, n: Names, user: string, faults: Faults, clock: nat)
    requires user in s.world.roles
    ensures var o := Execute(Tenancy.Unbind(c, n, user), s, faults, clock);
      o.result != Tenancy.Done ==> Find(o.state.world.roles, user) == Find(s.world.roles, user)
  {
    UserOutlivesUnbind(s, c, n, user, faults, clock);
  }

  /** A request that changes the record of this instance, if it is stored. */
  predicate Alters(req: Request, id: string)
  {
    (req.Update? || req.Deprovision?) && req.id == id
  }

  predicate Unbinds(req: Request, b: string)
  {
    req.Unbind? && req.bindingId == b
  }

  /** No request changes what identifies a record, or a user whose record stays; and records of instances and
      bindings that a request is not about stay as they are. */
  lemma RequestsKeepRecords(cfg: Config, e: Vault.Encryptor, req: Request, env: Env, s: State)
    requires Served(cfg) && Safe(cfg, s)
    ensures var o := Serve(cfg, e, req, env, s);
      && (!Severs(cfg, e, req, env, s) ==> KeepsRecords(s, o.state))
      && (!req.Bind? ==> o.state.bindings.Keys <= s.bindings.Keys)
      && (forall b | b in s.bindings && !Unbinds(req, b) :: b in o.state.bindings)
      && (forall i | i in s.instances && !Alters(req, i) ::
            i in o.state.instances && o.state.instances[i] == s.instances[i])
  {
    hide Safe, Served, Serve, Execute, Spec, Change, BindingSpec, Info;
    hide ProvisionTree, UpdateTree, DeprovisionTree, BindTree, UnbindTree, NewBinding, Updated, Severs;
    ServeKeepsSafe(cfg, e, req, env, s);
    ServeAnswersOrActs(cfg, e, req, env, s);
    if Acts(cfg, e, req, env, s, Serve(cfg, e, req, env, s)) {
      match req
      case Provision(id, _, plan, raw) =>
        ProvisionKeepsRecords(cfg, id, plan, Spec(cfg, plan, raw).value, env.password, s, env.faults, 1);
      case Update(id, _, _, raw) =>
        UpdateKeepsRecords(cfg, id, Change(cfg, s.instances[id].planId, raw).value, s, env.faults, 1);
      case Deprovision(id, _) =>
        DeprovisionKeepsRecords(cfg, id, s, env.faults, 2);
      case Bind(id, b, _, raw) =>
        BindKeepsRecords(cfg, e, env, id, b, BindingSpec(cfg, raw).value, s, 2);
      case Unbind(id, b, _) =>
        UnbindKeepsRecords(cfg, b, s, env.faults, 2);
    }
  }

  lemma KeptBindingWorks(cfg: Config, keys: set<Vault.Encryptor>, s: State, s': State, b: string)
    requires KeepsRecords(s, s') && b in s.bindings && b in s'.bindings && BindingWorks(cfg, keys, s, s.bindings[b])
    requires s'.bindings[b].instanceId in s'.instances
    ensures BindingWorks(cfg, keys, s', s'.bindings[b])
  {
    var r := s.bindings[b];
    var credentials := cfg.credentials(s.instances[r.instanceId].database, r.username,
        s.world.roles[r.username].password);
    var key, nonce :| key in keys && WrittenWith(cfg, key, r, credentials, nonce);
    assert Find(s'.world.roles, r.username) == Some(s.world.roles[r.username]);
    assert WrittenWith(cfg, key, s'.bindings[b], credentials, nonce);
  }

  lemma NewBindingWorks(cfg: Config, key: Vault.Encryptor, keys: set<Vault.Encryptor>, env: Env, s: State,
          id: string, n: Names, b: string, p: BindingParams)
    requires key in keys && |env.nonce| == Vault.NONCE_SIZE && id in s.instances
    requires s.instances[id].database == n.database
    requires Find(s.world.roles, cfg.naming.user(b, p.name)) == Some(Role(true, env.password))
    ensures BindingWorks(cfg, keys, s, NewBinding(cfg, key, env, id, n, b, p))
  {
    var r := NewBinding(cfg, key, env, id, n, b, p);
    assert WrittenWith(cfg, key, r, cfg.credentials(n.database, r.username, env.password), env.nonce);
  }

  lemma InstanceOfBinding(cfg: Config, s: State, b: string)
    requires Safe(cfg, s) && b in s.bindings
    ensures s.bindings[b].instanceId in s.instances
  {
    hide InstanceSafe;
    assert BindingSafe(cfg, s, b, s.bindings[b]);
  }

  lemma DatabaseOfInstance(cfg: Config, s: State, id: string)
    requires Safe(cfg, s) && id in s.instances
    ensures s.instances[id].database == NamesOf(cfg, id, s.instances[id]).database
  {
    hide BindingSafe;
    assert InstanceSafe(cfg, s.world, id, s.instances[id]);
  }

  lemma OnlyBindsAddBindings(cfg: Config, key: Vault.Encryptor, keys: set<Vault.Encryptor>, req: Request, env: Env,
          s: State, b: string)
    requires Served(cfg) && Safe(cfg, s) && key in keys && |env.nonce| == Vault.NONCE_SIZE
    requires b in Serve(cfg, key, req, env, s).state.bindings && b !in s.bindings
    ensures var s' := Serve(cfg, key, req, env, s).state;
      BindingWorks(cfg, keys, s', s'.bindings[b])
  {
    hide Safe, Served, Serve, Execute, Spec, Change, BindingSpec, Info, Find, BindingWorks;
    hide ProvisionTree, UpdateTree, DeprovisionTree, BindTree, UnbindTree, NewBinding, Updated, KeepsRecords;
    ServeAnswersOrActs(cfg, key, req, env, s);
    RequestsKeepRecords(cfg, key, req, env, s);
    match req
    case Bind(id, b', _, raw) =>
      var p := BindingSpec(cfg, raw).value;
      var n := NamesOf(cfg, id, s.instances[id]);
      BindKeepsRecords(cfg, key, env, id, b', p, s, 2);
      DatabaseOfInstance(cfg, s, id);
      NewBindingName(cfg, key, env, id, n, b', p);
      NewBindingWorks(cfg, key, keys, env, Serve(cfg, key, req, env, s).state, id, n, b', p);
    case _ =>
  }

  lemma NewBindingName(cfg: Config, e: Vault.Encryptor, env: Env, id: string, n: Names, b: string, p: BindingParams)
    ensures var r := NewBinding(cfg, e, env, id, n, b, p);
      r.instanceId == id && r.username == cfg.naming.user(b, p.name) && r.params == p
  {
  }

  /** Every stored binding's credentials go on working through every request. */
  lemma RequestsKeepCredentialsWorking(cfg: Config, key: Vault.Encryptor, keys: set<Vault.Encryptor>, req: Request,
          env: Env, s: State)
    requires Served(cfg) && Safe(cfg, s) && AllWork(cfg, keys, s) && key in keys && |env.nonce| == Vault.NONCE_SIZE
    requires !Severs(cfg, key, req, env, s)
    ensures AllWork(cfg, keys, Serve(cfg, key, req, env, s).state)
  {
    hide Safe, Served, Serve, BindingWorks, KeepsRecords, Severs;
    var s' := Serve(cfg, key, req, env, s).state;
    ServeKeepsSafe(cfg, key, req, env, s);
    RequestsKeepRecords(cfg, key, req, env, s);
    forall b | b in s'.bindings ensures BindingWorks(cfg, keys, s', s'.bindings[b]) {
      if b in s.bindings {
        InstanceOfBinding(cfg, s', b);
        KeptBindingWorks(cfg, keys, s, s', b);
      } else {
        OnlyBindsAddBindings(cfg, key, keys, req, env, s, b);
      }
    }
  }

  /** Working credentials are what a read returns, once the key they are under is the one in use. */
  lemma WorkingCredentialsAreRead(cfg: Config, key: Vault.Encryptor, w: World, r: BindingRecord, database: string)
    requires Served(cfg) && Works(cfg, {key}, w, r, database)
    ensures Vault.Read(cfg.vault, key, r.credentials) ==
      Some(cfg.credentials(database, r.username, w.roles[r.username].password))
  {
    var credentials := cfg.credentials(database, r.username, w.roles[r.username].password);
    var k, nonce :| k in {key} && WrittenWith(cfg, k, r, credentials, nonce);
    Vault.CredentialsRoundTrip(cfg.vault, key, credentials, nonce);
  }
}
