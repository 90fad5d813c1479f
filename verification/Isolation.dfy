/** Tenant isolation: a request on one instance changes nothing that belongs to another one,
    successful, refused, failed or rolled back. */
module Isolation {
  import opened Wrappers
  import opened Names
  import opened Sql
  import opened State
  import opened Lifecycle
  import opened Membership
  import opened Sparing
  import opened Operations
  import opened Safety
  import Tenancy
  import Vault

  function Find<V>(m: map<string, V>, key: string): Option<V>
  {
    if key in m then Some(m[key]) else None
  }

  /** The catalog objects of one tenant: with their owners, limits, grants, default privileges, contents and members. */
  datatype Objects = Objects(database: Option<Database>, tablespace: Option<Tablespace>, role: Option<Role>,
          members: set<(string, string)>)

  function ObjectsOf(w: World, n: Names): Objects
  {
    Objects(Find(w.databases, n.database), Find(w.tablespaces, n.tablespace), Find(w.roles, n.groupRole),
            set p | p in w.members && p.0 == n.groupRole)
  }

  /** Everything that belongs to one stored instance: its record, its bindings' records, its catalog objects,
      and the users of its bindings. */
  datatype View = View(record: InstanceRecord, bindings: map<string, BindingRecord>, objects: Objects,
          users: map<string, Option<Role>>)

  function ViewOf(cfg: Config, s: State, id: string): View
    requires id in s.instances
  {
    View(s.instances[id],
         map b | b in s.bindings && s.bindings[b].instanceId == id :: s.bindings[b],
         ObjectsOf(s.world, NamesOf(cfg, id, s.instances[id])),
         map b | b in s.bindings && s.bindings[b].instanceId == id :: Find(s.world.roles, s.bindings[b].username))
  }

  lemma TenantWorkKeepsObjects(w: World, w': World, m: Names, n: Names)
    requires Tenancy.Removed(w', m) == Tenancy.Removed(w, m) && Apart(m, n)
    requires forall p | p in w.members || p in w'.members :: p.1 != m.groupRole
    ensures ObjectsOf(w', n) == ObjectsOf(w, n)
    ensures forall r | r != m.groupRole :: Find(w'.roles, r) == Find(w.roles, r)
  {
    KeepsKey(w.databases, w'.databases, m.database, n.database);
    KeepsKey(w.tablespaces, w'.tablespaces, m.tablespace, n.tablespace);
    forall r | r != m.groupRole ensures Find(w'.roles, r) == Find(w.roles, r) {
      KeepsKey(w.roles, w'.roles, m.groupRole, r);
    }
    forall p: (string, string) | p.0 == n.groupRole ensures p in w'.members <==> p in w.members {
      assert p.1 != m.groupRole ==> (p in w'.members <==> p in Tenancy.Removed(w', m).members);
    }
  }

  lemma KeepsKey<V>(a: map<string, V>, b: map<string, V>, gone: string, key: string)
    requires a - {gone} == b - {gone} && key != gone
    ensures Find(b, key) == Find(a, key)
  {
    assert key in a <==> key in a - {gone};
    assert key in b <==> key in b - {gone};
    assert key in a ==> a[key] == (a - {gone})[key];
    assert key in b ==> b[key] == (b - {gone})[key];
  }

  lemma UserWorkKeepsObjects(w: World, w': World, c: Tenancy.Server, m: Names, user: string, n: Names)
    requires Tenancy.Unjoined(w', c, m, user) == Tenancy.Unjoined(w, c, m, user)
    requires n.database != m.database && n.database != c.database && user != n.groupRole
    requires (n.groupRole, user) !in w.members && (n.groupRole, user) !in w'.members
    ensures ObjectsOf(w', n) == ObjectsOf(w, n)
    ensures forall r | r != user :: Find(w'.roles, r) == Find(w.roles, r)
  {
    var u, u' := Tenancy.Unjoined(w, c, m, user), Tenancy.Unjoined(w', c, m, user);
    assert Find(u.databases, n.database) == Find(w.databases, n.database);
    assert Find(u'.databases, n.database) == Find(w'.databases, n.database);
    forall r | r != user ensures Find(w'.roles, r) == Find(w.roles, r) {
      KeepsKey(w.roles, w'.roles, user, r);
    }
    forall p: (string, string) | p.0 == n.groupRole ensures p in w'.members <==> p in w.members {
      assert p.1 != user ==> (p in w'.members <==> p in u'.members) && (p in w.members <==> p in u.members);
    }
  }

  /** A user operation makes its user a member of its own tenant's group role at most. */
  lemma {:induction false} UserJoinsOwnGroupOnly<R>(t: Tree<R>, s: State, faults: Faults, clock: nat,
          c: Tenancy.Server, m: Names, user: string)
    requires SqlOnly(t, Tenancy.UserStatements(c, m, user))
    ensures Execute(t, s, faults, clock).state.world.members <= s.world.members + {(m.groupRole, user)}
  {
    if t.Act? {
      var (s', answer) := Attempt(t.action, s, faults(clock));
      if t.action.Exec? && answer == Yes {
        assert Tenancy.OfUser(c, m, user, t.action.on, t.action.stmt);
        UserStatementMembers(s.world, c, m, user, t.action.on, t.action.stmt);
      }
      UserJoinsOwnGroupOnly(Next(t, answer), s', faults, clock + 1, c, m, user);
    }
  }

  lemma UserStatementMembers(w: World, c: Tenancy.Server, m: Names, user: string, on: Session, s: Stmt)
    requires Tenancy.OfUser(c, m, user, on, s) && Apply(w, on, s).Applied?
    ensures Apply(w, on, s).world.members <= w.members + {(m.groupRole, user)}
  {
  }

  /** Two states that agree on an instance's records, objects and users show the same view. */
  lemma SameView(cfg: Config, s: State, s': State, j: string)
    requires j in s.instances && j in s'.instances && s'.instances[j] == s.instances[j]
    requires forall b | b in s.bindings && s.bindings[b].instanceId == j ::
      b in s'.bindings && s'.bindings[b] == s.bindings[b]
    requires forall b | b in s'.bindings && s'.bindings[b].instanceId == j :: b in s.bindings
    requires forall b | b in s.bindings && b in s'.bindings && s'.bindings[b].instanceId == j ::
      s'.bindings[b] == s.bindings[b]
    requires ObjectsOf(s'.world, NamesOf(cfg, j, s.instances[j])) == ObjectsOf(s.world, NamesOf(cfg, j, s.instances[j]))
    requires forall b | b in s.bindings && s.bindings[b].instanceId == j ::
               Find(s'.world.roles, s.bindings[b].username) == Find(s.world.roles, s.bindings[b].username)
    ensures ViewOf(cfg, s', j) == ViewOf(cfg, s, j)
  {
  }

  /** A stored instance that another one is apart from: different names, and none of its users is a group role. */
  lemma StoredIsApart(cfg: Config, s: State, id: string, name: string, j: string)
    requires Served(cfg) && Safe(cfg, s) && j in s.instances
    requires cfg.naming.instance(id, name).groupRole != NamesOf(cfg, j, s.instances[j]).groupRole
    ensures Apart(cfg.naming.instance(id, name), NamesOf(cfg, j, s.instances[j]))
    ensures forall b | b in s.bindings :: s.bindings[b].username != cfg.naming.instance(id, name).groupRole
  {
    hide StoredSafe;
    forall b | b in s.bindings ensures s.bindings[b].username != cfg.naming.instance(id, name).groupRole {
      BindingUser(cfg, s, b);
    }
  }

  lemma SetBindingKeepsView(cfg: Config, s: State, w: World, b: string, r: BindingRecord, j: string)
    requires j in s.instances && b !in s.bindings && r.instanceId != j
    ensures ViewOf(cfg, s.(world := w, bindings := s.bindings[b := r]), j) == ViewOf(cfg, s.(world := w), j)
  {
    hide ObjectsOf, Find;
    var s' := s.(world := w);
    SameView(cfg, s', s'.(bindings := s.bindings[b := r]), j);
  }

  lemma DropBindingKeepsView(cfg: Config, s: State, w: World, b: string, j: string)
    requires j in s.instances && b in s.bindings && s.bindings[b].instanceId != j
    ensures ViewOf(cfg, s.(world := w, bindings := s.bindings - {b}), j) == ViewOf(cfg, s.(world := w), j)
  {
    hide ObjectsOf, Find;
    var s' := s.(world := w);
    SameView(cfg, s', s'.(bindings := s.bindings - {b}), j);
  }

  /** The SQL of a tenant's operation leaves every other stored instance's view as it was. */
  lemma TenantSqlKeepsView<R>(cfg: Config, t: Tree<R>, s: State, faults: Faults, clock: nat, id: string,
          name: string, j: string)
    requires Served(cfg) && Safe(cfg, s) && j in s.instances
    requires var m := cfg.naming.instance(id, name);
      && SqlOnly(t, Tenancy.TenantStatements(cfg.server, m)) && Tenancy.OwnsDatabase(s.world, m)
      && m.groupRole != NamesOf(cfg, j, s.instances[j]).groupRole && m.groupRole != cfg.server.user
      && (forall p | p in s.world.members :: p.1 != m.groupRole)
    ensures var o := Execute(t, s, faults, clock);
      o.state == s.(world := o.state.world) && ViewOf(cfg, o.state, j) == ViewOf(cfg, s, j)
  {
    hide Consistent, Tenancy.Removed, ObjectsOf, Find, InstanceSafe, BindingSafe;
    var m, n := cfg.naming.instance(id, name), NamesOf(cfg, j, s.instances[j]);
    var w' := Execute(t, s, faults, clock).state.world;
    StoredIsApart(cfg, s, id, name, j);
    TenantFrame(t, s, faults, clock, cfg.server, m);
    GroupRoleNeverJoins(t, s, faults, clock, cfg.server, m);
    TenantWorkKeepsObjects(s.world, w', m, n);
    SameView(cfg, s, s.(world := w'), j);
  }

  /** ... and so does the SQL of a user's operation. */
  lemma UserSqlKeepsView<R>(cfg: Config, t: Tree<R>, s: State, faults: Faults, clock: nat, id: string, user: string,
          j: string)
    requires Served(cfg) && Safe(cfg, s) && id in s.instances && j in s.instances && id != j
    requires SqlOnly(t, Tenancy.UserStatements(cfg.server, NamesOf(cfg, id, s.instances[id]), user))
    requires (NamesOf(cfg, j, s.instances[j]).groupRole, user) !in s.world.members
    requires user != NamesOf(cfg, j, s.instances[j]).groupRole
    requires forall b | b in s.bindings && s.bindings[b].instanceId == j :: s.bindings[b].username != user
    ensures var o := Execute(t, s, faults, clock);
      o.state == s.(world := o.state.world) && ViewOf(cfg, o.state, j) == ViewOf(cfg, s, j)
  {
    hide Consistent, Tenancy.Unjoined, ObjectsOf, Find, BindingSafe, TenantSafe;
    var m, n := NamesOf(cfg, id, s.instances[id]), NamesOf(cfg, j, s.instances[j]);
    var w' := Execute(t, s, faults, clock).state.world;
    InstanceNames(cfg, s.world, id, s.instances[id]);
    InstanceNames(cfg, s.world, j, s.instances[j]);
    StoredIsApart(cfg, s, id, s.instances[id].params.name, j);
    UserFrame(t, s, faults, clock, cfg.server, m, user);
    UserJoinsOwnGroupOnly(t, s, faults, clock, cfg.server, m, user);
    UserWorkKeepsObjects(s.world, w', cfg.server, m, user, n);
    SameView(cfg, s, s.(world := w'), j);
  }

  lemma InstanceMembers(cfg: Config, s: State, id: string)
    requires Safe(cfg, s) && id in s.instances
    ensures var n := NamesOf(cfg, id, s.instances[id]);
      && (forall p | p in s.world.members :: p.1 != n.groupRole) && Tenancy.OwnsDatabase(s.world, n)
      && n.groupRole != cfg.server.user
  {
    hide Consistent, BindingSafe;
    assert InstanceSafe(cfg, s.world, id, s.instances[id]);
  }

  lemma SetInstanceKeepsView(cfg: Config, s: State, instances: map<string, InstanceRecord>, j: string)
    requires j in s.instances && j in instances && instances[j] == s.instances[j]
    ensures ViewOf(cfg, s.(instances := instances), j) == ViewOf(cfg, s, j)
  {
  }

  lemma ProvisionKeepsView(cfg: Config, id: string, planId: string, p: InstanceParams, password: string, s: State,
          faults: Faults, clock: nat, j: string)
    requires Served(cfg) && Safe(cfg, s) && id !in s.instances && j in s.instances
    ensures var o := Execute(ProvisionTree(cfg, id, planId, p, password), s, faults, clock);
      j in o.state.instances && ViewOf(cfg, o.state, j) == ViewOf(cfg, s, j)
  {
    hide ViewOf, Safe, Consistent, Interrupted, Tenancy.OwnsDatabase, Fresh;
    var c, n := cfg.server, cfg.naming.instance(id, p.name);
    var r := InstanceRecord(cfg.serviceId, planId, n.database, p);
    var t := Tenancy.Provision(c, n, p, password);
    var a := Execute(t, s, faults, clock);
    AfterExecutes(t, PutInstance(id, r, Success), s, faults, clock);
    ProvisionProbes(s, c, n, p, password, faults, clock);
    PutInstanceExecutes(id, r, a.state, faults, a.clock);
    if Fresh(s.world, n) {
      FreshTenantIsApart(cfg, s, n, j);
      Tenancy.TenantOperationsStayInside(c, n, p, password);
      TenantSqlKeepsView(cfg, Tenancy.Creation(c, n, p, password), s, faults, clock + 3, id, p.name, j);
    }
    assert a.state == s.(world := a.state.world) && ViewOf(cfg, a.state, j) == ViewOf(cfg, s, j);
    SetInstanceKeepsView(cfg, a.state, a.state.instances[id := r], j);
  }

  lemma FreshTenantIsApart(cfg: Config, s: State, n: Names, j: string)
    requires Safe(cfg, s) && Fresh(s.world, n) && j in s.instances
    ensures Tenancy.OwnsDatabase(s.world, n) && n.groupRole != NamesOf(cfg, j, s.instances[j]).groupRole
    ensures n.groupRole != cfg.server.user && forall p | p in s.world.members :: p.1 != n.groupRole
  {
    hide InstanceSafe, BindingSafe;
    StoredRolesExist(cfg, s, n);
  }

  lemma UpdateKeepsView(cfg: Config, id: string, p: InstanceParams, s: State, faults: Faults, clock: nat, j: string)
    requires Served(cfg) && Safe(cfg, s) && id in s.instances && j in s.instances && j != id
    ensures var o := Execute(UpdateTree(cfg, id, Updated(s.instances[id], p)), s, faults, clock);
      j in o.state.instances && ViewOf(cfg, o.state, j) == ViewOf(cfg, s, j)
  {
    hide ViewOf, Consistent, StoredSafe;
    var c, r := cfg.server, Updated(s.instances[id], p);
    var n := NamesOf(cfg, id, r);
    var t := Tenancy.Update(c, n, r.params);
    var a := Execute(t, s, faults, clock);
    AfterExecutes(t, PutInstance(id, r, Success), s, faults, clock);
    PutInstanceExecutes(id, r, a.state, faults, a.clock);
    InstanceMembers(cfg, s, id);
    Tenancy.TenantOperationsStayInside(c, n, r.params, "");
    TenantSqlKeepsView(cfg, t, s, faults, clock, id, r.params.name, j);
    SetInstanceKeepsView(cfg, a.state, a.state.instances[id := r], j);
  }

  lemma DeprovisionKeepsView(cfg: Config, id: string, s: State, faults: Faults, clock: nat, j: string)
    requires Served(cfg) && Safe(cfg, s) && id in s.instances && j in s.instances && j != id
    ensures var o := Execute(DeprovisionTree(cfg, id, s.instances[id]), s, faults, clock);
      j in o.state.instances && ViewOf(cfg, o.state, j) == ViewOf(cfg, s, j)
  {
    hide ViewOf, Consistent, StoredSafe;
    var c, r := cfg.server, s.instances[id];
    var n := NamesOf(cfg, id, r);
    var t := Tenancy.Deprovision(c, n);
    var a := Execute(t, s, faults, clock);
    AfterExecutes(t, DeleteInstance(id), s, faults, clock);
    DeleteInstanceExecutes(id, a.state, faults, a.clock);
    InstanceMembers(cfg, s, id);
    Tenancy.TenantOperationsStayInside(c, n, r.params, "");
    TenantSqlKeepsView(cfg, t, s, faults, clock, id, r.params.name, j);
    SetInstanceKeepsView(cfg, a.state, a.state.instances - {id}, j);
  }

  lemma NewUserIsApart(cfg: Config, s: State, user: string, j: string)
    requires Safe(cfg, s) && user !in s.world.roles && j in s.instances
    ensures (NamesOf(cfg, j, s.instances[j]).groupRole, user) !in s.world.members
    ensures user != NamesOf(cfg, j, s.instances[j]).groupRole
  {
    hide BindingSafe;
    InstanceNames(cfg, s.world, j, s.instances[j]);
  }

  lemma BindKeepsView(cfg: Config, e: Vault.Encryptor, env: Env, id: string, b: string, p: BindingParams, s: State,
          clock: nat, j: string)
    requires Served(cfg) && Safe(cfg, s) && id in s.instances && b !in s.bindings && j in s.instances && j != id
    ensures var o := Execute(BindTree(cfg, e, env, id, s.instances[id], b, p), s, env.faults, clock);
      j in o.state.instances && ViewOf(cfg, o.state, j) == ViewOf(cfg, s, j)
  {
    hide ViewOf, Consistent, Safe;
    var c, n, user := cfg.server, NamesOf(cfg, id, s.instances[id]), cfg.naming.user(b, p.name);
    var t := Tenancy.Bind(c, n, user, env.password);
    var r := NewBinding(cfg, e, env, id, n, b, p);
    var done := Bound(cfg.credentials(n.database, user, env.password));
    var a := Execute(t, s, env.faults, clock);
    AfterExecutes(t, PutBinding(b, r, done), s, env.faults, clock);
    BindProbes(s, c, n, user, env.password, env.faults, clock);
    PutBindingExecutes(b, r, done, a.state, env.faults, a.clock);
    if user !in s.world.roles {
      NewUserIsApart(cfg, s, user, j);
      StoredUsersExist(cfg, s, user);
      Tenancy.UserOperationsStayInside(c, n, user, env.password);
      UserSqlKeepsView(cfg, Tenancy.Joining(c, n, user, env.password), s, env.faults, clock + 1, id, user, j);
    }
    assert a.state == s.(world := a.state.world) && ViewOf(cfg, a.state, j) == ViewOf(cfg, s, j);
    SetBindingKeepsView(cfg, s, a.state.world, b, r, j);
  }

  lemma StoredUserIsApart(cfg: Config, s: State, b: string, j: string)
    requires Safe(cfg, s) && b in s.bindings && j in s.instances && s.bindings[b].instanceId != j && Served(cfg)
    ensures var n := NamesOf(cfg, j, s.instances[j]);
      (n.groupRole, s.bindings[b].username) !in s.world.members && s.bindings[b].username != n.groupRole
    ensures forall x | x in s.bindings && s.bindings[x].instanceId == j ::
      s.bindings[x].username != s.bindings[b].username
  {
    hide Consistent, TenantSafe, Leavable;
    assert BindingSafe(cfg, s, b, s.bindings[b]);
    BindingUser(cfg, s, b);
  }

  lemma UnbindKeepsView(cfg: Config, b: string, s: State, faults: Faults, clock: nat, j: string)
    requires Served(cfg) && Safe(cfg, s) && b in s.bindings && s.bindings[b].instanceId in s.instances
    requires j in s.instances && j != s.bindings[b].instanceId
    ensures var r := s.bindings[b];
      var o := Execute(UnbindTree(cfg, r.instanceId, s.instances[r.instanceId], b, r.username), s, faults, clock);
      j in o.state.instances && ViewOf(cfg, o.state, j) == ViewOf(cfg, s, j)
  {
    hide ViewOf, Consistent, Safe;
    var r := s.bindings[b];
    var c, n := cfg.server, NamesOf(cfg, r.instanceId, s.instances[r.instanceId]);
    var t := Tenancy.Unbind(c, n, r.username);
    var a := Execute(t, s, faults, clock);
    AfterExecutes(t, DeleteBinding(b), s, faults, clock);
    DeleteBindingExecutes(b, a.state, faults, a.clock);
    StoredUserIsApart(cfg, s, b, j);
    Tenancy.UserOperationsStayInside(c, n, r.username, "");
    UserSqlKeepsView(cfg, t, s, faults, clock, r.instanceId, r.username, j);
    DropBindingKeepsView(cfg, s, a.state.world, b, j);
  }

  /** The instance a request is about; reading a binding is about none. */
  function Target(req: Request): Option<string>
  {
    match req
    case Provision(id, _, _, _) => Some(id)
    case Update(id, _, _, _) => Some(id)
    case Deprovision(id, _) => Some(id)
    case Bind(id, _, _, _) => Some(id)
    case Unbind(id, _, _) => Some(id)
    case GetInstance(id) => Some(id)
    case GetBinding(_) => None
  }

  /** No request, however it ends and whatever fails on its way or while it is undone, changes anything that
      belongs to a stored instance it is not about. */
  lemma OtherTenantsAreUntouched(cfg: Config, e: Vault.Encryptor, req: Request, env: Env, s: State, j: string)
    requires Served(cfg) && Safe(cfg, s) && j in s.instances && Target(req) != Some(j)
    ensures var o := Serve(cfg, e, req, env, s);
      j in o.state.instances && ViewOf(cfg, o.state, j) == ViewOf(cfg, s, j)
  {
    hide Safe, Served, Serve, Execute, Spec, Change, BindingSpec, ProvisionTree, UpdateTree, DeprovisionTree,
        BindTree, UnbindTree, ViewOf;
    ServeAnswersOrActs(cfg, e, req, env, s);
    if Acts(cfg, e, req, env, s, Serve(cfg, e, req, env, s)) {
      match req
      case Provision(id, _, plan, raw) =>
        ProvisionKeepsView(cfg, id, plan, Spec(cfg, plan, raw).value, env.password, s, env.faults, 1, j);
      case Update(id, _, _, raw) =>
        UpdateKeepsView(cfg, id, Change(cfg, s.instances[id].planId, raw).value, s, env.faults, 1, j);
      case Deprovision(id, _) =>
        DeprovisionKeepsView(cfg, id, s, env.faults, 2, j);
      case Bind(id, b, _, raw) =>
        BindKeepsView(cfg, e, env, id, b, BindingSpec(cfg, raw).value, s, 2, j);
      case Unbind(id, b, _) =>
        UnbindKeepsView(cfg, b, s, env.faults, 2, j);
    }
  }
}
