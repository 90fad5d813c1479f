/** Bound applications at work between the broker's requests: they open sessions where the server admits them, and
    make and drop tables and schemas where it lets them. */
module Activity {
  import opened Wrappers
  import opened Names
  import opened Sql
  import opened State
  import opened Lifecycle
  import opened Membership
  import opened Sparing
  import opened Operations
  import opened Safety
  import opened Isolation
  import opened Secrets
  import opened Quotas
  import Tenancy
  import Vault

  predicate OfApplication(s: Stmt) { s.CreateObject? || s.DropObject? || s.CreateSchema? }

  /** An application's statement needs a session first, and the privileges that the statement asks for. */
  function Try(w: World, on: Session, s: Stmt): Result
  {
    if Admitted(w, on) then Apply(w, on, s) else Rejected
  }

  /** The application of a stored binding runs a statement in a database of its choice. */
  function Worked(s: State, binding: string, database: string, stmt: Stmt): State
  {
    if binding !in s.bindings || !OfApplication(stmt) then s
    else
      match Try(s.world, Session(s.bindings[binding].username, database), stmt)
      case Rejected => s
      case Applied(w) => s.(world := w)
  }

  // ------------------------------------------------- what applications reach

  lemma MentionedRolesExist(w: World, d: string, r: string)
    requires Consistent(w) && d in w.databases && Mentions(w.databases[d], r)
    ensures r in w.roles
  {
    assert Resolved(w, w.databases[d]);
  }

  /** No other database refers to a tenant's group role ... */
  lemma GroupIsMentionedAtHomeOnly(w: World, c: Tenancy.Server, n: Names, d: string)
    requires TenantSafe(w, c, n) && d in w.databases && d != n.database
    ensures !Mentions(w.databases[d], n.groupRole)
  {
    hide Mentions;
    if Mentions(w.databases[d], n.groupRole) {
      MentionedRolesExist(Tenancy.Removed(w, n), d, n.groupRole);
    }
  }

  /** ... and none but the admin's, with the schema made for it there, to a user. */
  lemma UserIsMentionedAtHomeOnly(w: World, c: Tenancy.Server, n: Names, user: string, d: string)
    requires UserSafe(w, c, n, user) && d in w.databases && d != n.database
    ensures !Mentions(if d == c.database then Schemaless(w.databases[d], user) else w.databases[d], user)
  {
    hide Mentions, Schemaless;
    var u := Tenancy.Unjoined(w, c, n, user);
    if Mentions(u.databases[d], user) {
      MentionedRolesExist(u, d, user);
    }
  }

  lemma RolesOfUser(w: World, c: Tenancy.Server, n: Names, user: string, r: string)
    requires UserSafe(w, c, n, user)
    ensures Has(w, user, r) <==> r == user || r == n.groupRole
  {
  }

  predicate InSchema(s: Stmt, schema: string)
  {
    (s.CreateObject? || s.DropObject?) && s.place.schema == Named(schema)
  }

  /** Work needs a role that the database refers to, even without the user's own schema unless it is done in there. */
  lemma WorkNeedsRole(w: World, user: string, database: string, s: Stmt, x: Database) returns (r: string)
    requires OfApplication(s) && Apply(w, Session(user, database), s).Applied?
    requires x == w.databases[database] || (x == Schemaless(w.databases[database], user) && !InSchema(s, user))
    ensures Has(w, user, r) && Mentions(x, r)
  {
    hide Has, Unreferenced, Unused;
    var d := w.databases[database];
    match s
    case CreateObject(o) =>
      match o.schema {
        case Public => r :| r in d.usage && Has(w, user, r);
        case Named(n) => r := x.schemas[n];
      }
    case DropObject(o) =>
      r := x.objects[o];
    case CreateSchema(_) =>
      if Has(w, user, d.owner) {
        r := d.owner;
      } else {
        r :| r in d.create && Has(w, user, r);
      }
  }

  /** Outside its tenant's database a user can do nothing, except in the schema made for it in the admin database. */
  lemma UserIsConfined(w: World, c: Tenancy.Server, n: Names, user: string, database: string, s: Stmt)
    requires TenantSafe(w, c, n) && UserSafe(w, c, n, user) && OfApplication(s) && database != n.database
    requires Apply(w, Session(user, database), s).Applied?
    ensures database == c.database && InSchema(s, user)
  {
    hide TenantSafe, UserSafe, Mentions, Has, Allowed, Effect, OfApplication, InSchema, Schemaless;
    if !(database == c.database && InSchema(s, user)) {
      var d := w.databases[database];
      var x := if database == c.database then Schemaless(d, user) else d;
      var r := WorkNeedsRole(w, user, database, s, x);
      RolesOfUser(w, c, n, user, r);
      GroupIsMentionedAtHomeOnly(w, c, n, database);
      UserIsMentionedAtHomeOnly(w, c, n, user, database);
      SchemalessMentionsLess(d, user);
      assert false;
    }
  }

  lemma UserIsNoGroup(cfg: Config, s: State, b: string, i: string)
    requires Served(cfg) && Safe(cfg, s) && b in s.bindings && i in s.instances
    ensures s.bindings[b].username != NamesOf(cfg, i, s.instances[i]).groupRole
  {
    BindingUser(cfg, s, b);
  }

  /** A bound application can make or drop something in its own tenant's database only, or inside the schema that the
      server made for its user in the admin database. */
  lemma ApplicationsAreConfined(cfg: Config, s: State, b: string, database: string, stmt: Stmt)
    requires Safe(cfg, s) && b in s.bindings && s.bindings[b].instanceId in s.instances
    requires OfApplication(stmt) && Try(s.world, Session(s.bindings[b].username, database), stmt).Applied?
    ensures database == s.instances[s.bindings[b].instanceId].database
         || (database == cfg.server.database && InSchema(stmt, s.bindings[b].username))
  {
    hide TenantSafe, UserSafe, OfApplication, InSchema;
    var i := s.bindings[b].instanceId;
    assert BindingSafe(cfg, s, b, s.bindings[b]);
    assert InstanceSafe(cfg, s.world, i, s.instances[i]);
    if database != s.instances[i].database {
      UserIsConfined(s.world, cfg.server, NamesOf(cfg, i, s.instances[i]), s.bindings[b].username, database, stmt);
    }
  }

  /** The server lets a bound application open a session in a stored instance's database exactly when it is its own; the
      admin is admitted to all of them. */
  lemma SessionsAreConfined(cfg: Config, s: State, b: string, j: string)
    requires Served(cfg) && Safe(cfg, s) && b in s.bindings && j in s.instances
    requires s.instances[j].database in s.world.databases
    ensures Admitted(s.world, Session(s.bindings[b].username, s.instances[j].database)) <==>
      j == s.bindings[b].instanceId
    ensures Admitted(s.world, Session(cfg.server.user, s.instances[j].database))
  {
    hide TenantSafe, UserSafe, Has, HasOneOf, Admitted;
    InstanceOfBinding(cfg, s, b);
    BindingUser(cfg, s, b);
    UserIsNoGroup(cfg, s, b, j);
    var i, user := s.bindings[b].instanceId, s.bindings[b].username;
    assert BindingSafe(cfg, s, b, s.bindings[b]);
    InstanceNames(cfg, s.world, i, s.instances[i]);
    ClosedInstance(cfg, s, j);
    RolesOfUser(s.world, cfg.server, NamesOf(cfg, i, s.instances[i]), user, NamesOf(cfg, j, s.instances[j]).groupRole);
    RolesOfUser(s.world, cfg.server, NamesOf(cfg, i, s.instances[i]), user, cfg.server.user);
    IsolatedAdmits(s.world, cfg.server, NamesOf(cfg, j, s.instances[j]), user);
    IsolatedAdmits(s.world, cfg.server, NamesOf(cfg, j, s.instances[j]), cfg.server.user);
    HasItself(s.world, cfg.server.user);
  }

  lemma IsolatedAdmits(w: World, c: Tenancy.Server, n: Names, user: string)
    requires n.database in w.databases && Isolated(c, n, w.databases[n.database])
    requires w.databases[n.database].owner == n.groupRole
    ensures Admitted(w, Session(user, n.database)) <==> Has(w, user, n.groupRole) || Has(w, user, c.user)
  {
    hide Has;
  }

  lemma HasItself(w: World, user: string)
    ensures Has(w, user, user)
  {
  }

  lemma ClosedInstance(cfg: Config, s: State, j: string)
    requires Safe(cfg, s) && j in s.instances && s.instances[j].database in s.world.databases
    ensures var n := NamesOf(cfg, j, s.instances[j]);
      && s.instances[j].database == n.database && n.database in s.world.databases
      && Isolated(cfg.server, n, s.world.databases[n.database]) && s.world.databases[n.database].owner == n.groupRole
  {
    hide BindingSafe;
    assert InstanceSafe(cfg, s.world, j, s.instances[j]);
  }

  /** Of all databases, a bound application can make new tables in `public`, and new schemas, in its own one exactly. */
  lemma ApplicationsShareTheirTenant(cfg: Config, s: State, b: string, database: string, table: string, schema: string)
    requires Served(cfg) && Safe(cfg, s) && b in s.bindings && s.bindings[b].instanceId in s.instances
    requires database in s.world.databases
    ensures var on, d := Session(s.bindings[b].username, database), s.world.databases[database];
      var own := database == s.instances[s.bindings[b].instanceId].database;
      && (Try(s.world, on, CreateObject(Place(Public, table))).Applied? <==> own && Place(Public, table) !in d.objects)
      && (Try(s.world, on, CreateSchema(schema)).Applied? <==> own && schema !in d.schemas)
  {
    hide TenantSafe, UserSafe, Has, Safe;
    var i, user := s.bindings[b].instanceId, s.bindings[b].username;
    BindingUser(cfg, s, b);
    if database == s.instances[i].database {
      SessionsAreConfined(cfg, s, b, i);
      ClosedInstance(cfg, s, i);
      InGroup(cfg, s, b);
    } else {
      if Try(s.world, Session(user, database), CreateObject(Place(Public, table))).Applied? {
        ApplicationsAreConfined(cfg, s, b, database, CreateObject(Place(Public, table)));
      }
      if Try(s.world, Session(user, database), CreateSchema(schema)).Applied? {
        ApplicationsAreConfined(cfg, s, b, database, CreateSchema(schema));
      }
    }
  }

  lemma InGroup(cfg: Config, s: State, b: string)
    requires Safe(cfg, s) && b in s.bindings && s.bindings[b].instanceId in s.instances
    ensures Has(s.world, s.bindings[b].username,
        NamesOf(cfg, s.bindings[b].instanceId, s.instances[s.bindings[b].instanceId]).groupRole)
  {
    hide InstanceSafe, Leavable;
    assert BindingSafe(cfg, s, b, s.bindings[b]);
  }

  /** In the admin database a bound application gets no more than everyone does, and the schema that is its user's. */
  lemma ApplicationsFillTheirSchema(cfg: Config, s: State, b: string, schema: string, table: string)
    requires Safe(cfg, s) && b in s.bindings && cfg.server.database in s.world.databases
    ensures var user, d := s.bindings[b].username, s.world.databases[cfg.server.database];
      Try(s.world, Session(user, cfg.server.database), CreateObject(Place(Named(schema), table))).Applied? <==>
        && d.publicConnect && schema == user && user in d.schemas && d.schemas[user] == user
        && Place(Named(user), table) !in d.objects
  {
    hide TenantSafe, UserSafe, Mentions, Schemaless;
    assert BindingSafe(cfg, s, b, s.bindings[b]);
    var i, user := s.bindings[b].instanceId, s.bindings[b].username;
    assert InstanceSafe(cfg, s.world, i, s.instances[i]);
    InstanceNames(cfg, s.world, i, s.instances[i]);
    AdminDatabaseHasNoRoleOf(s.world, cfg.server, NamesOf(cfg, i, s.instances[i]), user, schema);
  }

  lemma AdminDatabaseHasNoRoleOf(w: World, c: Tenancy.Server, n: Names, user: string, schema: string)
    requires TenantSafe(w, c, n) && UserSafe(w, c, n, user) && c.database in w.databases && n.database != c.database
    ensures var d := w.databases[c.database];
      && !Has(w, user, d.owner) && !HasOneOf(w, user, d.connect)
      && (schema in d.schemas && Has(w, user, d.schemas[schema]) ==> schema == user && d.schemas[schema] == user)
      && user in w.roles
  {
    hide TenantSafe, Has;
    var d := w.databases[c.database];
    GroupIsMentionedAtHomeOnly(w, c, n, c.database);
    UserIsMentionedAtHomeOnly(w, c, n, user, c.database);
    RolesOfUser(w, c, n, user, d.owner);
    forall r | r in d.connect ensures !Has(w, user, r) {
      RolesOfUser(w, c, n, user, r);
    }
    if schema in d.schemas {
      RolesOfUser(w, c, n, user, d.schemas[schema]);
      assert schema != user ==> schema in Schemaless(d, user).schemas;
    }
  }

  // ------------------------------------------------- what applications leave

  /** What a statement of `user` can have made of a database. */
  ghost predicate WorkedOn(d: Database, d': Database, user: string)
  {
    && d' == d.(objects := d'.objects, schemas := d'.schemas)
    && (forall o | o in d'.objects :: d'.objects[o] == user || (o in d.objects && d'.objects[o] == d.objects[o]))
    && (forall n | n in d'.schemas :: d'.schemas[n] == user || (n in d.schemas && d'.schemas[n] == d.schemas[n]))
    && (forall n | n in d.schemas :: n in d'.schemas && d'.schemas[n] == d.schemas[n])
  }

  lemma ApplicationEffect(w: World, on: Session, s: Stmt)
    requires OfApplication(s) && Apply(w, on, s).Applied?
    ensures var w' := Apply(w, on, s).world;
      && on.database in w.databases && on.database in w'.databases
      && w' == SetDatabase(w, on.database, w'.databases[on.database])
      && WorkedOn(w.databases[on.database], w'.databases[on.database], on.user)
  {
    hide Mentions, Unreferenced, Unused, Has, HasOneOf;
  }

  lemma WorkMentions(d: Database, d': Database, user: string)
    requires WorkedOn(d, d', user)
    ensures forall r | Mentions(d', r) :: Mentions(d, r) || r == user
  {
  }

  /** What one user does is no trace of another. */
  lemma WorkMentionsOutside(c: Tenancy.Server, m: Names, other: string, name: string, d: Database, d': Database,
          user: string)
    requires WorkedOn(d, d', user) && user != other
    ensures var x, x' := Tenancy.Outside(c, m, other, name, d), Tenancy.Outside(c, m, other, name, d');
      forall r | Mentions(x', r) :: Mentions(x, r) || r == user
  {
    hide Mentions;
    WorkMentions(d, d', user);
    WorkOutsideDisowned(d, d', user, other);
    WorkOutsideSchema(d, d', user, other);
  }

  lemma WorkOutsideSchema(d: Database, d': Database, user: string, other: string)
    requires WorkedOn(d, d', user)
    ensures forall r | Mentions(Schemaless(d', other), r) :: Mentions(Schemaless(d, other), r) || r == user
  {
    var x, x' := Schemaless(d, other), Schemaless(d', other);
    forall o | o in x'.objects && x'.objects[o] != user ensures o in x.objects && x.objects[o] == x'.objects[o] {
    }
    forall n | n in x'.schemas && x'.schemas[n] != user ensures n in x.schemas && x.schemas[n] == x'.schemas[n] {
    }
  }

  lemma WorkOutsideDisowned(d: Database, d': Database, user: string, other: string)
    requires WorkedOn(d, d', user)
    ensures forall r | Mentions(Disowned(d', other), r) ::
      Mentions(Disowned(d, other), r) || (r == user && user != other)
  {
    var x, x' := Disowned(d, other), Disowned(d', other);
    forall o | o in x'.objects && x'.objects[o] != user ensures o in x.objects && x.objects[o] == x'.objects[o] {
      assert InSchemaOf(d, o, other) ==> InSchemaOf(d', o, other);
    }
    forall n | n in x'.schemas && x'.schemas[n] != user ensures n in x.schemas && x.schemas[n] == x'.schemas[n] {
    }
  }

  lemma OwnSchemaGoes(w: World, on: Session, s: Stmt)
    requires InSchema(s, on.user) && Apply(w, on, s).Applied?
    ensures Schemaless(Apply(w, on, s).world.databases[on.database], on.user) ==
      Schemaless(w.databases[on.database], on.user)
  {
    hide Mentions, Unreferenced, Unused, Has, HasOneOf;
  }

  /** A change inside one database that refers to nothing new but an existing role leaves no dangling reference. */
  lemma ChangedDatabaseKeepsConsistent(w: World, name: string, d: Database, user: string)
    requires Consistent(w) && name in w.databases && user in w.roles
    requires Housed(d) && d.tablespace == w.databases[name].tablespace
    requires forall r | Mentions(d, r) :: Mentions(w.databases[name], r) || r == user
    ensures Consistent(SetDatabase(w, name, d))
  {
    hide Mentions;
    assert Resolved(w, w.databases[name]);
  }

  lemma WorkKeepsClosed(w: World, c: Tenancy.Server, m: Names, on: Session, s: Stmt)
    requires Closed(w, c, m) && OfApplication(s) && Apply(w, on, s).Applied?
    ensures Closed(Apply(w, on, s).world, c, m)
  {
    hide Apply, OfApplication;
    ApplicationEffect(w, on, s);
  }

  lemma WorkSparesTenant(w: World, c: Tenancy.Server, m: Names, on: Session, s: Stmt)
    requires TenantSafe(w, c, m) && OfApplication(s) && Apply(w, on, s).Applied?
    requires on.user in w.roles && on.user != m.groupRole
    ensures TenantSafe(Apply(w, on, s).world, c, m)
  {
    hide Mentions, Apply, OfApplication, Without, Closed;
    var w' := Apply(w, on, s).world;
    StatementKeepsConsistent(w, on, s);
    ApplicationEffect(w, on, s);
    WorkKeepsClosed(w, c, m, on, s);
    var d' := w'.databases[on.database];
    assert Resolved(w', d');
    if on.database == m.database {
      assert Tenancy.Removed(w', m).databases == Tenancy.Removed(w, m).databases;
    } else {
      WorkMentions(w.databases[on.database], d', on.user);
      ChangedDatabaseKeepsConsistent(Tenancy.Removed(w, m), on.database, d', on.user);
      assert Tenancy.Removed(w', m).databases == Tenancy.Removed(w, m).databases[on.database := d'];
    }
  }

  lemma WorkSparesUser(w: World, c: Tenancy.Server, m: Names, user: string, on: Session, s: Stmt)
    requires UserSafe(w, c, m, user) && OfApplication(s) && Apply(w, on, s).Applied? && on.user in w.roles
    requires on.user == user ==> on.database == m.database || (on.database == c.database && InSchema(s, user))
    ensures UserSafe(Apply(w, on, s).world, c, m, user)
  {
    hide Mentions, Apply, OfApplication, Disowned, Schemaless, Without, InSchema, Tenancy.Outside, Housed, WorkedOn;
    var w' := Apply(w, on, s).world;
    StatementKeepsConsistent(w, on, s);
    ApplicationEffect(w, on, s);
    OutsideAfterWork(w, c, m, user, on, s);
    var u, u' := Tenancy.Unjoined(w, c, m, user), Tenancy.Unjoined(w', c, m, user);
    var x' := Tenancy.Outside(c, m, user, on.database, w'.databases[on.database]);
    ChangedDatabaseKeepsConsistent(u, on.database, x', if on.user == user then c.user else on.user);
    assert u'.databases == u.databases[on.database := x'];
  }

  lemma OutsideAfterWork(w: World, c: Tenancy.Server, m: Names, user: string, on: Session, s: Stmt)
    requires Consistent(w) && OfApplication(s) && Apply(w, on, s).Applied? && m.database != c.database
    requires on.user == user ==> on.database == m.database || (on.database == c.database && InSchema(s, user))
    ensures var x := Tenancy.Outside(c, m, user, on.database, w.databases[on.database]);
      var x' := Tenancy.Outside(c, m, user, on.database, Apply(w, on, s).world.databases[on.database]);
      && Housed(x') && x'.tablespace == x.tablespace
      && forall r | Mentions(x', r) :: Mentions(x, r) || (r == on.user && on.user != user)
  {
    hide Mentions, Apply, OfApplication, InSchema;
    var w' := Apply(w, on, s).world;
    StatementKeepsConsistent(w, on, s);
    ApplicationEffect(w, on, s);
    var d, d' := w.databases[on.database], w'.databases[on.database];
    assert Resolved(w', d');
    DroppingKeepsHoused(d', user);
    if on.user != user {
      WorkMentionsOutside(c, m, user, on.database, d, d', on.user);
    } else if on.database == m.database {
      WorkOutsideDisowned(d, d', user, user);
    } else {
      OwnSchemaGoes(w, on, s);
    }
  }

  /** Whatever bound applications do, every stored instance and binding stays safe: what their users own in the tenant's
      database, and in their schema in the admin's, does not stand in the way of removing them. */
  lemma ApplicationsKeepSafe(cfg: Config, s: State, b: string, database: string, stmt: Stmt)
    requires Served(cfg) && Safe(cfg, s)
    ensures Safe(cfg, Worked(s, b, database, stmt))
  {
    hide Consistent, TenantSafe, UserSafe, WithinItsPlan, Apply, OfApplication, InSchema;
    var s' := Worked(s, b, database, stmt);
    if s' != s {
      var on := Session(s.bindings[b].username, database);
      BindingUser(cfg, s, b);
      ApplicationsAreConfined(cfg, s, b, database, stmt);
      forall j | j in s.instances ensures InstanceSafe(cfg, s'.world, j, s.instances[j]) {
        assert InstanceSafe(cfg, s.world, j, s.instances[j]);
        UserIsNoGroup(cfg, s, b, j);
        WorkSparesTenant(s.world, cfg.server, NamesOf(cfg, j, s.instances[j]), on, stmt);
      }
      forall x | x in s.bindings ensures BindingSafe(cfg, s', x, s.bindings[x]) {
        assert BindingSafe(cfg, s, x, s.bindings[x]);
        var i := s.bindings[x].instanceId;
        DatabaseOfInstance(cfg, s, i);
        WorkSparesUser(s.world, cfg.server, NamesOf(cfg, i, s.instances[i]), s.bindings[x].username, on, stmt);
      }
      InstanceNames(cfg, s'.world, s.bindings[b].instanceId, s.instances[s.bindings[b].instanceId]);
      WorldChangeKeepsSafe(cfg, s, s'.world);
    }
  }

  /** What a bound application makes is there afterwards, and is its user's. */
  lemma WorkIsDone(s: State, b: string, database: string, stmt: Stmt)
    requires b in s.bindings && OfApplication(stmt)
    requires Try(s.world, Session(s.bindings[b].username, database), stmt).Applied?
    ensures database in s.world.databases
    ensures var user, d := s.bindings[b].username, s.world.databases[database];
      Worked(s, b, database, stmt).world == SetDatabase(s.world, database,
        match stmt
        case CreateObject(o) => d.(objects := d.objects[o := user])
        case DropObject(o) => d.(objects := d.objects - {o})
        case CreateSchema(n) => d.(schemas := d.schemas[n := user])
        case _ => d)
  {
    hide Mentions, Unreferenced, Unused, Has, HasOneOf, MayFill;
  }

  lemma WorkKeepsRest(s: State, b: string, database: string, stmt: Stmt)
    ensures var s' := Worked(s, b, database, stmt);
      && s'.instances == s.instances && s'.bindings == s.bindings && s'.world.roles == s.world.roles
      && s'.world.members == s.world.members && s'.world.tablespaces == s.world.tablespaces
      && s'.world.databases.Keys == s.world.databases.Keys
      && forall d | d in s.world.databases ::
           var x := s.world.databases[d];
           s'.world.databases[d] ==
               x.(objects := s'.world.databases[d].objects, schemas := s'.world.databases[d].schemas)
  {
    hide Apply, OfApplication;
    if Worked(s, b, database, stmt) != s {
      ApplicationEffect(s.world, Session(s.bindings[b].username, database), stmt);
    }
  }

  lemma ApplicationsKeepCredentials(cfg: Config, keys: set<Vault.Encryptor>, s: State, b: string, database: string,
          stmt: Stmt)
    requires AllWork(cfg, keys, s)
    ensures AllWork(cfg, keys, Worked(s, b, database, stmt))
  {
    hide WrittenWith, Served, Worked;
    var s' := Worked(s, b, database, stmt);
    WorkKeepsRest(s, b, database, stmt);
    forall x | x in s'.bindings ensures BindingWorks(cfg, keys, s', s'.bindings[x]) {
      assert BindingWorks(cfg, keys, s, s.bindings[x]);
    }
  }

  lemma ApplicationsKeepIntact(cfg: Config, s: State, b: string, database: string, stmt: Stmt)
    requires AllIntact(cfg, s)
    ensures AllIntact(cfg, Worked(s, b, database, stmt))
  {
    hide Served, Worked;
    var s' := Worked(s, b, database, stmt);
    WorkKeepsRest(s, b, database, stmt);
    forall id | id in s'.instances ensures Intact(cfg, s'.world, id, s'.instances[id]) {
      assert Intact(cfg, s.world, id, s.instances[id]);
    }
  }
}
