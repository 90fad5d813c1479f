/** The SQL batches behind each lifecycle operation, and the operations that run them:
    existence probes first, then the batches, then an undo batch when one of them fails. */
module Tenancy {
  import opened Names
  import opened Sql
  import opened State

  /** The admin connection: its user, its database and the first segment of tablespace locations. */
  datatype Server = Server(user: string, database: string, location: string)

  function OnAdmin(c: Server): Session { Session(c.user, c.database) }

  function OnTenant(c: Server, n: Names): Session { Session(c.user, n.database) }

  function ProvisionAdmin(c: Server, n: Names, p: InstanceParams, password: string): seq<Stmt>
  {
    [ CreateRole(n.groupRole, password),
      Grant(n.groupRole, c.user),
      CreateTablespace(n.tablespace, n.groupRole, c.location + "/" + n.tablespace, p.storageGb),
      CreateDatabase(n.database, n.groupRole, p.encoding, p.compatibility, n.tablespace, p.maxConnections),
      RevokePublicConnect(n.database),
      GrantConnect(n.database, n.groupRole),
      GrantConnect(n.database, c.user),
      Revoke(n.groupRole, c.user) ]
  }

  function ProvisionTenant(n: Names): seq<Stmt>
  {
    [ EnablePrivateObjects(n.database), GrantPublicSchema(n.groupRole), GrantCreate(n.database, n.groupRole) ]
  }

  function DeprovisionAdmin(c: Server, n: Names): seq<Stmt>
  {
    [ Grant(n.groupRole, c.user),
      TerminateDatabase(n.database),
      DropDatabase(n.database),
      DropTablespace(n.tablespace),
      Revoke(n.groupRole, c.user),
      DropRole(n.groupRole) ]
  }

  function UpdateAdmin(c: Server, n: Names, p: InstanceParams): seq<Stmt>
  {
    [ Grant(n.groupRole, c.user),
      AlterLimit(n.database, p.maxConnections),
      Resize(n.tablespace, p.storageGb),
      Revoke(n.groupRole, c.user) ]
  }

  function BindAdmin(n: Names, user: string, password: string): seq<Stmt>
  {
    [ CreateUser(user, password), Grant(n.groupRole, user) ]
  }

  function BindTenant(n: Names, user: string): seq<Stmt>
  {
    [ AlterDefaults(user, Tables, n.groupRole), AlterDefaults(user, Sequences, n.groupRole) ]
  }

  function UnbindTenant(user: string): seq<Stmt>
  {
    [ TerminateUser(user), DropOwned(user) ]
  }

  function UnbindAdmin(user: string): seq<Stmt>
  {
    [ DropSchema(user), DropUser(user) ]
  }

  /** How an admin operation ends: done, refused because a name is taken, or failed. */
  datatype Status = Done | Taken | Broken

  function Absent(on: Session, c: Catalog, name: string, rest: Tree<Status>): Tree<Status>
  {
    Act(Probe(on, c, name), Leaf(Taken), rest, Leaf(Broken))
  }

  /** Run one batch, then `rest`; `undo` if the batch fails. */
  function Attempting(on: Session, stmts: seq<Stmt>, rest: Tree<Status>, undo: Tree<Status>): Tree<Status>
  {
    Graft(Batch(on, stmts), (ok: bool) => if ok then rest else undo)
  }

  function Deprovision(c: Server, n: Names): Tree<Status>
  {
    Attempting(OnAdmin(c), DeprovisionAdmin(c, n), Leaf(Done), Leaf(Broken))
  }

  function Unbind(c: Server, n: Names, user: string): Tree<Status>
  {
    Attempting(OnTenant(c, n), UnbindTenant(user),
      Attempting(OnAdmin(c), UnbindAdmin(user), Leaf(Done), Leaf(Broken)), Leaf(Broken))
  }

  /** Best-effort undo: whatever it does, the operation has failed. */
  function Failing(undo: Tree<Status>): Tree<Status>
  {
    Graft(undo, (_: Status) => Leaf(Broken))
  }

  /** Run the admin-side batch, then the tenant-side one, undoing everything when either fails. */
  function Creating(c: Server, n: Names, first: seq<Stmt>, second: seq<Stmt>): Tree<Status>
  {
    var undo := Failing(Deprovision(c, n));
    Attempting(OnAdmin(c), first, Attempting(OnTenant(c, n), second, Leaf(Done), undo), undo)
  }

  function Creation(c: Server, n: Names, p: InstanceParams, password: string): Tree<Status>
  {
    Creating(c, n, ProvisionAdmin(c, n, p, password), ProvisionTenant(n))
  }

  function Provision(c: Server, n: Names, p: InstanceParams, password: string): Tree<Status>
  {
    Absent(OnAdmin(c), Databases, n.database,
      Absent(OnAdmin(c), Roles, n.groupRole,
        Absent(OnAdmin(c), Tablespaces, n.tablespace, Creation(c, n, p, password))))
  }

  function JoiningBy(c: Server, n: Names, user: string, first: seq<Stmt>, second: seq<Stmt>): Tree<Status>
  {
    var undo := Failing(Unbind(c, n, user));
    Attempting(OnAdmin(c), first, Attempting(OnTenant(c, n), second, Leaf(Done), undo), undo)
  }

  function Joining(c: Server, n: Names, user: string, password: string): Tree<Status>
  {
    JoiningBy(c, n, user, BindAdmin(n, user, password), BindTenant(n, user))
  }

  function Bind(c: Server, n: Names, user: string, password: string): Tree<Status>
  {
    Absent(OnAdmin(c), Roles, user, Joining(c, n, user, password))
  }

  function Update(c: Server, n: Names, p: InstanceParams): Tree<Status>
  {
    Attempting(OnAdmin(c), UpdateAdmin(c, n, p), Leaf(Done), Leaf(Broken))
  }

  /** The catalog with every trace of one tenant taken away. */
  function Removed(w: World, n: Names): World
  {
    World(w.roles - {n.groupRole}, Without(w.members, n.groupRole), w.databases - {n.database},
        w.tablespaces - {n.tablespace})
  }

  /** The catalog with every trace of one binding user taken away: the role, its memberships, what it
      owns in its tenant database, and the schema of its own name, with all it holds, in the admin database. */
  function Unjoined(w: World, c: Server, n: Names, user: string): World
  {
    Forget(w, user).(databases := map d | d in w.databases :: Outside(c, n, user, d, w.databases[d]))
  }

  function Outside(c: Server, n: Names, user: string, name: string, d: Database): Database
  {
    if name == n.database then Disowned(d, user)
    else if name == c.database then Schemaless(d, user)
    else d
  }

  /** Statements that only concern tenant `n`. */
  predicate OfTenant(c: Server, n: Names, on: Session, s: Stmt)
  {
    && on.user == c.user
    && (on.database == c.database || on.database == n.database)
    && match s
       case CreateRole(r, _) => r == n.groupRole
       case Grant(r, m) => r == n.groupRole && m == c.user
       case Revoke(r, m) => r == n.groupRole && m == c.user
       case CreateTablespace(t, o, _, _) => t == n.tablespace && o == n.groupRole
       case CreateDatabase(d, o, _, _, t, _) => d == n.database && o == n.groupRole && t == n.tablespace
       case RevokePublicConnect(d) => d == n.database
       case GrantConnect(d, r) => d == n.database && (r == n.groupRole || r == c.user)
       case EnablePrivateObjects(d) => d == n.database
       case GrantPublicSchema(r) => on.database == n.database && r == n.groupRole
       case GrantCreate(d, r) => d == n.database && r == n.groupRole
       case TerminateDatabase(_) => true
       case DropDatabase(d) => d == n.database
       case DropTablespace(t) => t == n.tablespace
       case DropRole(r) => r == n.groupRole
       case AlterLimit(d, _) => d == n.database
       case Resize(t, _) => t == n.tablespace
       case _ => false
  }

  /** Statements that only concern user `user` of tenant `n`. */
  predicate OfUser(c: Server, n: Names, user: string, on: Session, s: Stmt)
  {
    && on.user == c.user
    && match s
       case CreateUser(u, _) => u == user && on.database == c.database
       case Grant(r, m) => r == n.groupRole && m == user && on.database == c.database
       case AlterDefaults(u, _, r) => u == user && r == n.groupRole && on.database == n.database
       case TerminateUser(_) => true
       case DropOwned(u) => u == user && on.database == n.database
       case DropSchema(u) => u == user && on.database == c.database
       case DropUser(u) => u == user && on.database == c.database
       case _ => false
  }

  function TenantStatements(c: Server, n: Names): (Session, Stmt) -> bool
  {
    (on, s) => OfTenant(c, n, on, s)
  }

  function UserStatements(c: Server, n: Names, user: string): (Session, Stmt) -> bool
  {
    (on, s) => OfUser(c, n, user, on, s)
  }

  lemma AttemptingIsSqlOnly(on: Session, stmts: seq<Stmt>, rest: Tree<Status>, undo: Tree<Status>, allowed: (Session,
          Stmt) -> bool)
    requires AllOf(on, stmts, allowed) && SqlOnly(rest, allowed) && SqlOnly(undo, allowed)
    ensures SqlOnly(Attempting(on, stmts, rest, undo), allowed)
  {
    BatchIsSqlOnly(on, stmts, allowed);
    GraftIsSqlOnly(Batch(on, stmts), (ok: bool) => if ok then rest else undo, allowed);
  }

  lemma FailingIsSqlOnly(undo: Tree<Status>, allowed: (Session, Stmt) -> bool)
    requires SqlOnly(undo, allowed)
    ensures SqlOnly(Failing(undo), allowed)
  {
    GraftIsSqlOnly(undo, (_: Status) => Leaf(Broken), allowed);
  }

  /** Provision, update and deprovision, with their undo batches, only run statements of their own tenant. */
  lemma TenantOperationsStayInside(c: Server, n: Names, p: InstanceParams, password: string)
    ensures SqlOnly(Deprovision(c, n), TenantStatements(c, n))
    ensures SqlOnly(Creation(c, n, p, password), TenantStatements(c, n))
    ensures SqlOnly(Provision(c, n, p, password), TenantStatements(c, n))
    ensures SqlOnly(Update(c, n, p), TenantStatements(c, n))
  {
    var own := TenantStatements(c, n);
    AttemptingIsSqlOnly(OnAdmin(c), DeprovisionAdmin(c, n), Leaf(Done), Leaf(Broken), own);
    AttemptingIsSqlOnly(OnAdmin(c), UpdateAdmin(c, n, p), Leaf(Done), Leaf(Broken), own);
    var undo := Failing(Deprovision(c, n));
    FailingIsSqlOnly(Deprovision(c, n), own);
    AttemptingIsSqlOnly(OnTenant(c, n), ProvisionTenant(n), Leaf(Done), undo, own);
    AttemptingIsSqlOnly(OnAdmin(c), ProvisionAdmin(c, n, p, password),
      Attempting(OnTenant(c, n), ProvisionTenant(n), Leaf(Done), undo), undo, own);
    var inner := Absent(OnAdmin(c), Tablespaces, n.tablespace, Creation(c, n, p, password));
    assert SqlOnly(inner, own);
    assert SqlOnly(Absent(OnAdmin(c), Roles, n.groupRole, inner), own);
  }

  lemma UserOperationsStayInside(c: Server, n: Names, user: string, password: string)
    ensures SqlOnly(Unbind(c, n, user), UserStatements(c, n, user))
    ensures SqlOnly(Joining(c, n, user, password), UserStatements(c, n, user))
    ensures SqlOnly(Bind(c, n, user, password), UserStatements(c, n, user))
  {
    var own := UserStatements(c, n, user);
    AttemptingIsSqlOnly(OnAdmin(c), UnbindAdmin(user), Leaf(Done), Leaf(Broken), own);
    AttemptingIsSqlOnly(OnTenant(c, n), UnbindTenant(user),
      Attempting(OnAdmin(c), UnbindAdmin(user), Leaf(Done), Leaf(Broken)), Leaf(Broken), own);
    var undo := Failing(Unbind(c, n, user));
    FailingIsSqlOnly(Unbind(c, n, user), own);
    AttemptingIsSqlOnly(OnTenant(c, n), BindTenant(n, user), Leaf(Done), undo, own);
    AttemptingIsSqlOnly(OnAdmin(c), BindAdmin(n, user, password),
      Attempting(OnTenant(c, n), BindTenant(n, user), Leaf(Done), undo), undo, own);
  }

  /** The tenant's database, if there is one, belongs to its group role. */
  predicate OwnsDatabase(w: World, n: Names)
  {
    n.database in w.databases ==> w.databases[n.database].owner == n.groupRole
  }

  lemma TenantStatementKeepsOtherRoles(w: World, c: Server, n: Names, on: Session, s: Stmt)
    requires OfTenant(c, n, on, s) && Allowed(w, on, s)
    ensures var w', r := Effect(w, on, s), Removed(w, n);
      && w'.roles - {n.groupRole} == r.roles && w'.tablespaces - {n.tablespace} == r.tablespaces
      && Without(w'.members, n.groupRole) == r.members
  {
    hide Mentions, Unreferenced, Unused;
  }

  lemma TenantStatementKeepsOtherDatabases(w: World, c: Server, n: Names, on: Session, s: Stmt)
    requires OfTenant(c, n, on, s) && Allowed(w, on, s)
    ensures var w' := Effect(w, on, s);
      w'.databases - {n.database} == w.databases - {n.database} && (OwnsDatabase(w, n) ==> OwnsDatabase(w', n))
  {
    hide Mentions, Unreferenced, Unused, Without;
  }

  lemma TenantStatementKeepsRest(w: World, c: Server, n: Names, on: Session, s: Stmt)
    requires OfTenant(c, n, on, s) && Allowed(w, on, s)
    ensures var w' := Effect(w, on, s);
      && Removed(w', n) == Removed(w, n)
      && (OwnsDatabase(w, n) ==> OwnsDatabase(w', n))
  {
    TenantStatementKeepsOtherRoles(w, c, n, on, s);
    TenantStatementKeepsOtherDatabases(w, c, n, on, s);
    hide Effect, Allowed, OfTenant, Without;
  }

  lemma DroppingTwice(d: Database, u: string)
    ensures Disowned(Disowned(d, u), u) == Disowned(d, u) && Schemaless(Schemaless(d, u), u) == Schemaless(d, u)
  {
  }

  /** What a user's statement adds to a database goes with the user. */
  lemma AddingIsUndone(d: Database, u: string, grantee: string, kind: Kind)
    ensures Disowned(d.(defaults := d.defaults + {Default(u, grantee, kind)}), u) == Disowned(d, u)
    ensures Schemaless(d.(schemas := d.schemas[u := u]), u) == Schemaless(d, u)
  {
    assert d.schemas[u := u] - {u} == d.schemas - {u};
  }

  lemma UserStatementKeepsDatabase(w: World, c: Server, n: Names, user: string, on: Session, s: Stmt, d: string)
    requires OfUser(c, n, user, on, s) && Allowed(w, on, s) && n.database != c.database && d in w.databases
    ensures var w' := Effect(w, on, s);
      w'.databases.Keys == w.databases.Keys
          && Outside(c, n, user, d, w'.databases[d]) == Outside(c, n, user, d, w.databases[d])
  {
    hide Mentions, Unreferenced, Unused, Without, Disowned, Schemaless;
    DroppingTwice(w.databases[d], user);
    if s.AlterDefaults? {
      AddingIsUndone(w.databases[d], user, s.grantee, s.kind);
    } else {
      AddingIsUndone(w.databases[d], user, "", Tables);
    }
  }

  lemma UserStatementKeepsRest(w: World, c: Server, n: Names, user: string, on: Session, s: Stmt)
    requires OfUser(c, n, user, on, s) && Apply(w, on, s).Applied? && n.database != c.database
    ensures Unjoined(Apply(w, on, s).world, c, n, user) == Unjoined(w, c, n, user)
  {
    var w' := Effect(w, on, s);
    forall d | d in w.databases
      ensures d in w'.databases && Outside(c, n, user, d, w'.databases[d]) == Outside(c, n, user, d, w.databases[d])
    {
      UserStatementKeepsDatabase(w, c, n, user, on, s, d);
    }
    UserStatementKeepsRoles(w, c, n, user, on, s);
  }

  lemma UserStatementKeepsRoles(w: World, c: Server, n: Names, user: string, on: Session, s: Stmt)
    requires OfUser(c, n, user, on, s) && Apply(w, on, s).Applied?
    ensures var w' := Effect(w, on, s);
      && w'.databases.Keys == w.databases.Keys && w'.tablespaces == w.tablespaces
      && w'.roles - {user} == w.roles - {user} && Without(w'.members, user) == Without(w.members, user)
  {
  }
}
