/** Which statements spare which tenants and users: the broker works on one tenant or user at a time,
    and every other one it knows keeps what it has. */
module Sparing {
  import opened Names
  import opened Sql
  import opened State
  import opened Tenancy
  import opened Lifecycle
  import opened Membership

  /** Sessions are for the group and the admin only, and the shared schema is the group's. */
  predicate Isolated(c: Server, n: Names, d: Database)
  {
    && !d.publicConnect && d.connect == {n.groupRole, c.user} && d.usage == {n.groupRole} && d.create == {n.groupRole}
    && d.privateObjects
  }

  /** The tenant's database, if there is one, is isolated. */
  predicate Closed(w: World, c: Server, n: Names)
  {
    n.database in w.databases ==> Isolated(c, n, w.databases[n.database])
  }

  /** A tenant the broker can still take away as a whole, with an isolated database; its group role is a member of
      nothing. */
  ghost predicate TenantSafe(w: World, c: Server, n: Names)
  {
    Removable(w, c, n) && Closed(w, c, n) && forall p | p in w.members :: p.1 != n.groupRole
  }

  /** A user the broker can still take away as a whole; it is a member of its own tenant's group role only. */
  ghost predicate UserSafe(w: World, c: Server, n: Names, user: string)
  {
    && Leavable(w, c, n, user) && c.user in w.roles
    && (n.groupRole, user) in w.members
    && (forall p | p in w.members :: p.0 != user && (p.1 == user ==> p.0 == n.groupRole))
  }

  predicate Apart(n: Names, m: Names)
  {
    n.database != m.database && n.groupRole != m.groupRole && n.tablespace != m.tablespace
  }

  predicate Drops(s: Stmt) { s.DropDatabase? || s.DropTablespace? || s.DropRole? }

  // A statement that spares a tenant does the same with the tenant taken away.

  lemma TenantStatementStaysAllowed(w: World, c: Server, m: Names, n: Names, on: Session, s: Stmt)
    requires OfTenant(c, m, on, s) && Apply(w, on, s).Applied? && OwnsDatabase(w, m)
    requires Apart(m, n) && n.database != c.database && n.groupRole != c.user
    ensures Apply(Removed(w, n), on, s).Applied?
  {
    hide HasOneOf, Has, MayFill, Mentions;
  }

  lemma TenantStatementCommutes(w: World, c: Server, m: Names, n: Names, on: Session, s: Stmt)
    requires OfTenant(c, m, on, s) && Apply(w, on, s).Applied? && Apply(Removed(w, n), on, s).Applied?
    requires Apart(m, n) && n.database != c.database && n.groupRole != c.user
    ensures Apply(Removed(w, n), on, s).world == Removed(Apply(w, on, s).world, n)
  {
    TenantStatementCommutesOnDatabases(w, c, m, n, on, s);
    TenantStatementCommutesOnRoles(w, c, m, n, on, s);
    TenantStatementCommutesOnMembers(w, c, m, n, on, s);
  }

  /** Statements that only touch databases. */
  predicate OnDatabases(s: Stmt)
  {
    || s.CreateDatabase? || s.RevokePublicConnect? || s.GrantConnect? || s.EnablePrivateObjects? || s.GrantPublicSchema?
    || s.GrantCreate? || s.TerminateDatabase? || s.DropDatabase? || s.AlterLimit?
  }

  lemma DatabaseStatementsKeepRest(w: World, on: Session, s: Stmt)
    requires OnDatabases(s) && Apply(w, on, s).Applied?
    ensures var w' := Apply(w, on, s).world;
      w'.roles == w.roles && w'.tablespaces == w.tablespaces && w'.members == w.members
  {
    hide Mentions, Unreferenced, Unused;
  }

  lemma OtherStatementsKeepDatabases(w: World, c: Server, m: Names, on: Session, s: Stmt)
    requires OfTenant(c, m, on, s) && !OnDatabases(s) && Apply(w, on, s).Applied?
    ensures Apply(w, on, s).world.databases == w.databases
  {
    hide Mentions, Unreferenced, Unused;
  }

  lemma TenantStatementCommutesOnDatabases(w: World, c: Server, m: Names, n: Names, on: Session, s: Stmt)
    requires OfTenant(c, m, on, s) && Apply(w, on, s).Applied? && Apply(Removed(w, n), on, s).Applied?
    requires Apart(m, n) && n.database != c.database
    ensures Apply(Removed(w, n), on, s).world.databases == Removed(Apply(w, on, s).world, n).databases
  {
    hide Mentions, Unreferenced, Unused, Without;
    if OnDatabases(s) {
      DatabaseStatementsCommute(w, c, m, n, on, s);
    } else {
      OtherStatementsKeepDatabases(w, c, m, on, s);
      OtherStatementsKeepDatabases(Removed(w, n), c, m, on, s);
    }
  }

  /** Statements that change the settings or grants of one database. */
  predicate Sets(s: Stmt)
  {
    s.RevokePublicConnect? || s.GrantConnect? || s.EnablePrivateObjects? || s.GrantPublicSchema? || s.GrantCreate?
        || s.AlterLimit?
  }

  function Altered(on: Session, s: Stmt): string
    requires Sets(s)
  {
    if s.GrantPublicSchema? then on.database else s.name
  }

  function Changed(d: Database, s: Stmt): Database
    requires Sets(s)
  {
    match s
    case RevokePublicConnect(_) => d.(publicConnect := false)
    case GrantConnect(_, r) => d.(connect := d.connect + {r})
    case EnablePrivateObjects(_) => d.(privateObjects := true)
    case GrantPublicSchema(r) => d.(usage := d.usage + {r})
    case GrantCreate(_, r) => d.(create := d.create + {r})
    case AlterLimit(_, n) => d.(limit := n)
  }

  lemma SettingEffect(w: World, on: Session, s: Stmt)
    requires Sets(s) && Apply(w, on, s).Applied?
    ensures Altered(on, s) in w.databases
    ensures Apply(w, on, s).world == SetDatabase(w, Altered(on, s), Changed(w.databases[Altered(on, s)], s))
  {
    hide Has, HasOneOf, MayFill, Mentions, Unreferenced, Unused;
  }

  lemma TenantSetsItsOwn(c: Server, m: Names, on: Session, s: Stmt)
    requires OfTenant(c, m, on, s) && Sets(s)
    ensures Altered(on, s) == m.database
    ensures s.GrantConnect? || s.GrantPublicSchema? || s.GrantCreate? ==>
      s.grantee == m.groupRole || s.grantee == c.user
  {
  }

  lemma RemovalCommutes(databases: map<string, Database>, name: string, d: Database, gone: string)
    requires name != gone
    ensures databases[name := d] - {gone} == (databases - {gone})[name := d]
    ensures databases - {name} - {gone} == databases - {gone} - {name}
  {
  }

  lemma DatabaseStatementsCommute(w: World, c: Server, m: Names, n: Names, on: Session, s: Stmt)
    requires OfTenant(c, m, on, s) && Apply(w, on, s).Applied? && Apply(Removed(w, n), on, s).Applied?
    requires Apart(m, n) && n.database != c.database && OnDatabases(s)
    ensures Apply(Removed(w, n), on, s).world.databases == Removed(Apply(w, on, s).world, n).databases
  {
    if Sets(s) {
      hide Apply, OfTenant, Without, Changed;
      TenantSetsItsOwn(c, m, on, s);
      SettingEffect(w, on, s);
      SettingEffect(Removed(w, n), on, s);
      RemovalCommutes(w.databases, m.database, Changed(w.databases[m.database], s), n.database);
    } else {
      MakingCommutes(w, c, m, n, on, s);
    }
  }

  lemma MakingCommutes(w: World, c: Server, m: Names, n: Names, on: Session, s: Stmt)
    requires OfTenant(c, m, on, s) && Apply(w, on, s).Applied? && Apply(Removed(w, n), on, s).Applied?
    requires Apart(m, n) && OnDatabases(s) && !Sets(s)
    ensures Apply(Removed(w, n), on, s).world.databases == Removed(Apply(w, on, s).world, n).databases
  {
    hide Mentions, Unreferenced, Unused, Without, HasOneOf, Has, MayFill, Disowned, Schemaless;
    if s.CreateDatabase? {
      RemovalCommutes(w.databases, m.database, Effect(w, on, s).databases[m.database], n.database);
    } else if s.DropDatabase? && m.database in w.databases {
      RemovalCommutes(w.databases, m.database, w.databases[m.database], n.database);
    }
  }

  lemma TenantStatementCommutesOnRoles(w: World, c: Server, m: Names, n: Names, on: Session, s: Stmt)
    requires OfTenant(c, m, on, s) && Apply(w, on, s).Applied? && Apply(Removed(w, n), on, s).Applied?
    requires Apart(m, n) && n.groupRole != c.user
    ensures var v, r := Apply(Removed(w, n), on, s).world, Removed(Apply(w, on, s).world, n);
      v.roles == r.roles && v.tablespaces == r.tablespaces
  {
    hide Mentions, Unreferenced, Unused, Without;
    if OnDatabases(s) {
      DatabaseStatementsKeepRest(w, on, s);
      DatabaseStatementsKeepRest(Removed(w, n), on, s);
    } else {
      RoleStatementsCommute(w, c, m, n, on, s);
    }
  }

  lemma RoleStatementsCommute(w: World, c: Server, m: Names, n: Names, on: Session, s: Stmt)
    requires OfTenant(c, m, on, s) && Apply(w, on, s).Applied? && Apply(Removed(w, n), on, s).Applied?
    requires Apart(m, n) && n.groupRole != c.user && !OnDatabases(s)
    ensures var v, r := Apply(Removed(w, n), on, s).world, Removed(Apply(w, on, s).world, n);
      v.roles == r.roles && v.tablespaces == r.tablespaces
  {
    hide Mentions, Unreferenced, Unused, Without, HasOneOf, Has, MayFill;
  }

  lemma TenantStatementCommutesOnMembers(w: World, c: Server, m: Names, n: Names, on: Session, s: Stmt)
    requires OfTenant(c, m, on, s) && Apply(w, on, s).Applied? && Apply(Removed(w, n), on, s).Applied?
    requires Apart(m, n) && n.groupRole != c.user
    ensures Apply(Removed(w, n), on, s).world.members == Without(Apply(w, on, s).world.members, n.groupRole)
  {
    hide Mentions, Unreferenced, Unused, HasOneOf, Has, MayFill;
  }

  lemma OtherTenantStatementKeepsClosed(w: World, c: Server, m: Names, n: Names, on: Session, s: Stmt)
    requires OfTenant(c, m, on, s) && Apply(w, on, s).Applied? && n.database != m.database && Closed(w, c, n)
    ensures Closed(Apply(w, on, s).world, c, n)
  {
    hide Effect, Allowed, OfTenant, Isolated;
    TenantStatementKeepsOtherDatabases(w, c, m, on, s);
    var w' := Effect(w, on, s);
    if n.database in w'.databases {
      assert n.database in w'.databases - {m.database};
      assert (w'.databases - {m.database})[n.database] == (w.databases - {m.database})[n.database];
    }
  }

  /** A tenant's own statements keep its database isolated, once it is made. */
  lemma OwnStatementKeepsClosed(w: World, c: Server, n: Names, on: Session, s: Stmt)
    requires OfTenant(c, n, on, s) && !s.CreateDatabase? && Apply(w, on, s).Applied? && Closed(w, c, n)
    ensures Closed(Apply(w, on, s).world, c, n)
  {
    hide Mentions, Unreferenced, Unused, Without;
  }

  lemma UserStatementKeepsClosed(w: World, c: Server, m: Names, user: string, n: Names, on: Session, s: Stmt)
    requires OfUser(c, m, user, on, s) && Apply(w, on, s).Applied? && Closed(w, c, n)
    requires user != n.groupRole && user != c.user
    ensures Closed(Apply(w, on, s).world, c, n)
  {
    hide Mentions, Unreferenced, Unused, Without;
  }

  lemma TenantStatementSparesTenant(w: World, c: Server, m: Names, n: Names, on: Session, s: Stmt)
    requires OfTenant(c, m, on, s) && Apply(w, on, s).Applied? && OwnsDatabase(w, m)
    requires Apart(m, n) && m.database != c.database && m.groupRole != c.user && TenantSafe(w, c, n)
    ensures TenantSafe(Apply(w, on, s).world, c, n)
  {
    hide Mentions, Apply, Closed;
    TenantStatementStaysAllowed(w, c, m, n, on, s);
    TenantStatementCommutes(w, c, m, n, on, s);
    OtherTenantStatementKeepsClosed(w, c, m, n, on, s);
    StatementKeepsConsistent(Removed(w, n), on, s);
    StatementKeepsConsistent(w, on, s);
    TenantStatementKeepsOthers(w, c, m, n, on, s);
  }

  lemma TenantStatementKeepsOthers(w: World, c: Server, m: Names, n: Names, on: Session, s: Stmt)
    requires OfTenant(c, m, on, s) && Apply(w, on, s).Applied?
    requires Apart(m, n) && m.database != c.database && m.groupRole != c.user && n.groupRole != c.user
    ensures var w' := Apply(w, on, s).world;
      && (n.groupRole in w.roles ==> n.groupRole in w'.roles) && (c.user in w.roles ==> c.user in w'.roles)
      && (c.database in w.databases ==> c.database in w'.databases)
      && (OwnsDatabase(w, n) ==> OwnsDatabase(w', n))
      && forall p | p in w'.members :: p in w.members || p.1 == c.user
  {
    hide Mentions, Unreferenced, Unused, HasOneOf, Has, MayFill;
  }

  /** Statements about a user of the tenant itself do not show once the tenant is taken away. */
  predicate InsideTenant(s: Stmt) { s.Grant? || s.AlterDefaults? || s.DropOwned? || s.TerminateUser? }

  lemma UserStatementOutsideTenant(w: World, c: Server, m: Names, user: string, n: Names, on: Session, s: Stmt)
    requires OfUser(c, m, user, on, s) && Apply(w, on, s).Applied?
    requires n.database != c.database && user != n.groupRole && c.user != n.groupRole
    ensures m == n && InsideTenant(s) ==> Removed(Apply(w, on, s).world, n) == Removed(w, n)
    ensures Apart(m, n) || (m == n && !InsideTenant(s)) ==> Apply(Removed(w, n), on, s).Applied? || s.TerminateUser?
  {
  }

  lemma UserStatementCommutes(w: World, c: Server, m: Names, user: string, n: Names, on: Session, s: Stmt)
    requires OfUser(c, m, user, on, s) && Apply(w, on, s).Applied? && Apply(Removed(w, n), on, s).Applied?
    requires n.database != c.database && user != n.groupRole && c.user != n.groupRole
    requires Apart(m, n) || (m == n && !InsideTenant(s))
    ensures Apply(Removed(w, n), on, s).world == Removed(Apply(w, on, s).world, n)
  {
    UserStatementCommutesWithRoles(w, c, m, user, n, on, s);
    UserStatementCommutesWithDatabases(w, c, m, user, n, on, s);
  }

  lemma UserStatementCommutesWithRoles(w: World, c: Server, m: Names, user: string, n: Names, on: Session, s: Stmt)
    requires OfUser(c, m, user, on, s) && Apply(w, on, s).Applied? && Apply(Removed(w, n), on, s).Applied?
    requires n.database != c.database && user != n.groupRole && c.user != n.groupRole
    requires Apart(m, n) || (m == n && !InsideTenant(s))
    ensures var v, r := Apply(Removed(w, n), on, s).world, Removed(Apply(w, on, s).world, n);
      v.roles == r.roles && v.tablespaces == r.tablespaces && v.members == r.members
  {
    hide Mentions, Unreferenced;
  }

  lemma UserStatementCommutesWithDatabases(w: World, c: Server, m: Names, user: string, n: Names, on: Session, s: Stmt)
    requires OfUser(c, m, user, on, s) && Apply(w, on, s).Applied? && Apply(Removed(w, n), on, s).Applied?
    requires n.database != c.database && user != n.groupRole && c.user != n.groupRole
    requires Apart(m, n) || (m == n && !InsideTenant(s))
    ensures Apply(Removed(w, n), on, s).world.databases == Removed(Apply(w, on, s).world, n).databases
  {
    hide Mentions, Unreferenced;
  }

  lemma UserStatementSparesTenant(w: World, c: Server, m: Names, user: string, n: Names, on: Session, s: Stmt)
    requires OfUser(c, m, user, on, s) && Apply(w, on, s).Applied?
    requires (m == n || Apart(m, n)) && user != n.groupRole && user != c.user && TenantSafe(w, c, n)
    ensures TenantSafe(Apply(w, on, s).world, c, n)
  {
    UserStatementOutsideTenant(w, c, m, user, n, on, s);
    if !s.TerminateUser? && !(m == n && InsideTenant(s)) {
      UserStatementCommutes(w, c, m, user, n, on, s);
      StatementKeepsConsistent(Removed(w, n), on, s);
    }
    StatementKeepsConsistent(w, on, s);
    UserStatementKeepsClosed(w, c, m, user, n, on, s);
    UserStatementKeepsOthers(w, c, m, user, n, on, s);
  }

  lemma UserStatementKeepsOthers(w: World, c: Server, m: Names, user: string, n: Names, on: Session, s: Stmt)
    requires OfUser(c, m, user, on, s) && Apply(w, on, s).Applied? && user != n.groupRole && user != c.user
    ensures var w' := Apply(w, on, s).world;
      && (n.groupRole in w.roles ==> n.groupRole in w'.roles) && (c.user in w.roles ==> c.user in w'.roles)
      && w'.databases.Keys == w.databases.Keys
      && (OwnsDatabase(w, n) ==> OwnsDatabase(w', n))
      && forall p | p in w'.members :: p in w.members || p.1 == user
  {
  }

  // The same for users: a statement that spares a user does the same with the user taken away.

  lemma TenantStatementStaysAllowedWithout(w: World, c: Server, m: Names, n: Names, user: string, on: Session, s: Stmt)
    requires OfTenant(c, m, on, s) && Apply(w, on, s).Applied? && OwnsDatabase(w, m)
    requires user != c.user && user != m.groupRole
    ensures Apply(Unjoined(w, c, n, user), on, s).Applied?
  {
    hide OfTenant, Allowed, Unjoined;
    TrimmedCatalog(w, c, n, user);
    if OnDatabases(s) {
      DatabaseStatementStaysAllowedWithout(w, c, m, n, user, on, s);
    } else {
      RoleStatementStaysAllowedWithout(w, c, m, n, user, on, s);
    }
  }

  lemma DatabaseStatementStaysAllowedWithout(w: World, c: Server, m: Names, n: Names, user: string, on: Session,
          s: Stmt)
    requires OfTenant(c, m, on, s) && Allowed(w, on, s) && OwnsDatabase(w, m) && OnDatabases(s)
    requires user != c.user && user != m.groupRole
    ensures Allowed(Unjoined(w, c, n, user), on, s)
  {
    hide Without, Unjoined;
    TrimmedCatalog(w, c, n, user);
  }

  lemma RoleStatementStaysAllowedWithout(w: World, c: Server, m: Names, n: Names, user: string, on: Session, s: Stmt)
    requires OfTenant(c, m, on, s) && Allowed(w, on, s) && !OnDatabases(s)
    requires user != c.user && user != m.groupRole
    ensures Allowed(Unjoined(w, c, n, user), on, s)
  {
    hide Mentions, Unreferenced, Unused, Without, Unjoined;
    TrimmedRefersLess(w, c, n, user);
    TrimmedCatalog(w, c, n, user);
  }

  /** What taking a user away leaves as it is. */
  lemma TrimmedCatalog(w: World, c: Server, n: Names, user: string)
    ensures var u := Unjoined(w, c, n, user);
      && u.databases.Keys == w.databases.Keys && u.tablespaces == w.tablespaces && u.roles == w.roles - {user}
      && (forall d | d in w.databases ::
            u.databases[d].owner == w.databases[d].owner && u.databases[d].tablespace == w.databases[d].tablespace)
      && (forall p | p in w.members && p.0 != user && p.1 != user :: p in u.members)
  {
  }

  /** Taking a user away makes no database refer to more roles. */
  lemma TrimmedMentionsLess(w: World, c: Server, n: Names, user: string)
    ensures forall d, r | d in w.databases && Mentions(Unjoined(w, c, n, user).databases[d], r) ::
      Mentions(w.databases[d], r)
  {
  }

  lemma TrimmedRefersLess(w: World, c: Server, n: Names, user: string)
    ensures forall r | Unreferenced(w, r) :: Unreferenced(Unjoined(w, c, n, user), r)
    ensures forall t | Unused(w, t) :: Unused(Unjoined(w, c, n, user), t)
  {
    hide Mentions, Disowned, Schemaless, Without, Unjoined, Outside;
    TrimmedMentionsLess(w, c, n, user);
    TrimmedCatalog(w, c, n, user);
  }

  lemma TenantStatementCommutesWithUser(w: World, c: Server, m: Names, n: Names, user: string, on: Session, s: Stmt)
    requires OfTenant(c, m, on, s) && Apply(w, on, s).Applied? && Apply(Unjoined(w, c, n, user), on, s).Applied?
    requires user != c.user && user != m.groupRole && m.database != c.database && n.database != c.database
    ensures Apply(Unjoined(w, c, n, user), on, s).world == Unjoined(Apply(w, on, s).world, c, n, user)
  {
    TenantStatementCommutesOnUserDatabases(w, c, m, n, user, on, s);
    TenantStatementCommutesOnUserRoles(w, c, m, n, user, on, s);
    TenantStatementCommutesOnUserMembers(w, c, m, n, user, on, s);
  }

  lemma TenantStatementCommutesOnUserDatabases(w: World, c: Server, m: Names, n: Names, user: string, on: Session,
          s: Stmt)
    requires OfTenant(c, m, on, s) && Apply(w, on, s).Applied? && Apply(Unjoined(w, c, n, user), on, s).Applied?
    requires user != c.user && user != m.groupRole && m.database != c.database && n.database != c.database
    ensures Apply(Unjoined(w, c, n, user), on, s).world.databases ==
      Unjoined(Apply(w, on, s).world, c, n, user).databases
  {
    hide Mentions, Unreferenced, Unused, Without, Disowned, Schemaless, Outside, HasOneOf, Has, MayFill;
    var v, r := Effect(Unjoined(w, c, n, user), on, s), Unjoined(Effect(w, on, s), c, n, user);
    assert v.databases.Keys == r.databases.Keys;
    forall d | d in v.databases ensures v.databases[d] == r.databases[d] {
      TenantStatementCommutesOnUserDatabase(w, c, m, n, user, on, s, d);
    }
  }

  lemma TenantStatementCommutesOnUserDatabase(w: World, c: Server, m: Names, n: Names, user: string, on: Session,
          s: Stmt, d: string)
    requires OfTenant(c, m, on, s) && Apply(w, on, s).Applied? && Apply(Unjoined(w, c, n, user), on, s).Applied?
    requires user != c.user && user != m.groupRole && m.database != c.database && n.database != c.database
    requires d in Apply(Unjoined(w, c, n, user), on, s).world.databases && d in Apply(w, on, s).world.databases
    ensures Apply(Unjoined(w, c, n, user), on, s).world.databases[d]
         == Outside(c, n, user, d, Apply(w, on, s).world.databases[d])
  {
    hide Mentions, Unreferenced, Unused, Disowned, Without;
    if s.CreateDatabase? {
      CreationCommutesWithUser(w, c, m, n, user, on, s, d);
    } else if Sets(s) {
      SettingsCommuteWithUser(w, c, m, n, user, on, s, d);
    } else if OnDatabases(s) {
      DroppingCommutesWithUser(w, c, m, n, user, on, s, d);
    } else {
      OtherStatementsKeepDatabases(w, c, m, on, s);
      OtherStatementsKeepDatabases(Unjoined(w, c, n, user), c, m, on, s);
    }
  }

  lemma CreationCommutesWithUser(w: World, c: Server, m: Names, n: Names, user: string, on: Session, s: Stmt, d: string)
    requires OfTenant(c, m, on, s) && Apply(w, on, s).Applied? && Apply(Unjoined(w, c, n, user), on, s).Applied?
    requires user != c.user && user != m.groupRole && m.database != c.database && n.database != c.database
    requires s.CreateDatabase?
    requires d in Apply(Unjoined(w, c, n, user), on, s).world.databases && d in Apply(w, on, s).world.databases
    ensures Apply(Unjoined(w, c, n, user), on, s).world.databases[d]
         == Outside(c, n, user, d, Apply(w, on, s).world.databases[d])
  {
    hide Mentions, Unreferenced, Unused, Without;
    DisownedFresh(user);
  }

  /** What another role is granted, or a database is set to, does not go with a user. */
  lemma GrantsOutliveUser(d: Database, u: string, r: string)
    requires r != u
    ensures var x := Disowned(d, u);
      && Disowned(d.(connect := d.connect + {r}), u) == x.(connect := x.connect + {r})
      && Disowned(d.(usage := d.usage + {r}), u) == x.(usage := x.usage + {r})
      && Disowned(d.(create := d.create + {r}), u) == x.(create := x.create + {r})
  {
    assert d.connect - {u} + {r} == d.connect + {r} - {u};
    assert d.usage - {u} + {r} == d.usage + {r} - {u};
    assert d.create - {u} + {r} == d.create + {r} - {u};
  }

  lemma SettingsOutliveUser(d: Database, u: string, limit: int)
    ensures var x := Disowned(d, u);
      && Disowned(d.(publicConnect := false), u) == x.(publicConnect := false)
      && Disowned(d.(privateObjects := true), u) == x.(privateObjects := true)
      && Disowned(d.(limit := limit), u) == x.(limit := limit)
  {
  }

  lemma ChangedOutlivesUser(d: Database, u: string, s: Stmt)
    requires Sets(s) && (s.GrantConnect? || s.GrantPublicSchema? || s.GrantCreate? ==> s.grantee != u)
    ensures Disowned(Changed(d, s), u) == Changed(Disowned(d, u), s)
  {
    hide Disowned;
    if s.GrantConnect? || s.GrantPublicSchema? || s.GrantCreate? {
      GrantsOutliveUser(d, u, s.grantee);
    } else {
      SettingsOutliveUser(d, u, if s.AlterLimit? then s.limit else 0);
    }
  }

  lemma SettingsCommuteWithUser(w: World, c: Server, m: Names, n: Names, user: string, on: Session, s: Stmt, d: string)
    requires OfTenant(c, m, on, s) && Apply(w, on, s).Applied? && Apply(Unjoined(w, c, n, user), on, s).Applied?
    requires Sets(s)
    requires user != c.user && user != m.groupRole && m.database != c.database && n.database != c.database
    requires d in Apply(Unjoined(w, c, n, user), on, s).world.databases && d in Apply(w, on, s).world.databases
    ensures Apply(Unjoined(w, c, n, user), on, s).world.databases[d]
         == Outside(c, n, user, d, Apply(w, on, s).world.databases[d])
  {
    hide Apply, OfTenant, Without, Changed, Disowned, Schemaless;
    TenantSetsItsOwn(c, m, on, s);
    SettingEffect(w, on, s);
    SettingEffect(Unjoined(w, c, n, user), on, s);
    ChangedOutlivesUser(w.databases[m.database], user, s);
  }

  lemma DroppingCommutesWithUser(w: World, c: Server, m: Names, n: Names, user: string, on: Session, s: Stmt, d: string)
    requires OfTenant(c, m, on, s) && Apply(w, on, s).Applied? && Apply(Unjoined(w, c, n, user), on, s).Applied?
    requires s.TerminateDatabase? || s.DropDatabase?
    requires d in Apply(Unjoined(w, c, n, user), on, s).world.databases && d in Apply(w, on, s).world.databases
    ensures Apply(Unjoined(w, c, n, user), on, s).world.databases[d]
         == Outside(c, n, user, d, Apply(w, on, s).world.databases[d])
  {
    hide Mentions, Unreferenced, Unused, Without, Disowned, Schemaless, HasOneOf, Has, MayFill, Outside;
  }

  lemma DisownedFresh(user: string)
    ensures forall o, e, x, t, k | o != user ::
      Disowned(Database(o, t, e, x, k, true, {}, {}, {}, false, {}, map[], map[]), user)
           == Database(o, t, e, x, k, true, {}, {}, {}, false, {}, map[], map[])
  {
  }

  lemma TenantStatementCommutesOnUserRoles(w: World, c: Server, m: Names, n: Names, user: string, on: Session, s: Stmt)
    requires OfTenant(c, m, on, s) && Apply(w, on, s).Applied? && Apply(Unjoined(w, c, n, user), on, s).Applied?
    requires user != c.user && user != m.groupRole
    ensures var v, r := Apply(Unjoined(w, c, n, user), on, s).world, Unjoined(Apply(w, on, s).world, c, n, user);
      v.roles == r.roles && v.tablespaces == r.tablespaces
  {
    hide Mentions, Unreferenced, Unused, Disowned, Without;
    if OnDatabases(s) {
      DatabaseStatementsKeepRest(w, on, s);
      DatabaseStatementsKeepRest(Unjoined(w, c, n, user), on, s);
    } else {
      RoleStatementsCommuteWithUser(w, c, m, n, user, on, s);
    }
  }

  lemma RoleStatementsCommuteWithUser(w: World, c: Server, m: Names, n: Names, user: string, on: Session, s: Stmt)
    requires OfTenant(c, m, on, s) && Apply(w, on, s).Applied? && Apply(Unjoined(w, c, n, user), on, s).Applied?
    requires user != c.user && user != m.groupRole && !OnDatabases(s)
    ensures var v, r := Apply(Unjoined(w, c, n, user), on, s).world, Unjoined(Apply(w, on, s).world, c, n, user);
      v.roles == r.roles && v.tablespaces == r.tablespaces
  {
    hide Mentions, Unreferenced, Unused, Disowned, Without;
  }

  lemma TenantStatementCommutesOnUserMembers(w: World, c: Server, m: Names, n: Names, user: string, on: Session,
          s: Stmt)
    requires OfTenant(c, m, on, s) && Apply(w, on, s).Applied? && Apply(Unjoined(w, c, n, user), on, s).Applied?
    requires user != c.user && user != m.groupRole
    ensures Apply(Unjoined(w, c, n, user), on, s).world.members == Without(Apply(w, on, s).world.members, user)
  {
    hide Mentions, Unreferenced, Unused, Disowned, Schemaless, HasOneOf, Has, MayFill;
  }

  lemma TenantStatementKeepsUser(w: World, c: Server, m: Names, n: Names, user: string, on: Session, s: Stmt)
    requires OfTenant(c, m, on, s) && Apply(w, on, s).Applied?
    requires user != c.user && user != m.groupRole && m.groupRole != c.user && m.database != c.database
    requires Apart(m, n) || (m == n && !Drops(s))
    ensures var w' := Apply(w, on, s).world;
      && (user in w.roles ==> user in w'.roles) && (c.user in w.roles ==> c.user in w'.roles)
      && (c.database in w.databases ==> c.database in w'.databases)
      && (n.database in w.databases ==> n.database in w'.databases)
      && ((n.groupRole, user) in w.members ==> (n.groupRole, user) in w'.members)
      && forall p | p in w'.members :: p in w.members || p == (m.groupRole, c.user)
  {
    hide Mentions, Unreferenced, Unused, HasOneOf, Has, MayFill, Disowned, Schemaless;
  }

  /** A tenant's statement spares the users of other tenants, and its own users unless it drops something. */
  lemma TenantStatementSparesUser(w: World, c: Server, m: Names, n: Names, user: string, on: Session, s: Stmt)
    requires OfTenant(c, m, on, s) && Apply(w, on, s).Applied? && OwnsDatabase(w, m)
    requires user != m.groupRole && m.groupRole != c.user && m.database != c.database
    requires (Apart(m, n) || (m == n && !Drops(s))) && UserSafe(w, c, n, user)
    ensures UserSafe(Apply(w, on, s).world, c, n, user)
  {
    TenantStatementStaysAllowedWithout(w, c, m, n, user, on, s);
    TenantStatementCommutesWithUser(w, c, m, n, user, on, s);
    StatementKeepsConsistent(Unjoined(w, c, n, user), on, s);
    StatementKeepsConsistent(w, on, s);
    TenantStatementKeepsUser(w, c, m, n, user, on, s);
  }

  lemma UserStatementStaysAllowedWithout(w: World, c: Server, m: Names, other: string, n: Names, user: string,
          on: Session, s: Stmt)
    requires OfUser(c, m, other, on, s) && Apply(w, on, s).Applied? && other != user && user != m.groupRole
    ensures Apply(Unjoined(w, c, n, user), on, s).Applied?
  {
    hide Mentions, Disowned, Schemaless, Without, Unjoined, Outside, Unreferenced, Unused, Effect, HasOneOf, Has,
        MayFill;
    TrimmedRefersLess(w, c, n, user);
    TrimmedCatalog(w, c, n, user);
  }

  lemma UserStatementCommutesOnDatabase(w: World, c: Server, m: Names, other: string, n: Names, user: string,
          on: Session, s: Stmt, d: string)
    requires OfUser(c, m, other, on, s) && Apply(w, on, s).Applied? && Apply(Unjoined(w, c, n, user), on, s).Applied?
    requires other != user && user != m.groupRole && m.database != c.database && n.database != c.database
    requires d in w.databases
    ensures Apply(Unjoined(w, c, n, user), on, s).world.databases[d]
         == Outside(c, n, user, d, Apply(w, on, s).world.databases[d])
  {
    hide Mentions, Unreferenced, Unused, Without, Disowned, Schemaless, HasOneOf, Has, MayFill;
    var x := w.databases[d];
    if s.DropOwned? {
      DisownedCommutes(x, other, user);
    } else if s.CreateUser? {
      NewSchemaCommutes(x, other, user);
    } else if s.DropSchema? {
      SchemalessCommutes(x, other, user);
    } else if s.AlterDefaults? {
      NewDefaultCommutes(x, Default(other, m.groupRole, s.kind), user);
    }
  }

  lemma UserStatementCommutesOnRoles(w: World, c: Server, m: Names, other: string, n: Names, user: string,
          on: Session, s: Stmt)
    requires OfUser(c, m, other, on, s) && Apply(w, on, s).Applied? && Apply(Unjoined(w, c, n, user), on, s).Applied?
    requires other != user && user != m.groupRole
    ensures var v, r := Apply(Unjoined(w, c, n, user), on, s).world, Unjoined(Apply(w, on, s).world, c, n, user);
      && v.roles == r.roles && v.tablespaces == r.tablespaces && v.databases.Keys == r.databases.Keys
  {
    hide Mentions, Unreferenced, Unused, Disowned, Schemaless, Without, HasOneOf, Has, MayFill;
  }

  lemma UserStatementCommutesOnMembers(w: World, c: Server, m: Names, other: string, n: Names, user: string,
          on: Session, s: Stmt)
    requires OfUser(c, m, other, on, s) && Apply(w, on, s).Applied? && Apply(Unjoined(w, c, n, user), on, s).Applied?
    requires other != user && user != m.groupRole
    ensures Apply(Unjoined(w, c, n, user), on, s).world.members == Without(Apply(w, on, s).world.members, user)
  {
    hide Mentions, Unreferenced, Unused, Disowned, Schemaless, HasOneOf, Has, MayFill;
  }

  lemma UserStatementCommutesWithUser(w: World, c: Server, m: Names, other: string, n: Names, user: string,
          on: Session, s: Stmt)
    requires OfUser(c, m, other, on, s) && Apply(w, on, s).Applied? && Apply(Unjoined(w, c, n, user), on, s).Applied?
    requires other != user && user != m.groupRole && m.database != c.database && n.database != c.database
    ensures Apply(Unjoined(w, c, n, user), on, s).world == Unjoined(Apply(w, on, s).world, c, n, user)
  {
    var v, r := Apply(Unjoined(w, c, n, user), on, s).world, Unjoined(Apply(w, on, s).world, c, n, user);
    UserStatementCommutesOnRoles(w, c, m, other, n, user, on, s);
    UserStatementCommutesOnMembers(w, c, m, other, n, user, on, s);
    UserStatementKeepsRoles(w, c, m, other, on, s);
    forall d | d in w.databases ensures v.databases[d] == r.databases[d] {
      UserStatementCommutesOnDatabase(w, c, m, other, n, user, on, s, d);
    }
    assert v.databases == r.databases;
  }

  lemma UserStatementKeepsUser(w: World, c: Server, m: Names, other: string, n: Names, user: string, on: Session,
          s: Stmt)
    requires OfUser(c, m, other, on, s) && Apply(w, on, s).Applied? && other != user && other != n.groupRole
    requires other != c.user
    ensures var w' := Apply(w, on, s).world;
      && (user in w.roles ==> user in w'.roles) && (c.user in w.roles ==> c.user in w'.roles)
      && w'.databases.Keys == w.databases.Keys
      && ((n.groupRole, user) in w.members ==> (n.groupRole, user) in w'.members)
      && forall p | p in w'.members :: p in w.members || p == (m.groupRole, other)
  {
  }

  /** A user's statement spares every other user. */
  lemma UserStatementSparesUser(w: World, c: Server, m: Names, other: string, n: Names, user: string, on: Session,
          s: Stmt)
    requires OfUser(c, m, other, on, s) && Apply(w, on, s).Applied? && m.database != c.database
    requires other != user && other != n.groupRole && other != c.user && user != m.groupRole && UserSafe(w, c, n, user)
    ensures UserSafe(Apply(w, on, s).world, c, n, user)
  {
    UserStatementStaysAllowedWithout(w, c, m, other, n, user, on, s);
    UserStatementCommutesWithUser(w, c, m, other, n, user, on, s);
    StatementKeepsConsistent(Unjoined(w, c, n, user), on, s);
    StatementKeepsConsistent(w, on, s);
    UserStatementKeepsUser(w, c, m, other, n, user, on, s);
  }

  lemma DisownedCommutes(d: Database, u: string, v: string)
    ensures Disowned(Disowned(d, u), v) == Disowned(Disowned(d, v), u)
  {
    hide Mentions;
    var x, y := Disowned(Disowned(d, u), v), Disowned(Disowned(d, v), u);
    assert x.connect == y.connect && x.create == y.create && x.usage == y.usage && x.defaults == y.defaults;
    assert x.objects == y.objects && x.schemas == y.schemas;
  }

  lemma NewDefaultCommutes(d: Database, p: Default, u: string)
    requires p.creator != u && p.grantee != u
    ensures var x := Disowned(d, u);
      Disowned(d.(defaults := d.defaults + {p}), u) == x.(defaults := x.defaults + {p})
  {
    assert Disowned(d.(defaults := d.defaults + {p}), u).defaults == Disowned(d, u).defaults + {p};
  }

  lemma NewSchemaCommutes(d: Database, n: string, u: string)
    requires n != u
    ensures var x := Schemaless(d, u);
      && Schemaless(d.(schemas := d.schemas[n := n]), u) == x.(schemas := x.schemas[n := n])
      && (n in d.schemas <==> n in x.schemas)
  {
    assert d.schemas[n := n] - {u} == (d.schemas - {u})[n := n];
  }

  lemma SchemalessCommutes(d: Database, u: string, v: string)
    ensures Schemaless(Schemaless(d, u), v) == Schemaless(Schemaless(d, v), u)
  {
    assert d.schemas - {u} - {v} == d.schemas - {v} - {u};
  }

  // ------------------------------------------------- whole operations

  /** An operation on one tenant spares every other tenant, wherever it is stopped. */
  lemma {:induction false} TenantOperationSparesTenant<R>(t: Tree<R>, s: State, faults: Faults, clock: nat,
          c: Server, m: Names, n: Names)
    requires SqlOnly(t, TenantStatements(c, m)) && OwnsDatabase(s.world, m)
    requires Apart(m, n) && m.database != c.database && m.groupRole != c.user && TenantSafe(s.world, c, n)
    ensures TenantSafe(Execute(t, s, faults, clock).state.world, c, n)
  {
    if t.Act? {
      var (s', answer) := Attempt(t.action, s, faults(clock));
      if t.action.Exec? && answer == Yes {
        assert OfTenant(c, m, t.action.on, t.action.stmt);
        TenantStatementSparesTenant(s.world, c, m, n, t.action.on, t.action.stmt);
        TenantStatementKeepsRest(s.world, c, m, t.action.on, t.action.stmt);
      }
      TenantOperationSparesTenant(Next(t, answer), s', faults, clock + 1, c, m, n);
    }
  }

  /** Statements on a tenant that is there already. */
  function LaterStatements(c: Server, n: Names): (Session, Stmt) -> bool
  {
    (on, s) => OfTenant(c, n, on, s) && !s.CreateDatabase?
  }

  function KeepingStatements(c: Server, n: Names): (Session, Stmt) -> bool
  {
    (on, s) => OfTenant(c, n, on, s) && !s.CreateDatabase? && !Drops(s)
  }

  /** ... and every user of another tenant. */
  lemma {:induction false} TenantOperationSparesUser<R>(t: Tree<R>, s: State, faults: Faults, clock: nat, c: Server,
          m: Names, n: Names, user: string)
    requires (Apart(m, n) && SqlOnly(t, TenantStatements(c, m))) || (m == n && SqlOnly(t, KeepingStatements(c, m)))
    requires OwnsDatabase(s.world, m)
    requires user != m.groupRole && m.groupRole != c.user && m.database != c.database && UserSafe(s.world, c, n, user)
    ensures UserSafe(Execute(t, s, faults, clock).state.world, c, n, user)
  {
    if t.Act? {
      var (s', answer) := Attempt(t.action, s, faults(clock));
      if t.action.Exec? && answer == Yes {
        assert OfTenant(c, m, t.action.on, t.action.stmt) && (m == n ==> !Drops(t.action.stmt));
        TenantStatementSparesUser(s.world, c, m, n, user, t.action.on, t.action.stmt);
        TenantStatementKeepsRest(s.world, c, m, t.action.on, t.action.stmt);
      }
      TenantOperationSparesUser(Next(t, answer), s', faults, clock + 1, c, m, n, user);
    }
  }

  /** An operation on one user spares every tenant, its own included. */
  lemma {:induction false} UserOperationSparesTenant<R>(t: Tree<R>, s: State, faults: Faults, clock: nat, c: Server,
          m: Names, user: string, n: Names)
    requires SqlOnly(t, UserStatements(c, m, user))
    requires (m == n || Apart(m, n)) && user != n.groupRole && user != c.user && TenantSafe(s.world, c, n)
    ensures TenantSafe(Execute(t, s, faults, clock).state.world, c, n)
  {
    if t.Act? {
      var (s', answer) := Attempt(t.action, s, faults(clock));
      if t.action.Exec? && answer == Yes {
        assert OfUser(c, m, user, t.action.on, t.action.stmt);
        UserStatementSparesTenant(s.world, c, m, user, n, t.action.on, t.action.stmt);
      }
      UserOperationSparesTenant(Next(t, answer), s', faults, clock + 1, c, m, user, n);
    }
  }

  /** ... and every other user. */
  lemma {:induction false} UserOperationSparesUser<R>(t: Tree<R>, s: State, faults: Faults, clock: nat, c: Server,
          m: Names, other: string, n: Names, user: string)
    requires SqlOnly(t, UserStatements(c, m, other)) && m.database != c.database
    requires other != user && other != n.groupRole && other != c.user && user != m.groupRole
    requires UserSafe(s.world, c, n, user)
    ensures UserSafe(Execute(t, s, faults, clock).state.world, c, n, user)
  {
    if t.Act? {
      var (s', answer) := Attempt(t.action, s, faults(clock));
      if t.action.Exec? && answer == Yes {
        assert OfUser(c, m, other, t.action.on, t.action.stmt);
        UserStatementSparesUser(s.world, c, m, other, n, user, t.action.on, t.action.stmt);
      }
      UserOperationSparesUser(Next(t, answer), s', faults, clock + 1, c, m, other, n, user);
    }
  }

  /** A tenant's group role never joins another role. */
  lemma {:induction false} GroupRoleNeverJoins<R>(t: Tree<R>, s: State, faults: Faults, clock: nat, c: Server, n: Names)
    requires SqlOnly(t, TenantStatements(c, n)) && n.groupRole != c.user
    requires forall p | p in s.world.members :: p.1 != n.groupRole
    ensures forall p | p in Execute(t, s, faults, clock).state.world.members :: p.1 != n.groupRole
  {
    if t.Act? {
      var (s', answer) := Attempt(t.action, s, faults(clock));
      if t.action.Exec? && answer == Yes {
        assert OfTenant(c, n, t.action.on, t.action.stmt);
        MembershipsAreOfTenant(s.world, c, n, t.action.on, t.action.stmt);
      }
      GroupRoleNeverJoins(Next(t, answer), s', faults, clock + 1, c, n);
    }
  }

  /** An operation on a tenant that is there already keeps its database isolated as long as it exists. */
  lemma {:induction false} LaterOperationKeepsClosed<R>(t: Tree<R>, s: State, faults: Faults, clock: nat, c: Server,
          n: Names)
    requires SqlOnly(t, LaterStatements(c, n)) && Closed(s.world, c, n)
    ensures Closed(Execute(t, s, faults, clock).state.world, c, n)
  {
    hide Closed;
    if t.Act? {
      var (s', answer) := Attempt(t.action, s, faults(clock));
      if t.action.Exec? && answer == Yes {
        OwnStatementKeepsClosed(s.world, c, n, t.action.on, t.action.stmt);
      }
      LaterOperationKeepsClosed(Next(t, answer), s', faults, clock + 1, c, n);
    }
  }

  lemma DeprovisionMakesNothing(c: Server, n: Names)
    ensures SqlOnly(Deprovision(c, n), LaterStatements(c, n))
  {
    var on, b := OnAdmin(c), DeprovisionAdmin(c, n);
    forall i | 0 <= i < |b| ensures OfTenant(c, n, on, b[i]) && !b[i].CreateDatabase? {
      assert b[i] in [b[0], b[1], b[2], b[3], b[4], b[5]];
    }
    AttemptingIsSqlOnly(on, b, Leaf(Done), Leaf(Broken), LaterStatements(c, n));
  }

  lemma MembershipsAreOfTenant(w: World, c: Server, n: Names, on: Session, s: Stmt)
    requires OfTenant(c, n, on, s) && Apply(w, on, s).Applied?
    ensures forall p | p in Apply(w, on, s).world.members :: p in w.members || p == (n.groupRole, c.user)
    ensures !Drops(s) && n.groupRole in w.roles ==> n.groupRole in Apply(w, on, s).world.roles
  {
  }

  /** An operation that drops nothing keeps its own tenant safe as well. */
  lemma {:induction false} KeepingOperationSparesItself<R>(t: Tree<R>, s: State, faults: Faults, clock: nat,
          c: Server, n: Names)
    requires SqlOnly(t, KeepingStatements(c, n)) && n.groupRole in s.world.roles
    ensures n.groupRole in Execute(t, s, faults, clock).state.world.roles
    ensures SqlOnly(t, TenantStatements(c, n)) && SqlOnly(t, LaterStatements(c, n))
  {
    if t.Act? {
      var (s', answer) := Attempt(t.action, s, faults(clock));
      if t.action.Exec? && answer == Yes {
        assert OfTenant(c, n, t.action.on, t.action.stmt) && !Drops(t.action.stmt);
        MembershipsAreOfTenant(s.world, c, n, t.action.on, t.action.stmt);
      }
      KeepingOperationSparesItself(Next(t, answer), s', faults, clock + 1, c, n);
      KeepingIsOfTenant(t, c, n);
    }
  }

  lemma {:induction false} KeepingIsOfTenant<R>(t: Tree<R>, c: Server, n: Names)
    requires SqlOnly(t, KeepingStatements(c, n))
    ensures SqlOnly(t, TenantStatements(c, n)) && SqlOnly(t, LaterStatements(c, n))
  {
    if t.Act? {
      KeepingIsOfTenant(t.yes, c, n);
      KeepingIsOfTenant(t.no, c, n);
      KeepingIsOfTenant(t.error, c, n);
    }
  }

  lemma UpdateDropsNothing(c: Server, n: Names, p: InstanceParams)
    ensures SqlOnly(Update(c, n, p), KeepingStatements(c, n))
  {
    var on, b := OnAdmin(c), UpdateAdmin(c, n, p);
    forall i | 0 <= i < |b| ensures OfTenant(c, n, on, b[i]) && !b[i].CreateDatabase? && !Drops(b[i]) {
      assert b[i] in [b[0], b[1], b[2], b[3]];
    }
    AttemptingIsSqlOnly(on, b, Leaf(Done), Leaf(Broken), KeepingStatements(c, n));
  }
}
