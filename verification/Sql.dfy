/** The part of the openGauss catalog that the broker changes, and the statements
    it changes it with. A statement has a precondition (`Allowed`) and an effect;
    the server rejects a statement whose precondition does not hold, and changes nothing. */
module Sql {

  datatype Role = Role(login: bool, password: string)

  datatype Tablespace = Tablespace(owner: string, location: string, maxGb: int)

  datatype Kind = Tables | Sequences

  /** ALTER DEFAULT PRIVILEGES FOR ROLE creator ... GRANT ... TO grantee. */
  datatype Default = Default(creator: string, grantee: string, kind: Kind)

  /** Every database has the schema `public`; others are made with CREATE USER or CREATE SCHEMA. */
  datatype Schema = Public | Named(name: string)

  datatype Place = Place(schema: Schema, table: string)

  /** `connect` and `create` are the grants on the database, `usage` the grants on its schema `public`;
      `objects` and `schemas` map what there is to its owner. */
  datatype Database = Database(
    owner: string, tablespace: string, encoding: string, compatibility: string, limit: int,
    publicConnect: bool, connect: set<string>, create: set<string>, usage: set<string>,
    privateObjects: bool, defaults: set<Default>, objects: map<Place, string>, schemas: map<string, string>)

  /** `members` holds pairs (group, member). */
  datatype World = World(
    roles: map<string, Role>, members: set<(string, string)>,
    databases: map<string, Database>, tablespaces: map<string, Tablespace>)

  datatype Session = Session(user: string, database: string)

  datatype Stmt =
    | CreateRole(role: string, password: string)
    | Grant(role: string, member: string)
    | Revoke(role: string, member: string)
    | CreateTablespace(name: string, owner: string, location: string, maxGb: int)
    | CreateDatabase(name: string, owner: string, encoding: string, compatibility: string, tablespace: string,
        limit: int)
    | RevokePublicConnect(name: string)
    | GrantConnect(name: string, grantee: string)
    | EnablePrivateObjects(name: string)
    | GrantPublicSchema(grantee: string)
    | GrantCreate(name: string, grantee: string)
    | TerminateDatabase(name: string)
    | DropDatabase(name: string)
    | DropTablespace(name: string)
    | DropRole(role: string)
    | AlterLimit(name: string, limit: int)
    | Resize(name: string, maxGb: int)
    | CreateUser(user: string, password: string)
    | AlterDefaults(user: string, kind: Kind, grantee: string)
    | TerminateUser(user: string)
    | DropOwned(user: string)
    | DropSchema(name: string)
    | DropUser(user: string)
    // not statements of the broker: bound applications at work
    | CreateObject(place: Place)
    | DropObject(place: Place)
    | CreateSchema(name: string)

  /** The roles a database refers to: as owner, grantee, creator or owner of something in it. */
  predicate Mentions(d: Database, r: string)
  {
    || d.owner == r || r in d.connect || r in d.create || r in d.usage
    || (exists p | p in d.defaults :: p.creator == r || p.grantee == r)
    || (exists o | o in d.objects :: d.objects[o] == r)
    || (exists o | o in d.schemas :: d.schemas[o] == r)
  }

  predicate Unreferenced(w: World, r: string)
  {
    && (forall d | d in w.databases :: !Mentions(w.databases[d], r))
    && (forall t | t in w.tablespaces :: w.tablespaces[t].owner != r)
  }

  predicate Unused(w: World, t: string)
  {
    forall d | d in w.databases :: w.databases[d].tablespace != t
  }

  /** A user has what is granted to it and to the roles it is a member of. */
  predicate Has(w: World, user: string, role: string)
  {
    role == user || (role, user) in w.members
  }

  predicate HasOneOf(w: World, user: string, roles: set<string>)
  {
    exists r | r in roles :: Has(w, user, r)
  }

  /** The server lets the user open a session: the CONNECT privilege, which an owner always has. */
  predicate Admitted(w: World, on: Session)
  {
    on.database in w.databases &&
    var d := w.databases[on.database];
    d.publicConnect || Has(w, on.user, d.owner) || HasOneOf(w, on.user, d.connect)
  }

  /** The user may make objects in the schema: its owner, or for `public` a grantee. */
  predicate MayFill(w: World, user: string, d: Database, schema: Schema)
  {
    match schema
    case Public => HasOneOf(w, user, d.usage)
    case Named(n) => n in d.schemas && Has(w, user, d.schemas[n])
  }

  predicate Allowed(w: World, on: Session, s: Stmt)
  {
    match s
    case CreateRole(r, _) => r !in w.roles
    case Grant(r, m) => r in w.roles && m in w.roles
    case Revoke(r, m) => r in w.roles && m in w.roles
    case CreateTablespace(t, o, _, _) => t !in w.tablespaces && o in w.roles && (o, on.user) in w.members
    case CreateDatabase(d, o, _, _, t, _) =>
      d !in w.databases && o in w.roles && (o, on.user) in w.members && t in w.tablespaces
    case RevokePublicConnect(d) => d in w.databases
    case GrantConnect(d, r) => d in w.databases && r in w.roles
    case EnablePrivateObjects(d) => d in w.databases
    case GrantPublicSchema(r) => on.database in w.databases && r in w.roles
    case GrantCreate(d, r) => d in w.databases && r in w.roles
    case TerminateDatabase(_) => true
    case DropDatabase(d) => d in w.databases ==> d != on.database && (w.databases[d].owner, on.user) in w.members
    case DropTablespace(t) => Unused(w, t)
    case DropRole(r) => Unreferenced(w, r)
    case AlterLimit(d, _) => d in w.databases && (w.databases[d].owner, on.user) in w.members
    case Resize(t, _) => t in w.tablespaces
    case CreateUser(u, _) => u !in w.roles && on.database in w.databases
    case AlterDefaults(u, _, r) => on.database in w.databases && u in w.roles && r in w.roles
    case TerminateUser(_) => true
    case DropOwned(u) => on.database in w.databases && u in w.roles
    case DropSchema(_) => on.database in w.databases
    case DropUser(u) => Unreferenced(w, u)
    case CreateObject(o) =>
      && on.database in w.databases && on.user in w.roles && o !in w.databases[on.database].objects
      && MayFill(w, on.user, w.databases[on.database], o.schema)
    case DropObject(o) =>
      && on.database in w.databases && o in w.databases[on.database].objects
      && Has(w, on.user, w.databases[on.database].objects[o])
    case CreateSchema(n) =>
      && on.database in w.databases && on.user in w.roles && n !in w.databases[on.database].schemas
      && (Has(w, on.user, w.databases[on.database].owner) || HasOneOf(w, on.user, w.databases[on.database].create))
  }

  predicate InSchemaOf(d: Database, o: Place, u: string)
  {
    o.schema.Named? && o.schema.name in d.schemas && d.schemas[o.schema.name] == u
  }

  /** A database without what DROP OWNED BY u CASCADE removes from it: schemas go with all they hold. */
  function Disowned(d: Database, u: string): Database
  {
    d.(connect := d.connect - {u}, create := d.create - {u}, usage := d.usage - {u},
       defaults := (set p | p in d.defaults && p.creator != u && p.grantee != u),
       objects := (map o | o in d.objects && d.objects[o] != u && !InSchemaOf(d, o, u) :: d.objects[o]),
       schemas := (map o | o in d.schemas && d.schemas[o] != u :: d.schemas[o]))
  }

  /** A database after DROP SCHEMA n CASCADE. */
  function Schemaless(d: Database, n: string): Database
  {
    d.(schemas := d.schemas - {n}, objects := (map o | o in d.objects && o.schema != Named(n) :: d.objects[o]))
  }

  function Without(members: set<(string, string)>, r: string): set<(string, string)>
  {
    set p | p in members && p.0 != r && p.1 != r
  }

  function SetDatabase(w: World, name: string, d: Database): World
  {
    w.(databases := w.databases[name := d])
  }

  function Forget(w: World, r: string): World
  {
    w.(roles := w.roles - {r}, members := Without(w.members, r))
  }

  function Effect(w: World, on: Session, s: Stmt): World
    requires Allowed(w, on, s)
  {
    match s
    case CreateRole(r, p) => w.(roles := w.roles[r := Role(false, p)])
    case Grant(r, m) => w.(members := w.members + {(r, m)})
    case Revoke(r, m) => w.(members := w.members - {(r, m)})
    case CreateTablespace(t, o, l, q) => w.(tablespaces := w.tablespaces[t := Tablespace(o, l, q)])
    case CreateDatabase(d, o, e, c, t, n) =>
      SetDatabase(w, d, Database(o, t, e, c, n, true, {}, {}, {}, false, {}, map[], map[]))
    case RevokePublicConnect(d) => SetDatabase(w, d, w.databases[d].(publicConnect := false))
    case GrantConnect(d, r) => SetDatabase(w, d, w.databases[d].(connect := w.databases[d].connect + {r}))
    case EnablePrivateObjects(d) => SetDatabase(w, d, w.databases[d].(privateObjects := true))
    case GrantPublicSchema(r) =>
      var d := w.databases[on.database];
      SetDatabase(w, on.database, d.(usage := d.usage + {r}))
    case GrantCreate(d, r) => SetDatabase(w, d, w.databases[d].(create := w.databases[d].create + {r}))
    case TerminateDatabase(_) => w
    case DropDatabase(d) => w.(databases := w.databases - {d})
    case DropTablespace(t) => w.(tablespaces := w.tablespaces - {t})
    case DropRole(r) => Forget(w, r)
    case AlterLimit(d, n) => SetDatabase(w, d, w.databases[d].(limit := n))
    case Resize(t, q) => w.(tablespaces := w.tablespaces[t := w.tablespaces[t].(maxGb := q)])
    case CreateUser(u, p) =>
      // A new user also gets a schema of its own name in the database it is created from.
      var d := w.databases[on.database];
      SetDatabase(w, on.database, if u in d.schemas then d else d.(schemas := d.schemas[u := u]))
      .(roles := w.roles[u := Role(true, p)])
    case AlterDefaults(u, k, r) =>
      var d := w.databases[on.database];
      SetDatabase(w, on.database, d.(defaults := d.defaults + {Default(u, r, k)}))
    case TerminateUser(_) => w
    case DropOwned(u) => SetDatabase(w, on.database, Disowned(w.databases[on.database], u))
    case DropSchema(n) => SetDatabase(w, on.database, Schemaless(w.databases[on.database], n))
    case DropUser(u) => Forget(w, u)
    case CreateObject(o) =>
      var d := w.databases[on.database];
      SetDatabase(w, on.database, d.(objects := d.objects[o := on.user]))
    case DropObject(o) =>
      var d := w.databases[on.database];
      SetDatabase(w, on.database, d.(objects := d.objects - {o}))
    case CreateSchema(n) =>
      var d := w.databases[on.database];
      SetDatabase(w, on.database, d.(schemas := d.schemas[n := on.user]))
  }

  datatype Result = Rejected | Applied(world: World)

  function Apply(w: World, on: Session, s: Stmt): Result
  {
    if on.database in w.databases && Allowed(w, on, s) then Applied(Effect(w, on, s)) else Rejected
  }

  /** Every object is in a schema that exists. */
  predicate Housed(d: Database)
  {
    forall o | o in d.objects && o.schema.Named? :: o.schema.name in d.schemas
  }

  /** Everything a database refers to exists. */
  ghost predicate Resolved(w: World, d: Database)
  {
    && d.tablespace in w.tablespaces && Housed(d)
    && forall r | Mentions(d, r) :: r in w.roles
  }

  /** The catalog has no dangling reference. */
  ghost predicate Consistent(w: World)
  {
    && (forall p | p in w.members :: p.0 in w.roles && p.1 in w.roles)
    && (forall d | d in w.databases :: Resolved(w, w.databases[d]))
    && (forall t | t in w.tablespaces :: w.tablespaces[t].owner in w.roles)
  }

  /** What a database refers to after a statement, it referred to before, or the statement names it. */
  lemma NewMentions(w: World, on: Session, s: Stmt, d: string, r: string)
    requires Allowed(w, on, s) && d in Effect(w, on, s).databases && Mentions(Effect(w, on, s).databases[d], r)
    ensures (d in w.databases && Mentions(w.databases[d], r)) || r in Effect(w, on, s).roles
  {
    hide Without, HasOneOf, Has, MayFill, Housed, Unused;
  }

  lemma NewMembers(w: World, on: Session, s: Stmt)
    requires Consistent(w) && Allowed(w, on, s)
    ensures forall p | p in Effect(w, on, s).members :: p.0 in Effect(w, on, s).roles && p.1 in Effect(w, on, s).roles
  {
    hide Mentions, Unreferenced, Unused, HasOneOf, Has, MayFill, Disowned, Schemaless, Resolved;
  }

  lemma NewOwners(w: World, on: Session, s: Stmt)
    requires Consistent(w) && Allowed(w, on, s)
    ensures var w' := Effect(w, on, s);
      forall t | t in w'.tablespaces :: w'.tablespaces[t].owner in w'.roles
  {
    hide Mentions, Without, HasOneOf, Has, MayFill, Resolved, Unused, Disowned, Schemaless;
  }

  lemma NewStorage(w: World, on: Session, s: Stmt)
    requires Consistent(w) && Allowed(w, on, s)
    ensures var w' := Effect(w, on, s);
      forall d | d in w'.databases :: w'.databases[d].tablespace in w'.tablespaces
  {
    hide Mentions, Without, HasOneOf, Has, MayFill, Housed, Unreferenced;
  }

  lemma DroppingKeepsHoused(d: Database, n: string)
    requires Housed(d)
    ensures Housed(Disowned(d, n)) && Housed(Schemaless(d, n))
  {
  }

  /** Where no schema is dropped, an object that is new is in a schema that is there. */
  lemma NewObjectsAreHoused(w: World, on: Session, s: Stmt, d: string)
    requires Allowed(w, on, s) && !s.DropOwned? && !s.DropSchema? && d in Effect(w, on, s).databases
    ensures var d' := Effect(w, on, s).databases[d];
      if d in w.databases then
        && w.databases[d].schemas.Keys <= d'.schemas.Keys
        && forall o | o in d'.objects && o !in w.databases[d].objects && o.schema.Named? ::
              o.schema.name in w.databases[d].schemas
      else d'.objects == map[]
  {
    hide Mentions, Unreferenced, Unused, Without, HasOneOf, Has, Disowned, Schemaless;
  }

  /** A schema that goes takes its objects along. */
  lemma StaysHoused(w: World, on: Session, s: Stmt, d: string)
    requires Allowed(w, on, s) && d in Effect(w, on, s).databases
    requires forall x | x in w.databases :: Housed(w.databases[x])
    ensures Housed(Effect(w, on, s).databases[d])
  {
    if s.DropOwned? || s.DropSchema? {
      hide Mentions, Unreferenced, Unused, Without, HasOneOf, Has, Disowned, Schemaless;
      DroppingKeepsHoused(w.databases[d], if s.DropOwned? then s.user else s.name);
    } else {
      hide Effect, Allowed;
      NewObjectsAreHoused(w, on, s, d);
    }
  }

  /** No statement the server accepts leaves a dangling reference behind. */
  lemma StatementKeepsConsistent(w: World, on: Session, s: Stmt)
    requires Consistent(w) && Apply(w, on, s).Applied?
    ensures Consistent(Apply(w, on, s).world)
  {
    var w' := Effect(w, on, s);
    forall d, r | d in w'.databases && Mentions(w'.databases[d], r) ensures r in w'.roles {
      NewMentions(w, on, s, d, r);
    }
    NewMembers(w, on, s);
    NewOwners(w, on, s);
    NewStorage(w, on, s);
    forall d | d in w'.databases ensures Housed(w'.databases[d]) {
      StaysHoused(w, on, s, d);
    }
  }
}
