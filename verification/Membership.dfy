/** What binding and unbinding a user achieve, statement by statement. */
module Membership {
  import opened Names
  import opened Sql
  import opened State
  import opened Tenancy
  import opened Lifecycle

  /** Nothing stands in the way of removing the user. */
  ghost predicate Leavable(w: World, c: Server, n: Names, user: string)
  {
    && Consistent(w) && UserContained(w, c, n, user)
    && user in w.roles && n.database in w.databases && c.database in w.databases
  }

  lemma DropOwnedApplies(w: World, on: Session, user: string)
    requires user in w.roles && on.database in w.databases
    ensures Apply(w, on, TerminateUser(user)) == Applied(w)
    ensures Apply(w, on, DropOwned(user)) ==
      Applied(SetDatabase(w, on.database, Disowned(w.databases[on.database], user)))
  {
    hide Disowned, Mentions;
  }

  lemma UnbindTenantAccepted(w: World, c: Server, n: Names, user: string)
    requires user in w.roles && n.database in w.databases
    ensures Leads(w, OnTenant(c, n), UnbindTenant(user),
      SetDatabase(w, n.database, Disowned(w.databases[n.database], user)))
  {
    hide Apply, Disowned;
    var on, b := OnTenant(c, n), UnbindTenant(user);
    var w1 := SetDatabase(w, n.database, Disowned(w.databases[n.database], user));
    DropOwnedApplies(w, on, user);
    LeadsStep(w, on, b[1], w1, [], w1);
    LeadsStep(w, on, b[0], w, [b[1]], w1);
    assert b == [b[0]] + [b[1]];
  }

  lemma UnbindAdminAccepted(w: World, w2: World, c: Server, user: string)
    requires c.database in w.databases && Unreferenced(w2, user)
    requires w2.tablespaces == w.tablespaces && w2.roles == w.roles - {user} && w2.members == Without(w.members, user)
    requires w2.databases == w.databases[c.database := Schemaless(w.databases[c.database], user)]
    ensures Leads(w, OnAdmin(c), UnbindAdmin(user), w2)
  {
    var on, b := OnAdmin(c), UnbindAdmin(user);
    var w1 := w.(databases := w2.databases);
    assert Apply(w1, on, b[1]) == Applied(w2);
    LeadsStep(w1, on, b[1], w2, [], w2);
    LeadsStep(w, on, b[0], w1, [b[1]], w2);
    assert b == [b[0]] + [b[1]];
  }

  lemma UnbindAccepted(w: World, c: Server, n: Names, user: string)
    requires Leavable(w, c, n, user)
    ensures var w1 := SetDatabase(w, n.database, Disowned(w.databases[n.database], user));
      && Leads(w, OnTenant(c, n), UnbindTenant(user), w1)
      && Leads(w1, OnAdmin(c), UnbindAdmin(user), Unjoined(w, c, n, user))
  {
    var w1 := SetDatabase(w, n.database, Disowned(w.databases[n.database], user));
    UnbindTenantAccepted(w, c, n, user);
    UnjoinedDatabases(w, c, n, user);
    UnjoinedIsUnreferenced(w, c, n, user);
    UnbindAdminAccepted(w1, Unjoined(w, c, n, user), c, user);
  }

  /** Why an unbind goes to both databases before it drops the user: the server refuses to drop a user with default
      privileges, tables or schemas left in either. */
  lemma UserGoesLast(w: World, on: Session, database: string, user: string)
    requires database in w.databases
    requires var d := w.databases[database];
      || (exists p | p in d.defaults :: p.creator == user)
      || (exists o | o in d.objects :: d.objects[o] == user) || (exists x | x in d.schemas :: d.schemas[x] == user)
    ensures Apply(w, on, DropUser(user)) == Rejected
  {
    assert Mentions(w.databases[database], user);
  }

  lemma UnjoinedDatabases(w: World, c: Server, n: Names, user: string)
    requires n.database in w.databases && c.database in w.databases && n.database != c.database
    ensures var dbs := w.databases[n.database := Disowned(w.databases[n.database], user)];
      Unjoined(w, c, n, user).databases == dbs[c.database := Schemaless(dbs[c.database], user)]
  {
  }

  lemma UnjoinedIsUnreferenced(w: World, c: Server, n: Names, user: string)
    requires Consistent(Unjoined(w, c, n, user))
    ensures Unreferenced(Unjoined(w, c, n, user), user)
  {
  }

  lemma SameDatabases(w: World, w': World, c: Server, n: Names, user: string)
    requires Unjoined(w', c, n, user) == Unjoined(w, c, n, user)
    ensures w'.databases.Keys == w.databases.Keys
  {
    assert Unjoined(w, c, n, user).databases.Keys == w.databases.Keys;
    assert Unjoined(w', c, n, user).databases.Keys == w'.databases.Keys;
  }

  lemma UnbindExecutes(s: State, c: Server, n: Names, user: string, faults: Faults, clock: nat)
    ensures var b := Execute(Batch(OnTenant(c, n), UnbindTenant(user)), s, faults, clock);
      var b' := Execute(Batch(OnAdmin(c), UnbindAdmin(user)), b.state, faults, b.clock);
      Execute(Unbind(c, n, user), s, faults, clock) ==
      if !b.result then Outcome(b.state, Broken, b.clock)
      else Outcome(b'.state, if b'.result then Done else Broken, b'.clock)
  {
    var b := Execute(Batch(OnTenant(c, n), UnbindTenant(user)), s, faults, clock);
    var rest := Attempting(OnAdmin(c), UnbindAdmin(user), Leaf(Done), Leaf(Broken));
    AttemptingExecutes(OnTenant(c, n), UnbindTenant(user), rest, Leaf(Broken), s, faults, clock);
    AttemptingExecutes(OnAdmin(c), UnbindAdmin(user), Leaf(Done), Leaf(Broken), b.state, faults, b.clock);
  }

  /** An unbind none of whose six steps is made to fail removes every trace of the user; one that stopped short can be
      repeated, and its repetition ends in the same catalog. */
  lemma UnbindCanBeRepeated(s: State, c: Server, n: Names, user: string, faults: Faults, clock: nat)
    requires Leavable(s.world, c, n, user)
    ensures var o := Execute(Unbind(c, n, user), s, faults, clock);
      && o.clock >= clock && o.state == s.(world := o.state.world)
      && (Quiet(faults, clock) ==> o.result == Done)
      && (o.result == Done <==> !Interrupted(faults, clock, 6))
      && (o.result == Done ==> o.state.world == Unjoined(s.world, c, n, user) && o.clock == clock + 6)
      && Unjoined(o.state.world, c, n, user) == Unjoined(s.world, c, n, user)
      && (o.result != Done ==> o.result == Broken && Leavable(o.state.world, c, n, user))
  {
    var w1 := SetDatabase(s.world, n.database, Disowned(s.world.databases[n.database], user));
    var w2 := Unjoined(s.world, c, n, user);
    var b := Execute(Batch(OnTenant(c, n), UnbindTenant(user)), s, faults, clock);
    UnbindAccepted(s.world, c, n, user);
    UnbindExecutes(s, c, n, user, faults, clock);
    InterruptedInParts(faults, clock, 3, 3);
    AcceptedBatch(OnTenant(c, n), UnbindTenant(user), s, w1, faults, clock);
    if b.result {
      AcceptedBatch(OnAdmin(c), UnbindAdmin(user), b.state, w2, faults, b.clock);
    }
    StoppedUnbind(s, c, n, user, faults, clock);
  }

  lemma StoppedUnbind(s: State, c: Server, n: Names, user: string, faults: Faults, clock: nat)
    requires Leavable(s.world, c, n, user)
    ensures var o := Execute(Unbind(c, n, user), s, faults, clock);
      && o.clock >= clock && o.state == s.(world := o.state.world)
      && Unjoined(o.state.world, c, n, user) == Unjoined(s.world, c, n, user)
      && (o.result != Done ==> Leavable(o.state.world, c, n, user))
  {
    var o := Execute(Unbind(c, n, user), s, faults, clock);
    UserOperationsStayInside(c, n, user, "");
    UserFrame(Unbind(c, n, user), s, faults, clock, c, n, user);
    SameDatabases(s.world, o.state.world, c, n, user);
    UserOutlivesUnbind(s, c, n, user, faults, clock);
  }

  lemma UserOutlivesUnbind(s: State, c: Server, n: Names, user: string, faults: Faults, clock: nat)
    requires user in s.world.roles
    ensures var o := Execute(Unbind(c, n, user), s, faults, clock);
      o.result != Done ==> user in o.state.world.roles && o.state.world.roles[user] == s.world.roles[user]
  {
    hide Apply;
    var b := Execute(Batch(OnTenant(c, n), UnbindTenant(user)), s, faults, clock);
    UnbindExecutes(s, c, n, user, faults, clock);
    RolesOnlyGrow(OnTenant(c, n), UnbindTenant(user), s, faults, clock + 1, user);
    if b.result {
      RoleOutlivesBatch(OnAdmin(c), UnbindAdmin(user), b.state, faults, b.clock + 1, user);
    }
  }

  // ------------------------------------------------- binding

  /** The catalog after CREATE USER and the group membership. */
  function Registered(w: World, c: Server, n: Names, user: string, password: string): World
    requires c.database in w.databases
  {
    var d := w.databases[c.database];
    World(w.roles[user := Role(true, password)], w.members + {(n.groupRole, user)},
          w.databases[c.database := if user in d.schemas then d else d.(schemas := d.schemas[user := user])],
          w.tablespaces)
  }

  /** ... and after the default privileges in the tenant database. */
  function Joined(w: World, c: Server, n: Names, user: string, password: string): World
    requires c.database in w.databases && n.database in w.databases && n.database != c.database
  {
    var w1, d := Registered(w, c, n, user, password), w.databases[n.database];
    SetDatabase(w1, n.database, d.(defaults :=
      d.defaults + {Default(user, n.groupRole, Tables)} + {Default(user, n.groupRole, Sequences)}))
  }

  lemma BindAdminAccepted(w: World, c: Server, n: Names, user: string, password: string)
    requires c.database in w.databases && n.groupRole in w.roles && user !in w.roles
    ensures Leads(w, OnAdmin(c), BindAdmin(n, user, password), Registered(w, c, n, user, password))
  {
    var on, b := OnAdmin(c), BindAdmin(n, user, password);
    var w2 := Registered(w, c, n, user, password);
    var w1 := w2.(members := w.members);
    LeadsStep(w1, on, b[1], w2, [], w2);
    LeadsStep(w, on, b[0], w1, [b[1]], w2);
    assert b == [b[0]] + [b[1]];
  }

  lemma BindTenantAccepted(w: World, c: Server, n: Names, user: string, password: string)
    requires c.database in w.databases && n.database in w.databases && n.database != c.database
    requires n.groupRole in w.roles
    ensures Leads(Registered(w, c, n, user, password), OnTenant(c, n), BindTenant(n, user),
        Joined(w, c, n, user, password))
  {
    hide Mentions, Unreferenced, Unused, HasOneOf, Has, MayFill, Disowned, Schemaless, Without;
    var on, b := OnTenant(c, n), BindTenant(n, user);
    var w0, d := Registered(w, c, n, user, password), w.databases[n.database];
    var w1 := SetDatabase(w0, n.database, d.(defaults := d.defaults + {Default(user, n.groupRole, Tables)}));
    var w2 := Joined(w, c, n, user, password);
    LeadsStep(w1, on, b[1], w2, [], w2);
    LeadsStep(w0, on, b[0], w1, [b[1]], w2);
    assert b == [b[0]] + [b[1]];
  }

  /** A user name that is free is mentioned nowhere; removing it again only touches a schema of its name. */
  lemma FreshUser(w: World, c: Server, n: Names, user: string)
    requires Consistent(w) && user !in w.roles && c.database in w.databases && n.database != c.database
    ensures Consistent(Unjoined(w, c, n, user))
    ensures Unjoined(w, c, n, user) == w <==> user !in w.databases[c.database].schemas
  {
    hide Schemaless, Disowned, Mentions, Without, Housed;
    var u := Unjoined(w, c, n, user);
    FreshUserDatabases(w, c, n, user);
    FreshUserMembers(w, user);
    DroppingKeepsHoused(w.databases[c.database], user);
    forall d, r | d in u.databases && Mentions(u.databases[d], r) ensures r in u.roles {
      assert Mentions(w.databases[d], r);
    }
    if user !in w.databases[c.database].schemas {
      assert u.databases == w.databases;
    } else {
      assert user !in u.databases[c.database].schemas;
    }
  }

  lemma FreshUserMembers(w: World, user: string)
    requires Consistent(w) && user !in w.roles
    ensures Without(w.members, user) == w.members && w.roles - {user} == w.roles
  {
  }

  lemma FreshUserDatabases(w: World, c: Server, n: Names, user: string)
    requires Consistent(w) && user !in w.roles && c.database in w.databases && n.database != c.database
    ensures var u, d := Unjoined(w, c, n, user), w.databases[c.database];
      && (forall x | x in w.databases && x != c.database :: u.databases[x] == w.databases[x])
      && u.databases[c.database] == Schemaless(d, user) && user !in Schemaless(d, user).schemas
      && (user !in d.schemas ==> Schemaless(d, user) == d) && Schemaless(d, user).tablespace == d.tablespace
      && forall r | Mentions(Schemaless(d, user), r) :: Mentions(d, r)
  {
    hide Schemaless, Disowned, Mentions;
    SchemalessMentionsLess(w.databases[c.database], user);
    forall x | x in w.databases && x != c.database ensures Outside(c, n, user, x, w.databases[x]) == w.databases[x] {
      UnmentionedStays(w.databases[x], user);
    }
  }

  lemma SchemalessMentionsLess(d: Database, n: string)
    ensures forall r | Mentions(Schemaless(d, n), r) :: Mentions(d, r)
    ensures Housed(d) && n !in d.schemas ==> Schemaless(d, n) == d
    ensures n !in Schemaless(d, n).schemas && Schemaless(d, n).tablespace == d.tablespace
  {
    assert n !in d.schemas ==> d.schemas - {n} == d.schemas;
  }

  lemma UnmentionedStays(d: Database, user: string)
    requires !Mentions(d, user)
    ensures Disowned(d, user) == d
  {
  }

  /** What a bind relies on: the tenant's group role exists and the user name is free. */
  ghost predicate Joinable(w: World, c: Server, n: Names, user: string)
  {
    && Consistent(w) && c.user in w.roles && c.database in w.databases && n.database != c.database
    && n.groupRole in w.roles && user !in w.roles
  }

  /** A state that a bind of `user` from `s0` may have been stopped in once CREATE USER had run. */
  ghost predicate HalfJoined(s: State, s0: State, c: Server, n: Names, user: string)
  {
    && Consistent(s.world) && s == s0.(world := s.world) && user in s.world.roles
    && Unjoined(s.world, c, n, user) == Unjoined(s0.world, c, n, user)
  }

  /** The undo of a bind, run in peace, restores the catalog exactly when it can reach the tenant
      database and no schema of the user's name was there before. */
  lemma UndoBindRestores(s: State, s0: State, c: Server, n: Names, user: string, faults: Faults, clock: nat)
    requires Joinable(s0.world, c, n, user) && HalfJoined(s, s0, c, n, user)
    requires n.database in s0.world.databases ==> Quiet(faults, clock)
    ensures var o := Execute(Failing(Unbind(c, n, user)), s, faults, clock);
      && o.result == Broken
      && (o.state == s0 <==> n.database in s0.world.databases && user !in s0.world.databases[c.database].schemas)
  {
    hide Consistent, Unjoined;
    FailingExecutes(Unbind(c, n, user), s, faults, clock);
    FreshUser(s0.world, c, n, user);
    SameDatabases(s0.world, s.world, c, n, user);
    if n.database in s0.world.databases {
      UnbindCanBeRepeated(s, c, n, user, faults, clock);
    } else {
      UnbindExecutes(s, c, n, user, faults, clock);
    }
  }

  /** With no user to remove, the undo stops at its second statement or before and changes nothing. */
  lemma UndoBeforeUser(s: State, c: Server, n: Names, user: string, faults: Faults, clock: nat)
    requires user !in s.world.roles
    ensures var o := Execute(Failing(Unbind(c, n, user)), s, faults, clock);
      o.result == Broken && o.state == s
  {
    var on, b := OnTenant(c, n), UnbindTenant(user);
    FailingExecutes(Unbind(c, n, user), s, faults, clock);
    UnbindExecutes(s, c, n, user, faults, clock);
    assert Apply(s.world, on, b[1]) == Rejected;
    RejectedStatements(on, b[1..], s, faults, clock + 2);
    assert Attempt(Exec(on, b[0]), s, faults(clock + 1)).0 == s;
    assert Execute(Statements(on, b), s, faults, clock + 1).state == s
        && !Execute(Statements(on, b), s, faults, clock + 1).result;
  }

  lemma BatchHalfJoins(s: State, s0: State, c: Server, n: Names, user: string, on: Session, stmts: seq<Stmt>,
          faults: Faults, clock: nat)
    requires n.database != c.database && AllOf(on, stmts, UserStatements(c, n, user))
    requires HalfJoined(s, s0, c, n, user) && forall i | 0 <= i < |stmts| :: !DropsRole(stmts[i])
    ensures HalfJoined(Execute(Statements(on, stmts), s, faults, clock).state, s0, c, n, user)
  {
    BatchIsSqlOnly(on, stmts, UserStatements(c, n, user));
    UserFrame(Statements(on, stmts), s, faults, clock, c, n, user);
    RolesOnlyGrow(on, stmts, s, faults, clock, user);
  }

  /** CREATE USER is the second step of the admin-side batch: once it has run, the bind is half done. */
  lemma FirstBatchHalfJoins(s: State, c: Server, n: Names, user: string, password: string, faults: Faults, clock: nat)
    requires Joinable(s.world, c, n, user)
    ensures var b := Execute(Batch(OnAdmin(c), BindAdmin(n, user, password)), s, faults, clock);
      if faults(clock) || faults(clock + 1) then !b.result && b.state == s && b.clock <= clock + 2
      else HalfJoined(b.state, s, c, n, user)
  {
    hide Consistent, Unjoined;
    var on, b := OnAdmin(c), BindAdmin(n, user, password);
    if faults(clock) || faults(clock + 1) {
      assert faults(clock + 1) ==> Execute(Statements(on, b), s, faults, clock + 1) == Outcome(s, false, clock + 2);
    } else {
      var s' := s.(world := Apply(s.world, on, b[0]).world);
      assert OfUser(c, n, user, on, b[0]);
      StatementKeepsConsistent(s.world, on, b[0]);
      UserStatementKeepsRest(s.world, c, n, user, on, b[0]);
      BatchHalfJoins(s', s, c, n, user, on, b[1..], faults, clock + 2);
    }
  }

  lemma SecondBatchHalfJoins(s: State, s0: State, c: Server, n: Names, user: string, faults: Faults, clock: nat)
    requires HalfJoined(s, s0, c, n, user) && n.database != c.database
    ensures HalfJoined(Execute(Batch(OnTenant(c, n), BindTenant(n, user)), s, faults, clock).state, s0, c, n, user)
  {
    BatchHalfJoins(s, s0, c, n, user, OnTenant(c, n), BindTenant(n, user), faults, clock + 1);
  }

  /** A bind that fails for one fault, or for want of its tenant database, is undone exactly if and only if
      CREATE USER never ran, or the tenant database exists and no schema of the user's name was there. */
  lemma BindCompensation(s: State, c: Server, n: Names, user: string, password: string, faults: Faults, clock: nat,
          at: nat)
    requires Joinable(s.world, c, n, user) && OnlyFault(faults, at)
    ensures var o := Execute(Joining(c, n, user, password), s, faults, clock);
      && (o.result == Done ==>
            n.database in s.world.databases && o.state == s.(world := Joined(s.world, c, n, user, password)))
      && (o.result != Done ==> o.result == Broken && (n.database in s.world.databases ==> faults(at)))
      && (o.result != Done ==> (o.state == s <==>
           faults(clock) || faults(clock + 1)
           || (n.database in s.world.databases && user !in s.world.databases[c.database].schemas)))
  {
    hide Consistent, Unjoined, Registered, Joined;
    var undo := Failing(Unbind(c, n, user));
    var first, second := BindAdmin(n, user, password), BindTenant(n, user);
    var b := Execute(Batch(OnAdmin(c), first), s, faults, clock);
    AttemptingExecutes(OnAdmin(c), first, Attempting(OnTenant(c, n), second, Leaf(Done), undo), undo, s, faults, clock);
    BindAdminAccepted(s.world, c, n, user, password);
    AcceptedBatch(OnAdmin(c), first, s, Registered(s.world, c, n, user, password), faults, clock);
    FirstBatchHalfJoins(s, c, n, user, password, faults, clock);
    if !b.result {
      if faults(clock) || faults(clock + 1) {
        UndoBeforeUser(s, c, n, user, faults, b.clock);
      } else {
        UndoBindRestores(b.state, s, c, n, user, faults, b.clock);
      }
    } else {
      var b' := Execute(Batch(OnTenant(c, n), second), b.state, faults, b.clock);
      AttemptingExecutes(OnTenant(c, n), second, Leaf(Done), undo, b.state, faults, b.clock);
      SecondBatchHalfJoins(b.state, s, c, n, user, faults, b.clock);
      SameDatabases(s.world, b.state.world, c, n, user);
      if n.database in s.world.databases {
        BindTenantAccepted(s.world, c, n, user, password);
        AcceptedBatch(OnTenant(c, n), second, b.state, Joined(s.world, c, n, user, password), faults, b.clock);
      }
      if !b'.result {
        UndoBindRestores(b'.state, s, c, n, user, faults, b'.clock);
      }
    }
  }

  /** Whatever the environment does, a bind that reports success has made the whole user; and it does so exactly when
      the tenant's database exists and none of its six steps is made to fail. */
  lemma JoiningDone(s: State, c: Server, n: Names, user: string, password: string, faults: Faults, clock: nat)
    requires Joinable(s.world, c, n, user)
    ensures var o := Execute(Joining(c, n, user, password), s, faults, clock);
      && (o.result == Done ==>
            n.database in s.world.databases && o.state == s.(world := Joined(s.world, c, n, user, password))
                && o.clock == clock + 6)
      && (o.result == Done <==> n.database in s.world.databases && !Interrupted(faults, clock, 6))
    ensures Execute(Joining(c, n, user, password), s, faults, clock).result != Taken
  {
    var undo := Failing(Unbind(c, n, user));
    var first, second := BindAdmin(n, user, password), BindTenant(n, user);
    var b := Execute(Batch(OnAdmin(c), first), s, faults, clock);
    var b' := Execute(Batch(OnTenant(c, n), second), b.state, faults, b.clock);
    AttemptingExecutes(OnAdmin(c), first, Attempting(OnTenant(c, n), second, Leaf(Done), undo), undo, s, faults, clock);
    AttemptingExecutes(OnTenant(c, n), second, Leaf(Done), undo, b.state, faults, b.clock);
    FailingExecutes(Unbind(c, n, user), b.state, faults, b.clock);
    FailingExecutes(Unbind(c, n, user), b'.state, faults, b'.clock);
    BindAdminAccepted(s.world, c, n, user, password);
    AcceptedBatch(OnAdmin(c), first, s, Registered(s.world, c, n, user, password), faults, clock);
    InterruptedInParts(faults, clock, 3, 3);
    if b.result && n.database in s.world.databases {
      BindTenantAccepted(s.world, c, n, user, password);
      AcceptedBatch(OnTenant(c, n), second, b.state, Joined(s.world, c, n, user, password), faults, b.clock);
    }
  }

  lemma BindProbes(s: State, c: Server, n: Names, user: string, password: string, faults: Faults, clock: nat)
    ensures var o := Execute(Bind(c, n, user, password), s, faults, clock);
      || (o.state == s && o.result in {Taken, Broken})
      || (user !in s.world.roles && o == Execute(Joining(c, n, user, password), s, faults, clock + 1))
    ensures var o := Execute(Bind(c, n, user, password), s, faults, clock);
      faults(clock) ==> o.state == s && o.result == Broken
    ensures !faults(clock) && c.database in s.world.databases ==>
      Execute(Bind(c, n, user, password), s, faults, clock) ==
      if user in s.world.roles then Outcome(s, Taken, clock + 1)
          else Execute(Joining(c, n, user, password), s, faults, clock + 1)
  {
  }

  // ------------------------------------------------- memberships

  predicate Joins(s: Stmt) { s.Grant? || s.Revoke? || DropsRole(s) }

  lemma StatementKeepsMembers(w: World, on: Session, s: Stmt)
    requires !Joins(s) && Apply(w, on, s).Applied?
    ensures Apply(w, on, s).world.members == w.members
  {
    hide Mentions, Unreferenced, Unused;
  }

  lemma {:induction false} MembersOutliveBatch(on: Session, stmts: seq<Stmt>, s: State, faults: Faults, clock: nat)
    requires forall i | 0 <= i < |stmts| - 1 :: !Joins(stmts[i])
    ensures var o := Execute(Statements(on, stmts), s, faults, clock);
      (!o.result || stmts == [] || !Joins(stmts[|stmts| - 1])) ==> o.state.world.members == s.world.members
    decreases stmts
  {
    hide Apply;
    if stmts != [] {
      var (s', answer) := Attempt(Exec(on, stmts[0]), s, faults(clock));
      if answer == Yes && !Joins(stmts[0]) {
        StatementKeepsMembers(s.world, on, stmts[0]);
      }
      if answer == Yes && |stmts| > 1 {
        MembersOutliveBatch(on, stmts[1..], s', faults, clock + 1);
      } else if answer == Yes {
        assert stmts[1..] == [];
      }
    }
  }

  /** A stopped unbind has not touched a membership. */
  lemma StoppedUnbindKeepsMembers(s: State, c: Server, n: Names, user: string, faults: Faults, clock: nat)
    ensures var o := Execute(Unbind(c, n, user), s, faults, clock);
      o.result != Done ==> o.state.world.members == s.world.members
  {
    hide Apply;
    var b := Execute(Batch(OnTenant(c, n), UnbindTenant(user)), s, faults, clock);
    UnbindExecutes(s, c, n, user, faults, clock);
    MembersOutliveBatch(OnTenant(c, n), UnbindTenant(user), s, faults, clock + 1);
    if b.result {
      MembersOutliveBatch(OnAdmin(c), UnbindAdmin(user), b.state, faults, b.clock + 1);
    }
  }
}
