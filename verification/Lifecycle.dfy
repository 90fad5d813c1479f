/** What the batches achieve: they stay inside their tenant, every statement is accepted when it is
    reached, a failed creation is undone exactly, and a stopped removal can be finished later. */
module Lifecycle {
  import opened Names
  import opened Sql
  import opened State
  import opened Tenancy

  /** The admin session works on this catalog, and the tenant's names are not the admin's own. */
  ghost predicate Ready(w: World, c: Server, n: Names)
  {
    && Consistent(w) && c.user in w.roles && c.database in w.databases
    && n.database != c.database && n.groupRole != c.user
  }

  predicate Fresh(w: World, n: Names)
  {
    n.database !in w.databases && n.groupRole !in w.roles && n.tablespace !in w.tablespaces
  }

  /** Nothing outside the tenant refers to it, and its group role owns its database. */
  ghost predicate Contained(w: World, n: Names)
  {
    Consistent(Removed(w, n)) && OwnsDatabase(w, n)
  }

  lemma FreshLeavesNothing(w: World, n: Names)
    requires Consistent(w) && Fresh(w, n)
    ensures Removed(w, n) == w && Contained(w, n)
  {
    assert Without(w.members, n.groupRole) == w.members;
  }

  // ---------------------------------------------------------------- frames

  /** A tenant's operation changes nothing outside the tenant, whatever fails on the way. */
  lemma {:induction false} TenantFrame<R>(t: Tree<R>, s: State, faults: Faults, clock: nat, c: Server, n: Names)
    requires SqlOnly(t, TenantStatements(c, n)) && Consistent(s.world) && OwnsDatabase(s.world, n)
    ensures var o := Execute(t, s, faults, clock);
      && Removed(o.state.world, n) == Removed(s.world, n)
      && Consistent(o.state.world) && OwnsDatabase(o.state.world, n)
      && o.state == s.(world := o.state.world) && o.clock >= clock
  {
    if t.Act? {
      var (s', answer) := Attempt(t.action, s, faults(clock));
      if t.action.Exec? && answer == Yes {
        assert OfTenant(c, n, t.action.on, t.action.stmt);
        StatementKeepsConsistent(s.world, t.action.on, t.action.stmt);
        TenantStatementKeepsRest(s.world, c, n, t.action.on, t.action.stmt);
      }
      TenantFrame(Next(t, answer), s', faults, clock + 1, c, n);
    }
  }

  lemma StaysReady(w: World, w': World, c: Server, n: Names)
    requires Ready(w, c, n) && Consistent(w') && Removed(w', n) == Removed(w, n)
    ensures Ready(w', c, n)
  {
    assert c.user in Removed(w, n).roles && c.database in Removed(w, n).databases;
  }

  /** Nothing outside the user's tenant refers to the user. */
  ghost predicate UserContained(w: World, c: Server, n: Names, user: string)
  {
    && Consistent(Unjoined(w, c, n, user))
    && n.database != c.database && user != c.user && user != n.groupRole
  }

  /** A binding user's operation changes nothing but that user, whatever fails on the way. */
  lemma {:induction false} UserFrame<R>(t: Tree<R>, s: State, faults: Faults, clock: nat, c: Server, n: Names,
          user: string)
    requires SqlOnly(t, UserStatements(c, n, user)) && Consistent(s.world) && n.database != c.database
    ensures var o := Execute(t, s, faults, clock);
      && Unjoined(o.state.world, c, n, user) == Unjoined(s.world, c, n, user)
      && Consistent(o.state.world)
      && o.state == s.(world := o.state.world) && o.clock >= clock
  {
    if t.Act? {
      var (s', answer) := Attempt(t.action, s, faults(clock));
      if t.action.Exec? && answer == Yes {
        assert OfUser(c, n, user, t.action.on, t.action.stmt);
        StatementKeepsConsistent(s.world, t.action.on, t.action.stmt);
        UserStatementKeepsRest(s.world, c, n, user, t.action.on, t.action.stmt);
      }
      UserFrame(Next(t, answer), s', faults, clock + 1, c, n, user);
    }
  }

  // ------------------------------------------------- batches without faults

  /** The tenant database as CREATE DATABASE makes it, and once both provision batches are through. */
  function NewDatabase(n: Names, p: InstanceParams): Database
  {
    Database(n.groupRole, n.tablespace, p.encoding, p.compatibility, p.maxConnections, true, {}, {}, {}, false, {},
        map[], map[])
  }

  function TenantDatabase(c: Server, n: Names, p: InstanceParams): Database
  {
    Database(n.groupRole, n.tablespace, p.encoding, p.compatibility, p.maxConnections, false,
             {n.groupRole, c.user}, {n.groupRole}, {n.groupRole}, true, {}, map[], map[])
  }

  function Provisioned(w: World, c: Server, n: Names, p: InstanceParams, password: string): World
  {
    w.(roles := w.roles[n.groupRole := Role(false, password)],
       tablespaces := w.tablespaces[n.tablespace :=
         Tablespace(n.groupRole, c.location + "/" + n.tablespace, p.storageGb)],
       databases := w.databases[n.database := TenantDatabase(c, n, p)])
  }

  /** The tenant database before the tenant-side batch. */
  function IsolatedDatabase(c: Server, n: Names, p: InstanceParams): Database
  {
    TenantDatabase(c, n, p).(privateObjects := false, usage := {}, create := {})
  }

  /** The first four statements create role, tablespace and database under a temporary membership. */
  lemma CreationSteps(w: World, c: Server, n: Names, p: InstanceParams, password: string)
    requires c.user in w.roles && c.database in w.databases && n.groupRole != c.user && Fresh(w, n)
    ensures Leads(w, OnAdmin(c), ProvisionAdmin(c, n, p, password)[..4], Provisioned(w, c, n, p, password)
      .(members := w.members + {(n.groupRole, c.user)}, databases := w.databases[n.database := NewDatabase(n, p)]))
  {
    hide Mentions, Unreferenced, Unused;
    var on, b := OnAdmin(c), ProvisionAdmin(c, n, p, password);
    var done := Provisioned(w, c, n, p, password);
    var w1 := w.(roles := done.roles);
    var w2 := w1.(members := w.members + {(n.groupRole, c.user)});
    var w3 := w2.(tablespaces := done.tablespaces);
    var w4 := w3.(databases := w.databases[n.database := NewDatabase(n, p)]);
    LeadsStep(w3, on, b[3], w4, [], w4);
    LeadsStep(w2, on, b[2], w3, [b[3]], w4);
    LeadsStep(w1, on, b[1], w2, [b[2], b[3]], w4);
    LeadsStep(w, on, b[0], w1, [b[1], b[2], b[3]], w4);
    assert b[..4] == [b[0]] + [b[1], b[2], b[3]];
  }

  /** The last four isolate the database and end the membership. */
  lemma IsolationSteps(w: World, c: Server, n: Names, p: InstanceParams, password: string)
    requires c.user in w.roles && c.database in w.databases && n.groupRole in w.roles
    requires n.database in w.databases && w.databases[n.database] == NewDatabase(n, p)
    ensures Leads(w, OnAdmin(c), ProvisionAdmin(c, n, p, password)[4..],
      SetDatabase(w, n.database, IsolatedDatabase(c, n, p)).(members := w.members - {(n.groupRole, c.user)}))
  {
    hide Mentions, Unreferenced, Unused;
    var on, b := OnAdmin(c), ProvisionAdmin(c, n, p, password);
    var d := NewDatabase(n, p).(publicConnect := false);
    var w1 := SetDatabase(w, n.database, d);
    var w2 := SetDatabase(w, n.database, d.(connect := {n.groupRole}));
    var w3 := SetDatabase(w, n.database, IsolatedDatabase(c, n, p));
    var w4 := w3.(members := w.members - {(n.groupRole, c.user)});
    assert {} + {n.groupRole} == {n.groupRole} && {n.groupRole} + {c.user} == {n.groupRole, c.user};
    LeadsStep(w3, on, b[7], w4, [], w4);
    LeadsStep(w2, on, b[6], w3, [b[7]], w4);
    LeadsStep(w1, on, b[5], w2, [b[6], b[7]], w4);
    LeadsStep(w, on, b[4], w1, [b[5], b[6], b[7]], w4);
    assert b[4..] == [b[4]] + [b[5], b[6], b[7]];
  }

  /** On free names every statement of the two provision batches is accepted when it is reached. */
  lemma ProvisionAdminAccepted(w: World, c: Server, n: Names, p: InstanceParams, password: string)
    requires Ready(w, c, n) && Fresh(w, n)
    ensures Leads(w, OnAdmin(c), ProvisionAdmin(c, n, p, password),
      SetDatabase(Provisioned(w, c, n, p, password), n.database, IsolatedDatabase(c, n, p)))
  {
    hide Leads;
    var on, b := OnAdmin(c), ProvisionAdmin(c, n, p, password);
    var done := Provisioned(w, c, n, p, password);
    var w4 := done.(members := w.members + {(n.groupRole, c.user)},
                    databases := w.databases[n.database := NewDatabase(n, p)]);
    var w8 := SetDatabase(done, n.database, IsolatedDatabase(c, n, p));
    assert (n.groupRole, c.user) !in w.members;
    assert w4.members - {(n.groupRole, c.user)} == w.members;
    assert w4.databases[n.database := IsolatedDatabase(c, n, p)] == w8.databases;
    CreationSteps(w, c, n, p, password);
    IsolationSteps(w4, c, n, p, password);
    LeadsAppend(w, on, b[..4], w4, b[4..], w8);
    assert b[..4] + b[4..] == b;
  }

  lemma LeadsHead(w: World, on: Session, stmts: seq<Stmt>, w': World)
    requires Leads(w, on, stmts, w') && stmts != []
    ensures Apply(w, on, stmts[0]).Applied? && Leads(Apply(w, on, stmts[0]).world, on, stmts[1..], w')
  {
  }

  /** What the probes are for: the creating batch can run to its end exactly when none of the three names is listed. */
  lemma ProbesAreExact(w: World, c: Server, n: Names, p: InstanceParams, password: string)
    requires Ready(w, c, n)
    ensures (exists w' :: Leads(w, OnAdmin(c), ProvisionAdmin(c, n, p, password), w')) <==>
      !Listed(w, Databases, n.database) && !Listed(w, Roles, n.groupRole) && !Listed(w, Tablespaces, n.tablespace)
  {
    hide Leads, Consistent;
    var b := ProvisionAdmin(c, n, p, password);
    if Fresh(w, n) {
      ProvisionAdminAccepted(w, c, n, p, password);
    }
    forall w' | Leads(w, OnAdmin(c), b, w') ensures Fresh(w, n) {
      AcceptedBatchIsFresh(w, c, n, p, password, w');
    }
  }

  lemma AcceptedBatchIsFresh(w: World, c: Server, n: Names, p: InstanceParams, password: string, w': World)
    requires c.user in w.roles && Leads(w, OnAdmin(c), ProvisionAdmin(c, n, p, password), w')
    ensures Fresh(w, n)
  {
    hide Leads, Mentions, Unreferenced, Unused;
    var on, b := OnAdmin(c), ProvisionAdmin(c, n, p, password);
    LeadsHead(w, on, b, w');
    var w1 := w.(roles := w.roles[n.groupRole := Role(false, password)]);
    assert b[1..][0] == b[1] && b[1..][1..][0] == b[2] && b[1..][1..][1..][0] == b[3];
    LeadsHead(w1, on, b[1..], w');
    var w2 := w1.(members := w.members + {(n.groupRole, c.user)});
    LeadsHead(w2, on, b[1..][1..], w');
    var w3 := Apply(w2, on, b[2]).world;
    LeadsHead(w3, on, b[1..][1..][1..], w');
  }

  lemma ProvisionTenantAccepted(w: World, c: Server, n: Names, p: InstanceParams, password: string)
    ensures var w2 := Provisioned(w, c, n, p, password);
      Leads(SetDatabase(w2, n.database, IsolatedDatabase(c, n, p)), OnTenant(c, n), ProvisionTenant(n), w2)
  {
    hide Mentions, Unreferenced, Unused;
    var on, b := OnTenant(c, n), ProvisionTenant(n);
    var w3 := Provisioned(w, c, n, p, password);
    var d := TenantDatabase(c, n, p);
    var w0 := SetDatabase(w3, n.database, IsolatedDatabase(c, n, p));
    var w1 := SetDatabase(w3, n.database, d.(usage := {}, create := {}));
    var w2 := SetDatabase(w3, n.database, d.(create := {}));
    assert {} + {n.groupRole} == {n.groupRole};
    assert Apply(w2, on, b[2]) == Applied(w3);
    LeadsStep(w2, on, b[2], w3, [], w3);
    LeadsStep(w1, on, b[1], w2, [b[2]], w3);
    LeadsStep(w0, on, b[0], w1, [b[1], b[2]], w3);
    assert b == [b[0]] + [b[1], b[2]];
  }

  /** Nothing stands in the way of removing the tenant. */
  ghost predicate Removable(w: World, c: Server, n: Names)
  {
    Ready(w, c, n) && Contained(w, n) && n.groupRole in w.roles
  }

  lemma DeprovisionAccepted(w: World, c: Server, n: Names)
    requires Removable(w, c, n)
    ensures Leads(w, OnAdmin(c), DeprovisionAdmin(c, n), Removed(w, n))
  {
    var on, b := OnAdmin(c), DeprovisionAdmin(c, n);
    var r := Removed(w, n);
    var w3 := w.(members := w.members + {(n.groupRole, c.user)}, databases := r.databases);
    DropDatabaseSteps(w, c, n);
    assert Unreferenced(r, n.groupRole) && Unused(r, n.tablespace);
    DropRoleSteps(w3, r, c, n);
    LeadsAppend(w, on, b[..3], w3, b[3..], r);
    assert b[..3] + b[3..] == b;
  }

  lemma GrantApplies(w: World, on: Session, r: string, m: string)
    requires on.database in w.databases && r in w.roles && m in w.roles
    ensures Apply(w, on, Stmt.Grant(r, m)) == Applied(w.(members := w.members + {(r, m)}))
  {
  }

  lemma DropDatabaseApplies(w: World, on: Session, d: string)
    requires on.database in w.databases && d != on.database
    requires d in w.databases ==> (w.databases[d].owner, on.user) in w.members
    ensures Apply(w, on, DropDatabase(d)) == Applied(w.(databases := w.databases - {d}))
  {
  }

  lemma TerminateApplies(w: World, on: Session, d: string)
    requires on.database in w.databases
    ensures Apply(w, on, TerminateDatabase(d)) == Applied(w)
  {
  }

  lemma DropDatabaseSteps(w: World, c: Server, n: Names)
    requires c.user in w.roles && n.groupRole in w.roles && c.database in w.databases && n.database != c.database
    requires n.database in w.databases ==> w.databases[n.database].owner == n.groupRole
    ensures Leads(w, OnAdmin(c), DeprovisionAdmin(c, n)[..3],
      w.(members := w.members + {(n.groupRole, c.user)}, databases := w.databases - {n.database}))
  {
    hide Apply;
    var on, b := OnAdmin(c), DeprovisionAdmin(c, n);
    var w1 := w.(members := w.members + {(n.groupRole, c.user)});
    var w3 := w1.(databases := w.databases - {n.database});
    GrantApplies(w, on, n.groupRole, c.user);
    TerminateApplies(w1, on, n.database);
    DropDatabaseApplies(w1, on, n.database);
    LeadsStep(w1, on, b[2], w3, [], w3);
    LeadsStep(w1, on, b[1], w1, [b[2]], w3);
    LeadsStep(w, on, b[0], w1, [b[1], b[2]], w3);
    assert b[..3] == [b[0]] + [b[1], b[2]];
  }

  lemma DropRoleSteps(w: World, r: World, c: Server, n: Names)
    requires c.user in w.roles && n.groupRole in w.roles && c.database in w.databases
    requires r.databases == w.databases && r.tablespaces == w.tablespaces - {n.tablespace}
    requires r.roles == w.roles - {n.groupRole} && r.members == Without(w.members, n.groupRole)
    requires Unreferenced(r, n.groupRole) && Unused(r, n.tablespace)
    ensures Leads(w, OnAdmin(c), DeprovisionAdmin(c, n)[3..], r)
  {
    var on, b := OnAdmin(c), DeprovisionAdmin(c, n);
    var w1 := w.(tablespaces := r.tablespaces);
    var w2 := w1.(members := w.members - {(n.groupRole, c.user)});
    assert Apply(w2, on, b[5]) == Applied(r);
    assert Apply(w, on, b[3]) == Applied(w1);
    LeadsStep(w2, on, b[5], r, [], r);
    LeadsStep(w1, on, b[4], w2, [b[5]], r);
    LeadsStep(w, on, b[3], w1, [b[4], b[5]], r);
    assert b[3..] == [b[3]] + [b[4], b[5]];
  }

  /** Why the batches are in their order: without the temporary membership the server refuses to create, alter or drop
      what the group role owns or is to own; while the database stands it refuses to drop the tablespace; and while
      either stands it refuses to drop the role. */
  lemma OrderIsForced(w: World, c: Server, n: Names, location: string, encoding: string, compatibility: string, k: int)
    requires (n.groupRole, c.user) !in w.members
    ensures var on := OnAdmin(c);
      && Apply(w, on, CreateTablespace(n.tablespace, n.groupRole, location, k)) == Rejected
      && Apply(w, on, CreateDatabase(n.database, n.groupRole, encoding, compatibility, n.tablespace, k)) == Rejected
      && (n.database in w.databases && w.databases[n.database].owner == n.groupRole ==>
            (&& Apply(w, on, AlterLimit(n.database, k)) == Rejected
             && Apply(w, on, DropDatabase(n.database)) == Rejected && Apply(w, on, DropRole(n.groupRole)) == Rejected))
      && (n.database in w.databases && w.databases[n.database].tablespace == n.tablespace ==>
            Apply(w, on, DropTablespace(n.tablespace)) == Rejected)
      && (n.tablespace in w.tablespaces && w.tablespaces[n.tablespace].owner == n.groupRole ==>
            Apply(w, on, DropRole(n.groupRole)) == Rejected)
  {
    hide Has, HasOneOf, MayFill;
  }

  lemma AttemptingExecutes(on: Session, stmts: seq<Stmt>, rest: Tree<Status>, undo: Tree<Status>, s: State,
          faults: Faults, clock: nat)
    ensures var o := Execute(Batch(on, stmts), s, faults, clock);
      Execute(Attempting(on, stmts, rest, undo), s, faults, clock) ==
      if o.result then Execute(rest, o.state, faults, o.clock) else Execute(undo, o.state, faults, o.clock)
  {
    ExecuteGraft(Batch(on, stmts), (ok: bool) => if ok then rest else undo, s, faults, clock);
  }

  lemma FailingExecutes(undo: Tree<Status>, s: State, faults: Faults, clock: nat)
    ensures var o := Execute(undo, s, faults, clock);
      Execute(Failing(undo), s, faults, clock) == Outcome(o.state, Broken, o.clock)
  {
    ExecuteGraft(undo, (_: Status) => Leaf(Broken), s, faults, clock);
  }

  /** One undisturbed deprovision removes every trace of the tenant, from any state it was left in. */
  lemma DeprovisionSucceeds(s: State, c: Server, n: Names, faults: Faults, clock: nat)
    requires Removable(s.world, c, n) && Quiet(faults, clock)
    ensures Execute(Deprovision(c, n), s, faults, clock) == Outcome(s.(world := Removed(s.world, n)), Done, clock + 7)
  {
    DeprovisionAccepted(s.world, c, n);
    AcceptedBatch(OnAdmin(c), DeprovisionAdmin(c, n), s, Removed(s.world, n), faults, clock);
    AttemptingExecutes(OnAdmin(c), DeprovisionAdmin(c, n), Leaf(Done), Leaf(Broken), s, faults, clock);
  }

  /** A deprovision that stopped short keeps the group role, the token that lets it be repeated. */
  lemma StoppedDeprovisionKeepsToken(s: State, c: Server, n: Names, faults: Faults, clock: nat)
    requires Removable(s.world, c, n)
    ensures var o := Execute(Deprovision(c, n), s, faults, clock);
      && (o.result == Done ==> o.state == s.(world := Removed(s.world, n)))
      && (o.result != Done ==> o.result == Broken && Removable(o.state.world, c, n))
      && (o.result != Done ==> Removed(o.state.world, n) == Removed(s.world, n))
  {
    hide Consistent, Removed, Leads;
    DeprovisionAccepted(s.world, c, n);
    AcceptedBatch(OnAdmin(c), DeprovisionAdmin(c, n), s, Removed(s.world, n), faults, clock);
    AttemptingExecutes(OnAdmin(c), DeprovisionAdmin(c, n), Leaf(Done), Leaf(Broken), s, faults, clock);
    TenantOperationsStayInside(c, n, InstanceParams("", "", "", 0, 0), "");
    TenantFrame(Deprovision(c, n), s, faults, clock, c, n);
    StaysReady(s.world, Execute(Deprovision(c, n), s, faults, clock).state.world, c, n);
    RoleOutlivesBatch(OnAdmin(c), DeprovisionAdmin(c, n), s, faults, clock + 1, n.groupRole);
  }

  /** A deprovision is done exactly when none of its seven steps is made to fail. */
  lemma DeprovisionDone(s: State, c: Server, n: Names, faults: Faults, clock: nat)
    requires Removable(s.world, c, n)
    ensures var o := Execute(Deprovision(c, n), s, faults, clock);
      (o.result == Done <==> !Interrupted(faults, clock, 7)) && (o.result == Done ==> o.clock == clock + 7)
  {
    hide Consistent, Removed, Leads, Interrupted;
    DeprovisionAccepted(s.world, c, n);
    AcceptedBatch(OnAdmin(c), DeprovisionAdmin(c, n), s, Removed(s.world, n), faults, clock);
    AttemptingExecutes(OnAdmin(c), DeprovisionAdmin(c, n), Leaf(Done), Leaf(Broken), s, faults, clock);
  }

  // ------------------------------------------------- exact compensation

  /** At most one step is made to fail. */
  ghost predicate OnlyFault(faults: Faults, at: nat) { forall i | i != at :: !faults(i) }

  lemma OnlyFaultAt(faults: Faults, at: nat, i: nat)
    requires OnlyFault(faults, at)
    ensures faults(i) <==> faults(at) && i == at
  {
  }

  lemma OnlyFaultInterrupts(faults: Faults, at: nat, clock: nat, count: nat)
    requires OnlyFault(faults, at)
    ensures Interrupted(faults, clock, count) <==> faults(at) && clock <= at < clock + count
  {
  }

  /** Until CREATE ROLE has gone through, a creation has changed nothing. */
  lemma {:induction false} NoRoleNoChange(on: Session, stmts: seq<Stmt>, s: State, faults: Faults, clock: nat, n: Names)
    requires stmts != [] && stmts[0].CreateRole? && stmts[0].role == n.groupRole
    requires forall i | 0 <= i < |stmts| :: !DropsRole(stmts[i])
    ensures var o := Execute(Statements(on, stmts), s, faults, clock);
      n.groupRole in o.state.world.roles || o.state == s
  {
    var (s', answer) := Attempt(Exec(on, stmts[0]), s, faults(clock));
    if answer == Yes {
      RolesOnlyGrow(on, stmts[1..], s', faults, clock + 1, n.groupRole);
    }
  }

  /** The undo batch of a creation, run in peace, restores the catalog the creation started from:
      in full when the role had been made, and by stopping at its first GRANT when it had not. */
  lemma UndoRestores(s: State, s0: State, c: Server, n: Names, faults: Faults, clock: nat)
    requires Ready(s0.world, c, n) && Fresh(s0.world, n) && Quiet(faults, clock)
    requires Halfway(s, s0, n)
    ensures var o := Execute(Failing(Deprovision(c, n)), s, faults, clock);
      o.state == s0 && o.result == Broken
  {
    FreshLeavesNothing(s0.world, n);
    StaysReady(s0.world, s.world, c, n);
    FailingExecutes(Deprovision(c, n), s, faults, clock);
    if n.groupRole in s.world.roles {
      DeprovisionSucceeds(s, c, n, faults, clock);
    } else {
      RejectedBatch(OnAdmin(c), DeprovisionAdmin(c, n), s, faults, clock);
      AttemptingExecutes(OnAdmin(c), DeprovisionAdmin(c, n), Leaf(Done), Leaf(Broken), s, faults, clock);
    }
  }

  /** A state that a creation of `n` from `s0` may have been stopped in. */
  ghost predicate Halfway(s: State, s0: State, n: Names)
  {
    && Consistent(s.world) && OwnsDatabase(s.world, n) && Removed(s.world, n) == Removed(s0.world, n)
    && s == s0.(world := s.world) && (n.groupRole in s.world.roles || s == s0)
  }

  lemma AdminHalfway(s: State, c: Server, n: Names, stmts: seq<Stmt>, faults: Faults, clock: nat)
    requires Ready(s.world, c, n) && Fresh(s.world, n) && AllOf(OnAdmin(c), stmts, TenantStatements(c, n))
    requires stmts != [] && stmts[0].CreateRole? && stmts[0].role == n.groupRole
    requires forall i | 0 <= i < |stmts| :: !DropsRole(stmts[i])
    ensures Halfway(Execute(Batch(OnAdmin(c), stmts), s, faults, clock).state, s, n)
  {
    FreshLeavesNothing(s.world, n);
    BatchIsSqlOnly(OnAdmin(c), stmts, TenantStatements(c, n));
    TenantFrame(Batch(OnAdmin(c), stmts), s, faults, clock, c, n);
    NoRoleNoChange(OnAdmin(c), stmts, s, faults, clock + 1, n);
  }

  lemma TenantHalfway(s: State, s0: State, c: Server, n: Names, stmts: seq<Stmt>, faults: Faults, clock: nat)
    requires Halfway(s, s0, n) && n.groupRole in s.world.roles
    requires AllOf(OnTenant(c, n), stmts, TenantStatements(c, n))
    requires forall i | 0 <= i < |stmts| :: !DropsRole(stmts[i])
    ensures Halfway(Execute(Batch(OnTenant(c, n), stmts), s, faults, clock).state, s0, n)
  {
    BatchIsSqlOnly(OnTenant(c, n), stmts, TenantStatements(c, n));
    TenantFrame(Batch(OnTenant(c, n), stmts), s, faults, clock, c, n);
    RolesOnlyGrow(OnTenant(c, n), stmts, s, faults, clock + 1, n.groupRole);
  }

  lemma AllOrNothing(s: State, c: Server, n: Names, first: seq<Stmt>, second: seq<Stmt>, w1: World, w2: World,
                     faults: Faults, clock: nat, at: nat)
    requires Ready(s.world, c, n) && Fresh(s.world, n) && OnlyFault(faults, at)
    requires AllOf(OnAdmin(c), first, TenantStatements(c, n)) && AllOf(OnTenant(c, n), second, TenantStatements(c, n))
    requires first != [] && first[0].CreateRole? && first[0].role == n.groupRole
    requires forall i | 0 <= i < |first| :: !DropsRole(first[i])
    requires forall i | 0 <= i < |second| :: !DropsRole(second[i])
    requires Leads(s.world, OnAdmin(c), first, w1) && Leads(w1, OnTenant(c, n), second, w2)
    requires n.database in w1.databases && n.groupRole in w1.roles
    ensures var o := Execute(Creating(c, n, first, second), s, faults, clock);
      || (o.result == Done && o.state == s.(world := w2))
      || (o.result == Broken && o.state == s && faults(at))
  {
    var undo := Failing(Deprovision(c, n));
    var b := Execute(Batch(OnAdmin(c), first), s, faults, clock);
    AttemptingExecutes(OnAdmin(c), first, Attempting(OnTenant(c, n), second, Leaf(Done), undo), undo, s, faults, clock);
    AcceptedBatch(OnAdmin(c), first, s, w1, faults, clock);
    AdminHalfway(s, c, n, first, faults, clock);
    if b.result {
      var b' := Execute(Batch(OnTenant(c, n), second), b.state, faults, b.clock);
      AttemptingExecutes(OnTenant(c, n), second, Leaf(Done), undo, b.state, faults, b.clock);
      AcceptedBatch(OnTenant(c, n), second, b.state, w2, faults, b.clock);
      if !b'.result {
        TenantHalfway(b.state, s, c, n, second, faults, b.clock);
        UndoRestores(b'.state, s, c, n, faults, b'.clock);
      }
    } else {
      UndoRestores(b.state, s, c, n, faults, b.clock);
    }
  }

  lemma CreationStatements(c: Server, n: Names, p: InstanceParams, password: string)
    ensures var first, second := ProvisionAdmin(c, n, p, password), ProvisionTenant(n);
      && AllOf(OnAdmin(c), first, TenantStatements(c, n)) && AllOf(OnTenant(c, n), second, TenantStatements(c, n))
      && first != [] && first[0].CreateRole? && first[0].role == n.groupRole
      && (forall i | 0 <= i < |first| :: !DropsRole(first[i]))
      && (forall i | 0 <= i < |second| :: !DropsRole(second[i]))
  {
  }

  /** A creation on free names either makes the whole tenant or, whichever of its statements failed,
      leaves the catalog exactly as it was. */
  lemma CreationIsAllOrNothing(s: State, c: Server, n: Names, p: InstanceParams, password: string, faults: Faults,
          clock: nat, at: nat)
    requires Ready(s.world, c, n) && Fresh(s.world, n) && OnlyFault(faults, at)
    ensures var o := Execute(Creation(c, n, p, password), s, faults, clock);
      || (o.result == Done && o.state == s.(world := Provisioned(s.world, c, n, p, password)))
      || (o.result == Broken && o.state == s && faults(at))
  {
    var w2 := Provisioned(s.world, c, n, p, password);
    CreationStatements(c, n, p, password);
    ProvisionAdminAccepted(s.world, c, n, p, password);
    ProvisionTenantAccepted(s.world, c, n, p, password);
    AllOrNothing(s, c, n, ProvisionAdmin(c, n, p, password), ProvisionTenant(n),
      SetDatabase(w2, n.database, IsolatedDatabase(c, n, p)), w2, faults, clock, at);
  }

  /** Whatever the environment does, a creation that reports success has made the whole tenant; and it does so exactly
      when none of its thirteen steps is made to fail. */
  lemma CreationDone(s: State, c: Server, n: Names, p: InstanceParams, password: string, faults: Faults, clock: nat)
    requires Ready(s.world, c, n) && Fresh(s.world, n)
    ensures var o := Execute(Creation(c, n, p, password), s, faults, clock);
      && (o.result == Done ==> o.state == s.(world := Provisioned(s.world, c, n, p, password)) && o.clock == clock + 13)
      && (o.result == Done <==> !Interrupted(faults, clock, 13))
    ensures Execute(Creation(c, n, p, password), s, faults, clock).result != Taken
  {
    var undo := Failing(Deprovision(c, n));
    var first, second := ProvisionAdmin(c, n, p, password), ProvisionTenant(n);
    var w2 := Provisioned(s.world, c, n, p, password);
    var w1 := SetDatabase(w2, n.database, IsolatedDatabase(c, n, p));
    var b := Execute(Batch(OnAdmin(c), first), s, faults, clock);
    var b' := Execute(Batch(OnTenant(c, n), second), b.state, faults, b.clock);
    ProvisionAdminAccepted(s.world, c, n, p, password);
    ProvisionTenantAccepted(s.world, c, n, p, password);
    AttemptingExecutes(OnAdmin(c), first, Attempting(OnTenant(c, n), second, Leaf(Done), undo), undo, s, faults, clock);
    AttemptingExecutes(OnTenant(c, n), second, Leaf(Done), undo, b.state, faults, b.clock);
    FailingExecutes(Deprovision(c, n), b.state, faults, b.clock);
    FailingExecutes(Deprovision(c, n), b'.state, faults, b'.clock);
    InterruptedInParts(faults, clock, 9, 4);
    AcceptedBatch(OnAdmin(c), first, s, w1, faults, clock);
    if b.result {
      AcceptedBatch(OnTenant(c, n), second, b.state, w2, faults, b.clock);
    }
  }

  /** The probes come first: unless all three names are free, nothing is run. */
  lemma ProvisionProbes(s: State, c: Server, n: Names, p: InstanceParams, password: string, faults: Faults, clock: nat)
    ensures var o := Execute(Provision(c, n, p, password), s, faults, clock);
      || (o.state == s && o.result in {Taken, Broken})
      || (Fresh(s.world, n) && o == Execute(Creation(c, n, p, password), s, faults, clock + 3))
    ensures c.database in s.world.databases && !Interrupted(faults, clock, 3) ==>
      var o := Execute(Provision(c, n, p, password), s, faults, clock);
      if Fresh(s.world, n) then o == Execute(Creation(c, n, p, password), s, faults, clock + 3)
          else o.result == Taken && o.state == s
    ensures Fresh(s.world, n) && Interrupted(faults, clock, 3) ==>
      var o := Execute(Provision(c, n, p, password), s, faults, clock);
      o.result == Broken && o.state == s
  {
    assert Interrupted(faults, clock, 3) <==> faults(clock) || faults(clock + 1) || faults(clock + 2);
    var third := Absent(OnAdmin(c), Tablespaces, n.tablespace, Creation(c, n, p, password));
    var second := Absent(OnAdmin(c), Roles, n.groupRole, third);
    AbsentExecutes(OnAdmin(c), Databases, n.database, second, s, faults, clock);
    AbsentExecutes(OnAdmin(c), Roles, n.groupRole, third, s, faults, clock + 1);
    AbsentExecutes(OnAdmin(c), Tablespaces, n.tablespace, Creation(c, n, p, password), s, faults, clock + 2);
  }

  lemma AbsentExecutes(on: Session, cat: Catalog, name: string, rest: Tree<Status>, s: State, faults: Faults,
          clock: nat)
    ensures Execute(Absent(on, cat, name, rest), s, faults, clock) ==
      if faults(clock) || on.database !in s.world.databases then Outcome(s, Broken, clock + 1)
      else if Listed(s.world, cat, name) then Outcome(s, Taken, clock + 1)
      else Execute(rest, s, faults, clock + 1)
  {
  }

  // ------------------------------------------------- quota changes

  function Resized(w: World, c: Server, n: Names, p: InstanceParams): World
    requires n.database in w.databases && n.tablespace in w.tablespaces
  {
    var d, t := w.databases[n.database], w.tablespaces[n.tablespace];
    World(w.roles, w.members - {(n.groupRole, c.user)},
          w.databases[n.database := d.(limit := p.maxConnections)],
          w.tablespaces[n.tablespace := t.(maxGb := p.storageGb)])
  }

  lemma UpdateAccepted(w: World, c: Server, n: Names, p: InstanceParams)
    requires c.user in w.roles && c.database in w.databases && n.groupRole in w.roles && OwnsDatabase(w, n)
    requires n.database in w.databases && n.tablespace in w.tablespaces
    ensures Leads(w, OnAdmin(c), UpdateAdmin(c, n, p), Resized(w, c, n, p))
  {
    var w1 := w.(members := w.members + {(n.groupRole, c.user)});
    ResizeSteps(w1, c, n, p);
    assert w1.members - {(n.groupRole, c.user)} == w.members - {(n.groupRole, c.user)};
    var b := UpdateAdmin(c, n, p);
    LeadsStep(w, OnAdmin(c), b[0], w1, b[1..], Resized(w, c, n, p));
    assert b == [b[0]] + b[1..];
  }

  lemma ResizeSteps(w: World, c: Server, n: Names, p: InstanceParams)
    requires c.user in w.roles && c.database in w.databases && n.groupRole in w.roles
    requires n.database in w.databases && n.tablespace in w.tablespaces
    requires (w.databases[n.database].owner, c.user) in w.members
    ensures Leads(w, OnAdmin(c), UpdateAdmin(c, n, p)[1..], Resized(w, c, n, p))
  {
    var on, b := OnAdmin(c), UpdateAdmin(c, n, p);
    var r := Resized(w, c, n, p);
    var w1 := w.(databases := r.databases);
    var w2 := w1.(tablespaces := r.tablespaces);
    LeadsStep(w2, on, b[3], r, [], r);
    LeadsStep(w1, on, b[2], w2, [b[3]], r);
    LeadsStep(w, on, b[1], w1, [b[2], b[3]], r);
    assert b[1..] == [b[1]] + [b[2], b[3]];
  }
}
