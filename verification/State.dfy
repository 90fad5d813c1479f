/** What the broker shares between requests: its record store and the SQL catalog. */
module State {
  import opened Sql

  /** The fully resolved parameter set of one logical database. */
  datatype InstanceParams = InstanceParams(
    name: string, compatibility: string, encoding: string, maxConnections: int, storageGb: int)

  datatype BindingParams = BindingParams(name: string)

  datatype InstanceRecord = InstanceRecord(serviceId: string, planId: string, database: string, params: InstanceParams)

  /** `credentials` is the stored column: base64 text of the encrypted JSON document. */
  datatype BindingRecord = BindingRecord(instanceId: string, username: string, params: BindingParams,
          credentials: string)

  datatype State = State(world: World, instances: map<string, InstanceRecord>, bindings: map<string, BindingRecord>)

  datatype Catalog = Databases | Roles | Tablespaces

  /** The atomic steps a request is made of. */
  datatype Action =
    | Connect(on: Session)
    | Probe(on: Session, catalog: Catalog, name: string)
    | Exec(on: Session, stmt: Stmt)
    | FindInstance(id: string)
    | InsertInstance(id: string, instance: InstanceRecord)
    | ReplaceInstance(id: string, instance: InstanceRecord)
    | RemoveInstance(id: string)
    | FindBinding(id: string)
    | InsertBinding(id: string, binding: BindingRecord)
    | ReplaceBinding(id: string, binding: BindingRecord)
    | RemoveBinding(id: string)

  datatype Answer = Yes | No | Error

  predicate Listed(w: World, c: Catalog, name: string)
  {
    match c
    case Databases => name in w.databases
    case Roles => name in w.roles
    case Tablespaces => name in w.tablespaces
  }

  /** One atomic step that the environment does not make fail. */
  function Perform(a: Action, s: State): (State, Answer)
  {
    match a
    case Connect(on) => (s, if on.database in s.world.databases then Yes else Error)
    case Probe(on, c, name) =>
      (s, if on.database !in s.world.databases then Error else if Listed(s.world, c, name) then Yes else No)
    case Exec(on, stmt) =>
      (match Apply(s.world, on, stmt)
       case Applied(w) => (s.(world := w), Yes)
       case Rejected => (s, Error))
    case FindInstance(id) => (s, if id in s.instances then Yes else No)
    case InsertInstance(id, r) =>
      if id in s.instances then (s, Error) else (s.(instances := s.instances[id := r]), Yes)
    case ReplaceInstance(id, r) => (if id in s.instances then s.(instances := s.instances[id := r]) else s, Yes)
    case RemoveInstance(id) => (s.(instances := s.instances - {id}), Yes)
    case FindBinding(id) => (s, if id in s.bindings then Yes else No)
    case InsertBinding(id, r) =>
      if id in s.bindings then (s, Error) else (s.(bindings := s.bindings[id := r]), Yes)
    case ReplaceBinding(id, r) => (if id in s.bindings then s.(bindings := s.bindings[id := r]) else s, Yes)
    case RemoveBinding(id) => (s.(bindings := s.bindings - {id}), Yes)
  }

  /** Which of a request's own steps the environment makes fail, without effect. */
  type Faults = nat -> bool

  /** A decision tree of atomic steps: each step's answer selects the rest. */
  datatype Tree<+R> = Leaf(result: R) | Act(action: Action, yes: Tree<R>, no: Tree<R>, error: Tree<R>)

  datatype Outcome<+R> = Outcome(state: State, result: R, clock: nat)

  function Next<R>(t: Tree<R>, answer: Answer): Tree<R>
    requires t.Act?
  {
    match answer
    case Yes => t.yes
    case No => t.no
    case Error => t.error
  }

  function Attempt(a: Action, s: State, failed: bool): (State, Answer)
  {
    if failed then (s, Error) else Perform(a, s)
  }

  function Execute<R>(t: Tree<R>, s: State, faults: Faults, clock: nat): Outcome<R>
  {
    match t
    case Leaf(r) => Outcome(s, r, clock)
    case Act(a, yes, no, error) =>
      var (s', answer) := Attempt(a, s, faults(clock));
      match answer
      case Yes => Execute(yes, s', faults, clock + 1)
      case No => Execute(no, s', faults, clock + 1)
      case Error => Execute(error, s', faults, clock + 1)
  }

  /** Sequencing: continue every leaf of `t`. */
  function Graft<A, B>(t: Tree<A>, k: A -> Tree<B>): Tree<B>
  {
    match t
    case Leaf(a) => k(a)
    case Act(a, yes, no, error) => Act(a, Graft(yes, k), Graft(no, k), Graft(error, k))
  }

  lemma {:induction false} ExecuteGraft<A, B>(t: Tree<A>, k: A -> Tree<B>, s: State, faults: Faults, clock: nat)
    ensures var o := Execute(t, s, faults, clock);
      Execute(Graft(t, k), s, faults, clock) == Execute(k(o.result), o.state, faults, o.clock)
  {
    match t
    case Leaf(_) =>
    case Act(a, yes, no, error) =>
      var (s', _) := Attempt(a, s, faults(clock));
      ExecuteGraft(yes, k, s', faults, clock + 1);
      ExecuteGraft(no, k, s', faults, clock + 1);
      ExecuteGraft(error, k, s', faults, clock + 1);
  }

  /** A batch: connect, then run the statements until one fails. */
  function Statements(on: Session, stmts: seq<Stmt>): Tree<bool>
  {
    if stmts == [] then Leaf(true)
    else Act(Exec(on, stmts[0]), Statements(on, stmts[1..]), Leaf(false), Leaf(false))
  }

  function Batch(on: Session, stmts: seq<Stmt>): Tree<bool>
  {
    Act(Connect(on), Statements(on, stmts), Leaf(false), Leaf(false))
  }

  /** The first statement of a batch: rejected, made to fail, or run. */
  lemma StatementStep(on: Session, stmts: seq<Stmt>, s: State, faults: Faults, clock: nat)
    requires stmts != []
    ensures Execute(Statements(on, stmts), s, faults, clock) ==
      if faults(clock) || Apply(s.world, on, stmts[0]) == Rejected then Outcome(s, false, clock + 1)
      else Execute(Statements(on, stmts[1..]), s.(world := Apply(s.world, on, stmts[0]).world), faults, clock + 1)
  {
    hide Apply;
    assert Attempt(Exec(on, stmts[0]), s, faults(clock)) ==
      if faults(clock) || Apply(s.world, on, stmts[0]) == Rejected then (s, Error)
      else (s.(world := Apply(s.world, on, stmts[0]).world), Yes);
  }

  /** The tree leaves the store alone and runs only statements that `allowed` admits. */
  ghost predicate SqlOnly<R>(t: Tree<R>, allowed: (Session, Stmt) -> bool)
  {
    match t
    case Leaf(_) => true
    case Act(a, yes, no, error) =>
      && (a.Connect? || a.Probe? || (a.Exec? && allowed(a.on, a.stmt)))
      && SqlOnly(yes, allowed) && SqlOnly(no, allowed) && SqlOnly(error, allowed)
  }

  ghost predicate AllOf(on: Session, stmts: seq<Stmt>, allowed: (Session, Stmt) -> bool)
  {
    forall i | 0 <= i < |stmts| :: allowed(on, stmts[i])
  }

  lemma {:induction false} BatchIsSqlOnly(on: Session, stmts: seq<Stmt>, allowed: (Session, Stmt) -> bool)
    requires AllOf(on, stmts, allowed)
    ensures SqlOnly(Statements(on, stmts), allowed) && SqlOnly(Batch(on, stmts), allowed)
  {
    if stmts != [] {
      BatchIsSqlOnly(on, stmts[1..], allowed);
    }
  }

  lemma {:induction false} GraftIsSqlOnly<A, B>(t: Tree<A>, k: A -> Tree<B>, allowed: (Session, Stmt) -> bool)
    requires SqlOnly(t, allowed) && forall a :: SqlOnly(k(a), allowed)
    ensures SqlOnly(Graft(t, k), allowed)
  {
    match t
    case Leaf(_) =>
    case Act(_, yes, no, error) =>
      GraftIsSqlOnly(yes, k, allowed);
      GraftIsSqlOnly(no, k, allowed);
      GraftIsSqlOnly(error, k, allowed);
  }

  /** No injected fault from `clock` on. */
  ghost predicate Quiet(faults: Faults, clock: nat) { forall i | i >= clock :: !faults(i) }

  /** One of `count` steps from `clock` on is made to fail. */
  ghost predicate Interrupted(faults: Faults, clock: nat, count: nat)
  {
    exists i | clock <= i < clock + count :: faults(i)
  }

  lemma InterruptedInParts(faults: Faults, clock: nat, first: nat, second: nat)
    ensures Interrupted(faults, clock, first + second) <==>
      Interrupted(faults, clock, first) || Interrupted(faults, clock + first, second)
  {
    if Interrupted(faults, clock, first + second) {
      var i :| clock <= i < clock + (first + second) && faults(i);
      assert i < clock + first || (clock + first <= i && i < (clock + first) + second);
    }
  }

  /** Every statement is accepted when it is reached, and the batch ends in `w'`. */
  predicate Leads(w: World, on: Session, stmts: seq<Stmt>, w': World)
    decreases stmts
  {
    if stmts == [] then w == w'
    else
      match Apply(w, on, stmts[0])
      case Applied(w1) => Leads(w1, on, stmts[1..], w')
      case Rejected => false
  }

  /** One step in front of a batch. */
  lemma LeadsStep(w: World, on: Session, stmt: Stmt, w1: World, rest: seq<Stmt>, w': World)
    requires Apply(w, on, stmt) == Applied(w1) && Leads(w1, on, rest, w')
    ensures Leads(w, on, [stmt] + rest, w')
  {
    assert ([stmt] + rest)[1..] == rest;
  }

  lemma {:induction false} LeadsAppend(w: World, on: Session, first: seq<Stmt>, w1: World, second: seq<Stmt>, w': World)
    requires Leads(w, on, first, w1) && Leads(w1, on, second, w')
    ensures Leads(w, on, first + second, w')
    decreases first
  {
    if first == [] {
      assert first + second == second;
    } else {
      LeadsAppend(Apply(w, on, first[0]).world, on, first[1..], w1, second, w');
      assert (first + second)[1..] == first[1..] + second;
    }
  }

  /** A batch whose statements are all acceptable fails only where the environment makes it fail,
      and otherwise runs to its end. */
  lemma {:induction false} AcceptedStatements(on: Session, stmts: seq<Stmt>, s: State, w': World, faults: Faults,
          clock: nat)
    requires Leads(s.world, on, stmts, w')
    ensures var o := Execute(Statements(on, stmts), s, faults, clock);
      && o.clock >= clock
      && (o.result ==> o.state == s.(world := w') && o.clock == clock + |stmts|)
      && (!o.result ==> exists i | clock <= i < o.clock :: faults(i))
      && (o.result <==> !Interrupted(faults, clock, |stmts|))
    decreases stmts
  {
    hide Apply;
    if stmts != [] {
      InterruptedInParts(faults, clock, 1, |stmts| - 1);
      if faults(clock) {
        assert Interrupted(faults, clock, 1);
      } else {
        AcceptedStatements(on, stmts[1..], s.(world := Apply(s.world, on, stmts[0]).world), w', faults, clock + 1);
      }
    }
  }

  lemma AcceptedBatch(on: Session, stmts: seq<Stmt>, s: State, w': World, faults: Faults, clock: nat)
    requires on.database in s.world.databases && Leads(s.world, on, stmts, w')
    ensures var o := Execute(Batch(on, stmts), s, faults, clock);
      && o.clock >= clock
      && (o.result ==> o.state == s.(world := w') && o.clock == clock + 1 + |stmts|)
      && (!o.result ==> exists i | clock <= i < o.clock :: faults(i))
      && (o.result <==> !Interrupted(faults, clock, 1 + |stmts|))
  {
    InterruptedInParts(faults, clock, 1, |stmts|);
    if faults(clock) {
      assert Interrupted(faults, clock, 1);
    } else {
      AcceptedStatements(on, stmts, s, w', faults, clock + 1);
    }
  }

  lemma RejectedStatements(on: Session, stmts: seq<Stmt>, s: State, faults: Faults, clock: nat)
    requires stmts != [] && Apply(s.world, on, stmts[0]) == Rejected
    ensures Execute(Statements(on, stmts), s, faults, clock) == Outcome(s, false, clock + 1)
  {
    assert Attempt(Exec(on, stmts[0]), s, faults(clock)) == (s, Error);
  }

  lemma RejectedBatch(on: Session, stmts: seq<Stmt>, s: State, faults: Faults, clock: nat)
    requires stmts != [] && Apply(s.world, on, stmts[0]) == Rejected
    ensures var o := Execute(Batch(on, stmts), s, faults, clock);
      !o.result && o.state == s && o.clock >= clock
  {
    RejectedStatements(on, stmts, s, faults, clock + 1);
  }

  predicate DropsRole(s: Stmt) { s.DropRole? || s.DropUser? }

  lemma StatementKeepsRole(w: World, on: Session, s: Stmt, role: string)
    requires role in w.roles && !DropsRole(s) && Apply(w, on, s).Applied?
    ensures var w' := Apply(w, on, s).world;
      role in w'.roles && w'.roles[role] == w.roles[role]
  {
  }

  /** Statements other than DROP ROLE and DROP USER keep every role, with its password. */
  lemma {:induction false} RolesOnlyGrow(on: Session, stmts: seq<Stmt>, s: State, faults: Faults, clock: nat,
          role: string)
    requires role in s.world.roles && forall i | 0 <= i < |stmts| :: !DropsRole(stmts[i])
    ensures var w := Execute(Statements(on, stmts), s, faults, clock).state.world;
      role in w.roles && w.roles[role] == s.world.roles[role]
    decreases stmts
  {
    hide Effect;
    if stmts != [] {
      var (s', answer) := Attempt(Exec(on, stmts[0]), s, faults(clock));
      if answer == Yes {
        StatementKeepsRole(s.world, on, stmts[0], role);
        RolesOnlyGrow(on, stmts[1..], s', faults, clock + 1, role);
      }
    }
  }

  /** A batch that drops roles in its last statement only has kept them all if it stopped short. */
  lemma {:induction false} RoleOutlivesBatch(on: Session, stmts: seq<Stmt>, s: State, faults: Faults, clock: nat,
          role: string)
    requires role in s.world.roles && forall i | 0 <= i < |stmts| - 1 :: !DropsRole(stmts[i])
    ensures var o := Execute(Statements(on, stmts), s, faults, clock);
      !o.result ==> role in o.state.world.roles && o.state.world.roles[role] == s.world.roles[role]
    decreases stmts
  {
    hide Effect;
    if stmts != [] {
      var (s', answer) := Attempt(Exec(on, stmts[0]), s, faults(clock));
      if answer == Yes && |stmts| > 1 {
        StatementKeepsRole(s.world, on, stmts[0], role);
        RoleOutlivesBatch(on, stmts[1..], s', faults, clock + 1, role);
      } else if answer == Yes {
        assert stmts[1..] == [];
      }
    }
  }
}
