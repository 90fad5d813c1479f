/** Asking again: repeated requests answer from the record, names never drift over a run, and stopped removals
    are finished by repeating them. */
module Repeats {
  import opened Wrappers
  import opened Names
  import opened Sql
  import opened State
  import opened Lifecycle
  import opened Membership
  import opened Operations
  import opened Safety
  import opened Isolation
  import opened Secrets
  import opened Quotas
  import opened Activity
  import opened Runs
  import R = Rotation
  import Tenancy
  import Vault

  // ------------------------------------------------- what a run keeps

  predicate AltersAt(ev: Event, id: string) { ev.Handle? && Alters(ev.request, id) }

  predicate UnbindsAt(ev: Event, b: string) { ev.Handle? && Unbinds(ev.request, b) }

  /** The record of an instance that no event is about, and what a binding that no event removes is made of. */
  lemma StepKeepsRecords(cfg: Config, node: Node, ev: Event)
    requires Served(cfg) && Good(cfg, node) && Possible(cfg, node, ev) && Tidy(cfg, node, ev)
    ensures var s, s' := node.state, Step(cfg, node, ev).state;
      && (forall i | i in s.instances && !AltersAt(ev, i) :: i in s'.instances && s'.instances[i] == s.instances[i])
      && (forall i | i in s.instances && i in s'.instances :: SameIdentity(s.instances[i], s'.instances[i]))
      && (forall b | b in s.bindings && !UnbindsAt(ev, b) :: b in s'.bindings)
      && (forall b | b in s.bindings && b in s'.bindings :: SameBinding(s, s', b))
  {
    hide Served, Safe, AllWork, Serve, R.Rotate, Find, Severs;
    match ev
    case Handle(req, env) =>
      if node.retiring.None? {
        RequestsKeepRecords(cfg, node.key, req, env, node.state);
      }
    case Work(_, _, _) =>
    case Restart(_, previous, order, _, _) =>
      if previous.Some? {
        VaultOf(cfg);
        R.RotationKeepsPlaintexts(TurnOf(cfg, ev), node.state.bindings, order);
      }
  }

  /** The same binding to its application: same instance, user, password and parameters, however it is encrypted. */
  predicate SameBinding(s: State, s': State, b: string)
    requires b in s.bindings && b in s'.bindings
  {
    R.SameColumns(s.bindings[b], s'.bindings[b])
        && Find(s'.world.roles, s.bindings[b].username) == Find(s.world.roles, s.bindings[b].username)
  }

  /** A stored instance that no event of a run is about keeps its record. */
  lemma {:induction false} InstanceOutlivesRun(cfg: Config, node: Node, events: seq<Event>, end: Node, id: string)
    requires Served(cfg) && Good(cfg, node) && Reaches(cfg, node, events, end) && AllTidy(cfg, node, events)
    requires id in node.state.instances && forall i | 0 <= i < |events| :: !AltersAt(events[i], id)
    ensures id in end.state.instances && end.state.instances[id] == node.state.instances[id]
    decreases events
  {
    hide Served, Good, Step, Tidy, Possible, AltersAt;
    if events != [] {
      StepPossible(cfg, node, events[0]);
      StepKeepsRecords(cfg, node, events[0]);
      StepKeepsGood(cfg, node, events[0]);
      InstanceOutlivesRun(cfg, Step(cfg, node, events[0]), events[1..], end, id);
    }
  }

  /** A stored binding that no event of a run removes stays the same binding, and its instance stays. */
  lemma {:induction false} BindingOutlivesRun(cfg: Config, node: Node, events: seq<Event>, end: Node, b: string)
    requires Served(cfg) && Good(cfg, node) && Reaches(cfg, node, events, end) && AllTidy(cfg, node, events)
    requires b in node.state.bindings && forall i | 0 <= i < |events| :: !UnbindsAt(events[i], b)
    ensures b in end.state.bindings && SameBinding(node.state, end.state, b)
    ensures var i := node.state.bindings[b].instanceId;
      i in node.state.instances && i in end.state.instances
          && SameIdentity(node.state.instances[i], end.state.instances[i])
    decreases events
  {
    hide Served, Safe, Step, Tidy, Possible, UnbindsAt, AllWork, Find, AllTidy;
    InstanceOfBinding(cfg, node.state, b);
    if events != [] {
      UnfoldTidy(cfg, node, events);
      StepPossible(cfg, node, events[0]);
      var next := Step(cfg, node, events[0]);
      StepKeepsRecords(cfg, node, events[0]);
      StepKeepsGood(cfg, node, events[0]);
      InstanceOfBinding(cfg, next.state, b);
      BindingOutlivesRun(cfg, next, events[1..], end, b);
    }
  }

  lemma UnfoldTidy(cfg: Config, node: Node, events: seq<Event>)
    requires AllTidy(cfg, node, events) && events != []
    ensures Possible(cfg, node, events[0]) && Tidy(cfg, node, events[0])
    ensures AllTidy(cfg, Step(cfg, node, events[0]), events[1..])
  {
  }

  // ------------------------------------------------- idempotence

  /** Section 'Provisioning' of Open Service Broker API 2.16: once an instance is stored, provisioning it again
      reports that it exists when plan and resolved parameters are the recorded ones, and a conflict otherwise;
      either way it reads one record, runs no SQL and changes nothing. */
  lemma ProvisionAgain(cfg: Config, key: Vault.Encryptor, id: string, plan: string, raw: Params.Raw, env: Env, s: State)
    requires id in s.instances && Spec(cfg, plan, raw).Some? && !env.faults(0)
    ensures Serve(cfg, key, Request.Provision(id, cfg.serviceId, plan, raw), env, s) ==
      Outcome(s, if s.instances[id].planId == plan && s.instances[id].params == Spec(cfg, plan, raw).value
                 then AlreadyExists else Conflict, 1)
  {
  }

  /** A provision that succeeded can be repeated at any later point of any run in which no event is an update or
      deprovision of that instance, key rotations included: the same plan and the same resolved parameters are reported
      to exist already, any others are a conflict, and nothing changes. */
  lemma ProvisionCanBeRepeated(cfg: Config, node: Node, id: string, plan: string, raw: Params.Raw, env: Env,
                               events: seq<Event>, end: Node, plan': string, raw': Params.Raw, env': Env)
    requires Served(cfg) && Good(cfg, node) && node.retiring.None? && |env.nonce| == Vault.NONCE_SIZE
    requires var o := Serve(cfg, node.key, Request.Provision(id, cfg.serviceId, plan, raw), env, node.state);
      o.result == Success && Reaches(cfg, node.(state := o.state), events, end)
          && AllTidy(cfg, node.(state := o.state), events)
    requires (forall i | 0 <= i < |events| :: !AltersAt(events[i], id)) && !env'.faults(0)
    requires Spec(cfg, plan', raw').Some?
    ensures Serve(cfg, end.key, Request.Provision(id, cfg.serviceId, plan', raw'), env', end.state) ==
      Outcome(end.state, if plan' == plan && Spec(cfg, plan', raw') == Spec(cfg, plan, raw) then AlreadyExists
          else Conflict, 1)
  {
    hide Served, Safe, AllWork, Execute, Reaches, AllTidy, AltersAt, Spec;
    var req := Request.Provision(id, cfg.serviceId, plan, raw);
    var o := Serve(cfg, node.key, req, env, node.state);
    var after := node.(state := o.state);
    ProvisionStores(cfg, node.key, id, plan, raw, env, node.state);
    StepKeepsGood(cfg, node, Handle(req, env));
    InstanceOutlivesRun(cfg, after, events, end, id);
    ProvisionAgain(cfg, end.key, id, plan', raw', env', end.state);
  }

  lemma ProvisionStores(cfg: Config, key: Vault.Encryptor, id: string, plan: string, raw: Params.Raw, env: Env,
          s: State)
    requires Served(cfg) && Safe(cfg, s)
    ensures var o := Serve(cfg, key, Request.Provision(id, cfg.serviceId, plan, raw), env, s);
      o.result == Success ==>
        (&& Spec(cfg, plan, raw).Some? && id in o.state.instances
         && o.state.instances[id].planId == plan && o.state.instances[id].params == Spec(cfg, plan, raw).value)
  {
    hide Served, Safe, Spec, Execute, ProvisionTree;
    if Spec(cfg, plan, raw).Some? && id !in s.instances {
      var p := Spec(cfg, plan, raw).value;
      ProvisionTreeStores(cfg, id, plan, p, env.password, s, env.faults, 1);
    }
  }

  lemma ProvisionTreeStores(cfg: Config, id: string, planId: string, p: InstanceParams, password: string, s: State,
          faults: Faults, clock: nat)
    ensures var o := Execute(ProvisionTree(cfg, id, planId, p, password), s, faults, clock);
      o.result == Success ==>
        id in o.state.instances && o.state.instances[id].planId == planId && o.state.instances[id].params == p
  {
    var c, n := cfg.server, cfg.naming.instance(id, p.name);
    var r := InstanceRecord(cfg.serviceId, planId, n.database, p);
    var t := Tenancy.Provision(c, n, p, password);
    var a := Execute(t, s, faults, clock);
    AfterExecutes(t, PutInstance(id, r, Success), s, faults, clock);
    PutInstanceExecutes(id, r, a.state, faults, a.clock);
  }

  /** Section 'Binding' of Open Service Broker API 2.16: once a binding is stored, binding again returns the stored
      credentials when instance and name are the recorded ones, and a conflict otherwise; no SQL is run. */
  lemma BindAgain(cfg: Config, key: Vault.Encryptor, id: string, b: string, raw: Params.Raw, env: Env, s: State)
    requires id in s.instances && BindingSpec(cfg, raw).Some? && b in s.bindings && Info(cfg, key, s.bindings[b]).Some?
    requires !env.faults(0) && !env.faults(1)
    ensures Serve(cfg, key, Request.Bind(id, b, cfg.serviceId, raw), env, s) ==
      Outcome(s, if s.bindings[b].instanceId == id && s.bindings[b].params == BindingSpec(cfg, raw).value
                 then AlreadyBound(Info(cfg, key, s.bindings[b]).value.credentials) else Conflict, 2)
  {
    hide Execute, BindTree;
  }

  /** The credentials an application has been given for a stored binding, as the catalog now makes them. */
  function CredentialsOf(cfg: Config, s: State, b: string): Vault.Credentials
    requires b in s.bindings && s.bindings[b].instanceId in s.instances && s.bindings[b].username in s.world.roles
  {
    cfg.credentials(s.instances[s.bindings[b].instanceId].database, s.bindings[b].username,
        s.world.roles[s.bindings[b].username].password)
  }

  /** A bind that reports new credentials has stored them, for the user that has this password. */
  lemma BindStores(cfg: Config, key: Vault.Encryptor, id: string, b: string, raw: Params.Raw, env: Env, s: State)
    requires Served(cfg) && Safe(cfg, s)
    ensures var o := Serve(cfg, key, Request.Bind(id, b, cfg.serviceId, raw), env, s);
      o.result.Bound? ==>
        (&& BindingSpec(cfg, raw).Some? && id in o.state.instances && b in o.state.bindings
         && o.state.bindings[b].instanceId == id && o.state.bindings[b].params == BindingSpec(cfg, raw).value
         && o.state.bindings[b].username in o.state.world.roles
         && o.result.credentials == CredentialsOf(cfg, o.state, b))
  {
    hide Served, Safe, BindingSpec, Execute, BindTree, Info, CredentialsOf;
    if id in s.instances && b !in s.bindings && BindingSpec(cfg, raw).Some? {
      BindTreeStores(cfg, key, env, id, b, BindingSpec(cfg, raw).value, s, 2);
    }
  }

  lemma BindTreeStores(cfg: Config, e: Vault.Encryptor, env: Env, id: string, b: string, p: BindingParams, s: State,
          clock: nat)
    requires Served(cfg) && Safe(cfg, s) && id in s.instances && b !in s.bindings
    ensures var o := Execute(BindTree(cfg, e, env, id, s.instances[id], b, p), s, env.faults, clock);
      o.result.Bound? ==>
        (&& id in o.state.instances && b in o.state.bindings
         && o.state.bindings[b].instanceId == id && o.state.bindings[b].params == p
         && o.state.bindings[b].username in o.state.world.roles
         && o.result.credentials == CredentialsOf(cfg, o.state, b))
  {
    hide Served, Safe, KeepsRecords;
    var n, user := NamesOf(cfg, id, s.instances[id]), cfg.naming.user(b, p.name);
    var t := Tenancy.Bind(cfg.server, n, user, env.password);
    var r := NewBinding(cfg, e, env, id, n, b, p);
    var done := Bound(cfg.credentials(n.database, user, env.password));
    var a := Execute(t, s, env.faults, clock);
    AfterExecutes(t, PutBinding(b, r, done), s, env.faults, clock);
    PutBindingExecutes(b, r, done, a.state, env.faults, a.clock);
    BindKeepsRecords(cfg, e, env, id, b, p, s, clock);
    DatabaseOfInstance(cfg, s, id);
  }

  lemma SameCredentials(cfg: Config, s: State, s': State, b: string)
    requires b in s.bindings && b in s'.bindings && SameBinding(s, s', b)
    requires var i := s.bindings[b].instanceId;
      i in s.instances && i in s'.instances && SameIdentity(s.instances[i], s'.instances[i])
          && s.bindings[b].username in s.world.roles
    ensures s'.bindings[b].username in s'.world.roles && CredentialsOf(cfg, s', b) == CredentialsOf(cfg, s, b)
  {
  }

  lemma StoredCredentialsAreRead(cfg: Config, node: Node, b: string)
    requires Served(cfg) && Good(cfg, node) && node.retiring.None? && b in node.state.bindings
    ensures var s := node.state;
      && s.bindings[b].instanceId in s.instances && s.bindings[b].username in s.world.roles
      && Info(cfg, node.key, s.bindings[b]).Some?
      && Info(cfg, node.key, s.bindings[b]).value.credentials == CredentialsOf(cfg, s, b)
  {
    hide Served, Safe;
    assert BindingWorks(cfg, {node.key}, node.state, node.state.bindings[b]);
    WorkingCredentialsAreRead(cfg, node.key, node.state.world, node.state.bindings[b],
        node.state.instances[node.state.bindings[b].instanceId].database);
  }

  /** A bind that succeeded can be repeated at any later point of any run that does not unbind it, key rotations
      included: for the same instance and name the same credentials come back, for any others it is a conflict, and
      nothing changes. */
  lemma BindCanBeRepeated(cfg: Config, node: Node, id: string, b: string, raw: Params.Raw, env: Env,
                          events: seq<Event>, end: Node, id': string, raw': Params.Raw, env': Env)
    requires Served(cfg) && Good(cfg, node) && node.retiring.None? && |env.nonce| == Vault.NONCE_SIZE
    requires var o := Serve(cfg, node.key, Request.Bind(id, b, cfg.serviceId, raw), env, node.state);
      o.result.Bound? && Reaches(cfg, node.(state := o.state), events, end)
          && AllTidy(cfg, node.(state := o.state), events)
    requires forall i | 0 <= i < |events| :: !UnbindsAt(events[i], b)
    requires end.retiring.None? && !env'.faults(0) && !env'.faults(1)
    requires id' in end.state.instances && BindingSpec(cfg, raw').Some?
    ensures var bound := Serve(cfg, node.key, Request.Bind(id, b, cfg.serviceId, raw), env, node.state);
      var given := bound.result.credentials;
      Serve(cfg, end.key, Request.Bind(id', b, cfg.serviceId, raw'), env', end.state) ==
      Outcome(end.state, if id' == id && BindingSpec(cfg, raw') == BindingSpec(cfg, raw) then AlreadyBound(given)
          else Conflict, 2)
  {
    hide Served, Safe, AllWork, Execute, Reaches, AllTidy, UnbindsAt, BindingSpec, CredentialsOf, Info, SameIdentity,
        Serve;
    var req := Request.Bind(id, b, cfg.serviceId, raw);
    var o := Serve(cfg, node.key, req, env, node.state);
    var after := node.(state := o.state);
    BindStores(cfg, node.key, id, b, raw, env, node.state);
    StepIsServe(cfg, node, req, env);
    StepKeepsGood(cfg, node, Handle(req, env));
    BindingOutlivesRun(cfg, after, events, end, b);
    RunsStayGood(cfg, after, events, end);
    StoredCredentialsAreRead(cfg, end, b);
    SameCredentials(cfg, after.state, end.state, b);
    BindAgain(cfg, end.key, id', b, raw', env', end.state);
  }

  lemma StepIsServe(cfg: Config, node: Node, req: Request, env: Env)
    requires node.retiring.None? && |env.nonce| == Vault.NONCE_SIZE
    requires !Severs(cfg, node.key, req, env, node.state)
    ensures Possible(cfg, node, Handle(req, env)) && Tidy(cfg, node, Handle(req, env))
    ensures Step(cfg, node, Handle(req, env)) == node.(state := Serve(cfg, node.key, req, env, node.state).state)
  {
  }

  // ------------------------------------------------- finishing what was stopped

  /** Deprovision attempts in a row, each of them stopped by the environment before its record was deleted. */
  ghost predicate StoppedAttempts(cfg: Config, key: Vault.Encryptor, req: Request, envs: seq<Env>, s: State, end: State)
    decreases envs
  {
    if envs == [] then s == end
    else
      var o := Serve(cfg, key, req, envs[0], s);
      o.result in {Failure(Reading), Failure(Administering)} && StoppedAttempts(cfg, key, req, envs[1..], o.state, end)
  }

  lemma StoppedDeprovision(cfg: Config, key: Vault.Encryptor, id: string, env: Env, s: State)
    requires Served(cfg) && Safe(cfg, s) && id in s.instances && Unbound(s, id)
    requires Serve(cfg, key, Request.Deprovision(id, cfg.serviceId), env, s).result
      in {Failure(Reading), Failure(Administering)}
    ensures var s' := Serve(cfg, key, Request.Deprovision(id, cfg.serviceId), env, s).state;
      && s' == s.(world := s'.world) && Safe(cfg, s')
      && var n := NamesOf(cfg, id, s.instances[id]); Tenancy.Removed(s'.world, n) == Tenancy.Removed(s.world, n)
  {
    hide Served, Safe, Tenancy.Removed, Serve, Execute, DeprovisionTree;
    ServeAnswersOrActs(cfg, key, Request.Deprovision(id, cfg.serviceId), env, s);
    DeprovisionTreeStops(cfg, id, s, env.faults, 2);
  }

  lemma DeprovisionTreeStops(cfg: Config, id: string, s: State, faults: Faults, clock: nat)
    requires Served(cfg) && Safe(cfg, s) && id in s.instances && Unbound(s, id)
    ensures var o := Execute(DeprovisionTree(cfg, id, s.instances[id]), s, faults, clock);
      var n := NamesOf(cfg, id, s.instances[id]);
      && o.result in {Success, Failure(Administering), Failure(Deleting)}
      && (o.result == Failure(Administering) ==>
            o.state == s.(world := o.state.world) && Safe(cfg, o.state)
                && Tenancy.Removed(o.state.world, n) == Tenancy.Removed(s.world, n))
      && (o.result == Success ==> o.state == s.(world := Tenancy.Removed(s.world, n), instances := s.instances - {id}))
      && (o.result == Failure(Deleting) ==> o.state == s.(world := Tenancy.Removed(s.world, n)))
  {
    hide Served, Safe, Tenancy.Removed, Tenancy.Deprovision;
    var n := NamesOf(cfg, id, s.instances[id]);
    var t := Tenancy.Deprovision(cfg.server, n);
    var a := Execute(t, s, faults, clock);
    AfterExecutes(t, DeleteInstance(id), s, faults, clock);
    DeleteInstanceExecutes(id, a.state, faults, a.clock);
    DeprovisionSql(cfg, id, s, faults, clock);
  }

  /** One undisturbed deprovision of an unbound instance. */
  lemma DeprovisionFinishes(cfg: Config, key: Vault.Encryptor, id: string, env: Env, s: State)
    requires Served(cfg) && Safe(cfg, s) && id in s.instances && Unbound(s, id) && Quiet(env.faults, 0)
    ensures var o := Serve(cfg, key, Request.Deprovision(id, cfg.serviceId), env, s);
      && o.result == Success
      && o.state == s.(world := Tenancy.Removed(s.world, NamesOf(cfg, id, s.instances[id])),
          instances := s.instances - {id})
  {
    hide Served, Safe, Tenancy.Removed, Execute, DeprovisionTree, Info;
    assert InfosOf(cfg, key, s.bindings, id) == TheBindings(map[]);
    DeprovisionInPeace(cfg, id, s, env.faults, 2);
  }

  /** However many deprovision attempts were stopped, and wherever, one undisturbed attempt then succeeds and ends
      in the very state that a single undisturbed attempt would have ended in. */
  lemma {:induction false} DeprovisionConverges(cfg: Config, key: Vault.Encryptor, id: string, envs: seq<Env>,
          env: Env, s: State, end: State)
    requires Served(cfg) && Safe(cfg, s) && id in s.instances && Unbound(s, id) && Quiet(env.faults, 0)
    requires StoppedAttempts(cfg, key, Request.Deprovision(id, cfg.serviceId), envs, s, end)
    ensures var req := Request.Deprovision(id, cfg.serviceId);
      && Serve(cfg, key, req, env, end).result == Success
      && Serve(cfg, key, req, env, end).state == Serve(cfg, key, req, env, s).state
    decreases envs
  {
    hide Served, Safe, Tenancy.Removed, Serve;
    DeprovisionFinishes(cfg, key, id, env, s);
    if envs != [] {
      var s1 := Serve(cfg, key, Request.Deprovision(id, cfg.serviceId), envs[0], s).state;
      StoppedDeprovision(cfg, key, id, envs[0], s);
      DeprovisionFinishes(cfg, key, id, env, s1);
      DeprovisionConverges(cfg, key, id, envs[1..], env, s1, end);
    }
  }

  /** The boundary of that promise: once the statements went through and only the record's deletion failed, the
      token is gone, and no later deprovision ever succeeds or changes anything. */
  lemma DeprovisionGetsStuck(cfg: Config, key: Vault.Encryptor, id: string, env: Env, s: State)
    requires id in s.instances && NamesOf(cfg, id, s.instances[id]).groupRole !in s.world.roles
    ensures var o := Serve(cfg, key, Request.Deprovision(id, cfg.serviceId), env, s);
      o.state == s && o.result != Success
  {
    hide Execute, DeprovisionTree, InfosOf;
    var c, n := cfg.server, NamesOf(cfg, id, s.instances[id]);
    DeprovisionWithoutToken(cfg, id, s, env.faults, 2);
  }

  lemma DeprovisionWithoutToken(cfg: Config, id: string, s: State, faults: Faults, clock: nat)
    requires id in s.instances && NamesOf(cfg, id, s.instances[id]).groupRole !in s.world.roles
    ensures var o := Execute(DeprovisionTree(cfg, id, s.instances[id]), s, faults, clock);
      o.state == s && o.result == Failure(Administering)
  {
    var c, n := cfg.server, NamesOf(cfg, id, s.instances[id]);
    var on, b := Tenancy.OnAdmin(c), Tenancy.DeprovisionAdmin(c, n);
    AfterExecutes(Tenancy.Deprovision(c, n), DeleteInstance(id), s, faults, clock);
    AttemptingExecutes(on, b, Leaf(Tenancy.Done), Leaf(Tenancy.Broken), s, faults, clock);
    RejectedBatch(on, b, s, faults, clock);
  }

  lemma UnbindTreeStops(cfg: Config, b: string, s: State, faults: Faults, clock: nat)
    requires Served(cfg) && Safe(cfg, s) && b in s.bindings && s.bindings[b].instanceId in s.instances
    ensures var r := s.bindings[b];
      var n := NamesOf(cfg, r.instanceId, s.instances[r.instanceId]);
      var o := Execute(UnbindTree(cfg, r.instanceId, s.instances[r.instanceId], b, r.username), s, faults, clock);
      && o.result in {Success, Failure(Administering), Failure(Deleting)}
      && (o.result == Failure(Administering) ==>
            (&& o.state == s.(world := o.state.world) && Safe(cfg, o.state)
             && Tenancy.Unjoined(o.state.world, cfg.server, n, r.username) ==
                 Tenancy.Unjoined(s.world, cfg.server, n, r.username)))
      && (o.result == Success ==>
            o.state == s.(world := Tenancy.Unjoined(s.world, cfg.server, n, r.username), bindings := s.bindings - {b}))
      && (o.result == Failure(Deleting) ==>
            o.state == s.(world := Tenancy.Unjoined(s.world, cfg.server, n, r.username)))
      && (Quiet(faults, clock) ==> o.result == Success)
  {
    hide Served, Safe, Tenancy.Unjoined, Tenancy.Unbind, Leavable;
    var r := s.bindings[b];
    var n := NamesOf(cfg, r.instanceId, s.instances[r.instanceId]);
    var t := Tenancy.Unbind(cfg.server, n, r.username);
    var a := Execute(t, s, faults, clock);
    AfterExecutes(t, DeleteBinding(b), s, faults, clock);
    DeleteBindingExecutes(b, a.state, faults, a.clock);
    UnbindSql(cfg, b, s, faults, clock);
    IsLeavable(cfg, s, b);
    UnbindCanBeRepeated(s, cfg.server, n, r.username, faults, clock);
  }

  lemma StoppedUnbindAttempt(cfg: Config, key: Vault.Encryptor, b: string, env: Env, s: State)
    requires Served(cfg) && Safe(cfg, s) && b in s.bindings && s.bindings[b].instanceId in s.instances
    requires Serve(cfg, key, Request.Unbind(s.bindings[b].instanceId, b, cfg.serviceId), env, s).result
      in {Failure(Reading), Failure(Administering)}
    ensures var r := s.bindings[b];
      var n := NamesOf(cfg, r.instanceId, s.instances[r.instanceId]);
      var s' := Serve(cfg, key, Request.Unbind(r.instanceId, b, cfg.serviceId), env, s).state;
      && s' == s.(world := s'.world) && Safe(cfg, s')
      && Tenancy.Unjoined(s'.world, cfg.server, n, r.username) == Tenancy.Unjoined(s.world, cfg.server, n, r.username)
  {
    hide Served, Safe, Tenancy.Unjoined, Serve, Execute, UnbindTree;
    ServeAnswersOrActs(cfg, key, Request.Unbind(s.bindings[b].instanceId, b, cfg.serviceId), env, s);
    UnbindTreeStops(cfg, b, s, env.faults, 2);
  }

  /** One undisturbed unbind of a readable binding. */
  lemma UnbindFinishes(cfg: Config, key: Vault.Encryptor, b: string, env: Env, s: State)
    requires Served(cfg) && Safe(cfg, s) && b in s.bindings && s.bindings[b].instanceId in s.instances
    requires Info(cfg, key, s.bindings[b]).Some? && Quiet(env.faults, 0)
    ensures var r := s.bindings[b];
      var o := Serve(cfg, key, Request.Unbind(r.instanceId, b, cfg.serviceId), env, s);
      && o.result == Success
      && o.state == s.(world := Tenancy.Unjoined(s.world, cfg.server,
          NamesOf(cfg, r.instanceId, s.instances[r.instanceId]), r.username),
                       bindings := s.bindings - {b})
  {
    hide Served, Safe, Tenancy.Unjoined, Execute, UnbindTree, Info;
    InfoKeepsColumns(cfg, key, s.bindings[b]);
    UnbindTreeStops(cfg, b, s, env.faults, 2);
  }

  /** The same for unbinding: stopped attempts, wherever they were stopped, do not change where the next
      undisturbed one ends. */
  lemma {:induction false} UnbindConverges(cfg: Config, key: Vault.Encryptor, b: string, envs: seq<Env>, env: Env,
          s: State, end: State)
    requires Served(cfg) && Safe(cfg, s) && b in s.bindings && s.bindings[b].instanceId in s.instances
    requires Info(cfg, key, s.bindings[b]).Some? && Quiet(env.faults, 0)
    requires StoppedAttempts(cfg, key, Request.Unbind(s.bindings[b].instanceId, b, cfg.serviceId), envs, s, end)
    ensures var req := Request.Unbind(s.bindings[b].instanceId, b, cfg.serviceId);
      && Serve(cfg, key, req, env, end).result == Success
      && Serve(cfg, key, req, env, end).state == Serve(cfg, key, req, env, s).state
    decreases envs
  {
    hide Served, Safe, Tenancy.Unjoined, Serve, Info;
    UnbindFinishes(cfg, key, b, env, s);
    if envs != [] {
      var s1 := Serve(cfg, key, Request.Unbind(s.bindings[b].instanceId, b, cfg.serviceId), envs[0], s).state;
      StoppedUnbindAttempt(cfg, key, b, envs[0], s);
      UnbindFinishes(cfg, key, b, env, s1);
      UnbindConverges(cfg, key, b, envs[1..], env, s1, end);
    }
  }

  /** ... and its boundary: with the user gone and the record left, no later unbind ever succeeds. */
  lemma UnbindGetsStuck(cfg: Config, key: Vault.Encryptor, b: string, env: Env, s: State)
    requires b in s.bindings && s.bindings[b].instanceId in s.instances && s.bindings[b].username !in s.world.roles
    ensures var o := Serve(cfg, key, Request.Unbind(s.bindings[b].instanceId, b, cfg.serviceId), env, s);
      o.state == s && o.result != Success
  {
    hide Execute, UnbindTree, Info;
    InfoKeepsColumns(cfg, key, s.bindings[b]);
    UnbindWithoutUser(cfg, b, s, env.faults, 2);
  }

  lemma UnbindWithoutUser(cfg: Config, b: string, s: State, faults: Faults, clock: nat)
    requires b in s.bindings && s.bindings[b].instanceId in s.instances && s.bindings[b].username !in s.world.roles
    ensures var r := s.bindings[b];
      var o := Execute(UnbindTree(cfg, r.instanceId, s.instances[r.instanceId], b, r.username), s, faults, clock);
      o.state == s && o.result == Failure(Administering)
  {
    hide Execute, Tenancy.Unbind;
    var r := s.bindings[b];
    var c, n := cfg.server, NamesOf(cfg, r.instanceId, s.instances[r.instanceId]);
    var t := Tenancy.Unbind(c, n, r.username);
    AfterExecutes(t, DeleteBinding(b), s, faults, clock);
    FailingExecutes(t, s, faults, clock);
    UndoBeforeUser(s, c, n, r.username, faults, clock);
    UnbindNeedsUser(s, c, n, r.username, faults, clock);
  }

  lemma UnbindNeedsUser(s: State, c: Tenancy.Server, n: Names, user: string, faults: Faults, clock: nat)
    requires user !in s.world.roles
    ensures Execute(Tenancy.Unbind(c, n, user), s, faults, clock).result == Tenancy.Broken
  {
    var on, b := Tenancy.OnTenant(c, n), Tenancy.UnbindTenant(user);
    UnbindExecutes(s, c, n, user, faults, clock);
    assert Apply(s.world, on, b[1]) == Rejected;
    RejectedStatements(on, b[1..], s, faults, clock + 2);
    assert Attempt(Exec(on, b[0]), s, faults(clock + 1)).0 == s;
    assert !Execute(Statements(on, b), s, faults, clock + 1).result;
  }

  // ------------------------------------------------- exact replies

  lemma BoundIsRefused(cfg: Config, key: Vault.Encryptor, id: string, env: Env, s: State)
    requires Served(cfg) && AllWork(cfg, {key}, s) && id in s.instances && !Unbound(s, id)
    requires !env.faults(0) && !env.faults(1)
    ensures Serve(cfg, key, Request.Deprovision(id, cfg.serviceId), env, s) == Outcome(s, Invalid, 2)
  {
    hide Served, Execute, DeprovisionTree, Info, AllWork;
    WorkingBindingsAreRead(cfg, key, s);
    var b :| b in s.bindings && s.bindings[b].instanceId == id;
    assert b in InfosOf(cfg, key, s.bindings, id).bindings;
  }

  /** Undisturbed, an instance is removed with every trace exactly when it is stored and nothing is bound to it. */
  lemma DeprovisionReply(cfg: Config, key: Vault.Encryptor, id: string, env: Env, s: State)
    requires Served(cfg) && Safe(cfg, s) && AllWork(cfg, {key}, s) && Quiet(env.faults, 0)
    ensures var o := Serve(cfg, key, Request.Deprovision(id, cfg.serviceId), env, s);
      if id !in s.instances then o.result == NotFound && o.state == s
      else if !Unbound(s, id) then o.result == Invalid && o.state == s
      else
        && o.result == Success
        && o.state == s.(world := Tenancy.Removed(s.world, NamesOf(cfg, id, s.instances[id])),
            instances := s.instances - {id})
  {
    hide Served, Safe, Tenancy.Removed, Execute, DeprovisionTree, InfosOf, AllWork;
    if id in s.instances {
      if Unbound(s, id) {
        DeprovisionFinishes(cfg, key, id, env, s);
      } else {
        BoundIsRefused(cfg, key, id, env, s);
      }
    }
  }

  lemma OtherUnbindIsRefused(cfg: Config, key: Vault.Encryptor, id: string, b: string, env: Env, s: State)
    requires b in s.bindings ==> Info(cfg, key, s.bindings[b]).Some? && s.bindings[b].instanceId != id
    requires !env.faults(0) && !env.faults(1)
    ensures var o := Serve(cfg, key, Request.Unbind(id, b, cfg.serviceId), env, s);
      o.state == s && o.result == NotFound
  {
    hide Execute, UnbindTree, Info;
    if b in s.bindings {
      InfoKeepsColumns(cfg, key, s.bindings[b]);
    }
  }

  /** Undisturbed, a binding is removed with every trace of its user, and nothing else changes, exactly when it is
      stored for the instance that the request names. */
  lemma UnbindReply(cfg: Config, key: Vault.Encryptor, id: string, b: string, env: Env, s: State)
    requires Served(cfg) && Safe(cfg, s) && AllWork(cfg, {key}, s) && Quiet(env.faults, 0)
    ensures b in s.bindings ==> s.bindings[b].instanceId in s.instances
    ensures var o := Serve(cfg, key, Request.Unbind(id, b, cfg.serviceId), env, s);
      if b in s.bindings && s.bindings[b].instanceId == id
      then
        && o.result == Success && s.bindings[b].username !in o.state.world.roles
        && Unreferenced(o.state.world, s.bindings[b].username)
        && o.state == s.(bindings := s.bindings - {b}, world :=
             Tenancy.Unjoined(s.world, cfg.server, NamesOf(cfg, id, s.instances[id]), s.bindings[b].username))
      else o.result == NotFound && o.state == s
  {
    hide Served, Safe, Serve, AllWork, Info, Unreferenced;
    WorkingBindingsAreRead(cfg, key, s);
    if b in s.bindings {
      InstanceOfBinding(cfg, s, b);
    }
    if b in s.bindings && s.bindings[b].instanceId == id {
      UnbindFinishes(cfg, key, b, env, s);
      LeavableUserGoes(cfg, s, b);
    } else {
      OtherUnbindIsRefused(cfg, key, id, b, env, s);
    }
  }

  lemma LeavableUserGoes(cfg: Config, s: State, b: string)
    requires Safe(cfg, s) && b in s.bindings && s.bindings[b].instanceId in s.instances
    ensures var r := s.bindings[b];
      var u := Tenancy.Unjoined(s.world, cfg.server, NamesOf(cfg, r.instanceId, s.instances[r.instanceId]), r.username);
      r.username !in u.roles && Unreferenced(u, r.username)
  {
    hide Safe, Unreferenced;
    var r := s.bindings[b];
    IsLeavable(cfg, s, b);
    UnjoinedIsUnreferenced(s.world, cfg.server, NamesOf(cfg, r.instanceId, s.instances[r.instanceId]), r.username);
  }

  /** A bound application does not stand in the way of its own removal: after any run of requests, restarts and work of
      any applications in any databases, a binding that is still stored is removed by one undisturbed unbind, and
      nothing in the catalog refers to its user any more. */
  lemma WorkedBindingCanBeRemoved(cfg: Config, node: Node, events: seq<Event>, end: Node, b: string, env: Env)
    requires Served(cfg) && Good(cfg, node) && Reaches(cfg, node, events, end) && AllTidy(cfg, node, events)
    requires end.retiring.None? && b in end.state.bindings && Quiet(env.faults, 0)
    ensures var s := end.state;
      var o := Serve(cfg, end.key, Request.Unbind(s.bindings[b].instanceId, b, cfg.serviceId), env, s);
      && o.result == Success && o.state.bindings == s.bindings - {b} && o.state.instances == s.instances
      && s.bindings[b].username !in o.state.world.roles && Unreferenced(o.state.world, s.bindings[b].username)
  {
    hide Served, Safe, Serve, AllWork, Reaches, AllTidy, Unreferenced;
    RunsStayGood(cfg, node, events, end);
    UnbindReply(cfg, end.key, end.state.bindings[b].instanceId, b, env, end.state);
  }

  // ------------------------------------------------- failed creations

  /** A provision that meets at most one fault leaves everything as it was when the fault is in its read, in one of its
      three probes or in one of the thirteen steps that create the tenant; when the fault is in one of the two steps
      that write the record, the whole tenant stands without a record; and otherwise it succeeds. */
  lemma ProvisionUnderOneFault(cfg: Config, key: Vault.Encryptor, id: string, plan: string, raw: Params.Raw,
          env: Env, s: State, at: nat)
    requires Served(cfg) && Safe(cfg, s) && OnlyFault(env.faults, at)
    requires id !in s.instances && Spec(cfg, plan, raw).Some?
    ensures var o := Serve(cfg, key, Request.Provision(id, cfg.serviceId, plan, raw), env, s);
      var p := Spec(cfg, plan, raw).value;
      var n := cfg.naming.instance(id, p.name);
      var made := s.(world := Provisioned(s.world, cfg.server, n, p, env.password));
      if !Fresh(s.world, n) then o.state == s && o.result != Success
      else if env.faults(at) && at < 17 then o.state == s && o.result.Failure? && o.result != Failure(Writing)
      else if env.faults(at) && at < 19 then o.state == made && o.result == Failure(Writing)
      else
        && o.result == Success
        && o.state == made.(instances := s.instances[id := InstanceRecord(cfg.serviceId, plan, n.database, p)])
  {
    hide Served, Safe, Execute, Spec, ProvisionTree, Provisioned, Fresh, OnlyFault;
    ProvisionTreeUnderOneFault(cfg, id, plan, Spec(cfg, plan, raw).value, env.password, s, env.faults, 1, at);
    OnlyFaultAt(env.faults, at, 0);
  }

  lemma ProvisionTreeUnderOneFault(cfg: Config, id: string, planId: string, p: InstanceParams, password: string,
          s: State, faults: Faults, clock: nat, at: nat)
    requires Served(cfg) && Safe(cfg, s) && id !in s.instances && OnlyFault(faults, at)
    ensures var o := Execute(ProvisionTree(cfg, id, planId, p, password), s, faults, clock);
      var n := cfg.naming.instance(id, p.name);
      var made := s.(world := Provisioned(s.world, cfg.server, n, p, password));
      if !Fresh(s.world, n) then o.state == s && o.result in {Conflict, Failure(Administering)}
      else if faults(at) && clock <= at < clock + 16 then o.state == s && o.result == Failure(Administering)
      else if faults(at) && clock + 16 <= at < clock + 18 then o.state == made && o.result == Failure(Writing)
      else
        && o.result == Success
        && o.state == made.(instances := s.instances[id := InstanceRecord(cfg.serviceId, planId, n.database, p)])
  {
    hide Served, Safe, Provisioned, Interrupted, Fresh, Execute, OnlyFault;
    var c, n := cfg.server, cfg.naming.instance(id, p.name);
    var r := InstanceRecord(cfg.serviceId, planId, n.database, p);
    var t := Tenancy.Provision(c, n, p, password);
    var a := Execute(t, s, faults, clock);
    AfterExecutes(t, PutInstance(id, r, Success), s, faults, clock);
    ProvisionProbes(s, c, n, p, password, faults, clock);
    PutInstanceExecutes(id, r, a.state, faults, a.clock);
    OnlyFaultInterrupts(faults, at, clock, 3);
    OnlyFaultAt(faults, at, a.clock);
    OnlyFaultAt(faults, at, a.clock + 1);
    CatalogOf(cfg, s);
    if Fresh(s.world, n) && !Interrupted(faults, clock, 3) {
      CatalogIsReady(cfg, s, n);
      CreationIsAllOrNothing(s, c, n, p, password, faults, clock + 3, at);
      CreationDone(s, c, n, p, password, faults, clock + 3);
      OnlyFaultInterrupts(faults, at, clock + 3, 13);
    }
  }

  /** A bind that meets at most one fault leaves everything as it was when the fault comes before CREATE USER has gone
      through. Later on its rollback restores the state if and only if the tenant's database is there and no schema had
      the user's name; when the fault is in one of the two steps that write the record, the joined user stands without
      a record; and otherwise it succeeds. */
  lemma BindUnderOneFault(cfg: Config, key: Vault.Encryptor, id: string, b: string, raw: Params.Raw, env: Env,
          s: State, at: nat)
    requires Served(cfg) && Safe(cfg, s) && OnlyFault(env.faults, at) && BindingSpec(cfg, raw).Some?
    requires id in s.instances && b !in s.bindings && cfg.server.database in s.world.databases
    ensures var o := Serve(cfg, key, Request.Bind(id, b, cfg.serviceId, raw), env, s);
      var p, n := BindingSpec(cfg, raw).value, NamesOf(cfg, id, s.instances[id]);
      var user, there := cfg.naming.user(b, p.name), n.database in s.world.databases;
      if user in s.world.roles || (env.faults(at) && at < 5) then o.state == s && !o.result.Bound?
      else if !there || (env.faults(at) && at < 9) then
        && o.result == Failure(Administering)
        && (o.state == s <==> there && user !in s.world.databases[cfg.server.database].schemas)
      else
        n.database != cfg.server.database &&
        var joined := s.(world := Joined(s.world, cfg.server, n, user, env.password));
        if env.faults(at) && at < 11 then o.result == Failure(Writing) && o.state == joined
        else
          && o.result == Bound(cfg.credentials(n.database, user, env.password))
          && o.state == joined.(bindings := s.bindings[b := NewBinding(cfg, key, env, id, n, b, p)])
  {
    hide Served, Safe, Execute, BindTree, Info, BindingSpec, OnlyFault, Joined, NewBinding;
    BindTreeUnderOneFault(cfg, key, env, id, b, BindingSpec(cfg, raw).value, s, 2, at);
    OnlyFaultAt(env.faults, at, 0);
    OnlyFaultAt(env.faults, at, 1);
  }

  lemma BindTreeUnderOneFault(cfg: Config, e: Vault.Encryptor, env: Env, id: string, b: string, p: BindingParams,
          s: State, clock: nat, at: nat)
    requires Served(cfg) && Safe(cfg, s) && id in s.instances && OnlyFault(env.faults, at)
    requires cfg.server.database in s.world.databases
    ensures var o := Execute(BindTree(cfg, e, env, id, s.instances[id], b, p), s, env.faults, clock);
      var n := NamesOf(cfg, id, s.instances[id]);
      var user, there := cfg.naming.user(b, p.name), n.database in s.world.databases;
      var fails := env.faults(at) && clock <= at;
      if user in s.world.roles || (fails && at < clock + 3) then o.state == s && !o.result.Bound?
      else if !there || (fails && at < clock + 7) then
        && o.result == Failure(Administering)
        && (o.state == s <==> there && user !in s.world.databases[cfg.server.database].schemas)
      else
        n.database != cfg.server.database &&
        var joined := s.(world := Joined(s.world, cfg.server, n, user, env.password));
        if fails && at < clock + 9 then o.result == Failure(Writing) && o.state == joined
        else
          && o.result == Bound(cfg.credentials(n.database, user, env.password))
          && o.state == joined.(bindings := s.bindings[b := NewBinding(cfg, e, env, id, n, b, p)])
  {
    hide Served, Safe, Interrupted, Execute, Joined, OnlyFault, NewBinding, Joinable, Leavable, Consistent;
    var c, n, user := cfg.server, NamesOf(cfg, id, s.instances[id]), cfg.naming.user(b, p.name);
    var t := Tenancy.Bind(c, n, user, env.password);
    var r := NewBinding(cfg, e, env, id, n, b, p);
    var done := Bound(cfg.credentials(n.database, user, env.password));
    var a := Execute(t, s, env.faults, clock);
    AfterExecutes(t, PutBinding(b, r, done), s, env.faults, clock);
    BindProbes(s, c, n, user, env.password, env.faults, clock);
    PutBindingExecutes(b, r, done, a.state, env.faults, a.clock);
    OnlyFaultAt(env.faults, at, clock);
    OnlyFaultAt(env.faults, at, a.clock);
    OnlyFaultAt(env.faults, at, a.clock + 1);
    if user !in s.world.roles {
      OnlyFaultAt(env.faults, at, clock + 1);
      OnlyFaultAt(env.faults, at, clock + 2);
      IsJoinable(cfg, s, id, user);
      JoinableHere(s.world, c, n, user);
      BindCompensation(s, c, n, user, env.password, env.faults, clock + 1, at);
      JoiningDone(s, c, n, user, env.password, env.faults, clock + 1);
      OnlyFaultInterrupts(env.faults, at, clock + 1, 6);
    }
  }

  lemma JoinableHere(w: World, c: Tenancy.Server, n: Names, user: string)
    requires Joinable(w, c, n, user)
    ensures n.database != c.database && c.database in w.databases
  {
  }
}
