/** Whole runs of a broker: requests in the order the lock serves them, applications at work in between, and
    restarts that may rotate the encryption key. */
module Runs {
  import opened Wrappers
  import opened Names
  import opened Sql
  import opened State
  import opened Lifecycle
  import opened Operations
  import opened Safety
  import opened Isolation
  import opened Secrets
  import opened Quotas
  import opened Activity
  import Params
  import Plans
  import R = Rotation
  import Tenancy
  import Uri
  import Vault

  /** `retiring` is the previous key of a rotation that has not succeeded yet; until it has, nothing is served. */
  datatype Node = Node(state: State, key: Vault.Encryptor, retiring: Option<Vault.Encryptor>)

  datatype Event =
    | Handle(request: Request, env: Env)
    | Work(binding: string, database: string, stmt: Stmt)
    | Restart(key: Vault.Encryptor, previous: Option<Vault.Encryptor>, order: seq<string>, faults: string -> bool,
        nonces: string -> Vault.Bytes)

  function Keys(key: Vault.Encryptor, other: Option<Vault.Encryptor>): set<Vault.Encryptor>
  {
    match other case None => {key} case Some(k) => {key, k}
  }

  function TurnOf(cfg: Config, ev: Event): R.Turn
    requires ev.Restart? && ev.previous.Some?
  {
    R.Turn(cfg.vault, ev.key, ev.previous.value, ev.faults, ev.nonces)
  }

  /** What the operator and the environment owe a run: nonces have their size, a rotation has a current key and
      goes over the whole table, and no restart takes away a key that is still needed. */
  ghost predicate Possible(cfg: Config, node: Node, ev: Event)
  {
    match ev
    case Handle(_, env) => |env.nonce| == Vault.NONCE_SIZE
    case Work(_, _, _) => true
    case Restart(key, previous, order, _, nonces) =>
      && Keys(node.key, node.retiring) <= Keys(key, previous)
      && R.Lists(order, node.state.bindings)
      && (previous.Some? ==> key.Gcm? && previous.value.Gcm?)
      && (forall id :: |nonces(id)| == Vault.NONCE_SIZE)
  }

  function Step(cfg: Config, node: Node, ev: Event): Node
    requires ev.Restart? ==> forall b | b in ev.order :: b in node.state.bindings
  {
    match ev
    case Handle(req, env) =>
      if node.retiring.Some? then node else node.(state := Serve(cfg, node.key, req, env, node.state).state)
    case Work(b, d, t) => node.(state := Worked(node.state, b, d, t))
    case Restart(key, previous, order, _, _) =>
      if previous.None? then Node(node.state, key, None)
      else
        var r := R.Rotate(TurnOf(cfg, ev), node.state.bindings, order);
        Node(node.state.(bindings := r.bindings), key, if r.ok then None else previous)
  }

  /** The environment does not let a removal through and then make nothing but the deletion of its record fail. */
  ghost predicate Tidy(cfg: Config, node: Node, ev: Event)
  {
    ev.Handle? && node.retiring.None? ==> !Severs(cfg, node.key, ev.request, ev.env, node.state)
  }

  /** The run from `node` through all events. */
  ghost predicate Reaches(cfg: Config, node: Node, events: seq<Event>, end: Node)
    decreases events
  {
    if events == [] then node == end
    else Possible(cfg, node, events[0]) && Reaches(cfg, Step(cfg, node, events[0]), events[1..], end)
  }

  ghost predicate AllTidy(cfg: Config, node: Node, events: seq<Event>)
    decreases events
  {
    events == [] || (Possible(cfg, node, events[0]) && Tidy(cfg, node, events[0])
        && AllTidy(cfg, Step(cfg, node, events[0]), events[1..]))
  }

  /** A broker with nothing stored, on any catalog in which its admin can work. */
  ghost predicate Initial(cfg: Config, node: Node)
  {
    && node.state.instances == map[] && node.state.bindings == map[] && CatalogReady(cfg, node.state.world)
  }

  /** The invariant of every run. */
  ghost predicate Good(cfg: Config, node: Node)
  {
    Safe(cfg, node.state) && AllWork(cfg, Keys(node.key, node.retiring), node.state)
  }

  /** What a broker is started with meets the assumptions of everything here: derived names under an accepted prefix,
      the URI-carrying credentials, and a validated plans file whose limits are exact as float64. */
  lemma ConfiguredBrokerIsServed(cfg: Config, lib: Library, prefix: string, settings: Uri.Settings)
    requires AcceptedPrefix(prefix) && cfg.naming == Derived(lib, prefix)
    requires cfg.credentials == ((d, u, p) => Uri.Credentials(settings, d, u, p))
    requires Plans.Usable(cfg.plans) && forall p | p in cfg.plans ::
      p.storageGb <= Params.EXACT && p.maxConnections <= Params.EXACT
    requires Params.Lawful(cfg.params) && Vault.Lawful(cfg.vault)
    ensures Served(cfg)
  {
    DerivedNamingIsSound(lib, prefix);
    forall p | p in cfg.plans ensures Params.Sized(p) {
      var i :| 0 <= i < |cfg.plans| && cfg.plans[i] == p;
      assert Plans.WellFormed(cfg.plans[i]);
    }
  }

  lemma InitialIsGood(cfg: Config, node: Node)
    requires Initial(cfg, node)
    ensures Good(cfg, node) && AllIntact(cfg, node.state)
  {
  }

  /** The catalog of a server with nothing but its admin, the admin's database and the default tablespace. */
  function PlainCatalog(c: Tenancy.Server): World
  {
    var store := "pg_default";
    World(map[c.user := Role(true, "")], {},
          map[c.database := Database(c.user, store, "UTF8", "PG", -1, true, {}, {}, {}, false, {}, map[], map[])],
          map[store := Tablespace(c.user, "", 0)])
  }

  lemma PlainCatalogIsInitial(cfg: Config, key: Vault.Encryptor)
    ensures Initial(cfg, Node(State(PlainCatalog(cfg.server), map[], map[]), key, None))
  {
    var c := cfg.server;
    var d := PlainCatalog(c).databases[c.database];
    assert forall r | Mentions(d, r) :: r == c.user;
    assert Resolved(PlainCatalog(c), d);
  }

  // ------------------------------------------------- rotation

  predicate SameButCredentials(m: map<string, BindingRecord>, m': map<string, BindingRecord>)
  {
    m'.Keys == m.Keys && forall b | b in m :: R.SameColumns(m[b], m'[b])
  }

  lemma RotationKeepsSafe(cfg: Config, s: State, bindings: map<string, BindingRecord>)
    requires Safe(cfg, s) && SameButCredentials(s.bindings, bindings)
    ensures Safe(cfg, s.(bindings := bindings))
  {
    hide InstanceSafe, CatalogReady;
    var s' := s.(bindings := bindings);
    forall b | b in s'.bindings ensures BindingSafe(cfg, s', b, s'.bindings[b]) {
      assert BindingSafe(cfg, s, b, s.bindings[b]);
      assert UserOfBinding(cfg, s.world, b, s.bindings[b], s.instances[s.bindings[b].instanceId]);
    }
    assert StoredSafe(cfg, s', s'.world);
  }

  /** A stored column written under one of two keys is read by trying both, and stays readable when settled. */
  lemma SettledStillWorks(cfg: Config, keys: set<Vault.Encryptor>, t: R.Turn, id: string, s: State, r: BindingRecord)
    requires Served(cfg) && R.Sound(t) && t.lib == cfg.vault && t.current.Gcm? && t.previous.Gcm?
    requires keys <= {t.current, t.previous} && BindingWorks(cfg, keys, s, r)
    ensures R.Readable(t, r)
    ensures BindingWorks(cfg, {t.current}, s, R.Settle(t, id, r)) && BindingWorks(cfg, {t.current, t.previous}, s, r)
  {
    var credentials := cfg.credentials(s.instances[r.instanceId].database, r.username,
        s.world.roles[r.username].password);
    var key, nonce :| key in keys && WrittenWith(cfg, key, r, credentials, nonce);
    var plain := cfg.vault.marshal(credentials);
    Vault.StoreThenPlain(cfg.vault, key, plain, nonce);
    var r' := R.Settle(t, id, r);
    if key == t.current {
      assert WrittenWith(cfg, t.current, r', credentials, nonce);
    } else {
      assert Vault.Plain(cfg.vault, t.current, r.credentials) == None;
      assert WrittenWith(cfg, t.current, r', credentials, t.nonces(id));
    }
    assert key in {t.current, t.previous} && WrittenWith(cfg, key, r, credentials, nonce);
  }

  lemma MoreKeysStillWork(cfg: Config, keys: set<Vault.Encryptor>, keys': set<Vault.Encryptor>, s: State,
          r: BindingRecord)
    requires BindingWorks(cfg, keys, s, r) && keys <= keys'
    ensures BindingWorks(cfg, keys', s, r)
  {
  }

  lemma OtherBindingsDoNotMatter(cfg: Config, keys: set<Vault.Encryptor>, s: State, bindings: map<string,
          BindingRecord>, r: BindingRecord)
    ensures BindingWorks(cfg, keys, s.(bindings := bindings), r) == BindingWorks(cfg, keys, s, r)
  {
  }

  lemma RotationKeepsWorking(cfg: Config, s: State, keys: set<Vault.Encryptor>, t: R.Turn, order: seq<string>)
    requires Served(cfg) && R.Sound(t) && t.lib == cfg.vault && t.current.Gcm? && t.previous.Gcm?
    requires AllWork(cfg, keys, s) && keys <= {t.current, t.previous} && R.Lists(order, s.bindings)
    ensures var r := R.Rotate(t, s.bindings, order);
      && SameButCredentials(s.bindings, r.bindings)
      && AllWork(cfg, if r.ok then {t.current} else {t.current, t.previous}, s.(bindings := r.bindings))
      && (r.ok <==> forall b | b in s.bindings :: R.Settled(t, s.bindings[b]) || !t.faults(b))
  {
    hide Served, BindingWorks, R.Rotate, R.Settle, R.Readable, R.Settled, R.Sound;
    R.RotationKeepsPlaintexts(t, s.bindings, order);
    R.RotateIsPointwise(t, s.bindings, order);
    var r := R.Rotate(t, s.bindings, order);
    var s' := s.(bindings := r.bindings);
    var k := R.Passed(t, s.bindings, order);
    forall b | b in s.bindings ensures R.Readable(t, s.bindings[b]) {
      assert BindingWorks(cfg, keys, s, s.bindings[b]);
      SettledStillWorks(cfg, keys, t, b, s, s.bindings[b]);
    }
    R.RotationSucceeds(t, s.bindings, order);
    forall b | b in s'.bindings
      ensures BindingWorks(cfg, if r.ok then {t.current} else {t.current, t.previous}, s', s'.bindings[b])
    {
      assert BindingWorks(cfg, keys, s, s.bindings[b]);
      SettledStillWorks(cfg, keys, t, b, s, s.bindings[b]);
      if r.ok {
        R.TakeAll(order);
      } else if b in order[..k] {
        MoreKeysStillWork(cfg, {t.current}, {t.current, t.previous}, s, s'.bindings[b]);
      }
      OtherBindingsDoNotMatter(cfg, if r.ok then {t.current}
          else {t.current, t.previous}, s, r.bindings, s'.bindings[b]);
    }
  }

  lemma RestartKeepsGood(cfg: Config, node: Node, ev: Event)
    requires Served(cfg) && Good(cfg, node) && Possible(cfg, node, ev) && ev.Restart?
    ensures Good(cfg, Step(cfg, node, ev))
  {
    hide Served, Safe, BindingWorks, R.Rotate, SameButCredentials;
    if ev.previous.None? {
      forall b | b in node.state.bindings ensures BindingWorks(cfg, {ev.key}, node.state, node.state.bindings[b]) {
        MoreKeysStillWork(cfg, Keys(node.key, node.retiring), {ev.key}, node.state, node.state.bindings[b]);
      }
    } else {
      var t := TurnOf(cfg, ev);
      VaultOf(cfg);
      RotationKeepsWorking(cfg, node.state, Keys(node.key, node.retiring), t, ev.order);
      RotationKeepsSafe(cfg, node.state, R.Rotate(t, node.state.bindings, ev.order).bindings);
    }
  }

  lemma VaultOf(cfg: Config)
    requires Served(cfg)
    ensures Vault.Lawful(cfg.vault)
  {
  }

  // ------------------------------------------------- runs

  lemma StepKeepsGood(cfg: Config, node: Node, ev: Event)
    requires Served(cfg) && Good(cfg, node) && Possible(cfg, node, ev) && Tidy(cfg, node, ev)
    ensures Good(cfg, Step(cfg, node, ev))
  {
    hide Served, Safe, AllWork, Serve, R.Rotate, Worked, Severs;
    match ev
    case Handle(req, env) =>
      if node.retiring.None? {
        ServeKeepsSafe(cfg, node.key, req, env, node.state);
        RequestsKeepCredentialsWorking(cfg, node.key, {node.key}, req, env, node.state);
      }
    case Work(b, d, t) =>
      ApplicationsKeepSafe(cfg, node.state, b, d, t);
      ApplicationsKeepCredentials(cfg, Keys(node.key, node.retiring), node.state, b, d, t);
    case Restart(_, _, _, _, _) =>
      RestartKeepsGood(cfg, node, ev);
  }

  /** In every state that any run reaches, whatever the environment makes fail in it, stored instances and
      bindings own their catalog objects, no two share one, and every stored credential opens its tenant. */
  lemma {:induction false} RunsStayGood(cfg: Config, node: Node, events: seq<Event>, end: Node)
    requires Served(cfg) && Good(cfg, node) && Reaches(cfg, node, events, end) && AllTidy(cfg, node, events)
    ensures Good(cfg, end)
    decreases events
  {
    hide Served, Good, Step, Tidy, Possible;
    if events != [] {
      StepPossible(cfg, node, events[0]);
      StepKeepsGood(cfg, node, events[0]);
      RunsStayGood(cfg, Step(cfg, node, events[0]), events[1..], end);
    }
  }

  lemma StepPossible(cfg: Config, node: Node, ev: Event)
    requires Possible(cfg, node, ev)
    ensures ev.Restart? ==> forall b | b in ev.order :: b in node.state.bindings
  {
  }

  /** The ownership half needs no less than that: after any event the state is safe exactly when the event was not a
      removal whose first failure is the deletion of its record. */
  lemma StepIsSafeExactlyWhenTidy(cfg: Config, node: Node, ev: Event)
    requires Served(cfg) && Good(cfg, node) && Possible(cfg, node, ev)
    ensures Safe(cfg, Step(cfg, node, ev).state) <==> Tidy(cfg, node, ev)
  {
    hide Served, Safe, AllWork, Serve, R.Rotate, Worked, Severs;
    if ev.Handle? && node.retiring.None? {
      ServeKeepsSafe(cfg, node.key, ev.request, ev.env, node.state);
    } else {
      StepKeepsGood(cfg, node, ev);
    }
  }

  /** An event that nothing disturbs from outside. */
  ghost predicate Undisturbed(ev: Event)
  {
    match ev
    case Handle(_, env) => Quiet(env.faults, 0)
    case Work(_, _, _) => true
    case Restart(_, _, _, faults, _) => forall b :: !faults(b)
  }

  predicate Fails(cfg: Config, node: Node, ev: Event)
  {
    ev.Handle? && node.retiring.None? && Serve(cfg, node.key, ev.request, ev.env, node.state).result.Failure?
  }

  ghost predicate NoneFails(cfg: Config, node: Node, events: seq<Event>)
    decreases events
  {
    events == [] || (Possible(cfg, node, events[0]) && !Fails(cfg, node, events[0])
        && NoneFails(cfg, Step(cfg, node, events[0]), events[1..]))
  }

  lemma UndisturbedStep(cfg: Config, node: Node, ev: Event)
    requires Served(cfg) && Good(cfg, node) && AllIntact(cfg, node.state) && Possible(cfg, node, ev) && Undisturbed(ev)
    ensures !Fails(cfg, node, ev) && Tidy(cfg, node, ev) && AllIntact(cfg, Step(cfg, node, ev).state)
  {
    hide Served, Safe, AllWork, Serve, R.Rotate, Worked, Intact;
    match ev
    case Handle(req, env) =>
      if node.retiring.None? {
        UndisturbedRequestsSucceed(cfg, node.key, req, env, node.state);
      }
    case Work(b, d, t) =>
      ApplicationsKeepIntact(cfg, node.state, b, d, t);
    case Restart(_, _, _, _, _) =>
  }

  /** A run in which nothing fails from outside fails nowhere: every statement of every batch is accepted, and in
      every state the server enforces exactly the recorded quotas and the admin is in no tenant's group. */
  lemma {:induction false} UndisturbedRunsNeverFail(cfg: Config, node: Node, events: seq<Event>, end: Node)
    requires Served(cfg) && Good(cfg, node) && AllIntact(cfg, node.state) && Reaches(cfg, node, events, end)
    requires forall i | 0 <= i < |events| :: Undisturbed(events[i])
    ensures NoneFails(cfg, node, events) && Good(cfg, end) && AllIntact(cfg, end.state)
    decreases events
  {
    hide Served, Good, Step, Tidy, Possible, AllIntact, Fails, Undisturbed;
    if events != [] {
      StepPossible(cfg, node, events[0]);
      UndisturbedStep(cfg, node, events[0]);
      StepKeepsGood(cfg, node, events[0]);
      UndisturbedRunsNeverFail(cfg, Step(cfg, node, events[0]), events[1..], end);
    }
  }

  // ------------------------------------------------- from the start

  /** Every run from an empty store is good throughout, with the same one exception. */
  lemma RunsFromEmptyStoresStayGood(cfg: Config, node: Node, events: seq<Event>, end: Node)
    requires Served(cfg) && Initial(cfg, node) && Reaches(cfg, node, events, end)
    ensures AllTidy(cfg, node, events) ==> Good(cfg, end)
    ensures (forall i | 0 <= i < |events| :: Undisturbed(events[i])) ==>
      NoneFails(cfg, node, events) && Good(cfg, end) && AllIntact(cfg, end.state)
  {
    hide Served, Good, AllIntact, Reaches, AllTidy, NoneFails, Undisturbed;
    InitialIsGood(cfg, node);
    if AllTidy(cfg, node, events) {
      RunsStayGood(cfg, node, events, end);
    }
    if forall i | 0 <= i < |events| :: Undisturbed(events[i]) {
      UndisturbedRunsNeverFail(cfg, node, events, end);
    }
  }

  /** An instance is made in peace; then it is removed, and of all steps only the tenth one fails: the removal's two
      reads and its seven steps of SQL go through, and the deletion of the record does not. */
  function LostDeletion(cfg: Config, id: string, plan: string, raw: Params.Raw, password: string,
          nonce: Vault.Bytes): seq<Event>
  {
    [Handle(Provision(id, cfg.serviceId, plan, raw), Env(_ => false, password, nonce)),
     Handle(Deprovision(id, cfg.serviceId), Env(i => i == 9, password, nonce))]
  }

  /** The exception is real: from an empty store, on any server where the derived names are free, that run ends with a
      stored instance whose group role does not exist. */
  lemma OneLostDeletionIsEnough(cfg: Config, node: Node, id: string, plan: string, raw: Params.Raw, password: string,
          nonce: Vault.Bytes) returns (end: Node)
    requires Served(cfg) && Initial(cfg, node) && node.retiring.None? && |nonce| == Vault.NONCE_SIZE
    requires Spec(cfg, plan, raw).Some?
    requires Fresh(node.state.world, cfg.naming.instance(id, Spec(cfg, plan, raw).value.name))
    ensures Reaches(cfg, node, LostDeletion(cfg, id, plan, raw, password, nonce), end)
    ensures id in end.state.instances && NamesOf(cfg, id, end.state.instances[id]).groupRole !in end.state.world.roles
    ensures !Safe(cfg, end.state)
  {
    hide Served, Safe, AllWork, Serve, Spec, Fresh, Interrupted;
    var events := LostDeletion(cfg, id, plan, raw, password, nonce);
    var made, lost := events[0], events[1];
    InitialIsGood(cfg, node);
    ProvisionReply(cfg, node.key, id, plan, raw, made.env, node.state);
    RequestsKeepRecords(cfg, node.key, made.request, made.env, node.state);
    StepKeepsGood(cfg, node, made);
    var middle := Step(cfg, node, made);
    end := Step(cfg, middle, lost);
    LostDeletionSevers(cfg, node.key, id, lost.env, middle.state);
    ReachesInTwo(cfg, node, made, lost);
  }

  lemma ReachesInTwo(cfg: Config, node: Node, first: Event, second: Event)
    requires Possible(cfg, node, first) && Possible(cfg, Step(cfg, node, first), second)
    ensures Reaches(cfg, node, [first, second], Step(cfg, Step(cfg, node, first), second))
  {
    hide Possible, Step;
    StepPossible(cfg, node, first);
    var middle := Step(cfg, node, first);
    StepPossible(cfg, middle, second);
    assert [first, second][1..] == [second] && [second][1..] == [];
    assert Reaches(cfg, Step(cfg, middle, second), [second][1..], Step(cfg, middle, second));
    assert Reaches(cfg, middle, [second], Step(cfg, middle, second));
  }

  lemma LostDeletionSevers(cfg: Config, key: Vault.Encryptor, id: string, env: Env, s: State)
    requires Served(cfg) && Safe(cfg, s) && id in s.instances && Unbound(s, id)
    requires forall i :: env.faults(i) <==> i == 9
    ensures var s' := Serve(cfg, key, Deprovision(id, cfg.serviceId), env, s).state;
      && !Safe(cfg, s') && id in s'.instances && NamesOf(cfg, id, s'.instances[id]).groupRole !in s'.world.roles
  {
    hide Served, Safe, Serve, Execute, DeprovisionTree, Tenancy.Removed;
    RemovalActs(cfg, key, Deprovision(id, cfg.serviceId), env, s);
    DeprovisionKeepsSafe(cfg, id, s, env.faults, 2);
    RemovedHasNoRole(s.world, NamesOf(cfg, id, s.instances[id]));
  }
}
