/** The one lock: any number of requests interleave as atomic steps, mutating ones under the lock, reading
    ones without it, and the outcome is that of some serial order. */
module Lock {
  import opened Wrappers
  import opened State
  import opened Operations
  import Safety
  import Sql
  import Tenancy
  import Vault

  datatype Job = Job(request: Request, env: Env)

  /** What never changes while the requests run. */
  datatype System = System(cfg: Config, key: Vault.Encryptor, start: State, jobs: seq<Job>)

  /** Where one request is. `first` holds the fact its first question gave. */
  datatype Local =
    | Entering
    | Asking(question: Question, first: Option<Fact>)
    | Acting(tree: Tree<Reply>)
    | Returning(reply: Reply)
    | Done(reply: Reply)

  /** `entered` lists the mutating requests in the order they took the lock; `since` records how many had given it
      back when a request started, and `until` how many had taken it when the request ended. */
  datatype Pool = Pool(
    state: State, holder: Option<nat>, locals: seq<Local>, clocks: seq<nat>, since: seq<nat>, until: seq<nat>,
        entered: seq<nat>)

  predicate Mutates(req: Request)
  {
    !req.GetInstance? && !req.GetBinding?
  }

  function Released(p: Pool): nat
  {
    if p.holder.Some? && |p.entered| > 0 then |p.entered| - 1 else |p.entered|
  }

  function Enter(phase: Phase, first: Option<Fact>): Local
  {
    match phase
    case Answer(r) => Returning(r)
    case Ask(q) => Asking(q, first)
    case Go(t) => Acting(t)
  }

  /** One atomic step of a request that has entered: a store read, or one step of its tree. */
  function Advance(sys: System, job: Job, local: Local, clock: nat, s: State): (State, Local)
    requires local.Asking? || local.Acting?
  {
    match local
    case Asking(q, None) =>
      var fact := Fetch(sys.cfg, sys.key, q, s, job.env.faults(clock));
      (s, Enter(AfterFirst(sys.cfg, job.request, job.env, fact), Some(fact)))
    case Asking(q, Some(first)) =>
      var fact := Fetch(sys.cfg, sys.key, q, s, job.env.faults(clock));
      (match AfterSecond(sys.cfg, sys.key, job.request, job.env, first, fact)
       case Answer(r) => (s, Returning(r))
       case Go(t) => (s, Acting(t))
       case Ask(_) => (s, Returning(NotFound)))
    case Acting(Leaf(r)) => (s, Returning(r))
    case Acting(Act(a, yes, no, error)) =>
      var (s', answer) := Attempt(a, s, job.env.faults(clock));
      (s', Acting(match answer case Yes => yes case No => no case Error => error))
  }

  function Ticks(local: Local): nat
  {
    if local.Asking? || (local.Acting? && local.tree.Act?) then 1 else 0
  }

  predicate Within(sys: System, order: seq<nat>)
  {
    forall k | 0 <= k < |order| :: order[k] < |sys.jobs|
  }

  predicate Fits(sys: System, p: Pool)
  {
    && |p.locals| == |sys.jobs| && |p.clocks| == |sys.jobs| && |p.since| == |sys.jobs|
    && |p.until| == |sys.jobs|
    && (p.holder.Some? ==> p.holder.value < |sys.jobs|)
    && Within(sys, p.entered)
  }

  /** Request `t` is scheduled for one step; a mutating request at the taken lock stays where it is. */
  function Step(sys: System, p: Pool, t: nat): (p': Pool)
    requires Fits(sys, p) && t < |sys.jobs|
    ensures Fits(sys, p')
  {
    var job, local := sys.jobs[t], p.locals[t];
    match local
    case Entering =>
      if Mutates(job.request) && p.holder.Some? then p
      else
        var p' := p.(locals := p.locals[t := Enter(Begin(sys.cfg, job.request), None)],
            since := p.since[t := Released(p)]);
        if Mutates(job.request) then p'.(holder := Some(t), entered := p.entered + [t]) else p'
    case Returning(r) =>
      p.(locals := p.locals[t := Done(r)], until := p.until[t := |p.entered|],
         holder := if p.holder == Some(t) then None else p.holder)
    case Done(_) => p
    case _ =>
      var (s, next) := Advance(sys, job, local, p.clocks[t], p.state);
      p.(state := s, locals := p.locals[t := next], clocks := p.clocks[t := p.clocks[t] + Ticks(local)])
  }

  function Run(sys: System, p: Pool, schedule: seq<nat>): (p': Pool)
    requires Fits(sys, p) && Within(sys, schedule)
    ensures Fits(sys, p')
    decreases schedule
  {
    if schedule == [] then p else Run(sys, Step(sys, p, schedule[0]), schedule[1..])
  }

  function Start(sys: System): (p: Pool)
    ensures Fits(sys, p)
  {
    var zeros := seq(|sys.jobs|, _ => 0);
    Pool(sys.start, None, seq(|sys.jobs|, _ => Entering), zeros, zeros, zeros, [])
  }

  /** The serial run: the given requests one after another, each alone. */
  function Serial(sys: System, order: seq<nat>): State
    requires Within(sys, order)
  {
    if order == [] then sys.start
    else
      var job := sys.jobs[order[|order| - 1]];
      Serve(sys.cfg, sys.key, job.request, job.env, Serial(sys, order[..|order| - 1])).state
  }

  /** What the request replies when it is served after the first `k` of the order. */
  function SerialReply(sys: System, order: seq<nat>, k: nat, i: nat): Reply
    requires Within(sys, order) && k <= |order| && i < |sys.jobs|
  {
    Serve(sys.cfg, sys.key, sys.jobs[i].request, sys.jobs[i].env, Serial(sys, order[..k])).result
  }

  // ------------------------------------------------- finishing alone

  /** What becomes of a request from where it is, if it runs to its end alone. */
  function Finish(sys: System, job: Job, local: Local, clock: nat, s: State): Outcome<Reply>
  {
    match local
    case Entering => Serve(sys.cfg, sys.key, job.request, job.env, s)
    case Asking(q, None) =>
      (match AfterFirst(sys.cfg, job.request, job.env, Fetch(sys.cfg, sys.key, q, s, job.env.faults(clock)))
       case Answer(r) => Outcome(s, r, clock + 1)
       case Go(t) => Execute(t, s, job.env.faults, clock + 1)
       case Ask(q2) => FinishSecond(sys, job, q2, Fetch(sys.cfg, sys.key, q, s, job.env.faults(clock)), clock + 1, s))
    case Asking(q, Some(first)) => FinishSecond(sys, job, q, first, clock, s)
    case Acting(t) => Execute(t, s, job.env.faults, clock)
    case Returning(r) => Outcome(s, r, clock)
    case Done(r) => Outcome(s, r, clock)
  }

  function FinishSecond(sys: System, job: Job, q: Question, first: Fact, clock: nat, s: State): Outcome<Reply>
  {
    match AfterSecond(sys.cfg, sys.key, job.request, job.env, first,
        Fetch(sys.cfg, sys.key, q, s, job.env.faults(clock)))
    case Answer(r) => Outcome(s, r, clock + 1)
    case Go(t) => Execute(t, s, job.env.faults, clock + 1)
    case Ask(_) => Outcome(s, NotFound, clock + 1)
  }

  lemma EnterFinishes(sys: System, job: Job, s: State)
    ensures Finish(sys, job, Enter(Begin(sys.cfg, job.request), None), 0, s) ==
      Serve(sys.cfg, sys.key, job.request, job.env, s)
  {
    hide Fetch, Execute, Begin, AfterFirst, AfterSecond;
  }

  lemma AdvanceFinishes(sys: System, job: Job, local: Local, clock: nat, s: State)
    requires local.Asking? || local.Acting?
    ensures var (s', next) := Advance(sys, job, local, clock, s);
      Finish(sys, job, next, clock + Ticks(local), s') == Finish(sys, job, local, clock, s)
  {
    hide Fetch, Begin, AfterFirst, AfterSecond, Attempt;
  }

  // ------------------------------------------------- at most one store write

  predicate Writes(a: Action)
  {
    a.InsertInstance? || a.ReplaceInstance? || a.RemoveInstance? || a.InsertBinding? || a.ReplaceBinding?
        || a.RemoveBinding?
  }

  predicate NoWrites<R>(t: Tree<R>)
  {
    t.Leaf? || (!Writes(t.action) && NoWrites(t.yes) && NoWrites(t.no) && NoWrites(t.error))
  }

  predicate WritesOnce<R>(t: Tree<R>)
  {
    t.Leaf?
    || (if Writes(t.action) then NoWrites(t.yes) && NoWrites(t.no) && NoWrites(t.error)
        else WritesOnce(t.yes) && WritesOnce(t.no) && WritesOnce(t.error))
  }

  predicate SameStore(s: State, s': State)
  {
    s.instances == s'.instances && s.bindings == s'.bindings
  }

  lemma {:induction false} NoWritesKeepsStore<R>(t: Tree<R>, s: State, faults: Faults, clock: nat)
    requires NoWrites(t)
    ensures SameStore(s, Execute(t, s, faults, clock).state)
  {
    if t.Act? {
      var (s', answer) := Attempt(t.action, s, faults(clock));
      NoWritesKeepsStore(Next(t, answer), s', faults, clock + 1);
    }
  }

  lemma {:induction false} SqlWritesNothing<R>(t: Tree<R>, allowed: (Sql.Session, Sql.Stmt) -> bool)
    requires SqlOnly(t, allowed)
    ensures NoWrites(t)
  {
    if t.Act? {
      SqlWritesNothing(t.yes, allowed);
      SqlWritesNothing(t.no, allowed);
      SqlWritesNothing(t.error, allowed);
    }
  }

  lemma {:induction false} RecordingWritesOnce(admin: Tree<Tenancy.Status>, record: Tree<Reply>)
    requires NoWrites(admin) && WritesOnce(record)
    ensures WritesOnce(After(admin, record))
  {
    GraftWritesOnce(admin, Recording(record));
  }

  lemma {:induction false} GraftWritesOnce(t: Tree<Tenancy.Status>, k: Tenancy.Status -> Tree<Reply>)
    requires NoWrites(t) && forall st :: WritesOnce(k(st))
    ensures WritesOnce(Graft(t, k))
  {
    if t.Act? {
      GraftWritesOnce(t.yes, k);
      GraftWritesOnce(t.no, k);
      GraftWritesOnce(t.error, k);
    }
  }

  lemma PutsWriteOnce(id: string, i: InstanceRecord, b: BindingRecord, done: Reply)
    ensures WritesOnce(PutInstance(id, i, done)) && WritesOnce(PutBinding(id, b, done))
    ensures WritesOnce(DeleteInstance(id)) && WritesOnce(DeleteBinding(id))
  {
    var write := Act(ReplaceInstance(id, i), Leaf(done), Refuse(Writing), Refuse(Writing));
    var insert := Act(InsertInstance(id, i), Leaf(done), Refuse(Writing), Refuse(Writing));
    assert WritesOnce(write) && WritesOnce(insert);
    var write' := Act(ReplaceBinding(id, b), Leaf(done), Refuse(Writing), Refuse(Writing));
    var insert' := Act(InsertBinding(id, b), Leaf(done), Refuse(Writing), Refuse(Writing));
    assert WritesOnce(write') && WritesOnce(insert');
  }

  lemma TenantTreesWriteOnce(cfg: Config, id: string, planId: string, p: InstanceParams, password: string,
          r: InstanceRecord)
    ensures WritesOnce(ProvisionTree(cfg, id, planId, p, password))
    ensures WritesOnce(UpdateTree(cfg, id, r)) && WritesOnce(DeprovisionTree(cfg, id, r))
  {
    hide Tenancy.Provision, Tenancy.Update, Tenancy.Deprovision, PutInstance, DeleteInstance, After;
    var n, m := cfg.naming.instance(id, p.name), cfg.naming.instance(id, r.params.name);
    Tenancy.TenantOperationsStayInside(cfg.server, n, p, password);
    Tenancy.TenantOperationsStayInside(cfg.server, m, r.params, password);
    SqlWritesNothing(Tenancy.Provision(cfg.server, n, p, password), Tenancy.TenantStatements(cfg.server, n));
    SqlWritesNothing(Tenancy.Update(cfg.server, m, r.params), Tenancy.TenantStatements(cfg.server, m));
    SqlWritesNothing(Tenancy.Deprovision(cfg.server, m), Tenancy.TenantStatements(cfg.server, m));
    var record := InstanceRecord(cfg.serviceId, planId, n.database, p);
    var none := BindingRecord("", "", BindingParams(""), "");
    PutsWriteOnce(id, record, none, Success);
    PutsWriteOnce(id, r, none, Success);
    RecordingWritesOnce(Tenancy.Provision(cfg.server, n, p, password), PutInstance(id, record, Success));
    RecordingWritesOnce(Tenancy.Update(cfg.server, m, r.params), PutInstance(id, r, Success));
    RecordingWritesOnce(Tenancy.Deprovision(cfg.server, m), DeleteInstance(id));
  }

  lemma UserTreesWriteOnce(cfg: Config, e: Vault.Encryptor, env: Env, id: string, r: InstanceRecord, b: string,
          p: BindingParams, user: string)
    ensures WritesOnce(BindTree(cfg, e, env, id, r, b, p)) && WritesOnce(UnbindTree(cfg, id, r, b, user))
  {
    hide Tenancy.Bind, Tenancy.Unbind, PutBinding, DeleteBinding, After;
    var n, u := cfg.naming.instance(id, r.params.name), cfg.naming.user(b, p.name);
    Tenancy.UserOperationsStayInside(cfg.server, n, u, env.password);
    Tenancy.UserOperationsStayInside(cfg.server, n, user, env.password);
    SqlWritesNothing(Tenancy.Bind(cfg.server, n, u, env.password), Tenancy.UserStatements(cfg.server, n, u));
    SqlWritesNothing(Tenancy.Unbind(cfg.server, n, user), Tenancy.UserStatements(cfg.server, n, user));
    var record := NewBinding(cfg, e, env, id, n, b, p);
    var done := Bound(cfg.credentials(n.database, u, env.password));
    PutsWriteOnce(b, r, record, done);
    RecordingWritesOnce(Tenancy.Bind(cfg.server, n, u, env.password), PutBinding(b, record, done));
    RecordingWritesOnce(Tenancy.Unbind(cfg.server, n, user), DeleteBinding(b));
  }

  /** Every tree a request can go on with writes the store at most once. */
  lemma RequestsWriteOnce(sys: System, job: Job, first: Fact, fact: Fact)
    ensures var phase := AfterFirst(sys.cfg, job.request, job.env, fact);
      phase.Go? ==> WritesOnce(phase.tree)
    ensures var phase := AfterSecond(sys.cfg, sys.key, job.request, job.env, first, fact);
      phase.Go? ==> WritesOnce(phase.tree)
    ensures !Begin(sys.cfg, job.request).Go?
  {
    hide WritesOnce, ProvisionTree, UpdateTree, DeprovisionTree, BindTree, UnbindTree, Spec, Change, BindingSpec;
    var cfg, env := sys.cfg, job.env;
    match job.request
    case Provision(id, _, plan, raw) =>
      if Spec(cfg, plan, raw).Some? {
        TenantTreesWriteOnce(cfg, id, plan, Spec(cfg, plan, raw).value, env.password,
            InstanceRecord("", "", "", Spec(cfg, plan, raw).value));
      }
    case Update(id, _, _, raw) =>
      if fact.TheInstance? && fact.instance.Some? && Change(cfg, fact.instance.value.planId, raw).Some? {
        var p := Change(cfg, fact.instance.value.planId, raw).value;
        TenantTreesWriteOnce(cfg, id, "", p, env.password, Updated(fact.instance.value, p));
      }
    case Deprovision(id, _) =>
      if first.TheInstance? && first.instance.Some? {
        TenantTreesWriteOnce(cfg, id, "", first.instance.value.params, env.password, first.instance.value);
      }
    case Bind(id, b, _, raw) =>
      if first.TheInstance? && first.instance.Some? && BindingSpec(cfg, raw).Some? {
        UserTreesWriteOnce(cfg, sys.key, env, id, first.instance.value, b, BindingSpec(cfg, raw).value, "");
      }
    case Unbind(id, b, _) =>
      if first.TheInstance? && first.instance.Some? && fact.TheBinding? && fact.binding.Some? {
        UserTreesWriteOnce(cfg, sys.key, env, id, first.instance.value, b, BindingParams(""),
            fact.binding.value.username);
      }
    case GetInstance(_) =>
    case GetBinding(_) =>
  }

  // ------------------------------------------------- the invariant

  predicate Under(local: Local) { local.Asking? || local.Acting? || local.Returning? }

  /** The request at work has not written the store yet, and will at most once. */
  ghost predicate Unwritten(before: State, local: Local, s: State)
  {
    SameStore(before, s) && (local.Acting? ==> WritesOnce(local.tree))
  }

  /** It has made its one store write, if it makes any. */
  predicate Written(local: Local)
  {
    !local.Asking? && (local.Acting? ==> NoWrites(local.tree))
  }

  ghost predicate HolderFine(sys: System, p: Pool)
    requires Fits(sys, p)
  {
    match p.holder
    case None => p.state == Serial(sys, p.entered)
    case Some(h) =>
      && p.entered != [] && p.entered[|p.entered| - 1] == h && Mutates(sys.jobs[h].request) && Under(p.locals[h])
      && var before := Serial(sys, p.entered[..|p.entered| - 1]);
      && Finish(sys, sys.jobs[h], p.locals[h], p.clocks[h], p.state) ==
          Serve(sys.cfg, sys.key, sys.jobs[h].request, sys.jobs[h].env, before)
      && (Unwritten(before, p.locals[h], p.state) || Written(p.locals[h]))
  }

  /** The request at place `k` of the order is `i`, and has replied as in the serial run. */
  predicate RepliedAt(sys: System, entered: seq<nat>, k: nat, i: nat, r: Reply)
    requires Within(sys, entered) && i < |sys.jobs|
  {
    k < |entered| && entered[k] == i && r == SerialReply(sys, entered, k, i)
  }

  /** A reader's reply is the one it would get after the first `k` of the order. */
  predicate ReadAt(sys: System, entered: seq<nat>, k: nat, i: nat, r: Reply)
    requires Within(sys, entered) && i < |sys.jobs|
  {
    k <= |entered| && r == SerialReply(sys, entered, k, i)
  }

  ghost predicate MutatorFine(sys: System, p: Pool, i: nat)
    requires Fits(sys, p) && i < |sys.jobs|
  {
    match p.locals[i]
    case Entering => i !in p.entered && p.clocks[i] == 0
    case Done(r) => exists k: nat :: p.since[i] <= k < p.until[i] && RepliedAt(sys, p.entered, k, i, r)
    case _ => p.holder == Some(i) && p.since[i] + 1 == |p.entered|
  }

  ghost predicate ReaderFine(sys: System, p: Pool, i: nat)
    requires Fits(sys, p) && i < |sys.jobs|
  {
    && p.holder != Some(i) && i !in p.entered
    && match p.locals[i]
       case Entering => p.clocks[i] == 0
       case Asking(q, first) =>
         && first.None? && p.clocks[i] == 0 && Begin(sys.cfg, sys.jobs[i].request) == Ask(q)
         && p.since[i] <= Released(p)
       case Acting(_) => false
       case Returning(r) => exists k: nat :: p.since[i] <= k && ReadAt(sys, p.entered, k, i, r)
       case Done(r) => exists k: nat :: p.since[i] <= k <= p.until[i] && ReadAt(sys, p.entered, k, i, r)
  }

  ghost predicate RequestFine(sys: System, p: Pool, i: nat)
    requires Fits(sys, p) && i < |sys.jobs|
  {
    if Mutates(sys.jobs[i].request) then MutatorFine(sys, p, i) else ReaderFine(sys, p, i)
  }

  predicate Distinct(order: seq<nat>)
  {
    forall i, j | 0 <= i < j < |order| :: order[i] != order[j]
  }

  /** At every moment: the state is the serial one whenever the lock is free, and otherwise the holder is on its way to
      the next serial state; every reply given so far is the serial one. */
  ghost predicate Serialised(sys: System, p: Pool)
  {
    Fits(sys, p) && Distinct(p.entered) && HolderFine(sys, p) && forall i: nat | i < |sys.jobs| ::
        RequestFine(sys, p, i)
  }

  lemma StartIsSerialised(sys: System)
    ensures Serialised(sys, Start(sys))
  {
  }

  /** A request that a step is not about stays fine: the order only grows at its end. */
  lemma OthersStayFine(sys: System, p: Pool, p': Pool, i: nat)
    requires Fits(sys, p) && Fits(sys, p') && i < |sys.jobs| && RequestFine(sys, p, i)
    requires p'.locals[i] == p.locals[i] && p'.clocks[i] == p.clocks[i] && p'.since[i] == p.since[i]
    requires p'.until[i] == p.until[i]
    requires p.holder == Some(i) ==> p'.entered == p.entered
    requires p.entered <= p'.entered && (i in p'.entered ==> i in p.entered) && Released(p) <= Released(p')
    requires p.holder == Some(i) <==> p'.holder == Some(i)
    ensures RequestFine(sys, p', i)
  {
    hide Serve, Begin;
    var local := p.locals[i];
    if local.Done? || (local.Returning? && !Mutates(sys.jobs[i].request)) {
      if Mutates(sys.jobs[i].request) {
        var k: nat :| p.since[i] <= k < p.until[i] && RepliedAt(sys, p.entered, k, i, local.reply);
        assert p'.entered[..k] == p.entered[..k];
        assert RepliedAt(sys, p'.entered, k, i, local.reply);
      } else {
        var k: nat :| p.since[i] <= k && (local.Done? ==> k <= p.until[i]) && ReadAt(sys, p.entered, k, i, local.reply);
        assert p'.entered[..k] == p.entered[..k];
        assert ReadAt(sys, p'.entered, k, i, local.reply);
      }
    }
  }

  lemma SerialLast(sys: System, order: seq<nat>, i: nat)
    requires Within(sys, order) && i < |sys.jobs|
    ensures Within(sys, order + [i])
    ensures Serial(sys, order + [i]) ==
      Serve(sys.cfg, sys.key, sys.jobs[i].request, sys.jobs[i].env, Serial(sys, order)).state
  {
    hide Serve;
    assert (order + [i])[..|order|] == order;
  }

  lemma EnteringHolder(sys: System, p: Pool, t: nat)
    requires Serialised(sys, p) && t < |sys.jobs| && p.locals[t].Entering? && Mutates(sys.jobs[t].request)
    requires p.holder.None?
    ensures HolderFine(sys, Step(sys, p, t)) && t !in p.entered
  {
    hide Serve, Begin, Finish;
    var p' := Step(sys, p, t);
    assert RequestFine(sys, p, t);
    RequestsWriteOnce(sys, sys.jobs[t], Unknown, Unknown);
    EnterFinishes(sys, sys.jobs[t], p.state);
    SerialLast(sys, p.entered, t);
    assert p'.entered[..|p'.entered| - 1] == p.entered;
  }

  lemma EnteringKeepsSerialised(sys: System, p: Pool, t: nat)
    requires Serialised(sys, p) && t < |sys.jobs| && p.locals[t].Entering?
    ensures Serialised(sys, Step(sys, p, t))
  {
    hide Serve, Begin, Finish, Serial, RepliedAt, ReadAt;
    var p' := Step(sys, p, t);
    var job := sys.jobs[t];
    assert RequestFine(sys, p, t);
    if p' != p {
      if Mutates(job.request) {
        EnteringHolder(sys, p, t);
      } else {
        ReadersAsk(sys, job);
      }
      forall i: nat | i < |sys.jobs| ensures RequestFine(sys, p', i) {
        assert RequestFine(sys, p, i);
        if i != t {
          OthersStayFine(sys, p, p', i);
        }
      }
    }
  }

  lemma ReadersAsk(sys: System, job: Job)
    requires !Mutates(job.request)
    ensures Begin(sys.cfg, job.request).Ask?
  {
  }

  /** One step of the request at work, between its last serial state and the next. */
  lemma AdvanceKeepsHolder(sys: System, job: Job, local: Local, clock: nat, s: State, before: State)
    requires local.Asking? || local.Acting?
    requires Unwritten(before, local, s) || Written(local)
    ensures var (s', next) := Advance(sys, job, local, clock, s);
      Under(next) && (Unwritten(before, next, s') || Written(next))
  {
    hide Fetch, AfterFirst, AfterSecond;
    match local
    case Asking(q, None) =>
      RequestsWriteOnce(sys, job, Unknown, Fetch(sys.cfg, sys.key, q, s, job.env.faults(clock)));
    case Asking(q, Some(first)) =>
      RequestsWriteOnce(sys, job, first, Fetch(sys.cfg, sys.key, q, s, job.env.faults(clock)));
    case Acting(_) =>
  }

  /** Whatever a mutating request is doing, the store is one of the serial run. */
  lemma StoreIsSerial(sys: System, p: Pool) returns (k: nat)
    requires Serialised(sys, p)
    ensures Released(p) <= k <= |p.entered| && SameStore(p.state, Serial(sys, p.entered[..k]))
  {
    hide Serve, RequestFine;
    match p.holder
    case None =>
      k := |p.entered|;
      assert p.entered[..k] == p.entered;
    case Some(h) =>
      var before := Serial(sys, p.entered[..|p.entered| - 1]);
      if Unwritten(before, p.locals[h], p.state) {
        k := |p.entered| - 1;
      } else {
        k := |p.entered|;
        assert p.entered[..k] == p.entered;
        SerialLast(sys, p.entered[..|p.entered| - 1], h);
        assert p.entered[..|p.entered| - 1] + [h] == p.entered;
        if p.locals[h].Acting? {
          NoWritesKeepsStore(p.locals[h].tree, p.state, sys.jobs[h].env.faults, p.clocks[h]);
        }
      }
  }

  /** A reader's answer depends on the store only, and on one look at it. */
  lemma ReadersSeeTheStore(sys: System, job: Job, s: State, s': State)
    requires !Mutates(job.request) && SameStore(s, s')
    ensures var q := Begin(sys.cfg, job.request).question;
      AfterFirst(sys.cfg, job.request, job.env, Fetch(sys.cfg, sys.key, q, s, job.env.faults(0)))
        == Answer(Serve(sys.cfg, sys.key, job.request, job.env, s').result)
  {
    hide Info;
  }

  lemma AdvancingKeepsSerialised(sys: System, p: Pool, t: nat)
    requires Serialised(sys, p) && t < |sys.jobs| && (p.locals[t].Asking? || p.locals[t].Acting?)
    ensures Serialised(sys, Step(sys, p, t))
  {
    hide Serve, Begin, Finish, Advance, Fetch, AfterFirst;
    var p' := Step(sys, p, t);
    var job := sys.jobs[t];
    assert RequestFine(sys, p, t);
    if Mutates(job.request) {
      AdvanceFinishes(sys, job, p.locals[t], p.clocks[t], p.state);
      AdvanceKeepsHolder(sys, job, p.locals[t], p.clocks[t], p.state, Serial(sys, p.entered[..|p.entered| - 1]));
    } else {
      ReaderAdvances(sys, p, t);
    }
    forall i: nat | i < |sys.jobs| ensures RequestFine(sys, p', i) {
      assert RequestFine(sys, p, i);
      if i != t {
        OthersStayFine(sys, p, p', i);
      }
    }
  }

  lemma ReaderAdvances(sys: System, p: Pool, t: nat)
    requires Serialised(sys, p) && t < |sys.jobs| && p.locals[t].Asking? && !Mutates(sys.jobs[t].request)
    ensures var p' := Step(sys, p, t);
      p'.state == p.state && ReaderFine(sys, p', t)
  {
    hide Serve, Begin, Finish, Fetch, AfterFirst, HolderFine;
    assert RequestFine(sys, p, t);
    var k := StoreIsSerial(sys, p);
    ReadersSeeTheStore(sys, sys.jobs[t], p.state, Serial(sys, p.entered[..k]));
    var reply := SerialReply(sys, p.entered, k, t);
    assert ReadAt(sys, p.entered, k, t, reply);
  }

  /** The holder about to give the lock back has brought the state to the next serial one. */
  lemma HolderReplies(sys: System, p: Pool, t: nat)
    requires Fits(sys, p) && HolderFine(sys, p) && p.holder == Some(t) && p.locals[t].Returning?
    ensures RepliedAt(sys, p.entered, |p.entered| - 1, t, p.locals[t].reply) && p.state == Serial(sys, p.entered)
  {
    hide Serve;
    var n := |p.entered| - 1;
    SerialLast(sys, p.entered[..n], t);
    assert p.entered[..n] + [t] == p.entered;
  }

  lemma ReturningKeepsSerialised(sys: System, p: Pool, t: nat)
    requires Serialised(sys, p) && t < |sys.jobs| && p.locals[t].Returning?
    ensures Serialised(sys, Step(sys, p, t))
  {
    hide Serve, Serial, SerialReply, Begin, Finish, RepliedAt;
    var p' := Step(sys, p, t);
    assert RequestFine(sys, p, t);
    if Mutates(sys.jobs[t].request) {
      HolderReplies(sys, p, t);
    }
    forall i: nat | i < |sys.jobs| ensures RequestFine(sys, p', i) {
      assert RequestFine(sys, p, i);
      if i != t {
        OthersStayFine(sys, p, p', i);
      }
    }
  }

  lemma StepKeepsSerialised(sys: System, p: Pool, t: nat)
    requires Serialised(sys, p) && t < |sys.jobs|
    ensures Serialised(sys, Step(sys, p, t))
  {
    hide Serialised, Advance;
    assert Fits(sys, p) by { FitsWhenSerialised(sys, p); }
    match p.locals[t]
    case Entering => EnteringKeepsSerialised(sys, p, t);
    case Asking(_, _) => AdvancingKeepsSerialised(sys, p, t);
    case Acting(_) => AdvancingKeepsSerialised(sys, p, t);
    case Returning(_) => ReturningKeepsSerialised(sys, p, t);
    case Done(_) =>
  }

  lemma FitsWhenSerialised(sys: System, p: Pool)
    requires Serialised(sys, p)
    ensures Fits(sys, p)
  {
  }

  /** For every interleaving of the atomic steps of any number of requests, store, catalog and replies are those of
      running the mutating requests one by one in the order in which they took the lock. */
  lemma {:induction false} EveryScheduleIsSerialised(sys: System, p: Pool, schedule: seq<nat>)
    requires Serialised(sys, p) && Within(sys, schedule)
    ensures Serialised(sys, Run(sys, p, schedule))
    decreases schedule
  {
    hide Serialised, Step;
    FitsWhenSerialised(sys, p);
    if schedule != [] {
      StepKeepsSerialised(sys, p, schedule[0]);
      assert Within(sys, schedule[1..]);
      EveryScheduleIsSerialised(sys, Step(sys, p, schedule[0]), schedule[1..]);
    }
  }

  /** The same, spelled out from the start: the state whenever the lock is free, and every reply. A mutating request has
      its place in the serial order, and a reader's reply is the one of a serial state, between its own start and end:
      no fewer than the requests that had finished by its start come before, and no more than had started by its end. */
  lemma InterleavingsAreSerial(sys: System, schedule: seq<nat>)
    requires Within(sys, schedule)
    ensures var p := Run(sys, Start(sys), schedule);
      && Distinct(p.entered) && (forall k | 0 <= k < |p.entered| :: Mutates(sys.jobs[p.entered[k]].request))
      && (p.holder.None? ==> p.state == Serial(sys, p.entered))
      && (forall i: nat | i < |sys.jobs| && p.locals[i].Done? && Mutates(sys.jobs[i].request) ::
            exists k: nat :: p.since[i] <= k < p.until[i] && RepliedAt(sys, p.entered, k, i, p.locals[i].reply))
      && (forall i: nat | i < |sys.jobs| && p.locals[i].Done? && !Mutates(sys.jobs[i].request) ::
            exists k: nat :: p.since[i] <= k <= p.until[i] && ReadAt(sys, p.entered, k, i, p.locals[i].reply))
  {
    hide Step, Run, Serial, SerialReply, Begin;
    StartIsSerialised(sys);
    EveryScheduleIsSerialised(sys, Start(sys), schedule);
    var p := Run(sys, Start(sys), schedule);
    forall i: nat | i < |sys.jobs| && p.locals[i].Done?
      ensures if Mutates(sys.jobs[i].request)
              then exists k: nat :: p.since[i] <= k < p.until[i] && RepliedAt(sys, p.entered, k, i, p.locals[i].reply)
              else exists k: nat :: p.since[i] <= k <= p.until[i] && ReadAt(sys, p.entered, k, i, p.locals[i].reply)
    {
      assert RequestFine(sys, p, i);
    }
    forall k | 0 <= k < |p.entered| ensures Mutates(sys.jobs[p.entered[k]].request) {
      assert RequestFine(sys, p, p.entered[k]);
      assert p.entered[k] in p.entered;
    }
  }

  /** The environment lets the k-th request in lock order through up to the deletion of its record, and no further. */
  ghost predicate SeversAt(sys: System, order: seq<nat>, k: nat)
    requires Within(sys, order) && k < |order|
  {
    var job := sys.jobs[order[k]];
    Safety.Severs(sys.cfg, sys.key, job.request, job.env, Serial(sys, order[..k]))
  }

  /** A serial run in which no removal is cut off from its record keeps the ownership invariant. */
  lemma {:induction false} SerialKeepsSafe(sys: System, order: seq<nat>)
    requires Safety.Served(sys.cfg) && Safety.Safe(sys.cfg, sys.start) && Within(sys, order)
    requires forall k | 0 <= k < |order| :: !SeversAt(sys, order, k)
    ensures Safety.Safe(sys.cfg, Serial(sys, order))
  {
    hide Safety.Served, Safety.Safe, Safety.Severs, Serve;
    if order != [] {
      var n := |order| - 1;
      var before := order[..n];
      forall k | 0 <= k < n ensures !SeversAt(sys, before, k) {
        assert before[..k] == order[..k] && !SeversAt(sys, order, k);
      }
      assert !SeversAt(sys, order, n);
      SerialKeepsSafe(sys, before);
      var job := sys.jobs[order[n]];
      Safety.ServeKeepsSafe(sys.cfg, sys.key, job.request, job.env, Serial(sys, before));
    }
  }

  /** So the ownership invariant holds whenever the lock is free, however the requests interleaved. */
  lemma SafeWheneverTheLockIsFree(sys: System, schedule: seq<nat>)
    requires Safety.Served(sys.cfg) && Safety.Safe(sys.cfg, sys.start) && Within(sys, schedule)
    requires Run(sys, Start(sys), schedule).holder.None?
    ensures var p := Run(sys, Start(sys), schedule);
      && Within(sys, p.entered)
      && ((forall k | 0 <= k < |p.entered| :: !SeversAt(sys, p.entered, k)) ==> Safety.Safe(sys.cfg, p.state))
  {
    hide Step, Run, Serial, Begin, Safety.Served, Safety.Safe, Safety.Severs, Serialised;
    StartIsSerialised(sys);
    EveryScheduleIsSerialised(sys, Start(sys), schedule);
    var p := Run(sys, Start(sys), schedule);
    FreeLockIsSerial(sys, p);
    if forall k | 0 <= k < |p.entered| :: !SeversAt(sys, p.entered, k) {
      SerialKeepsSafe(sys, p.entered);
    }
  }

  lemma FreeLockIsSerial(sys: System, p: Pool)
    requires Serialised(sys, p) && p.holder.None?
    ensures Within(sys, p.entered) && p.state == Serial(sys, p.entered)
  {
  }

  // ------------------------------------------------- nobody waits forever

  lemma {:induction false} RunAppend(sys: System, p: Pool, first: seq<nat>, second: seq<nat>)
    requires Fits(sys, p) && Within(sys, first) && Within(sys, second)
    ensures Within(sys, first + second) && Run(sys, p, first + second) == Run(sys, Run(sys, p, first), second)
    decreases first
  {
    hide Step;
    if first == [] {
      assert first + second == second;
    } else {
      RunAppend(sys, Step(sys, p, first[0]), first[1..], second);
      assert (first + second)[1..] == first[1..] + second;
    }
  }

  /** Readers take no lock: three steps of its own answer a read, whoever holds the lock and for however long. */
  lemma ReadersNeverWait(sys: System, p: Pool, t: nat)
    requires Serialised(sys, p) && t < |sys.jobs|
    requires sys.jobs[t].request.GetInstance? || sys.jobs[t].request.GetBinding?
    ensures Run(sys, p, [t, t, t]).locals[t].Done?
    ensures Run(sys, p, [t, t, t]).holder == p.holder
  {
    hide Serialised, Step;
    FitsWhenSerialised(sys, p);
    var p1 := Step(sys, p, t);
    var p2 := Step(sys, p1, t);
    StepKeepsSerialised(sys, p, t);
    StepKeepsSerialised(sys, p1, t);
    ReaderStep(sys, p, t);
    ReaderStep(sys, p1, t);
    ReaderStep(sys, p2, t);
    assert [t, t, t][1..] == [t, t] && [t, t][1..] == [t] && [t][1..] == [];
    assert Run(sys, p2, [t]) == Step(sys, p2, t);
    assert Run(sys, p1, [t, t]) == Run(sys, p2, [t]);
  }

  function Rank(local: Local): nat
  {
    match local
    case Entering => 5
    case Asking(_, None) => 4
    case Asking(_, Some(_)) => 3
    case Acting(_) => 2
    case Returning(_) => 1
    case Done(_) => 0
  }

  lemma ReaderStep(sys: System, p: Pool, t: nat)
    requires Serialised(sys, p) && t < |sys.jobs| && !Mutates(sys.jobs[t].request)
    ensures var p' := Step(sys, p, t);
      && p'.holder == p.holder
      && match p.locals[t]
         case Entering => p'.locals[t].Asking?
         case Asking(_, _) => p'.locals[t].Returning?
         case _ => p'.locals[t].Done?
  {
    hide Serve, Begin, Fetch, AfterFirst, HolderFine, Serial;
    assert RequestFine(sys, p, t);
    if p.locals[t].Entering? {
      ReadersAsk(sys, sys.jobs[t]);
    } else if p.locals[t].Asking? {
      ReadersSeeTheStore(sys, sys.jobs[t], p.state, p.state);
    }
  }

  /** A request that has entered comes to its end by its own steps alone, and gives back the lock if it holds it. */
  lemma {:induction false} RequestFinishes(sys: System, p: Pool, t: nat) returns (schedule: seq<nat>)
    requires Fits(sys, p) && t < |sys.jobs| && !p.locals[t].Entering?
    requires p.locals[t].Done? ==> p.holder != Some(t)
    ensures Within(sys, schedule)
    ensures var p' := Run(sys, p, schedule);
      && p'.locals[t].Done? && p'.holder == (if p.holder == Some(t) then None else p.holder)
      && (forall i | 0 <= i < |sys.jobs| && i != t :: p'.locals[i] == p.locals[i])
    decreases Rank(p.locals[t]), if p.locals[t].Acting? then p.locals[t].tree else Leaf(Success)
  {
    hide Advance;
    if p.locals[t].Done? {
      schedule := [];
    } else {
      StepLowersRank(sys, p, t);
      var rest := RequestFinishes(sys, Step(sys, p, t), t);
      schedule := [t] + rest;
      assert schedule[1..] == rest;
    }
  }

  lemma StepLowersRank(sys: System, p: Pool, t: nat)
    requires Fits(sys, p) && t < |sys.jobs| && !p.locals[t].Entering? && !p.locals[t].Done?
    ensures var local, local' := p.locals[t], Step(sys, p, t).locals[t];
      && !local'.Entering?
      && (Rank(local') < Rank(local) || (local'.Acting? && local.Acting? && local'.tree < local.tree))
      && (local'.Done? <==> local.Returning?)
  {
    hide Begin, AfterFirst, AfterSecond, Fetch, Attempt;
  }

  /** There is no deadlock: whatever state a schedule has led to, it can go on until every request has its reply. */
  lemma EveryoneCanFinish(sys: System, p: Pool) returns (schedule: seq<nat>)
    requires Serialised(sys, p)
    ensures Within(sys, schedule) && Fits(sys, p)
    ensures var p' := Run(sys, p, schedule);
      p'.holder.None? && forall i | 0 <= i < |sys.jobs| :: p'.locals[i].Done?
  {
    hide Run, Serialised, Step;
    FitsWhenSerialised(sys, p);
    var first: seq<nat> := [];
    if p.holder.Some? {
      HolderIsInside(sys, p);
      first := RequestFinishes(sys, p, p.holder.value);
    } else {
      RunNothing(sys, p);
    }
    EveryScheduleIsSerialised(sys, p, first);
    var rest := FinishFrom(sys, Run(sys, p, first), 0);
    RunAppend(sys, p, first, rest);
    schedule := first + rest;
  }

  lemma RunNothing(sys: System, p: Pool)
    requires Fits(sys, p)
    ensures Run(sys, p, []) == p
  {
  }

  lemma HolderIsInside(sys: System, p: Pool)
    requires Serialised(sys, p) && p.holder.Some?
    ensures !p.locals[p.holder.value].Entering? && !p.locals[p.holder.value].Done?
  {
  }

  lemma {:induction false} FinishFrom(sys: System, p: Pool, k: nat) returns (schedule: seq<nat>)
    requires Serialised(sys, p) && Fits(sys, p) && p.holder.None? && k <= |sys.jobs|
    requires forall i | 0 <= i < k :: p.locals[i].Done?
    ensures Within(sys, schedule)
    ensures var p' := Run(sys, p, schedule);
      p'.holder.None? && forall i | 0 <= i < |sys.jobs| :: p'.locals[i].Done?
    decreases |sys.jobs| - k
  {
    hide Run, Serialised, Step;
    if k == |sys.jobs| {
      schedule := [];
      RunNothing(sys, p);
    } else {
      var first := FinishOne(sys, p, k);
      EveryScheduleIsSerialised(sys, p, first);
      var rest := FinishFrom(sys, Run(sys, p, first), k + 1);
      RunAppend(sys, p, first, rest);
      schedule := first + rest;
    }
  }

  lemma FinishOne(sys: System, p: Pool, t: nat) returns (schedule: seq<nat>)
    requires Fits(sys, p) && p.holder.None? && t < |sys.jobs|
    ensures Within(sys, schedule)
    ensures var p' := Run(sys, p, schedule);
      && p'.holder.None? && p'.locals[t].Done?
      && (forall i | 0 <= i < |sys.jobs| && i != t :: p'.locals[i] == p.locals[i])
  {
    if p.locals[t].Entering? {
      hide Begin, Run;
      var p1 := Step(sys, p, t);
      var rest := RequestFinishes(sys, p1, t);
      RunFirst(sys, p, t, rest);
      schedule := [t] + rest;
    } else {
      schedule := RequestFinishes(sys, p, t);
    }
  }

  lemma RunFirst(sys: System, p: Pool, t: nat, rest: seq<nat>)
    requires Fits(sys, p) && t < |sys.jobs| && Within(sys, rest)
    ensures Within(sys, [t] + rest) && Run(sys, p, [t] + rest) == Run(sys, Step(sys, p, t), rest)
  {
    hide Step;
    assert ([t] + rest)[1..] == rest;
  }
}
