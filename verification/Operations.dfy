/** The broker's requests. A request answers at once, asks the record store a question, or goes on
    with a decision tree of atomic steps; nothing else it does can be observed. */
module Operations {
  import opened Wrappers
  import opened Names
  import opened State
  import Tenancy
  import Params
  import Plans
  import Vault

  datatype Config = Config(
    server: Tenancy.Server, naming: Naming, serviceId: string, plans: seq<Params.Plan>,
    params: Params.Library, vault: Vault.Library,
    credentials: (string, string, string) -> Vault.Credentials) // database, username, password

  datatype Request =
    | Provision(id: string, serviceId: string, planId: string, raw: Params.Raw)
    | Update(id: string, serviceId: string, planId: string, raw: Params.Raw)
    | Deprovision(id: string, serviceId: string)
    | Bind(id: string, bindingId: string, serviceId: string, raw: Params.Raw)
    | Unbind(id: string, bindingId: string, serviceId: string)
    | GetInstance(id: string)
    | GetBinding(bindingId: string)

  /** What the environment contributes to one request. */
  datatype Env = Env(faults: Faults, password: string, nonce: Vault.Bytes)

  datatype Stage = Reading | Administering | Writing | Deleting

  datatype Reply =
    | Success
    | AlreadyExists
    | Bound(credentials: Vault.Credentials)
    | AlreadyBound(credentials: Vault.Credentials)
    | Conflict
    | NotFound
    | Invalid
    | PlanChange
    | Failure(stage: Stage)
    | Instance(record: InstanceRecord)
    | Binding(credentials: Vault.Credentials, params: BindingParams)

  datatype Question = AboutInstance(id: string) | AboutBinding(id: string) | BindingsOf(id: string)

  /** A binding as the store shows it: decrypted. */
  datatype BindingInfo = BindingInfo(instanceId: string, username: string, params: BindingParams,
          credentials: Vault.Credentials)

  datatype Fact =
    | Unknown // the store could not be read, or a record could not be decrypted
    | TheInstance(instance: Option<InstanceRecord>)
    | TheBinding(binding: Option<BindingInfo>)
    | TheBindings(bindings: map<string, BindingInfo>)

  datatype Phase = Answer(reply: Reply) | Ask(question: Question) | Go(tree: Tree<Reply>)

  function Info(cfg: Config, e: Vault.Encryptor, b: BindingRecord): Option<BindingInfo>
  {
    match Vault.Read(cfg.vault, e, b.credentials)
    case None => None
    case Some(c) => Some(BindingInfo(b.instanceId, b.username, b.params, c))
  }

  /** Every binding of the instance, or nothing if any one of them cannot be decrypted. */
  function InfosOf(cfg: Config, e: Vault.Encryptor, bindings: map<string, BindingRecord>, id: string): Fact
  {
    if forall b | b in bindings && bindings[b].instanceId == id :: Info(cfg, e, bindings[b]).Some?
    then TheBindings(map b | b in bindings && bindings[b].instanceId == id :: Info(cfg, e, bindings[b]).value)
    else Unknown
  }

  function Fetch(cfg: Config, e: Vault.Encryptor, q: Question, s: State, failed: bool): Fact
  {
    if failed then Unknown
    else
      match q
      case AboutInstance(id) => TheInstance(if id in s.instances then Some(s.instances[id]) else None)
      case AboutBinding(id) =>
        if id !in s.bindings then TheBinding(None)
        else (match Info(cfg, e, s.bindings[id]) case None => Unknown case Some(i) => TheBinding(Some(i)))
      case BindingsOf(id) => InfosOf(cfg, e, s.bindings, id)
  }

  // ---------------------------------------------------------- store writes

  function Refuse(stage: Stage): Tree<Reply> { Leaf(Failure(stage)) }

  /** Insert or update by reading first. */
  function PutInstance(id: string, r: InstanceRecord, done: Reply): Tree<Reply>
  {
    Act(FindInstance(id),
        Act(ReplaceInstance(id, r), Leaf(done), Refuse(Writing), Refuse(Writing)),
        Act(InsertInstance(id, r), Leaf(done), Refuse(Writing), Refuse(Writing)),
        Refuse(Writing))
  }

  function PutBinding(id: string, r: BindingRecord, done: Reply): Tree<Reply>
  {
    Act(FindBinding(id),
        Act(ReplaceBinding(id, r), Leaf(done), Refuse(Writing), Refuse(Writing)),
        Act(InsertBinding(id, r), Leaf(done), Refuse(Writing), Refuse(Writing)),
        Refuse(Writing))
  }

  function DeleteInstance(id: string): Tree<Reply>
  {
    Act(RemoveInstance(id), Leaf(Success), Refuse(Deleting), Refuse(Deleting))
  }

  function DeleteBinding(id: string): Tree<Reply>
  {
    Act(RemoveBinding(id), Leaf(Success), Refuse(Deleting), Refuse(Deleting))
  }

  /** The admin operation first; the record only after it is done. */
  function Recording(record: Tree<Reply>): Tenancy.Status -> Tree<Reply>
  {
    (st: Tenancy.Status) =>
      match st
      case Done => record
      case Taken => Leaf(Conflict)
      case Broken => Refuse(Administering)
  }

  function After(admin: Tree<Tenancy.Status>, record: Tree<Reply>): Tree<Reply>
  {
    Graft(admin, Recording(record))
  }

  // ---------------------------------------------------------- requests

  function Spec(cfg: Config, planId: string, raw: Params.Raw): Option<InstanceParams>
  {
    match Plans.Lookup(cfg.plans, planId)
    case None => None
    case Some(plan) =>
      match Params.Parse(Params.InstanceSchema(plan), raw)
      case None => None
      case Some(fields) => Params.Resolve(cfg.params, plan, fields)
  }

  /** The parameters an update asks for: an omitted quota asks for the plan's own value. */
  function Change(cfg: Config, planId: string, raw: Params.Raw): Option<InstanceParams>
  {
    match Plans.Lookup(cfg.plans, planId)
    case None => None
    case Some(plan) =>
      match Params.Parse(Params.UpdatableSchema(plan), raw)
      case None => None
      case Some(fields) => Params.Resolve(cfg.params, plan, fields)
  }

  function BindingSpec(cfg: Config, raw: Params.Raw): Option<BindingParams>
  {
    match Params.Parse(Params.BINDING_SCHEMA, raw)
    case None => None
    case Some(fields) =>
      Some(BindingParams(if "name" in fields then Params.Sprint(cfg.params, fields["name"]) else ""))
  }

  function Begin(cfg: Config, req: Request): Phase
  {
    match req
    case Provision(id, service, plan, raw) =>
      if service != cfg.serviceId || Spec(cfg, plan, raw).None? then Answer(Invalid) else Ask(AboutInstance(id))
    case Update(id, service, _, _) => if service != cfg.serviceId then Answer(Invalid) else Ask(AboutInstance(id))
    case Deprovision(id, service) => if service != cfg.serviceId then Answer(Invalid) else Ask(AboutInstance(id))
    case Bind(id, _, service, _) => if service != cfg.serviceId then Answer(Invalid) else Ask(AboutInstance(id))
    case Unbind(id, _, service) => if service != cfg.serviceId then Answer(Invalid) else Ask(AboutInstance(id))
    case GetInstance(id) => Ask(AboutInstance(id))
    case GetBinding(id) => Ask(AboutBinding(id))
  }

  function ProvisionTree(cfg: Config, id: string, planId: string, p: InstanceParams, password: string): Tree<Reply>
  {
    var n := cfg.naming.instance(id, p.name);
    After(Tenancy.Provision(cfg.server, n, p, password),
      PutInstance(id, InstanceRecord(cfg.serviceId, planId, n.database, p), Success))
  }

  /** Only the two quotas change; everything else is the stored record's. */
  function Updated(r: InstanceRecord, p: InstanceParams): InstanceRecord
  {
    r.(params := r.params.(maxConnections := p.maxConnections, storageGb := p.storageGb))
  }

  function UpdateTree(cfg: Config, id: string, r: InstanceRecord): Tree<Reply>
  {
    After(Tenancy.Update(cfg.server, cfg.naming.instance(id, r.params.name), r.params), PutInstance(id, r, Success))
  }

  function DeprovisionTree(cfg: Config, id: string, r: InstanceRecord): Tree<Reply>
  {
    After(Tenancy.Deprovision(cfg.server, cfg.naming.instance(id, r.params.name)), DeleteInstance(id))
  }

  function NewBinding(cfg: Config, e: Vault.Encryptor, env: Env, id: string, n: Names, bindingId: string,
          p: BindingParams): BindingRecord
  {
    var user := cfg.naming.user(bindingId, p.name);
    BindingRecord(id, user, p,
      Vault.Store(cfg.vault, e, cfg.vault.marshal(cfg.credentials(n.database, user, env.password)), env.nonce))
  }

  function BindTree(cfg: Config, e: Vault.Encryptor, env: Env, id: string, r: InstanceRecord, bindingId: string,
          p: BindingParams): Tree<Reply>
  {
    var n := cfg.naming.instance(id, r.params.name);
    var user := cfg.naming.user(bindingId, p.name);
    After(Tenancy.Bind(cfg.server, n, user, env.password),
      PutBinding(bindingId, NewBinding(cfg, e, env, id, n, bindingId, p),
          Bound(cfg.credentials(n.database, user, env.password))))
  }

  function UnbindTree(cfg: Config, id: string, r: InstanceRecord, bindingId: string, username: string): Tree<Reply>
  {
    After(Tenancy.Unbind(cfg.server, cfg.naming.instance(id, r.params.name), username), DeleteBinding(bindingId))
  }

  function AfterFirst(cfg: Config, req: Request, env: Env, fact: Fact): Phase
  {
    if fact.Unknown? then Answer(Failure(Reading))
    else
      match req
      case Provision(id, _, plan, raw) =>
        var spec := Spec(cfg, plan, raw);
        if !fact.TheInstance? || spec.None? then Answer(Invalid)
        else if fact.instance.Some? then
          Answer(if fact.instance.value.planId == plan && fact.instance.value.params == spec.value then AlreadyExists
              else Conflict)
        else Go(ProvisionTree(cfg, id, plan, spec.value, env.password))
      case Update(id, _, plan, raw) =>
        if !fact.TheInstance? || fact.instance.None? then Answer(NotFound)
        else
          var r := fact.instance.value;
          if plan != "" && plan != r.planId then Answer(PlanChange)
          else (match Change(cfg, r.planId, raw)
                case None => Answer(Invalid)
                case Some(p) => Go(UpdateTree(cfg, id, Updated(r, p))))
      case Deprovision(id, _) =>
        if !fact.TheInstance? || fact.instance.None? then Answer(NotFound) else Ask(BindingsOf(id))
      case Bind(id, b, _, raw) =>
        if !fact.TheInstance? || fact.instance.None? then Answer(NotFound)
        else if BindingSpec(cfg, raw).None? then Answer(Invalid)
        else Ask(AboutBinding(b))
      case Unbind(_, b, _) => Ask(AboutBinding(b))
      case GetInstance(_) =>
        Answer(if fact.TheInstance? && fact.instance.Some? then Instance(fact.instance.value) else NotFound)
      case GetBinding(_) =>
        Answer(if fact.TheBinding? && fact.binding.Some?
               then Binding(fact.binding.value.credentials, fact.binding.value.params) else NotFound)
  }

  function AfterSecond(cfg: Config, e: Vault.Encryptor, req: Request, env: Env, first: Fact, fact: Fact): Phase
  {
    if fact.Unknown? then Answer(Failure(Reading))
    else
      match req
      case Deprovision(id, _) =>
        if !first.TheInstance? || first.instance.None? || !fact.TheBindings? then Answer(NotFound)
        else if fact.bindings != map[] then Answer(Invalid)
        else Go(DeprovisionTree(cfg, id, first.instance.value))
      case Bind(id, b, _, raw) =>
        var spec := BindingSpec(cfg, raw);
        if !first.TheInstance? || first.instance.None? || !fact.TheBinding? || spec.None? then Answer(NotFound)
        else if fact.binding.Some? then
          Answer(if fact.binding.value.instanceId == id && fact.binding.value.params == spec.value
                 then AlreadyBound(fact.binding.value.credentials) else Conflict)
        else Go(BindTree(cfg, e, env, id, first.instance.value, b, spec.value))
      case Unbind(id, b, _) =>
        if !first.TheInstance? || first.instance.None? || !fact.TheBinding? || fact.binding.None?
           || fact.binding.value.instanceId != id then Answer(NotFound)
        else Go(UnbindTree(cfg, id, first.instance.value, b, fact.binding.value.username))
      case _ => Answer(NotFound)
  }

  /** A whole request, run alone. */
  function Serve(cfg: Config, e: Vault.Encryptor, req: Request, env: Env, s: State): Outcome<Reply>
  {
    match Begin(cfg, req)
    case Answer(r) => Outcome(s, r, 0)
    case Go(t) => Execute(t, s, env.faults, 0)
    case Ask(q) =>
      var first := Fetch(cfg, e, q, s, env.faults(0));
      match AfterFirst(cfg, req, env, first)
      case Answer(r) => Outcome(s, r, 1)
      case Go(t) => Execute(t, s, env.faults, 1)
      case Ask(q2) =>
        var second := Fetch(cfg, e, q2, s, env.faults(1));
        match AfterSecond(cfg, e, req, env, first, second)
        case Answer(r) => Outcome(s, r, 2)
        case Go(t) => Execute(t, s, env.faults, 2)
        case Ask(_) => Outcome(s, NotFound, 2)
  }
}
