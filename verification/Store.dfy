/** The broker's memory: two tables with a primary key each, written by reading first. */
module Storage {
  import opened Wrappers
  import opened State
  import opened Operations
  import opened Driver
  import R = Rotation
  import Vault

  datatype Row<V> = Row(id: string, value: V)

  function Ids<V>(rows: seq<Row<V>>): (ids: seq<string>)
    ensures |ids| == |rows| && forall i | 0 <= i < |rows| :: ids[i] == rows[i].id
  {
    if rows == [] then [] else [rows[0].id] + Ids(rows[1..])
  }

  predicate Unique<V>(rows: seq<Row<V>>)
  {
    forall i, j | 0 <= i < j < |rows| :: rows[i].id != rows[j].id
  }

  /** The map a table stands for. */
  function AsMap<V>(rows: seq<Row<V>>): map<string, V>
  {
    if rows == [] then map[] else AsMap(rows[1..])[rows[0].id := rows[0].value]
  }

  /** SELECT ... WHERE id = ? LIMIT 1. */
  function Locate<V>(rows: seq<Row<V>>, id: string): Option<V>
  {
    if rows == [] then None else if rows[0].id == id then Some(rows[0].value) else Locate(rows[1..], id)
  }

  /** UPDATE ... WHERE id = ?: every row with the id. */
  function Replaced<V>(rows: seq<Row<V>>, id: string, v: V): seq<Row<V>>
  {
    if rows == [] then []
    else [if rows[0].id == id then Row(id, v) else rows[0]] + Replaced(rows[1..], id, v)
  }

  /** DELETE ... WHERE id = ?. */
  function Deleted<V>(rows: seq<Row<V>>, id: string): seq<Row<V>>
  {
    if rows == [] then []
    else (if rows[0].id == id then [] else [rows[0]]) + Deleted(rows[1..], id)
  }

  lemma {:induction false} MapOf<V>(rows: seq<Row<V>>)
    requires Unique(rows)
    ensures forall i | 0 <= i < |rows| :: rows[i].id in AsMap(rows) && AsMap(rows)[rows[i].id] == rows[i].value
    ensures forall id | id in AsMap(rows) :: exists i | 0 <= i < |rows| :: rows[i].id == id
  {
    if rows != [] {
      MapOf(rows[1..]);
      forall i | 0 <= i < |rows| ensures rows[i].id in AsMap(rows) && AsMap(rows)[rows[i].id] == rows[i].value {
        if i > 0 {
          assert rows[i] == rows[1..][i - 1];
        }
      }
      forall id | id in AsMap(rows) ensures exists i | 0 <= i < |rows| :: rows[i].id == id {
        if id in AsMap(rows[1..]) {
          var i :| 0 <= i < |rows[1..]| && rows[1..][i].id == id;
          assert rows[i + 1].id == id;
        } else {
          assert rows[0].id == id;
        }
      }
    }
  }

  lemma {:induction false} LocateIsLookup<V>(rows: seq<Row<V>>, id: string)
    ensures Locate(rows, id) == if id in AsMap(rows) then Some(AsMap(rows)[id]) else None
  {
    if rows != [] {
      LocateIsLookup(rows[1..], id);
    }
  }

  /** Inserting under a free key keeps keys unique and extends the map. */
  lemma {:induction false} CreatedExtends<V>(rows: seq<Row<V>>, id: string, v: V)
    requires Unique(rows) && id !in AsMap(rows)
    ensures Unique(rows + [Row(id, v)]) && AsMap(rows + [Row(id, v)]) == AsMap(rows)[id := v]
  {
    MapOf(rows);
    var after := rows + [Row(id, v)];
    forall i, j | 0 <= i < j < |after| ensures after[i].id != after[j].id {
      if j == |rows| {
        assert rows[i].id in AsMap(rows);
      }
    }
    if rows != [] {
      CreatedExtends(rows[1..], id, v);
      assert after[1..] == rows[1..] + [Row(id, v)];
      assert id != rows[0].id;
    } else {
      assert after[1..] == rows;
    }
  }

  lemma {:induction false} ReplacedUpdates<V>(rows: seq<Row<V>>, id: string, v: V)
    ensures Ids(Replaced(rows, id, v)) == Ids(rows)
    ensures AsMap(Replaced(rows, id, v)) == if id in AsMap(rows) then AsMap(rows)[id := v] else AsMap(rows)
  {
    if rows != [] {
      ReplacedUpdates(rows[1..], id, v);
      assert Replaced(rows, id, v)[1..] == Replaced(rows[1..], id, v);
    }
  }

  lemma {:induction false} SameIdsSameUnique<V, W>(a: seq<Row<V>>, b: seq<Row<W>>)
    requires Ids(a) == Ids(b) && Unique(a)
    ensures Unique(b)
  {
    assert |a| == |b|;
    forall i, j | 0 <= i < j < |b| ensures b[i].id != b[j].id {
      assert Ids(a)[i] == Ids(b)[i] && Ids(a)[j] == Ids(b)[j];
    }
  }

  lemma {:induction false} DeletedKeepsUnique<V>(rows: seq<Row<V>>, id: string)
    requires Unique(rows)
    ensures Unique(Deleted(rows, id)) && forall x | x in Deleted(rows, id) :: x in rows
  {
    if rows != [] {
      var rest := Deleted(rows[1..], id);
      DeletedKeepsUnique(rows[1..], id);
      if rows[0].id != id {
        forall j | 0 <= j < |rest| ensures rest[j].id != rows[0].id {
          assert rest[j] in rows[1..];
        }
      }
    }
  }

  lemma {:induction false} DeletedRemoves<V>(rows: seq<Row<V>>, id: string)
    requires Unique(rows)
    ensures AsMap(Deleted(rows, id)) == AsMap(rows) - {id}
  {
    if rows != [] {
      var rest := Deleted(rows[1..], id);
      DeletedRemoves(rows[1..], id);
      if rows[0].id == id {
        assert Deleted(rows, id) == rest;
        assert AsMap(rows[1..]) - {id} == AsMap(rows) - {id};
      } else {
        assert Deleted(rows, id) == [rows[0]] + rest;
        assert ([rows[0]] + rest)[1..] == rest;
        assert (AsMap(rows[1..]) - {id})[rows[0].id := rows[0].value] == AsMap(rows) - {id};
      }
    }
  }

  /** What looking for one row gives. */
  datatype Found<V> = Unreadable | Missing | Present(value: V)

  class Table<V> {
    var rows: seq<Row<V>>

    ghost predicate Valid()
      reads this
    {
      Unique(rows)
    }

    function Contents(): map<string, V>
      reads this
    {
      AsMap(rows)
    }

    constructor ()
      ensures Valid() && Contents() == map[]
    {
      rows := [];
    }

    method First(ctx: Context, id: string) returns (found: Found<V>)
      modifies ctx
      ensures ctx.clock == old(ctx.clock) + 1
      ensures found == if ctx.faults(old(ctx.clock)) then Unreadable
                       else if id in Contents() then Present(Contents()[id]) else Missing
    {
      var failed := ctx.Tick();
      LocateIsLookup(rows, id);
      if failed {
        found := Unreadable;
      } else {
        match Locate(rows, id)
        case None => found := Missing;
        case Some(v) => found := Present(v);
      }
    }

    /** INSERT: the primary key refuses a second row. */
    method Create(ctx: Context, id: string, v: V) returns (ok: bool)
      requires Valid()
      modifies this, ctx
      ensures Valid() && ctx.clock == old(ctx.clock) + 1
      ensures ok <==> !ctx.faults(old(ctx.clock)) && id !in old(Contents())
      ensures Contents() == if ok then old(Contents())[id := v] else old(Contents())
    {
      var failed := ctx.Tick();
      LocateIsLookup(rows, id);
      ok := !failed && Locate(rows, id).None?;
      if ok {
        CreatedExtends(rows, id, v);
        rows := rows + [Row(id, v)];
      }
    }

    method Update(ctx: Context, id: string, v: V) returns (ok: bool)
      requires Valid()
      modifies this, ctx
      ensures Valid() && ctx.clock == old(ctx.clock) + 1
      ensures ok <==> !ctx.faults(old(ctx.clock))
      ensures Contents() == if ok && id in old(Contents()) then old(Contents())[id := v] else old(Contents())
    {
      var failed := ctx.Tick();
      ok := !failed;
      if ok {
        ReplacedUpdates(rows, id, v);
        SameIdsSameUnique(rows, Replaced(rows, id, v));
        rows := Replaced(rows, id, v);
      }
    }

    method Delete(ctx: Context, id: string) returns (ok: bool)
      requires Valid()
      modifies this, ctx
      ensures Valid() && ctx.clock == old(ctx.clock) + 1
      ensures ok <==> !ctx.faults(old(ctx.clock))
      ensures Contents() == if ok then old(Contents()) - {id} else old(Contents())
    {
      var failed := ctx.Tick();
      ok := !failed;
      if ok {
        DeletedKeepsUnique(rows, id);
        DeletedRemoves(rows, id);
        rows := Deleted(rows, id);
      }
    }
  }

  lemma TableLists(rows: seq<Row<BindingRecord>>)
    requires Unique(rows)
    ensures R.Lists(Ids(rows), AsMap(rows))
    ensures Awaiting(AsMap(rows), rows, 0)
  {
    MapOf(rows);
    forall id | id in AsMap(rows) ensures id in Ids(rows) {
      var i :| 0 <= i < |rows| && rows[i].id == id;
      assert Ids(rows)[i] == id;
    }
  }

  /** The rows of a snapshot from `i` on are still in the table as they were. */
  predicate Awaiting(m: map<string, BindingRecord>, records: seq<Row<BindingRecord>>, i: nat)
  {
    forall k | i <= k < |records| :: records[k].id in m && m[records[k].id] == records[k].value
  }

  lemma AwaitingNext(m: map<string, BindingRecord>, records: seq<Row<BindingRecord>>, i: nat, v: BindingRecord)
    requires Unique(records) && i < |records| && Awaiting(m, records, i)
    ensures records[i].id in m && m[records[i].id] == records[i].value
    ensures Awaiting(m, records, i + 1) && Awaiting(m[records[i].id := v], records, i + 1)
  {
  }

  // ------------------------------------------------- the store

  /** The rows of one instance's bindings, in table order. */
  function OfInstance(rows: seq<Row<BindingRecord>>, id: string): seq<Row<BindingRecord>>
  {
    if rows == [] then []
    else (if rows[0].value.instanceId == id then [rows[0]] else []) + OfInstance(rows[1..], id)
  }

  /** What the rows decrypt to, or None if any of them cannot be decrypted. */
  function Decrypted(cfg: Config, e: Vault.Encryptor, rows: seq<Row<BindingRecord>>): (infos: Option<seq<BindingInfo>>)
    ensures infos.Some? ==> |infos.value| == |rows| && forall i | 0 <= i < |rows| ::
      Info(cfg, e, rows[i].value) == Some(infos.value[i])
    ensures infos.None? ==> exists i | 0 <= i < |rows| :: Info(cfg, e, rows[i].value).None?
  {
    if rows == [] then Some([])
    else
      match Info(cfg, e, rows[0].value)
      case None => None
      case Some(info) =>
        (match Decrypted(cfg, e, rows[1..])
         case None => None
         case Some(rest) => Some([info] + rest))
  }

  lemma {:induction false} OfInstanceIsExact(rows: seq<Row<BindingRecord>>, id: string)
    ensures forall r | r in OfInstance(rows, id) :: r in rows && r.value.instanceId == id
    ensures forall r | r in rows && r.value.instanceId == id :: r in OfInstance(rows, id)
    ensures Unique(rows) ==> Unique(OfInstance(rows, id))
  {
    if rows != [] {
      var rest := OfInstance(rows[1..], id);
      OfInstanceIsExact(rows[1..], id);
      if Unique(rows) {
        forall j | 0 <= j < |rest| ensures rest[j].id != rows[0].id {
          assert rest[j] in rows[1..];
        }
      }
    }
  }

  predicate OneEach(m: map<string, BindingInfo>, infos: seq<BindingInfo>, ids: seq<string>)
  {
    && |ids| == |infos|
    && (forall i, j | 0 <= i < j < |ids| :: ids[i] != ids[j])
    && (forall i | 0 <= i < |ids| :: ids[i] in m && m[ids[i]] == infos[i])
    && (forall b | b in m :: b in ids)
  }

  lemma OwnRows(rows: seq<Row<BindingRecord>>, id: string)
    requires Unique(rows)
    ensures var own, m := OfInstance(rows, id), AsMap(rows);
      && Unique(own)
      && (forall r | r in own :: r.id in m && m[r.id] == r.value && r.value.instanceId == id)
      && (forall b | b in m && m[b].instanceId == id :: Row(b, m[b]) in own)
  {
    var own, m := OfInstance(rows, id), AsMap(rows);
    MapOf(rows);
    OfInstanceIsExact(rows, id);
    forall r | r in own ensures r.id in m && m[r.id] == r.value && r.value.instanceId == id {
      var i :| 0 <= i < |rows| && rows[i] == r;
    }
    forall b | b in m && m[b].instanceId == id ensures Row(b, m[b]) in own {
      var i :| 0 <= i < |rows| && rows[i].id == b;
      assert rows[i] == Row(b, m[b]);
    }
  }

  lemma OneUndecryptableHidesNone(cfg: Config, e: Vault.Encryptor, rows: seq<Row<BindingRecord>>, id: string)
    requires Unique(rows)
    ensures Decrypted(cfg, e, OfInstance(rows, id)).None? <==> InfosOf(cfg, e, AsMap(rows), id).Unknown?
  {
    hide Info, OfInstance, AsMap, Decrypted;
    var own, m := OfInstance(rows, id), AsMap(rows);
    OwnRows(rows, id);
    if Decrypted(cfg, e, own).None? {
      var i :| 0 <= i < |own| && Info(cfg, e, own[i].value).None?;
      assert own[i] in own;
    } else {
      forall b | b in m && m[b].instanceId == id ensures Info(cfg, e, m[b]).Some? {
        var k :| 0 <= k < |own| && own[k] == Row(b, m[b]);
      }
    }
  }

  /** The list is all of the instance's bindings, each once, or nothing if one of them cannot be decrypted. */
  lemma ListedBindingsAreAll(cfg: Config, e: Vault.Encryptor, rows: seq<Row<BindingRecord>>, id: string)
    requires Unique(rows)
    ensures var infos, fact := Decrypted(cfg, e, OfInstance(rows, id)), InfosOf(cfg, e, AsMap(rows), id);
      && (infos.None? <==> fact.Unknown?)
      && (infos.Some? ==> fact.TheBindings? && OneEach(fact.bindings, infos.value, Ids(OfInstance(rows, id))))
      && (infos.Some? ==> (infos.value == [] <==> fact.bindings == map[]))
  {
    hide Info, OfInstance, AsMap, Decrypted, Ids;
    var own, m := OfInstance(rows, id), AsMap(rows);
    var infos := Decrypted(cfg, e, own);
    OneUndecryptableHidesNone(cfg, e, rows, id);
    OwnRows(rows, id);
    if infos.Some? {
      var found := InfosOf(cfg, e, m, id).bindings;
      forall i | 0 <= i < |own| ensures own[i].id in found && found[own[i].id] == infos.value[i] {
        assert own[i] in own;
      }
      forall b | b in found ensures b in Ids(own) {
        var k :| 0 <= k < |own| && own[k] == Row(b, m[b]);
        assert Ids(own)[k] == b;
      }
      assert OneEach(found, infos.value, Ids(own));
      if infos.value != [] {
        assert Ids(own)[0] in found;
      } else {
        assert found.Keys == {};
      }
    }
  }

  /** What a deprovision makes of the list. */
  lemma EmptyListMeansUnbound(cfg: Config, e: Vault.Encryptor, rows: seq<Row<BindingRecord>>, id: string)
    requires Unique(rows)
    ensures var infos, fact := Decrypted(cfg, e, OfInstance(rows, id)), InfosOf(cfg, e, AsMap(rows), id);
      match infos
      case None => fact.Unknown?
      case Some(list) => fact.TheBindings? && (list == [] <==> fact.bindings == map[])
  {
    hide Decrypted, OfInstance, AsMap, InfosOf, Ids, OneEach;
    ListedBindingsAreAll(cfg, e, rows, id);
  }

  function InstanceFact(found: Found<InstanceRecord>): Fact
  {
    match found
    case Unreadable => Unknown
    case Missing => TheInstance(None)
    case Present(r) => TheInstance(Some(r))
  }

  function BindingFact(found: Found<BindingInfo>): Fact
  {
    match found
    case Unreadable => Unknown
    case Missing => TheBinding(None)
    case Present(b) => TheBinding(Some(b))
  }

  datatype Verdict = Kept | Moved | Stuck

  class Store {
    const cfg: Config
    const encryptor: Vault.Encryptor
    const instances: Table<InstanceRecord>
    const bindings: Table<BindingRecord>

    ghost predicate Valid()
      reads this, instances, bindings
    {
      (instances as object) != bindings && instances.Valid() && bindings.Valid()
    }

    /** The store as the rest of the broker sees it. */
    ghost predicate Holds(s: State)
      reads instances, bindings
    {
      instances.Contents() == s.instances && bindings.Contents() == s.bindings
    }

    constructor (cfg: Config, encryptor: Vault.Encryptor)
      ensures this.cfg == cfg && this.encryptor == encryptor && fresh(instances) && fresh(bindings)
      ensures Valid() && instances.Contents() == map[] && bindings.Contents() == map[]
    {
      this.cfg, this.encryptor := cfg, encryptor;
      instances := new Table();
      bindings := new Table();
    }

    method PutInstance(ctx: Context, id: string, record: InstanceRecord, ghost s: State) returns (ok: bool)
      requires Valid() && Holds(s)
      modifies instances, ctx
      ensures Valid()
      ensures Execute(Operations.PutInstance(id, record, Success), s, ctx.faults, old(ctx.clock))
           == Outcome(s.(instances := instances.Contents()), if ok then Success else Failure(Writing), ctx.clock)
    {
      ghost var before, clock := instances.Contents(), ctx.clock;
      var found := instances.First(ctx, id);
      ghost var write := if id in s.instances then ReplaceInstance(id, record) else InsertInstance(id, record);
      match found
      case Unreadable =>
        ok := false;
      case Present(_) =>
        ok := instances.Update(ctx, id, record);
        assert Execute(Act(write, Leaf(Success), Refuse(Writing), Refuse(Writing)), s, ctx.faults, clock + 1)
            == Outcome(s.(instances := instances.Contents()), if ok then Success else Failure(Writing), clock + 2);
      case Missing =>
        ok := instances.Create(ctx, id, record);
        assert Execute(Act(write, Leaf(Success), Refuse(Writing), Refuse(Writing)), s, ctx.faults, clock + 1)
            == Outcome(s.(instances := instances.Contents()), if ok then Success else Failure(Writing), clock + 2);
    }

    method GetInstance(ctx: Context, id: string, ghost s: State) returns (found: Found<InstanceRecord>)
      requires Holds(s)
      modifies ctx
      ensures ctx.clock == old(ctx.clock) + 1
      ensures InstanceFact(found) == Fetch(cfg, encryptor, AboutInstance(id), s, ctx.faults(old(ctx.clock)))
    {
      found := instances.First(ctx, id);
    }

    method DeleteInstance(ctx: Context, id: string, ghost s: State) returns (ok: bool)
      requires Valid() && Holds(s)
      modifies instances, ctx
      ensures Valid()
      ensures Execute(Operations.DeleteInstance(id), s, ctx.faults, old(ctx.clock))
           == Outcome(s.(instances := instances.Contents()), if ok then Success else Failure(Deleting), ctx.clock)
    {
      ok := instances.Delete(ctx, id);
    }

    method PutBinding(ctx: Context, id: string, username: string, instanceId: string, params: BindingParams,
                      credentials: Vault.Credentials, nonce: Vault.Bytes, done: Reply,
                          ghost s: State) returns (ok: bool)
      requires Valid() && Holds(s)
      modifies bindings, ctx
      ensures Valid()
      ensures
        var stored := Vault.Store(cfg.vault, encryptor, cfg.vault.marshal(credentials), nonce);
        Execute(Operations.PutBinding(id, BindingRecord(instanceId, username, params, stored), done), s, ctx.faults,
            old(ctx.clock))
          == Outcome(s.(bindings := bindings.Contents()), if ok then done else Failure(Writing), ctx.clock)
    {
      var plain := cfg.vault.marshal(credentials);
      var encrypted := Vault.Encrypt(cfg.vault, encryptor, plain, nonce);
      var record := BindingRecord(instanceId, username, params, cfg.vault.encode(encrypted));
      ghost var clock := ctx.clock;
      var found := bindings.First(ctx, id);
      ghost var write := if id in s.bindings then ReplaceBinding(id, record) else InsertBinding(id, record);
      match found
      case Unreadable =>
        ok := false;
      case Present(_) =>
        ok := bindings.Update(ctx, id, record);
        assert Execute(Act(write, Leaf(done), Refuse(Writing), Refuse(Writing)), s, ctx.faults, clock + 1)
            == Outcome(s.(bindings := bindings.Contents()), if ok then done else Failure(Writing), clock + 2);
      case Missing =>
        ok := bindings.Create(ctx, id, record);
        assert Execute(Act(write, Leaf(done), Refuse(Writing), Refuse(Writing)), s, ctx.faults, clock + 1)
            == Outcome(s.(bindings := bindings.Contents()), if ok then done else Failure(Writing), clock + 2);
    }

    method GetBinding(ctx: Context, id: string, ghost s: State) returns (found: Found<BindingInfo>)
      requires Holds(s)
      modifies ctx
      ensures ctx.clock == old(ctx.clock) + 1
      ensures BindingFact(found) == Fetch(cfg, encryptor, AboutBinding(id), s, ctx.faults(old(ctx.clock)))
    {
      var row := bindings.First(ctx, id);
      match row
      case Unreadable =>
        found := Unreadable;
      case Missing =>
        found := Missing;
      case Present(record) =>
        match Info(cfg, encryptor, record)
        case None => found := Unreadable;
        case Some(info) => found := Present(info);
    }

    method DeleteBinding(ctx: Context, id: string, ghost s: State) returns (ok: bool)
      requires Valid() && Holds(s)
      modifies bindings, ctx
      ensures Valid()
      ensures Execute(Operations.DeleteBinding(id), s, ctx.faults, old(ctx.clock))
           == Outcome(s.(bindings := bindings.Contents()), if ok then Success else Failure(Deleting), ctx.clock)
    {
      ok := bindings.Delete(ctx, id);
    }

    /** Every binding of the instance; None if the table or any one record cannot be read. */
    method BindingsForInstance(ctx: Context, id: string) returns (infos: Option<seq<BindingInfo>>)
      requires Valid()
      modifies ctx
      ensures ctx.clock == old(ctx.clock) + 1
      ensures infos == if ctx.faults(old(ctx.clock)) then None
          else Decrypted(cfg, encryptor, OfInstance(bindings.rows, id))
    {
      var failed := ctx.Tick();
      if failed {
        return None;
      }
      var records := OfInstance(bindings.rows, id);
      var result: seq<BindingInfo> := [];
      for i := 0 to |records|
        invariant |result| == i && forall k | 0 <= k < i :: Info(cfg, encryptor, records[k].value) == Some(result[k])
      {
        match Info(cfg, encryptor, records[i].value)
        case None =>
          return None;
        case Some(info) =>
          result := result + [info];
      }
      assert Decrypted(cfg, encryptor, records).Some? && Decrypted(cfg, encryptor, records).value == result;
      infos := Some(result);
    }

    /** One record of a rotation: kept, rewritten under the current key, or in the way. */
    method MoveRecord(record: Row<BindingRecord>, previous: Vault.Encryptor, faults: string -> bool,
            nonces: string -> Vault.Bytes)
      returns (verdict: Verdict)
      requires Valid() && record.id in bindings.Contents() && bindings.Contents()[record.id] == record.value
      modifies bindings
      ensures Valid() && Ids(bindings.rows) == Ids(old(bindings.rows))
      ensures
        var t := R.Turn(cfg.vault, encryptor, previous, faults, nonces);
        var m := old(bindings.Contents());
        && (verdict == Kept <==> R.Settled(t, record.value))
        && (verdict == Stuck <==> R.Stops(t, record.id, record.value))
        && bindings.Contents() == if verdict != Moved then m
             else m[record.id := record.value.(credentials :=
               Vault.Store(cfg.vault, encryptor, Vault.Plain(cfg.vault, previous, record.value.credentials).value,
                   nonces(record.id)))]
    {
      hide AsMap, Unique, Ids;
      var ciphertext := cfg.vault.decode(record.value.credentials);
      if ciphertext.None? {
        return Stuck;
      }
      var plain := Vault.Decrypt(cfg.vault, encryptor, ciphertext.value);
      if plain.Some? {
        return Kept;
      }
      plain := Vault.Decrypt(cfg.vault, previous, ciphertext.value);
      if plain.None? || faults(record.id) {
        return Stuck;
      }
      Rewrite(record.id, Vault.Store(cfg.vault, encryptor, plain.value, nonces(record.id)));
      verdict := Moved;
    }

    /** Re-encrypt every credential that only the previous key can read, up to the first one that neither key
        can read or that cannot be written. */
    method RotateBindings(previous: Vault.Encryptor, unreadable: bool, faults: string -> bool,
            nonces: string -> Vault.Bytes)
      returns (rotated: nat, ok: bool)
      requires Valid()
      modifies bindings
      ensures Valid() && Ids(bindings.rows) == Ids(old(bindings.rows))
      ensures unreadable ==> !ok && rotated == 0 && bindings.rows == old(bindings.rows)
      ensures
        var order := Ids(old(bindings.rows));
        && R.Lists(order, old(bindings.Contents()))
        && var r := R.Rotate(R.Turn(cfg.vault, encryptor, previous, faults, nonces), old(bindings.Contents()), order);
           !unreadable ==> bindings.Contents() == r.bindings && rotated == r.moved && ok == r.ok
    {
      hide R.Rotate, AsMap, Awaiting, Unique, Vault.Store, Vault.Plain, Ids, R.Settled, R.Stops, R.Lists, R.Distinct;
      ghost var t := R.Turn(cfg.vault, encryptor, previous, faults, nonces);
      var records := bindings.rows;
      ghost var order := Ids(records);
      ghost var before := bindings.Contents();
      TableLists(records);
      rotated := 0;
      if unreadable {
        return 0, false;
      }
      for i := 0 to |records|
        invariant Valid() && Ids(bindings.rows) == order && bindings.Contents().Keys == before.Keys
        invariant Awaiting(bindings.Contents(), records, i)
        invariant
          var rest := R.Rotate(t, bindings.Contents(), order[i..]);
          R.Rotate(t, before, order) == rest.(moved := rotated + rest.moved)
      {
        var record := records[i];
        ghost var before' := bindings.Contents();
        AwaitingNext(before', records, i, record.value);
        R.RotateStep(t, bindings.Contents(), order, i);
        var verdict := MoveRecord(record, previous, faults, nonces);
        if verdict == Stuck {
          return rotated, false;
        }
        if verdict == Kept {
          continue; // already on the current key
        }
        AwaitingNext(before', records, i, bindings.Contents()[record.id]);
        rotated := rotated + 1;
      }
      assert order[|records|..] == [];
      R.RotateNothing(t, bindings.Contents());
      ok := true;
    }

    /** UPDATE of the one column of one row. */
    method Rewrite(id: string, stored: string)
      requires Valid() && id in bindings.Contents()
      modifies bindings
      ensures Valid() && Ids(bindings.rows) == Ids(old(bindings.rows))
      ensures bindings.Contents() ==
        old(bindings.Contents())[id := old(bindings.Contents())[id].(credentials := stored)]
    {
      LocateIsLookup(bindings.rows, id);
      var record := Locate(bindings.rows, id).value.(credentials := stored);
      ReplacedUpdates(bindings.rows, id, record);
      SameIdsSameUnique(bindings.rows, Replaced(bindings.rows, id, record));
      bindings.rows := Replaced(bindings.rows, id, record);
    }
  }
}
