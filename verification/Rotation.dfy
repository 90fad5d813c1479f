/** Moving every binding's credentials from a retiring key to the current one, record by record. */
module Rotation {
  import opened Wrappers
  import opened State
  import opened Vault

  type Bindings = map<string, BindingRecord>

  /** The two keys of a rotation, and what the environment contributes: which records' rewrites it makes
      fail, and the nonce each one is encrypted with. */
  datatype Turn = Turn(lib: Library, current: Encryptor, previous: Encryptor, faults: string -> bool,
          nonces: string -> Bytes)

  datatype Rotated = Rotated(bindings: Bindings, moved: nat, ok: bool)

  /** The plaintext either key gives, the current one first. */
  function Either(t: Turn, stored: string): Option<Bytes>
  {
    if Plain(t.lib, t.current, stored).Some? then Plain(t.lib, t.current, stored) else Plain(t.lib, t.previous, stored)
  }

  function Rewritten(t: Turn, id: string, r: BindingRecord, plain: Bytes): BindingRecord
  {
    r.(credentials := Store(t.lib, t.current, plain, t.nonces(id)))
  }

  /** The rotation of the records in `order`; it stops at the first record that neither key can read
      or whose rewrite fails. */
  function Rotate(t: Turn, m: Bindings, order: seq<string>): Rotated
    requires forall id | id in order :: id in m
  {
    if order == [] then Rotated(m, 0, true)
    else
      var id, rest := order[0], order[1..];
      if Plain(t.lib, t.current, m[id].credentials).Some? then Rotate(t, m, rest)
      else
        match Plain(t.lib, t.previous, m[id].credentials)
        case None => Rotated(m, 0, false)
        case Some(plain) =>
          if t.faults(id) then Rotated(m, 0, false)
          else
            var r := Rotate(t, m[id := Rewritten(t, id, m[id], plain)], rest);
            r.(moved := r.moved + 1)
  }

  predicate Settled(t: Turn, r: BindingRecord)
  {
    Plain(t.lib, t.current, r.credentials).Some?
  }

  predicate Readable(t: Turn, r: BindingRecord)
  {
    Either(t, r.credentials).Some?
  }

  /** The rotation cannot get past this record. */
  predicate Stops(t: Turn, id: string, r: BindingRecord)
  {
    !Settled(t, r) && (!Readable(t, r) || t.faults(id))
  }

  function Settle(t: Turn, id: string, r: BindingRecord): BindingRecord
  {
    if Settled(t, r) || !Readable(t, r) then r else Rewritten(t, id, r, Either(t, r.credentials).value)
  }

  /** One record of the loop, seen from its place in the table. */
  lemma RotateStep(t: Turn, m: Bindings, order: seq<string>, i: nat)
    requires i < |order| && forall id | id in order :: id in m
    ensures var id, rest := order[i], order[i + 1..];
      Rotate(t, m, order[i..]) ==
      if Settled(t, m[id]) then Rotate(t, m, rest)
      else if Stops(t, id, m[id]) then Rotated(m, 0, false)
      else
        var plain := Plain(t.lib, t.previous, m[id].credentials).value;
        var r := Rotate(t, m[id := m[id].(credentials := Store(t.lib, t.current, plain, t.nonces(id)))], rest);
        r.(moved := r.moved + 1)
  {
    hide Plain, Store;
    assert order[i..][0] == order[i] && order[i..][1..] == order[i + 1..];
  }

  lemma RotateNothing(t: Turn, m: Bindings)
    ensures Rotate(t, m, []) == Rotated(m, 0, true)
  {
  }

  /** How many records the rotation gets past. */
  function Passed(t: Turn, m: Bindings, order: seq<string>): (k: nat)
    requires forall id | id in order :: id in m
    ensures k <= |order|
    ensures forall i | 0 <= i < k :: !Stops(t, order[i], m[order[i]])
    ensures k < |order| ==> Stops(t, order[k], m[order[k]])
  {
    if order == [] || Stops(t, order[0], m[order[0]]) then 0 else 1 + Passed(t, m, order[1..])
  }

  /** How many of the records still need the previous key. */
  function Unsettled(t: Turn, m: Bindings, order: seq<string>): nat
    requires forall id | id in order :: id in m
  {
    if order == [] then 0
    else (if Settled(t, m[order[0]]) then 0 else 1) + Unsettled(t, m, order[1..])
  }

  predicate Distinct(order: seq<string>)
  {
    forall i, j | 0 <= i < j < |order| :: order[i] != order[j]
  }

  /** The order lists exactly the stored records, each once, as a table does. */
  predicate Lists(order: seq<string>, m: Bindings)
  {
    Distinct(order) && (forall id | id in order :: id in m) && (forall id | id in m :: id in order)
  }

  lemma {:induction false} UnsettledOfOthers(t: Turn, m: Bindings, order: seq<string>, id: string, r: BindingRecord)
    requires (forall x | x in order :: x in m) && id !in order
    ensures Unsettled(t, m[id := r], order) == Unsettled(t, m, order)
    ensures Passed(t, m[id := r], order) == Passed(t, m, order)
  {
    if order != [] {
      UnsettledOfOthers(t, m, order[1..], id, r);
    }
  }

  /** The loop is this map: the records it gets past are settled, the others are untouched. */
  lemma {:induction false} RotateIsPointwise(t: Turn, m: Bindings, order: seq<string>)
    requires Distinct(order) && forall id | id in order :: id in m
    ensures var r, k := Rotate(t, m, order), Passed(t, m, order);
      && r.bindings.Keys == m.Keys
      && (forall id | id in m :: r.bindings[id] == if id in order[..k] then Settle(t, id, m[id]) else m[id])
      && r.moved == Unsettled(t, m, order[..k])
      && (r.ok <==> k == |order|)
  {
    if order != [] {
      var id, rest := order[0], order[1..];
      assert Distinct(rest) && id !in rest;
      var k := Passed(t, m, order);
      if Settled(t, m[id]) {
        RotateIsPointwise(t, m, rest);
        assert order[..k][1..] == rest[..k - 1] && order[..k] == [id] + rest[..k - 1];
      } else if !Stops(t, id, m[id]) {
        var r := Settle(t, id, m[id]);
        var m' := m[id := r];
        RotateIsPointwise(t, m', rest);
        UnsettledOfOthers(t, m, rest, id, r);
        assert order[..k][1..] == rest[..k - 1] && order[..k] == [id] + rest[..k - 1];
        UnsettledOfOthers(t, m, rest[..k - 1], id, r);
      }
    }
  }

  predicate SameColumns(a: BindingRecord, b: BindingRecord)
  {
    a.instanceId == b.instanceId && a.username == b.username && a.params == b.params
  }

  ghost predicate Sound(t: Turn)
  {
    Lawful(t.lib) && forall id :: |t.nonces(id)| == NONCE_SIZE
  }

  lemma SettleKeepsPlain(t: Turn, id: string, r: BindingRecord)
    requires Sound(t)
    ensures var r' := Settle(t, id, r);
      && SameColumns(r, r') && Either(t, r'.credentials) == Either(t, r.credentials)
      && (Readable(t, r) ==> Settled(t, r')) && (Settled(t, r) ==> r' == r)
      && (!Settled(t, r) && Readable(t, r) ==> r' != r)
  {
    if !Settled(t, r) && Readable(t, r) {
      StoreThenPlain(t.lib, t.current, Either(t, r.credentials).value, t.nonces(id));
    }
  }

  /** Wherever it stops, a rotation loses no record, no other column and no plaintext that the two keys
      can read. */
  lemma RotationKeepsPlaintexts(t: Turn, m: Bindings, order: seq<string>)
    requires Sound(t) && Lists(order, m)
    ensures var after := Rotate(t, m, order).bindings;
      && after.Keys == m.Keys
      && forall id | id in m ::
            SameColumns(m[id], after[id]) && Either(t, after[id].credentials) == Either(t, m[id].credentials)
  {
    RotateIsPointwise(t, m, order);
    forall id | id in m ensures
        var r := Rotate(t, m, order).bindings[id];
        SameColumns(m[id], r) && Either(t, r.credentials) == Either(t, m[id].credentials)
    {
      SettleKeepsPlain(t, id, m[id]);
    }
  }

  lemma TakeAll(order: seq<string>)
    ensures order[..|order|] == order
  {
  }

  /** A rotation succeeds exactly when every record is readable under one of the keys and no rewrite that is
      needed fails; then every record is readable under the current key alone, and the count it reports is
      the number that were not before. */
  lemma RotationSucceeds(t: Turn, m: Bindings, order: seq<string>)
    requires Sound(t) && Lists(order, m)
    ensures var r := Rotate(t, m, order);
      && (r.ok <==> forall id | id in m :: !Stops(t, id, m[id]))
      && (r.ok ==> r.moved == Unsettled(t, m, order))
      && r.bindings.Keys == m.Keys
      && (r.ok ==> forall id | id in m ::
            Plain(t.lib, t.current, r.bindings[id].credentials) == Either(t, m[id].credentials) && Readable(t, m[id]))
  {
    RotateIsPointwise(t, m, order);
    TakeAll(order);
    var k := Passed(t, m, order);
    if k < |order| {
      assert order[k] in m;
    } else {
      forall id | id in m ensures !Stops(t, id, m[id]) {
        var i :| 0 <= i < |order| && order[i] == id;
      }
      forall id | id in m
        ensures Plain(t.lib, t.current, Rotate(t, m, order).bindings[id].credentials) == Either(t, m[id].credentials)
      {
        SettleKeepsPlain(t, id, m[id]);
      }
    }
  }

  lemma {:induction false} NothingUnsettled(t: Turn, m: Bindings, order: seq<string>)
    requires forall id | id in order :: id in m && Settled(t, m[id])
    ensures Rotate(t, m, order) == Rotated(m, 0, true)
  {
    if order != [] {
      NothingUnsettled(t, m, order[1..]);
    }
  }

  /** Once a rotation has succeeded, another one moves nothing, whatever would have failed. */
  lemma SecondRotationIsIdle(t: Turn, t': Turn, m: Bindings, order: seq<string>, order': seq<string>)
    requires Sound(t) && Lists(order, m) && Rotate(t, m, order).ok
    requires t'.lib == t.lib && t'.current == t.current && Lists(order', m)
    ensures var after := Rotate(t, m, order).bindings;
      (forall id | id in order' :: id in after) && Rotate(t', after, order') == Rotated(after, 0, true)
  {
    var after := Rotate(t, m, order).bindings;
    RotationSucceeds(t, m, order);
    RotateIsPointwise(t, m, order);
    forall id | id in order' ensures id in after && Settled(t', after[id]) {
      assert id in m && Readable(t, m[id]);
    }
    NothingUnsettled(t', after, order');
  }

  lemma {:induction false} UnsettledSplits(t: Turn, m: Bindings, a: seq<string>, b: seq<string>)
    requires forall id | id in a + b :: id in m
    ensures Unsettled(t, m, a + b) == Unsettled(t, m, a) + Unsettled(t, m, b)
  {
    if a == [] {
      assert a + b == b;
    } else {
      assert (a + b)[0] == a[0] && (a + b)[1..] == a[1..] + b;
      UnsettledSplits(t, m, a[1..], b);
    }
  }

  lemma {:induction false} UnsettledAgrees(t: Turn, m: Bindings, m': Bindings, order: seq<string>)
    requires forall id | id in order :: id in m && id in m' && Settled(t, m[id]) == Settled(t, m'[id])
    ensures Unsettled(t, m, order) == Unsettled(t, m', order)
  {
    if order != [] {
      UnsettledAgrees(t, m, m', order[1..]);
    }
  }

  lemma {:induction false} AllSettled(t: Turn, m: Bindings, order: seq<string>)
    requires forall id | id in order :: id in m && Settled(t, m[id])
    ensures Unsettled(t, m, order) == 0
  {
    if order != [] {
      AllSettled(t, m, order[1..]);
    }
  }

  lemma RerunSucceeds(t: Turn, t': Turn, m: Bindings, order: seq<string>)
    requires Sound(t) && Sound(t') && Lists(order, m)
    requires t' == t.(faults := t'.faults, nonces := t'.nonces)
    requires forall id | id in m :: Readable(t, m[id]) && !t'.faults(id)
    ensures var first := Rotate(t, m, order);
      Lists(order, first.bindings)
      && var second := Rotate(t', first.bindings, order);
      && second.ok && second.bindings.Keys == m.Keys && second.moved == Unsettled(t', first.bindings, order)
      && forall id | id in m :: SameColumns(m[id], second.bindings[id])
           && Plain(t.lib, t.current, second.bindings[id].credentials) == Either(t, m[id].credentials)
  {
    hide Rotate, Plain, Store, Passed, Unsettled, Lawful;
    var after := Rotate(t, m, order).bindings;
    RotationKeepsPlaintexts(t, m, order);
    assert forall id | id in m :: Either(t', after[id].credentials) == Either(t, m[id].credentials);
    RotationSucceeds(t', after, order);
    RotationKeepsPlaintexts(t', after, order);
  }

  lemma HalfRotated(t: Turn, m: Bindings, order: seq<string>)
    requires Sound(t) && Lists(order, m) && forall id | id in m :: Readable(t, m[id])
    ensures var after, k := Rotate(t, m, order).bindings, Passed(t, m, order);
      && (forall id | id in order[..k] :: id in after && Settled(t, after[id]))
      && (forall id | id in order[k..] :: id in m && id in after && after[id] == m[id])
  {
    hide Rotate, Lawful, Plain;
    var after, k := Rotate(t, m, order).bindings, Passed(t, m, order);
    RotateIsPointwise(t, m, order);
    forall id | id in order[..k] ensures id in after && Settled(t, after[id]) {
      assert id in order;
      SettleKeepsPlain(t, id, m[id]);
    }
    forall id | id in order[k..] ensures id in m && id in after && after[id] == m[id] {
      LaterIsNotBefore(order, k, id);
    }
  }

  lemma RerunCounts(t: Turn, m: Bindings, order: seq<string>)
    requires Sound(t) && Lists(order, m) && Lists(order, Rotate(t, m, order).bindings)
    requires forall id | id in m :: Readable(t, m[id])
    ensures var first := Rotate(t, m, order);
      first.moved + Unsettled(t, first.bindings, order) == Unsettled(t, m, order)
  {
    hide Rotate, Lawful, Settled, Passed, Unsettled, Readable, Settle;
    var after, k := Rotate(t, m, order).bindings, Passed(t, m, order);
    RotateIsPointwise(t, m, order);
    HalfRotated(t, m, order);
    assert order == order[..k] + order[k..];
    UnsettledSplits(t, m, order[..k], order[k..]);
    UnsettledSplits(t, after, order[..k], order[k..]);
    AllSettled(t, after, order[..k]);
    UnsettledAgrees(t, m, after, order[k..]);
  }

  lemma LaterIsNotBefore(order: seq<string>, k: nat, id: string)
    requires Distinct(order) && k <= |order| && id in order[k..]
    ensures id in order && id !in order[..k]
  {
    var i :| k <= i < |order| && order[i] == id;
  }

  /** A rotation that stopped anywhere is finished by running it again once the cause is repaired: every
      plaintext ends under the current key, and the two runs together moved each old record once. */
  lemma RerunFinishes(t: Turn, t': Turn, m: Bindings, order: seq<string>)
    requires Sound(t) && Sound(t') && Lists(order, m)
    requires t' == t.(faults := t'.faults, nonces := t'.nonces)
    requires forall id | id in m :: Readable(t, m[id]) && !t'.faults(id)
    ensures var first := Rotate(t, m, order);
      Lists(order, first.bindings)
      && var second := Rotate(t', first.bindings, order);
      && second.ok && second.bindings.Keys == m.Keys
      && first.moved + second.moved == Unsettled(t, m, order)
      && forall id | id in m :: SameColumns(m[id], second.bindings[id])
           && Plain(t.lib, t.current, second.bindings[id].credentials) == Either(t, m[id].credentials)
  {
    hide Rotate, Plain, Store, Lawful, Either;
    RerunSucceeds(t, t', m, order);
    RerunCounts(t, m, order);
    SameCurrentSameCount(t, t', Rotate(t, m, order).bindings, order);
  }

  lemma {:induction false} SameCurrentSameCount(t: Turn, t': Turn, m: Bindings, order: seq<string>)
    requires t'.lib == t.lib && t'.current == t.current && forall id | id in order :: id in m
    ensures Unsettled(t, m, order) == Unsettled(t', m, order)
  {
    if order != [] {
      SameCurrentSameCount(t, t', m, order[1..]);
    }
  }

  /** The rotation does not look ahead: one that fails has left the table as it was exactly when every record
      before the one it stopped at was on the current key already. */
  lemma FailedRotationIsCleanOnlyIfFirst(t: Turn, m: Bindings, order: seq<string>)
    requires Sound(t) && Lists(order, m) && !Rotate(t, m, order).ok
    ensures var k := Passed(t, m, order);
      Rotate(t, m, order).bindings == m <==> forall i | 0 <= i < k :: Settled(t, m[order[i]])
  {
    var after, k := Rotate(t, m, order).bindings, Passed(t, m, order);
    RotateIsPointwise(t, m, order);
    forall i | 0 <= i < k ensures order[i] in m && (after[order[i]] == m[order[i]] <==> Settled(t, m[order[i]])) {
      assert order[i] in order[..k];
      SettleKeepsPlain(t, order[i], m[order[i]]);
    }
    if forall i | 0 <= i < k :: Settled(t, m[order[i]]) {
      forall id | id in m ensures after[id] == m[id] {
      }
      assert after == m;
    }
  }

  const ZEROS: Bytes := [0, 0, 0, 0, 0, 0, 0, 0, 0, 0, 0, 0]

  function Written(lib: Library, key: Encryptor): BindingRecord
  {
    BindingRecord("instance", "user", BindingParams(""), Store(lib, key, [], ZEROS))
  }

  /** A rotation from key 2 to key 1 of a table whose first record is under key 2, and the second one under key 3. */
  function HalfReadable(lib: Library): (Turn, Bindings, seq<string>)
  {
    (Turn(lib, Gcm([1]), Gcm([2]), _ => false, _ => ZEROS),
        map["a" := Written(lib, Gcm([2])), "b" := Written(lib, Gcm([3]))], ["a", "b"])
  }

  /** It cannot decrypt the whole table, and starts all the same: the first record is moved before it fails. */
  lemma RotationDoesNotLookAhead(lib: Library)
    requires Lawful(lib)
    ensures var (t, m, order) := HalfReadable(lib);
      && Sound(t) && Lists(order, m) && Readable(t, m["a"]) && !Readable(t, m["b"])
      && var r := Rotate(t, m, order);
         && !r.ok && r.moved == 1 && r.bindings.Keys == m.Keys && r.bindings["b"] == m["b"]
         && !Settled(t, m["a"]) && Settled(t, r.bindings["a"]) && r.bindings != m
  {
    var (t, m, order) := HalfReadable(lib);
    assert order[0] == "a" && order[1] == "b" && "a" != "b";
    StoreThenPlain(lib, Gcm([2]), [], ZEROS);
    StoreThenPlain(lib, Gcm([3]), [], ZEROS);
    StoreThenPlain(lib, Gcm([1]), [], ZEROS);
    hide Plain, Store, Lawful, Rotate, Passed;
    assert Gcm([1]) != Gcm([2]) && Gcm([1]) != Gcm([3]) && Gcm([2]) != Gcm([3]);
    var m' := m["a" := Written(lib, Gcm([1]))];
    assert order[0..] == order;
    RotateStep(t, m, order, 0);
    RotateStep(t, m', order, 1);
  }
}
