/** What a valid request looks like: user parameters merged over a plan's limits, and the JSON schema
    that the catalog publishes for the same rules. */
module Params {
  import opened Wrappers
  import opened State

  datatype Json =
    | Null
    | Bool(b: bool)
    | Number(value: real)
    | String(text: string)
    | Array(items: seq<Json>)
    | Object(fields: map<string, Json>)

  type Fields = map<string, Json>

  /** The raw parameters of a request: none, the literal `null`, text that is not JSON, or a document. */
  datatype Raw = Absent | NullLiteral | Malformed | Document(json: Json)

  /** Library functions: the nearest float64, and how `fmt.Sprint` prints numbers, lists and maps. */
  datatype Library = Library(round: real -> real, number: real -> string, list: seq<Json> -> string,
          dictionary: Fields -> string)

  const EXACT: int := 0x20_0000_0000_0000 // 2^53: every integer up to here is a float64

  const HALF_STEP: real := 1.0 / EXACT as real // half the distance from 1 to the next float64

  predicate IsWhole(x: real) { x.Floor as real == x }

  ghost predicate Lawful(lib: Library)
  {
    && (forall x | IsWhole(x) && -(EXACT as real) <= x <= EXACT as real :: lib.round(x) == x)
    && (forall x | 1.0 <= x <= 1.0 + HALF_STEP :: lib.round(x) == 1.0)
    && (forall v :: lib.number(v) != [] && (lib.number(v)[0] == '-' || '0' <= lib.number(v)[0] <= '9'))
    && (forall l :: lib.list(l) != [] && lib.list(l)[0] == '[')
    && (forall d :: lib.dictionary(d) != [] && lib.dictionary(d)[0] == 'm')
  }

  datatype Plan = Plan(id: string, name: string, description: string, storageGb: int, maxConnections: int)

  const COMPATIBILITIES := ["PG", "A", "B", "C"]
  const ENCODINGS := ["UTF8", "GBK", "GB18030", "Latin1"]

  function Sprint(lib: Library, v: Json): string
  {
    match v
    case Null => "<nil>"
    case Bool(b) => if b then "true" else "false"
    case Number(x) => lib.number(lib.round(x))
    case String(s) => s
    case Array(items) => lib.list(items)
    case Object(fields) => lib.dictionary(fields)
  }

  /** Only the text itself prints as one of the published choices. */
  lemma OnlyTextPrintsAsChoice(lib: Library, v: Json)
    requires Lawful(lib)
    ensures Sprint(lib, v) in COMPATIBILITIES <==> v.String? && v.text in COMPATIBILITIES
    ensures Sprint(lib, v) in ENCODINGS <==> v.String? && v.text in ENCODINGS
  {
    if !v.String? {
      var printed := Sprint(lib, v);
      assert "true"[0] == 't' && "false"[0] == 'f' && "<nil>"[0] == '<';
      if v.Number? {
        var rounded := lib.round(v.value);
        assert lib.number(rounded) != [];
        assert printed == lib.number(rounded);
      }
      assert printed != [] && printed[0] !in ['P', 'A', 'B', 'C', 'U', 'G', 'L'];
      forall choice | choice in COMPATIBILITIES || choice in ENCODINGS ensures choice != printed {
        assert choice[0] in ['P', 'A', 'B', 'C', 'U', 'G', 'L'];
      }
    }
  }

  /** A whole number between 1 and `maximum`, after rounding to float64; `fallback` when the key is missing. */
  function BoundedInt(lib: Library, params: Fields, key: string, fallback: int, maximum: int): Option<int>
  {
    if key !in params then Some(fallback)
    else if !params[key].Number? then None
    else
      var v := lib.round(params[key].value);
      if IsWhole(v) && v >= 1.0 && v <= lib.round(maximum as real) then Some(v.Floor) else None
  }

  /** The parameters a request asks for, or None where the broker answers 400. */
  function Resolve(lib: Library, plan: Plan, params: Fields): Option<InstanceParams>
  {
    var compatibility := if "compatibility" in params then Sprint(lib, params["compatibility"]) else "PG";
    var encoding := if "encoding" in params then Sprint(lib, params["encoding"]) else "UTF8";
    var name := if "name" in params then Sprint(lib, params["name"]) else "";
    var connections := BoundedInt(lib, params, "max_connections", plan.maxConnections, plan.maxConnections);
    var storage := BoundedInt(lib, params, "storage_gb", plan.storageGb, plan.storageGb);
    if compatibility in COMPATIBILITIES && encoding in ENCODINGS && connections.Some? && storage.Some?
    then Some(InstanceParams(name, compatibility, encoding, connections.value, storage.value))
    else None
  }

  /** The merge as the broker performs it, field after field. */
  method ResolveInstanceParams(lib: Library, plan: Plan, params: Fields) returns (resolved: InstanceParams, ok: bool)
    ensures Resolve(lib, plan, params) == if ok then Some(resolved) else None
  {
    ok := false;
    resolved := InstanceParams("", "PG", "UTF8", plan.maxConnections, plan.storageGb);
    if "compatibility" in params {
      resolved := resolved.(compatibility := Sprint(lib, params["compatibility"]));
      if resolved.compatibility !in COMPATIBILITIES {
        return;
      }
    }
    if "encoding" in params {
      resolved := resolved.(encoding := Sprint(lib, params["encoding"]));
      if resolved.encoding !in ENCODINGS {
        return;
      }
    }
    if "name" in params {
      resolved := resolved.(name := Sprint(lib, params["name"]));
    }
    var connections := BoundedInt(lib, params, "max_connections", plan.maxConnections, plan.maxConnections);
    if connections.None? {
      return;
    }
    resolved := resolved.(maxConnections := connections.value);
    var storage := BoundedInt(lib, params, "storage_gb", plan.storageGb, plan.storageGb);
    if storage.None? {
      return;
    }
    resolved := resolved.(storageGb := storage.value);
    ok := true;
  }

  // ---------------------------------------------------------------- schemas

  datatype Rule = AnyText | OneOf(choices: seq<string>) | WholeUpTo(maximum: int)

  type Schema = map<string, Rule>

  function InstanceSchema(plan: Plan): Schema
  {
    map["compatibility" := OneOf(COMPATIBILITIES), "encoding" := OneOf(ENCODINGS),
        "max_connections" := WholeUpTo(plan.maxConnections), "storage_gb" := WholeUpTo(plan.storageGb),
            "name" := AnyText]
  }

  const UPDATABLE := ["max_connections", "storage_gb"]

  function UpdatableSchema(plan: Plan): Schema
  {
    map key | key in UPDATABLE :: InstanceSchema(plan)[key]
  }

  const BINDING_SCHEMA: Schema := map["name" := AnyText]

  /** The loop that copies the updatable rules. */
  method BuildUpdatableSchema(plan: Plan) returns (updatable: Schema)
    ensures updatable == UpdatableSchema(plan)
  {
    var full := InstanceSchema(plan);
    updatable := map[];
    for i := 0 to |UPDATABLE|
      invariant updatable == map key | key in UPDATABLE[..i] :: full[key]
    {
      updatable := updatable[UPDATABLE[i] := full[UPDATABLE[i]]];
    }
  }

  /** JSON Schema draft-04: `type`, `enum`, `minimum` and `maximum` of one property. */
  predicate Satisfies(v: Json, rule: Rule)
  {
    match rule
    case AnyText => v.String?
    case OneOf(choices) => v.String? && v.text in choices
    case WholeUpTo(maximum) => v.Number? && IsWhole(v.value) && 1.0 <= v.value <= maximum as real
  }

  predicate Valid(schema: Schema, params: Fields)
  {
    forall key | key in schema :: key in params ==> Satisfies(params[key], schema[key])
  }

  /** Validation, then decoding; None where the broker answers 400. */
  function Parse(schema: Schema, raw: Raw): Option<Fields>
  {
    match raw
    case Absent => Some(map[])
    case NullLiteral => Some(map[])
    case Malformed => None
    case Document(j) => if j.Object? && Valid(schema, j.fields) then Some(j.fields) else None
  }

  /** The document the resolver really judges: numbers as float64, and any name at all. */
  function AsSeen(lib: Library, params: Fields): Fields
  {
    map key | key in params && key != "name" ::
      if params[key].Number? then Number(lib.round(params[key].value)) else params[key]
  }

  predicate Sized(plan: Plan)
  {
    1 <= plan.storageGb <= EXACT && 1 <= plan.maxConnections <= EXACT
  }

  lemma BoundedIntAgrees(lib: Library, params: Fields, key: string, maximum: int)
    requires Lawful(lib) && 1 <= maximum <= EXACT
    ensures BoundedInt(lib, params, key, maximum, maximum).Some? <==>
      (key in params ==> params[key].Number? && Satisfies(Number(lib.round(params[key].value)), WholeUpTo(maximum)))
    ensures BoundedInt(lib, params, key, maximum, maximum).Some? ==>
      1 <= BoundedInt(lib, params, key, maximum, maximum).value <= maximum
  {
    assert lib.round(maximum as real) == maximum as real;
  }

  /** The resolver accepts exactly the objects that the schema accepts once numbers are read as
      float64 and the name is left aside. */
  lemma ResolverDecidesSchema(lib: Library, plan: Plan, params: Fields)
    requires Lawful(lib) && Sized(plan)
    ensures Resolve(lib, plan, params).Some? <==> Valid(InstanceSchema(plan), AsSeen(lib, params))
  {
    var seen := AsSeen(lib, params);
    var schema := InstanceSchema(plan);
    if "compatibility" in params {
      OnlyTextPrintsAsChoice(lib, params["compatibility"]);
    }
    if "encoding" in params {
      OnlyTextPrintsAsChoice(lib, params["encoding"]);
    }
    BoundedIntAgrees(lib, params, "max_connections", plan.maxConnections);
    BoundedIntAgrees(lib, params, "storage_gb", plan.storageGb);
    assert Valid(schema, seen) <==>
      && ("compatibility" in seen ==> Satisfies(seen["compatibility"], schema["compatibility"]))
      && ("encoding" in seen ==> Satisfies(seen["encoding"], schema["encoding"]))
      && ("max_connections" in seen ==> Satisfies(seen["max_connections"], schema["max_connections"]))
      && ("storage_gb" in seen ==> Satisfies(seen["storage_gb"], schema["storage_gb"]));
  }

  /** Every document the published schema accepts is accepted by the resolver. */
  lemma PublishedSchemaImpliesAcceptance(lib: Library, plan: Plan, raw: Raw)
    requires Lawful(lib) && Sized(plan)
    ensures var fields := Parse(InstanceSchema(plan), raw);
      fields.Some? ==> Resolve(lib, plan, fields.value).Some?
    ensures var fields := Parse(UpdatableSchema(plan), raw);
      fields.Some? && "compatibility" !in fields.value && "encoding" !in fields.value ==>
          Resolve(lib, plan, fields.value).Some?
  {
    if raw.Document? && raw.json.Object? {
      var fields := raw.json.fields;
      ResolverDecidesSchema(lib, plan, fields);
      forall key, v: real | key in fields && fields[key] == Number(v) && IsWhole(v) && 1.0 <= v <= EXACT as real
        ensures lib.round(v) == v
      {
        assert lib.round(v.Floor as real) == v.Floor as real;
      }
    } else {
      ResolverDecidesSchema(lib, plan, map[]);
    }
  }

  /** On numbers that are float64 values, the resolver only goes beyond the schema for a name that is not text. */
  lemma BeyondSchemaOnlyByName(lib: Library, plan: Plan, params: Fields)
    requires Lawful(lib) && Sized(plan) && Resolve(lib, plan, params).Some?
    requires forall key | key in params && params[key].Number? :: lib.round(params[key].value) == params[key].value
    ensures Valid(InstanceSchema(plan), params) <==> ("name" in params ==> params["name"].String?)
  {
    ResolverDecidesSchema(lib, plan, params);
    forall key | key in params && key != "name" ensures AsSeen(lib, params)[key] == params[key] {
    }
  }

  /** Rounding is a second way past the schema: it accepts exactly the numbers that are not, but round to, a whole
      number within the plan. */
  lemma RoundingGoesBeyondSchema(lib: Library, plan: Plan, x: real)
    requires Lawful(lib) && Sized(plan)
    ensures var params: Fields := map["max_connections" := Number(x)];
      Resolve(lib, plan, params).Some? && !Valid(InstanceSchema(plan), params) <==>
      IsWhole(lib.round(x)) && 1.0 <= lib.round(x) <= plan.maxConnections as real && lib.round(x) != x
  {
    var params: Fields := map["max_connections" := Number(x)];
    ResolverDecidesSchema(lib, plan, params);
    assert AsSeen(lib, params) == map["max_connections" := Number(lib.round(x))];
    ValidNumber(plan, x);
    ValidNumber(plan, lib.round(x));
    if IsWhole(x) && 1.0 <= x <= plan.maxConnections as real {
      assert lib.round(x) == x;
    }
  }

  lemma ValidNumber(plan: Plan, x: real)
    ensures Valid(InstanceSchema(plan), map["max_connections" := Number(x)]) <==>
      IsWhole(x) && 1.0 <= x <= plan.maxConnections as real
  {
    assert "max_connections" in InstanceSchema(plan);
  }

  /** One such number, in every plan: a little more than 1 is accepted as 1. */
  lemma FractionIsAccepted(lib: Library, plan: Plan)
    requires Lawful(lib) && Sized(plan)
    ensures var params: Fields := map["max_connections" := Number(1.0 + HALF_STEP / 128.0)];
      && Resolve(lib, plan, params).Some? && Resolve(lib, plan, params).value.maxConnections == 1
      && !Valid(InstanceSchema(plan), params)
  {
    var x := 1.0 + HALF_STEP / 128.0;
    assert lib.round(x) == 1.0;
    RoundingGoesBeyondSchema(lib, plan, x);
  }

  /** What a resolved parameter set promises: choices from the published lists, quotas within the plan. */
  predicate WithinPlan(plan: Plan, p: InstanceParams)
  {
    1 <= p.maxConnections <= plan.maxConnections && 1 <= p.storageGb <= plan.storageGb
  }

  lemma ResolvedIsWithinPlan(lib: Library, plan: Plan, params: Fields)
    requires Lawful(lib) && Sized(plan) && Resolve(lib, plan, params).Some?
    ensures WithinPlan(plan, Resolve(lib, plan, params).value)
    ensures "max_connections" !in params ==> Resolve(lib, plan, params).value.maxConnections == plan.maxConnections
    ensures "storage_gb" !in params ==> Resolve(lib, plan, params).value.storageGb == plan.storageGb
  {
    BoundedIntAgrees(lib, params, "max_connections", plan.maxConnections);
    BoundedIntAgrees(lib, params, "storage_gb", plan.storageGb);
  }

  /** What a present quota resolves to: the number itself, read as float64. */
  predicate IsRequested(lib: Library, params: Fields, key: string, fallback: int, value: int)
  {
    if key in params then params[key].Number? && value as real == lib.round(params[key].value) else value == fallback
  }

  predicate IsChosen(params: Fields, key: string, fallback: string, value: string)
  {
    if key in params then params[key] == String(value) else value == fallback
  }

  /** Resolved parameters are the requested ones, and the plan's or the default where the request is silent. */
  lemma ResolvedIsTheRequest(lib: Library, plan: Plan, params: Fields)
    requires Lawful(lib) && Resolve(lib, plan, params).Some?
    ensures var p := Resolve(lib, plan, params).value;
      && IsRequested(lib, params, "max_connections", plan.maxConnections, p.maxConnections)
      && IsRequested(lib, params, "storage_gb", plan.storageGb, p.storageGb)
      && IsChosen(params, "compatibility", "PG", p.compatibility) && IsChosen(params, "encoding", "UTF8", p.encoding)
      && ("name" in params && params["name"].String? ==> p.name == params["name"].text)
      && ("name" !in params ==> p.name == "")
  {
    if "compatibility" in params {
      OnlyTextPrintsAsChoice(lib, params["compatibility"]);
    }
    if "encoding" in params {
      OnlyTextPrintsAsChoice(lib, params["encoding"]);
    }
  }
}
