/** The kernel that every agent request passes through: a registry of named
    engines with an append-only audit log stamped with the kernel hash, the
    governance layer that authorizes intents and signs results, the
    orchestration layer that registers and runs engines, and the evolution
    layer that records observations. The clock, the random hash and the
    random signature are parameters. */
module KernelService {
  import opened Wrappers
  import opened Strings

  /** The JSON-like values that flow through the kernel. */
  datatype Value =
    | Undefined
    | Null
    | Bool(b: bool)
    | Num(n: real)
    | Str(s: string)
    | Obj(fields: map<string, Value>)

  /** JavaScript truthiness (NaN is not among the numbers modelled). */
  predicate Truthy(v: Value) {
    match v
    case Undefined => false
    case Null => false
    case Bool(b) => b
    case Num(n) => n != 0.0
    case Str(s) => s != ""
    case Obj(_) => true
  }

  /** An engine: an asynchronous handler whose settled outcome is a result. */
  type Handler = Value -> Result<Value>

  datatype Layer = Governance | Orchestration | Evolution | KernelLayer

  /** An audit event without its time stamp and kernel hash. */
  datatype EventBody = EventBody(
    layer: Layer,
    actor: Option<string>,
    intent: Option<string>,
    action: Option<string>,
    decision: Option<string>,
    engine: Option<string>,
    task: Option<Value>,
    quality: Option<Value>,
    signal: Option<string>)

  /** An audit event as stored: the body, the time and the kernel hash. */
  datatype KernelEvent = KernelEvent(ts: int, kernel: string, body: EventBody)

  const RootAuthority := "FRANKLIN"
  const UnauthorizedError := "UNAUTHORIZED_INTENT_BLOCKED_BY_FRANKLIN"

  function Authorized(intent: string): EventBody {
    EventBody(Governance, Some(RootAuthority), Some(intent), None, Some("authorized"), None, None, None, None)
  }

  function EngineRegistered(name: string): EventBody {
    EventBody(Orchestration, None, None, Some("engine_registered"), None, Some(name), None, None, None)
  }

  function EngineInvoked(name: string, task: Value): EventBody {
    EventBody(Orchestration, None, None, None, None, Some(name), Some(task), None, None)
  }

  function Observation(quality: Value): EventBody {
    EventBody(Evolution, None, None, None, None, None, None, Some(quality), Some("observation"))
  }

  function Adaptation(): EventBody {
    EventBody(Evolution, None, None, Some("adaptation_cycle"), None, None, None, None, None)
  }

  function NotRegistered(engine: string): string {
    "Engine '" + engine + "' not registered in Trinity"
  }

  /** `result?.quality || 1.0`: the result's own quality when it is truthy,
      otherwise 1.0; the recorded quality is therefore never falsy. */
  function ObservedQuality(result: Value): (q: Value)
    ensures Truthy(q)
    ensures result.Obj? && "quality" in result.fields && Truthy(result.fields["quality"]) ==> q == result.fields["quality"]
    ensures !(result.Obj? && "quality" in result.fields && Truthy(result.fields["quality"])) ==> q == Num(1.0)
  {
    if result.Obj? && "quality" in result.fields && Truthy(result.fields["quality"]) then result.fields["quality"]
    else Num(1.0)
  }

  /** `toString` never writes the same digits for two numbers. */
  lemma NatToStringInjective()
    ensures forall i: nat, j: nat :: NatToString(i) == NatToString(j) ==> i == j
  {
    forall i: nat, j: nat | NatToString(i) == NatToString(j) ensures i == j {
      NatToStringRoundTrip(i);
      NatToStringRoundTrip(j);
    }
  }

  /** A string's characters under their index keys, as a spread copies them. */
  function CharFields(s: string): map<string, Value>
    decreases |s|
  {
    if s == [] then map[] else CharFields(s[..|s| - 1])[NatToString(|s| - 1) := Str([s[|s| - 1]])]
  }

  /** The own enumerable properties an object spread copies: an object's
      fields, a string's characters, and nothing for any other value. */
  function SpreadFields(v: Value): map<string, Value> {
    match v
    case Obj(fields) => fields
    case Str(s) => CharFields(s)
    case _ => map[]
  }

  /** A string spreads into exactly its index keys. */
  lemma {:induction false} CharFieldsKeys(s: string, key: string)
    ensures key in CharFields(s) <==> exists i: nat :: i < |s| && key == NatToString(i)
    decreases |s|
  {
    if s != [] {
      var init := s[..|s| - 1];
      var last := NatToString(|s| - 1);
      assert CharFields(s) == CharFields(init)[last := Str([s[|s| - 1]])];
      assert key in CharFields(s) <==> key == last || key in CharFields(init);
      CharFieldsKeys(init, key);
      if key in CharFields(init) {
        var i: nat :| i < |init| && key == NatToString(i);
        assert i < |s|;
      }
      if exists i: nat :: i < |s| && key == NatToString(i) {
        var i: nat :| i < |s| && key == NatToString(i);
        if i < |s| - 1 {
          assert i < |init| && key == NatToString(i);
          assert exists j: nat :: j < |init| && key == NatToString(j);
        } else {
          assert key == last;
        }
      }
    }
  }

  /** Each index key holds the character at that index. */
  lemma {:induction false} CharFieldsValues(s: string, i: nat)
    requires i < |s|
    ensures NatToString(i) in CharFields(s) && CharFields(s)[NatToString(i)] == Str([s[i]])
    decreases |s|
  {
    var init := s[..|s| - 1];
    if i < |s| - 1 {
      CharFieldsValues(init, i);
      NatToStringInjective();
      assert init[i] == s[i];
    }
  }

  /** `Franklin.sign`: a copy of the result's own properties with the
      signer and the signature set on top; the input is a value and is not
      changed. */
  function Sign(result: Value, signature: string): (r: Value)
    ensures r.Obj?
    ensures "_signed_by" in r.fields && r.fields["_signed_by"] == Str(RootAuthority)
    ensures "_signature" in r.fields && r.fields["_signature"] == Str(signature)
    ensures r.fields.Keys == SpreadFields(result).Keys + {"_signed_by", "_signature"}
    ensures forall k :: k in SpreadFields(result) && k != "_signed_by" && k != "_signature" ==>
      r.fields[k] == SpreadFields(result)[k]
  {
    Obj(SpreadFields(result)["_signed_by" := Str(RootAuthority)]["_signature" := Str(signature)])
  }

  /** Signing an object keeps every one of its own fields but the two the
      signature sets. */
  lemma SignKeepsObjectFields(fields: map<string, Value>, signature: string, key: string)
    requires key in fields && key != "_signed_by" && key != "_signature"
    ensures key in Sign(Obj(fields), signature).fields
    ensures Sign(Obj(fields), signature).fields[key] == fields[key]
  {
  }

  /** Signing a string result gives an object with no `text` field: the
      spread leaves only index keys, which are all digits. */
  lemma SignedStringHasNoText(s: string, signature: string)
    ensures "text" !in Sign(Str(s), signature).fields
  {
    CharFieldsKeys(s, "text");
  }

  /** The state shared by the three layers. */
  class KernelRegistry {
    var engines: map<string, Handler>
    var auditLog: seq<KernelEvent>
    var kernelHash: string

    /** No engines, an empty log and a freshly computed hash. */
    constructor (hash: string)
      ensures engines == map[] && auditLog == [] && kernelHash == hash
    {
      engines := map[];
      auditLog := [];
      kernelHash := hash;
    }

    /** `audit`: appends exactly one event, stamped with the time and the
        current kernel hash; the log only ever grows. */
    method Audit(body: EventBody, now: int)
      modifies this`auditLog
      ensures auditLog == old(auditLog) + [KernelEvent(now, kernelHash, body)]
    {
      auditLog := auditLog + [KernelEvent(now, kernelHash, body)];
    }
  }

  /** `Franklin.authorize`: an empty intent is refused without an audit
      entry; any other is authorized with one governance entry. */
  method Authorize(reg: KernelRegistry, intent: string, now: int) returns (ok: bool)
    modifies reg`auditLog
    ensures ok <==> intent != ""
    ensures !ok ==> reg.auditLog == old(reg.auditLog)
    ensures ok ==> reg.auditLog == old(reg.auditLog) + [KernelEvent(now, reg.kernelHash, Authorized(intent))]
  {
    if intent == "" {
      return false;
    }
    reg.Audit(Authorized(intent), now);
    return true;
  }

  /** `Trinity.registerEngine`: stores or replaces the handler under its
      name, then logs one orchestration entry. */
  method RegisterEngine(reg: KernelRegistry, name: string, handler: Handler, now: int)
    modifies reg`engines, reg`auditLog
    ensures reg.engines == old(reg.engines)[name := handler]
    ensures reg.auditLog == old(reg.auditLog) + [KernelEvent(now, reg.kernelHash, EngineRegistered(name))]
  {
    reg.engines := reg.engines[name := handler];
    reg.Audit(EngineRegistered(name), now);
  }

  /** `Trinity.execute`: an unregistered engine fails before anything is
      logged; a registered one is logged with its task and then run. */
  method Execute(reg: KernelRegistry, engine: string, task: Value, now: int) returns (r: Result<Value>)
    modifies reg`auditLog
    ensures engine !in reg.engines ==> r == Err(NotRegistered(engine)) && reg.auditLog == old(reg.auditLog)
    ensures engine in reg.engines ==>
      r == reg.engines[engine](task) &&
      reg.auditLog == old(reg.auditLog) + [KernelEvent(now, reg.kernelHash, EngineInvoked(engine, task))]
  {
    if engine !in reg.engines {
      return Err(NotRegistered(engine));
    }
    reg.Audit(EngineInvoked(engine, task), now);
    r := reg.engines[engine](task);
  }

  /** `Neo3.observe`: one evolution entry carrying the observed quality. */
  method Observe(reg: KernelRegistry, result: Value, now: int)
    modifies reg`auditLog
    ensures reg.auditLog == old(reg.auditLog) + [KernelEvent(now, reg.kernelHash, Observation(ObservedQuality(result)))]
  {
    reg.Audit(Observation(ObservedQuality(result)), now);
  }

  /** `Neo3.adapt`: one evolution entry for an adaptation cycle. */
  method Adapt(reg: KernelRegistry, now: int)
    modifies reg`auditLog
    ensures reg.auditLog == old(reg.auditLog) + [KernelEvent(now, reg.kernelHash, Adaptation())]
  {
    reg.Audit(Adaptation(), now);
  }

  /** What `handleKernelRequest` settles to, given the engines. */
  function RequestOutcome(engines: map<string, Handler>, intent: string, engine: string, payload: Value, signature: string): (r: Result<Value>)
    ensures intent == "" ==> r == Err(UnauthorizedError)
    ensures intent != "" && engine !in engines ==> r == Err(NotRegistered(engine))
    ensures r.Ok? <==> intent != "" && engine in engines && engines[engine](payload).Ok?
  {
    if intent == "" then Err(UnauthorizedError)
    else if engine !in engines then Err(NotRegistered(engine))
    else match engines[engine](payload)
      case Err(e) => Err(e)
      case Ok(v) => Ok(Sign(v, signature))
  }

  /** The audit entries `handleKernelRequest` appends, in order. */
  function RequestEvents(engines: map<string, Handler>, intent: string, engine: string, payload: Value): seq<EventBody> {
    if intent == "" then []
    else if engine !in engines then [Authorized(intent)]
    else match engines[engine](payload)
      case Err(_) => [Authorized(intent), EngineInvoked(engine, payload)]
      case Ok(v) => [Authorized(intent), EngineInvoked(engine, payload), Observation(ObservedQuality(v))]
  }

  function Stamp(bodies: seq<EventBody>, now: int, hash: string): (r: seq<KernelEvent>)
    ensures |r| == |bodies|
    ensures forall k :: 0 <= k < |r| ==> r[k] == KernelEvent(now, hash, bodies[k])
  {
    seq(|bodies|, k requires 0 <= k < |bodies| => KernelEvent(now, hash, bodies[k]))
  }

  /** The request's entries come layer by layer: governance, then
      orchestration, then evolution, each at most once; a request that
      settles successfully has all three, and one with an empty intent has
      none and fails with the governance error. */
  lemma RequestEventsOrdered(engines: map<string, Handler>, intent: string, engine: string, payload: Value, signature: string)
    ensures var ev := RequestEvents(engines, intent, engine, payload);
      |ev| <= 3 &&
      (|ev| >= 1 ==> ev[0].layer == Governance) &&
      (|ev| >= 2 ==> ev[1].layer == Orchestration) &&
      (|ev| >= 3 ==> ev[2].layer == Evolution) &&
      (RequestOutcome(engines, intent, engine, payload, signature).Ok? <==> |ev| == 3) &&
      (intent == "" <==> ev == []) &&
      (intent == "" ==> RequestOutcome(engines, intent, engine, payload, signature) == Err(UnauthorizedError))
  {
  }

  /** `handleKernelRequest`: authorize, execute, observe, sign. */
  method HandleKernelRequest(reg: KernelRegistry, intent: string, engine: string, payload: Value, now: int, signature: string)
    returns (r: Result<Value>)
    modifies reg`auditLog
    ensures r == RequestOutcome(reg.engines, intent, engine, payload, signature)
    ensures reg.auditLog == old(reg.auditLog) + Stamp(RequestEvents(reg.engines, intent, engine, payload), now, reg.kernelHash)
  {
    var ok := Authorize(reg, intent, now);
    if !ok {
      assert Stamp([], now, reg.kernelHash) == [];
      return Err(UnauthorizedError);
    }
    ghost var auth := Authorized(intent);
    ghost var invoked := EngineInvoked(engine, payload);
    var result := Execute(reg, engine, payload, now);
    if result.Err? {
      StampShapes(auth, invoked, auth, now, reg.kernelHash);
      return Err(result.message);
    }
    Observe(reg, result.value, now);
    StampShapes(auth, invoked, Observation(ObservedQuality(result.value)), now, reg.kernelHash);
    r := Ok(Sign(result.value, signature));
  }

  /** The stamped entries of one, two and three bodies. */
  lemma StampShapes(a: EventBody, b: EventBody, c: EventBody, now: int, hash: string)
    ensures Stamp([a], now, hash) == [KernelEvent(now, hash, a)]
    ensures Stamp([a, b], now, hash) == [KernelEvent(now, hash, a), KernelEvent(now, hash, b)]
    ensures Stamp([a, b, c], now, hash) == [KernelEvent(now, hash, a), KernelEvent(now, hash, b), KernelEvent(now, hash, c)]
  {
  }

  /** The engine registered at load: it acknowledges with quality 1.0 and
      echoes the task. */
  function NullEngine(task: Value): Result<Value> {
    Ok(Obj(map["output" := Str("ack"), "quality" := Num(1.0), "task" := task]))
  }

  /** A request to the bootstrap engine succeeds with an acknowledged,
      signed result, and observes quality 1.0. */
  lemma NullEngineRequest(engines: map<string, Handler>, intent: string, payload: Value, signature: string)
    requires intent != "" && "null" in engines && engines["null"] == NullEngine
    ensures var r := RequestOutcome(engines, intent, "null", payload, signature);
      r.Ok? && "output" in r.value.fields && r.value.fields["output"] == Str("ack") &&
      RequestEvents(engines, intent, "null", payload)[2] == Observation(Num(1.0))
  {
    var fields := map["output" := Str("ack"), "quality" := Num(1.0), "task" := payload];
    SignKeepsObjectFields(fields, signature, "output");
  }

  /** Module load: the registry is created once and the `null` engine is
      registered, which is the log's first entry. */
  method Bootstrap(hash: string, now: int) returns (reg: KernelRegistry)
    ensures fresh(reg)
    ensures reg.engines == map["null" := NullEngine]
    ensures reg.auditLog == [KernelEvent(now, hash, EngineRegistered("null"))]
    ensures reg.kernelHash == hash
  {
    reg := new KernelRegistry(hash);
    RegisterEngine(reg, "null", NullEngine, now);
  }
}
