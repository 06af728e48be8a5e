/** The engine hook: it registers the three agent engines with the kernel,
    mirrors every kernel audit event into the log, gates the premium agents,
    and runs the two flows of the interface, sending a chat message and
    training the active node's DNA. Both flows go through the kernel, whose
    results are signed copies of what the engines returned. */
module NeuralEngine {
  import opened Wrappers
  import opened Strings
  import opened Types
  import opened NeuralContext
  import opened KernelService
  import ModelOrchestrator

  // ------------------------------------------------------ the premium gate

  /** `PREMIUM_AGENTS`: the panel's eight premium agents and the two media agents. */
  const PremiumAgents: seq<AIModel> := [
    MASTER_FRANKLIN, PROJECT_MANAGER_AGENT, LAND_PROCUREMENT, DEVELOPMENT_PLANNER, GEOTECH_ENGINEER,
    MEP_AGENT, RISK_ANALYZER, ENVIRONMENTAL_AGENT, VISUAL_RENDERER, TEMPORAL_VEO]

  /** `state.user?.isSubscribed`, with no user counting as not subscribed. */
  predicate Subscribed(user: Option<User>) {
    user.Some? && user.value.isSubscribed
  }

  /** A message to this agent is refused. */
  predicate Gated(model: AIModel, user: Option<User>) {
    model in PremiumAgents && !Subscribed(user)
  }

  /** The hook refuses every agent the panel locks, and two more: the panel
      lets a visitor pick VISUAL_RENDERER and TEMPORAL_VEO, whose messages
      are then refused. ACOUSTIC_LIVE is never refused. */
  lemma GateExtendsPanelLock(model: AIModel, user: Option<User>)
    ensures model != ACOUSTIC_LIVE ==>
      (Gated(model, user) <==>
        ModelOrchestrator.IsLocked(ModelOrchestrator.ActiveAgent(model), Subscribed(user)) ||
        (model in {VISUAL_RENDERER, TEMPORAL_VEO} && !Subscribed(user)))
    ensures !Gated(ACOUSTIC_LIVE, user)
  {
    if model != ACOUSTIC_LIVE {
      ModelOrchestrator.ActiveAgentPremium(model);
      PremiumAgentsSplit(model);
    }
  }

  /** The hook's list is the panel's premium agents and the two media agents. */
  lemma PremiumAgentsSplit(model: AIModel)
    ensures model in PremiumAgents <==> model in ModelOrchestrator.PremiumNames || model in {VISUAL_RENDERER, TEMPORAL_VEO}
  {
  }

  // ------------------------------------------------------ reading results

  /** `v[key]`: a field of an object, `undefined` for anything else. */
  function Field(v: Value, key: string): Value {
    if v.Obj? && key in v.fields then v.fields[key] else Undefined
  }

  /** A value inside a template literal or as message content. Numbers are
      written by their integer part. */
  function JsString(v: Value): string {
    match v
    case Undefined => "undefined"
    case Null => "null"
    case Bool(b) => if b then "true" else "false"
    case Num(n) => IntToString(n.Floor)
    case Str(s) => s
    case Obj(_) => "[object Object]"
  }

  /** The prompt the user message carries: a signed result's `text` when
      it is truthy, otherwise the result itself, kept only when it is a
      string; a failed optimizer leaves the typed prompt. */
  function FinalPrompt(prompt: string, optimized: Result<Value>): (r: string)
    ensures optimized.Err? ==> r == prompt
    ensures r == prompt || optimized == Ok(Str(r)) ||
      (optimized.Ok? && Field(optimized.value, "text") == Str(r) && r != "")
  {
    match optimized
    case Err(_) => prompt
    case Ok(v) =>
      var candidate := if Truthy(Field(v, "_signed_by")) then (if Truthy(Field(v, "text")) then Field(v, "text") else v) else v;
      if candidate.Str? then candidate.s else prompt
  }

  /** For a signed result, the user message carries the engine's `text`
      exactly when the engine returned an object whose `text` is a
      non-empty string; in every other case the typed prompt. */
  lemma FinalPromptOfSigned(prompt: string, x: Value, signature: string)
    ensures FinalPrompt(prompt, Ok(Sign(x, signature))) ==
      if x.Obj? && "text" in x.fields && x.fields["text"].Str? && x.fields["text"].s != "" then x.fields["text"].s
      else prompt
  {
    var v := Sign(x, signature);
    assert Truthy(Field(v, "_signed_by"));
    if x.Str? {
      SignedStringHasNoText(x.s, signature);
    } else if x.Obj? && "text" in x.fields {
      SignKeepsObjectFields(x.fields, signature, "text");
    }
  }

  /** The DNA a training result yields: a string result itself, otherwise
      its truthy `text`, otherwise `DNA_ERROR`. */
  function FinalDna(result: Value): (r: string)
    ensures result.Str? ==> r == result.s
    ensures !result.Str? && !Truthy(Field(result, "text")) ==> r == "DNA_ERROR"
  {
    if result.Str? then result.s
    else if Truthy(Field(result, "text")) then JsString(Field(result, "text"))
    else "DNA_ERROR"
  }

  /** For a signed result: the engine's truthy `text` when it returned an
      object that has one, `DNA_ERROR` otherwise. */
  lemma FinalDnaOfSigned(x: Value, signature: string)
    ensures FinalDna(Sign(x, signature)) ==
      if x.Obj? && "text" in x.fields && Truthy(x.fields["text"]) then JsString(x.fields["text"]) else "DNA_ERROR"
  {
    if x.Str? {
      SignedStringHasNoText(x.s, signature);
    } else if x.Obj? && "text" in x.fields {
      SignKeepsObjectFields(x.fields, signature, "text");
    }
  }

  // ------------------------------------------------------------ engines

  const InferenceIntent := "execute_inference"
  const InferenceEngine := "gemini_core"
  const TrainIntent := "train_neural_dna"
  const TrainerEngine := "dna_trainer"
  const OptimizeIntent := "optimize_intent"
  const OptimizerEngine := "prompt_optimizer"

  /** The optimizer's task, `{ prompt }`. */
  function OptimizerTask(prompt: string): Value {
    Obj(map["prompt" := Str(prompt)])
  }

  /** An engine whose string result is handed back as `{ text }`, so that
      the signed copy still carries it; other outcomes pass unchanged. */
  function TextEngine(h: Handler): Handler {
    (task: Value) =>
      match h(task)
      case Ok(Str(s)) => Ok(Obj(map["text" := Str(s)]))
      case other => other
  }

  /** The optimizer returns a string and the kernel signs a spread copy of
      it, which has index keys and no `text`: the optimized prompt is lost
      and the typed prompt is sent. */
  lemma OptimizedPromptDiscarded(engines: map<string, Handler>, prompt: string, optimized: string, signature: string)
    requires OptimizerEngine in engines && engines[OptimizerEngine](OptimizerTask(prompt)) == Ok(Str(optimized))
    ensures RequestOutcome(engines, OptimizeIntent, OptimizerEngine, OptimizerTask(prompt), signature).Ok?
    ensures FinalPrompt(prompt, RequestOutcome(engines, OptimizeIntent, OptimizerEngine, OptimizerTask(prompt), signature)) == prompt
  {
    FinalPromptOfSigned(prompt, Str(optimized), signature);
  }

  /** With the optimizer wrapped by `TextEngine`, its non-empty output is
      the prompt that is sent. */
  lemma OptimizedPromptUsed(engines: map<string, Handler>, optimizer: Handler, prompt: string, optimized: string, signature: string)
    requires optimizer(OptimizerTask(prompt)) == Ok(Str(optimized))
    ensures var e := engines[OptimizerEngine := TextEngine(optimizer)];
      FinalPrompt(prompt, RequestOutcome(e, OptimizeIntent, OptimizerEngine, OptimizerTask(prompt), signature)) ==
        if optimized != "" then optimized else prompt
  {
    var e := engines[OptimizerEngine := TextEngine(optimizer)];
    assert e[OptimizerEngine](OptimizerTask(prompt)) == Ok(Obj(map["text" := Str(optimized)]));
    FinalPromptOfSigned(prompt, Obj(map["text" := Str(optimized)]), signature);
  }

  /** The trainer returns a string too, so every successful training
      stores `DNA_ERROR` as the DNA body. */
  lemma TrainedDnaLost(engines: map<string, Handler>, task: Value, dna: string, signature: string)
    requires TrainerEngine in engines && engines[TrainerEngine](task) == Ok(Str(dna))
    ensures var r := RequestOutcome(engines, TrainIntent, TrainerEngine, task, signature);
      r.Ok? && FinalDna(r.value) == "DNA_ERROR"
  {
    FinalDnaOfSigned(Str(dna), signature);
  }

  /** With the trainer wrapped by `TextEngine`, its non-empty output is
      the DNA body. */
  lemma TrainedDnaKept(engines: map<string, Handler>, trainer: Handler, task: Value, dna: string, signature: string)
    requires trainer(task) == Ok(Str(dna))
    ensures var r := RequestOutcome(engines[TrainerEngine := TextEngine(trainer)], TrainIntent, TrainerEngine, task, signature);
      r.Ok? && FinalDna(r.value) == if dna != "" then dna else "DNA_ERROR"
  {
    FinalDnaOfSigned(Obj(map["text" := Str(dna)]), signature);
  }

  // ------------------------------------------------------- audit mirror

  /** `event.layer.toUpperCase()`. */
  function LayerTag(l: Layer): string {
    match l
    case Governance => "GOVERNANCE"
    case Orchestration => "ORCHESTRATION"
    case Evolution => "EVOLUTION"
    case KernelLayer => "KERNEL"
  }

  /** `event.action || event.intent || 'OBSERVATION'`. */
  function AuditLabel(b: EventBody): string {
    if b.action.Some? && b.action.value != "" then b.action.value
    else if b.intent.Some? && b.intent.value != "" then b.intent.value
    else "OBSERVATION"
  }

  /** The log line the audit callback writes for one event. */
  function AuditLine(e: KernelEvent): string {
    "[" + LayerTag(e.body.layer) + "] " + AuditLabel(e.body) + " // KERNEL:" + Prefix(e.kernel, 6)
  }

  function AuditLines(events: seq<KernelEvent>): (r: seq<string>)
    ensures |r| == |events|
    ensures forall k :: 0 <= k < |r| ==> r[k] == AuditLine(events[k])
  {
    seq(|events|, k requires 0 <= k < |events| => AuditLine(events[k]))
  }

  /** A successful request mirrors three lines into the log: its intent
      under governance, then the engine call and the observation, both
      labelled OBSERVATION since neither has an action or an intent. */
  lemma SuccessfulRequestLabels(engines: map<string, Handler>, intent: string, engine: string, task: Value,
                                signature: string, now: int, hash: string)
    requires RequestOutcome(engines, intent, engine, task, signature).Ok?
    ensures var ev := Stamp(RequestEvents(engines, intent, engine, task), now, hash);
      |ev| == 3 &&
      LayerTag(ev[0].body.layer) == "GOVERNANCE" && AuditLabel(ev[0].body) == intent &&
      LayerTag(ev[1].body.layer) == "ORCHESTRATION" && AuditLabel(ev[1].body) == "OBSERVATION" &&
      LayerTag(ev[2].body.layer) == "EVOLUTION" && AuditLabel(ev[2].body) == "OBSERVATION" &&
      forall k :: 0 <= k < 3 ==> ev[k].kernel == hash
  {
    RequestEventsOrdered(engines, intent, engine, task, signature);
  }

  // ------------------------------------------------------ sending a message

  const OptimizingLog := "FRANKLIN_OS: OPTIMIZING_TAKEOFF_LOGIC..."
  const OptimizedLog := "TAKEOFF_OPTIMIZED: DISCIPLINE_MAPPED."
  const OptimizerFailedLog := "OPTIMIZER_FAILED: USING_RAW_STREAM."
  const CompleteLog := "TAKEOFF_COMPLETE: TRANSMISSION_OK"

  function DeniedLog(model: AIModel): string {
    "ACCESS_DENIED: AGENT_LOCKOUT - " + ModelName(model) + " requires PREMIUM_TIER."
  }

  function EngagedLog(model: AIModel): string {
    "AGENT_ENGAGED: " + ModelName(model)
  }

  function UserMessage(content: string, at: nat): ChatMessage {
    ChatMessage(UserRole, content, at, None, None, None, None, None)
  }

  /** `response.mediaUrl` when it is a string. */
  function MediaUrl(response: Value): Option<string> {
    if Field(response, "mediaUrl").Str? then Some(Field(response, "mediaUrl").s) else None
  }

  /** `response.mediaType`: `video` or `image`. */
  function MediaKind(response: Value): Option<MediaType> {
    match Field(response, "mediaType")
    case Str(k) => if k == "video" then Some(Video) else if k == "image" then Some(Image) else None
    case _ => None
  }

  /** The model's reply: `response.text || "NO_DATA"`, the media fields,
      and whether the node was trained when the reply came. */
  function ModelMessage(response: Value, status: NodeStatus, at: nat): (m: ChatMessage)
    ensures m.role == ModelRole && m.isSynaptic == Some(status == ACTIVE)
    ensures m.content == "NO_DATA" <==> !Truthy(Field(response, "text")) || JsString(Field(response, "text")) == "NO_DATA"
  {
    ChatMessage(ModelRole,
      if Truthy(Field(response, "text")) then JsString(Field(response, "text")) else "NO_DATA",
      at, MediaUrl(response), MediaKind(response), None, None, Some(status == ACTIVE))
  }

  /** The history after a message is sent: the old one, the user message
      with the final prompt, and the reply when the inference succeeded. */
  function SentHistory(history: seq<ChatMessage>, prompt: string, optimized: Result<Value>, response: Result<Value>,
                       status: NodeStatus, sentAt: nat, repliedAt: nat): seq<ChatMessage>
  {
    history + [UserMessage(FinalPrompt(prompt, optimized), sentAt)] +
      (if response.Ok? then [ModelMessage(response.value, status, repliedAt)] else [])
  }

  /** The old history stays a prefix, the user message with the final
      prompt follows, and the reply comes last only on success. */
  lemma SentHistoryShape(history: seq<ChatMessage>, prompt: string, optimized: Result<Value>, response: Result<Value>,
                         status: NodeStatus, sentAt: nat, repliedAt: nat)
    ensures var h := SentHistory(history, prompt, optimized, response, status, sentAt, repliedAt);
      |h| == |history| + (if response.Ok? then 2 else 1) &&
      h[..|history|] == history &&
      h[|history|].role == UserRole && h[|history|].content == FinalPrompt(prompt, optimized) &&
      (response.Ok? ==> h[|history| + 1].role == ModelRole && h[|history| + 1].isSynaptic == Some(status == ACTIVE))
  {
    var h := SentHistory(history, prompt, optimized, response, status, sentAt, repliedAt);
    assert h[..|history|] == history;
  }

  /** What the optimizer step logs: the optimizing entry, the optimizer
      request's audit lines, and its outcome. */
  function OptimizeLog(lines: seq<string>, optimized: Result<Value>): seq<string> {
    [OptimizingLog] + lines + [if optimized.Ok? then OptimizedLog else OptimizerFailedLog]
  }

  lemma OptimizeLogShape(lines: seq<string>, optimized: Result<Value>)
    ensures var r := OptimizeLog(lines, optimized);
      |r| == |lines| + 2 && r[0] == OptimizingLog && r[1..|r| - 1] == lines &&
      r[|r| - 1] == if optimized.Ok? then OptimizedLog else OptimizerFailedLog
  {
    var r := OptimizeLog(lines, optimized);
    assert r[1..|r| - 1] == lines;
  }

  /** What the inference step logs: the engaged agent, the inference
      request's audit lines, and the outcome. */
  function InferLog(model: AIModel, lines: seq<string>, response: Result<Value>): seq<string> {
    [EngagedLog(model)] + lines + [ReplyLog(response)]
  }

  lemma InferLogShape(model: AIModel, lines: seq<string>, response: Result<Value>)
    ensures var r := InferLog(model, lines, response);
      |r| == |lines| + 2 && r[0] == EngagedLog(model) && r[1..|r| - 1] == lines &&
      r[|r| - 1] == if response.Ok? then CompleteLog else "AGENT_ERR: " + response.message
  {
    var r := InferLog(model, lines, response);
    assert r[1..|r| - 1] == lines;
  }

  /** The entry that closes the inference step. */
  function ReplyLog(response: Result<Value>): string {
    if response.Ok? then CompleteLog else "AGENT_ERR: " + response.message
  }

  /** What a sent message logs, in order: the optimizer step's entries,
      then the inference step's. */
  function SentLog(model: AIModel, optimized: Result<Value>, optimizerLines: seq<string>,
                   response: Result<Value>, inferenceLines: seq<string>): seq<string>
  {
    OptimizeLog(optimizerLines, optimized) + InferLog(model, inferenceLines, response)
  }

  /** A sent message logs four entries more than the mirrored lines: the
      optimizing entry first, the engaged entry right after the
      optimizer's lines and outcome, and the inference outcome last. */
  lemma SentLogShape(model: AIModel, optimized: Result<Value>, optimizerLines: seq<string>,
                     response: Result<Value>, inferenceLines: seq<string>)
    ensures var r := SentLog(model, optimized, optimizerLines, response, inferenceLines);
      |r| == |optimizerLines| + |inferenceLines| + 4 &&
      r[0] == OptimizingLog && r[|optimizerLines| + 2] == EngagedLog(model) &&
      r[|r| - 1] == if response.Ok? then CompleteLog else "AGENT_ERR: " + response.message
  {
    OptimizeLogShape(optimizerLines, optimized);
    InferLogShape(model, inferenceLines, response);
  }

  /** The store after the optimizer step and then the conversation step
      is the store after a sent message. */
  lemma EngagedStore(s: NeuralState, s1: NeuralState, s2: NeuralState, prompt: string, finalPrompt: string,
                     optimized: Result<Value>, optimizerLines: seq<string>, response: Result<Value>, inferenceLines: seq<string>,
                     sentAt: nat, repliedAt: nat, time: string)
    requires finalPrompt == FinalPrompt(prompt, optimized)
    requires s1 == s.(logs := AppendEntries(s.logs, Entries(OptimizeLog(optimizerLines, optimized), time)))
    requires var node := s1.activeNode;
      s2 == s1.(
        logs := AppendEntries(s1.logs, Entries(InferLog(node.model, inferenceLines, response), time)),
        activeNode := node.(history := node.history + [UserMessage(finalPrompt, sentAt)] +
                                       (if response.Ok? then [ModelMessage(response.value, node.status, repliedAt)] else []))) 
    ensures s2 == s.(
      logs := AppendEntries(s.logs, Entries(SentLog(s.activeNode.model, optimized, optimizerLines, response, inferenceLines), time)),
      activeNode := s.activeNode.(history := SentHistory(s.activeNode.history, prompt, optimized, response, s.activeNode.status, sentAt, repliedAt)))
  {
    LogMore(s.logs, OptimizeLog(optimizerLines, optimized), InferLog(s.activeNode.model, inferenceLines, response), time);
  }

  // ------------------------------------------------------------ training

  const MappingLog := "FRANKLIN_OS: MAPPING_BLUEPRINT_DATA..."
  const IndexedLog := "ESTIMATING_CORE: SHEETS_INDEXED_SUCCESSFULLY"
  const StrandsHeader := "// FRANKLIN_STRANDS_ENGAGED"
  const MappingHeader := "// CSI_MAPPING_INITIALIZED: "

  /** The merged DNA: two header lines, the second with the time stamp,
      then the trained DNA. */
  function MergedDna(isoTime: string, dna: string): string {
    StrandsHeader + "\n" + MappingHeader + isoTime + "\n" + dna
  }

  /** The header lines hold no line break. */
  lemma StrandsHeaderPlain()
    ensures !HasChar(StrandsHeader, '\n')
  {
    assert forall i :: 0 <= i < |StrandsHeader| ==> ' ' <= StrandsHeader[i] <= '~';
    PrintableHasNoNewline(StrandsHeader);
  }

  lemma MappingLinePlain(isoTime: string)
    requires !HasChar(isoTime, '\n')
    ensures !HasChar(MappingHeader + isoTime, '\n')
  {
    assert forall i :: 0 <= i < |MappingHeader| ==> ' ' <= MappingHeader[i] <= '~';
    PrintableHasNoNewline(MappingHeader);
    NoNewlineConcat(MappingHeader, isoTime);
  }

  /** The merged DNA's lines are the two headers followed by the trained
      DNA's own lines, so the trained line k is numbered k + 3 in the DNA
      tab. */
  lemma MergedDnaLines(isoTime: string, dna: string)
    requires !HasChar(isoTime, '\n')
    ensures Split(MergedDna(isoTime, dna), '\n') == [StrandsHeader, MappingHeader + isoTime] + Split(dna, '\n')
  {
    var h2 := MappingHeader + isoTime;
    assert MergedDna(isoTime, dna) == StrandsHeader + ['\n'] + h2 + ['\n'] + dna;
    StrandsHeaderPlain();
    MappingLinePlain(isoTime);
    TwoLinesThen(StrandsHeader, h2, '\n', dna);
  }

  /** The active node after training: the new files are added whatever the
      outcome; a success also sets the merged DNA and makes it ACTIVE. */
  function TrainedNode(n: NeuralNode, files: seq<FileMetadata>, result: Result<Value>, isoTime: string): (r: NeuralNode)
    ensures r.files == n.files + files
    ensures r.id == n.id && r.name == n.name && r.model == n.model && r.history == n.history && r.parentId == n.parentId
    ensures result.Ok? ==> r.dna == MergedDna(isoTime, FinalDna(result.value)) && r.status == ACTIVE
    ensures result.Err? ==> r.dna == n.dna && r.status == n.status
  {
    var withFiles := n.(files := n.files + files);
    if result.Ok? then withFiles.(dna := MergedDna(isoTime, FinalDna(result.value)), status := ACTIVE) else withFiles
  }

  /** What a training run logs: the mapping entry, the trainer request's
      audit lines, and the outcome. */
  function TrainLog(lines: seq<string>, result: Result<Value>): seq<string> {
    [MappingLog] + lines + [TrainOutcomeLog(result)]
  }

  lemma TrainLogShape(lines: seq<string>, result: Result<Value>)
    ensures var r := TrainLog(lines, result);
      |r| == |lines| + 2 && r[0] == MappingLog && r[1..|r| - 1] == lines &&
      r[|r| - 1] == if result.Ok? then IndexedLog else "MAPPING_ERR: " + result.message
  {
    var r := TrainLog(lines, result);
    assert r[1..|r| - 1] == lines;
  }

  /** Three batches logged one after the other are one batch. */
  lemma LoggedInTurn(s: NeuralState, s1: NeuralState, s2: NeuralState, s3: NeuralState,
                     a: seq<string>, b: seq<string>, c: seq<string>, time: string)
    requires s1 == s.(logs := AppendEntries(s.logs, Entries(a, time)))
    requires s2 == s1.(logs := AppendEntries(s1.logs, Entries(b, time)))
    requires s3.logs == AppendEntries(s2.logs, Entries(c, time))
    ensures s3.logs == AppendEntries(s.logs, Entries(a + b + c, time))
  {
    LogMore(s.logs, a, b, time);
    LogMore(s.logs, a + b, c, time);
  }

  /** The store after the start of a training run, the trainer request and
      the applied outcome is the trained store. */
  lemma TrainedStore(s: NeuralState, s1: NeuralState, s2: NeuralState, s3: NeuralState,
                     files: seq<FileMetadata>, result: Result<Value>, lines: seq<string>, isoTime: string, time: string)
    requires s1 == s.(logs := AppendEntries(s.logs, Entries([MappingLog], time)),
                      activeNode := s.activeNode.(files := s.activeNode.files + files))
    requires s2 == s1.(logs := AppendEntries(s1.logs, Entries(lines, time)))
    requires result.Err? ==> s3 == s2.(logs := AppendEntries(s2.logs, Entries([TrainOutcomeLog(result)], time)))
    requires result.Ok? ==> var merged := MergedDna(isoTime, FinalDna(result.value));
      s3 == s2.(logs := AppendEntries(s2.logs, Entries([TrainOutcomeLog(result)], time)),
                activeNode := s2.activeNode.(dna := merged, status := ACTIVE),
                centralBrainDNA := merged)
    ensures s3 == s.(
      logs := AppendEntries(s.logs, Entries(TrainLog(lines, result), time)),
      activeNode := TrainedNode(s.activeNode, files, result, isoTime),
      centralBrainDNA := if result.Ok? then MergedDna(isoTime, FinalDna(result.value)) else s.centralBrainDNA)
  {
    LogMore(s.logs, [MappingLog], lines, time);
    LogMore(s.logs, [MappingLog] + lines, [TrainOutcomeLog(result)], time);
  }

  function TrainOutcomeLog(result: Result<Value>): string {
    if result.Ok? then IndexedLog else "MAPPING_ERR: " + result.message
  }

  /** The log lines the audit callback writes for these events: one per
      event once it is installed, none before. */
  function Mirrored(installed: bool, events: seq<KernelEvent>): (r: seq<string>)
    ensures installed ==> r == AuditLines(events)
    ensures !installed ==> r == []
  {
    if installed then AuditLines(events) else []
  }

  // ------------------------------------------------------------- the hook

  /** The hook's state: the store it dispatches to, its four busy flags,
      and whether the audit callback has been installed. */
  class EngineHook {
    var store: NeuralState
    var isChatLoading: bool
    var isThinking: bool
    var isOptimizing: bool
    var isTraining: bool
    var auditMirrored: bool

    constructor (s: NeuralState)
      ensures store == s && !isChatLoading && !isThinking && !isOptimizing && !isTraining && !auditMirrored
    {
      store := s;
      isChatLoading := false;
      isThinking := false;
      isOptimizing := false;
      isTraining := false;
      auditMirrored := false;
    }

    /** The mount effect as written: registers the three engines with the
        handlers exactly as given (the trainer and the optimizer return
        plain strings), then installs the audit callback, so the three
        registrations themselves are not mirrored. */
    method Mount(reg: KernelRegistry, inference: Handler, trainer: Handler, optimizer: Handler, now: int)
      modifies this`auditMirrored, reg`engines, reg`auditLog
      ensures reg.engines == old(reg.engines)[InferenceEngine := inference][TrainerEngine := trainer][OptimizerEngine := optimizer]
      ensures reg.auditLog == old(reg.auditLog) + [
        KernelEvent(now, reg.kernelHash, EngineRegistered(InferenceEngine)),
        KernelEvent(now, reg.kernelHash, EngineRegistered(TrainerEngine)),
        KernelEvent(now, reg.kernelHash, EngineRegistered(OptimizerEngine))]
      ensures auditMirrored
    {
      RegisterEngine(reg, InferenceEngine, inference, now);
      RegisterEngine(reg, TrainerEngine, trainer, now);
      RegisterEngine(reg, OptimizerEngine, optimizer, now);
      auditMirrored := true;
    }

    /** The corrected mount effect: the same registrations, with the trainer
        and the optimizer wrapped by `TextEngine` so that their strings reach
        the hook as `text` (see OptimizedPromptUsed and TrainedDnaKept). */
    method MountCorrected(reg: KernelRegistry, inference: Handler, trainer: Handler, optimizer: Handler, now: int)
      modifies this`auditMirrored, reg`engines, reg`auditLog
      ensures reg.engines == old(reg.engines)[InferenceEngine := inference][TrainerEngine := TextEngine(trainer)][OptimizerEngine := TextEngine(optimizer)]
      ensures reg.auditLog == old(reg.auditLog) + [
        KernelEvent(now, reg.kernelHash, EngineRegistered(InferenceEngine)),
        KernelEvent(now, reg.kernelHash, EngineRegistered(TrainerEngine)),
        KernelEvent(now, reg.kernelHash, EngineRegistered(OptimizerEngine))]
      ensures auditMirrored
    {
      Mount(reg, inference, TextEngine(trainer), TextEngine(optimizer), now);
    }

    /** `addLog` for each message in turn. */
    method Log(messages: seq<string>, time: string)
      modifies this`store
      ensures store == old(store).(logs := AppendEntries(old(store).logs, Entries(messages, time)))
    {
      store := ReduceAll(store, LogActions(messages, time));
      LogLines(old(store), messages, time);
    }

    /** UPDATE_ACTIVE_NODE with a new history. */
    method SetHistory(h: seq<ChatMessage>)
      modifies this`store
      ensures store == old(store).(activeNode := old(store).activeNode.(history := h))
    {
      store := Reduce(store, UpdateActiveNode(EmptyNodePatch.(history := Some(h))));
    }

    /** A kernel request while the hook is mounted: every audit event the
        request records is mirrored into the log as it happens. */
    method Request(reg: KernelRegistry, intent: string, engine: string, payload: Value,
                   now: int, time: string, signature: string) returns (r: Result<Value>)
      modifies this`store, reg`auditLog
      ensures r == RequestOutcome(reg.engines, intent, engine, payload, signature)
      ensures var events := Stamp(RequestEvents(reg.engines, intent, engine, payload), now, reg.kernelHash);
        reg.auditLog == old(reg.auditLog) + events &&
        |Mirrored(auditMirrored, events)| <= 3 &&
        store == old(store).(logs := AppendEntries(old(store).logs, Entries(Mirrored(auditMirrored, events), time)))
    {
      var before := reg.auditLog;
      r := HandleKernelRequest(reg, intent, engine, payload, now, signature);
      RequestEventsOrdered(reg.engines, intent, engine, payload, signature);
      assert reg.auditLog[|before|..] == Stamp(RequestEvents(reg.engines, intent, engine, payload), now, reg.kernelHash);
      Log(Mirrored(auditMirrored, reg.auditLog[|before|..]), time);
    }

    /** The optimizer step of `sendMessage`: the prompt goes through the
        optimizer engine, and its text replaces the prompt when it is a
        string. */
    method Optimize(reg: KernelRegistry, prompt: string, now: int, time: string, signature: string)
      returns (finalPrompt: string)
      modifies this`store, this`isOptimizing, reg`auditLog
      ensures var events := Stamp(RequestEvents(reg.engines, OptimizeIntent, OptimizerEngine, OptimizerTask(prompt)), now, reg.kernelHash);
        var optimized := RequestOutcome(reg.engines, OptimizeIntent, OptimizerEngine, OptimizerTask(prompt), signature);
        finalPrompt == FinalPrompt(prompt, optimized) &&
        store == old(store).(logs := AppendEntries(old(store).logs, Entries(OptimizeLog(Mirrored(auditMirrored, events), optimized), time))) &&
        reg.auditLog == old(reg.auditLog) + events &&
        |Mirrored(auditMirrored, events)| <= 3
      ensures !isOptimizing
    {
      isOptimizing := true;
      ghost var s := store;
      Log([OptimizingLog], time);
      ghost var s1 := store;
      var optimized := Request(reg, OptimizeIntent, OptimizerEngine, OptimizerTask(prompt), now, time, signature);
      ghost var s2 := store;
      finalPrompt := FinalPrompt(prompt, optimized);
      var outcome := if optimized.Ok? then OptimizedLog else OptimizerFailedLog;
      Log([outcome], time);
      LoggedInTurn(s, s1, s2, store, [OptimizingLog],
        Mirrored(auditMirrored, Stamp(RequestEvents(reg.engines, OptimizeIntent, OptimizerEngine, OptimizerTask(prompt)), now, reg.kernelHash)),
        [outcome], time);
      isOptimizing := false;
    }

    /** The end of the inference step: a reply is appended to the given
        history; either way the outcome is logged. */
    method Reply(response: Result<Value>, history: seq<ChatMessage>, status: NodeStatus, repliedAt: nat, time: string)
      modifies this`store
      ensures store == old(store).(
        logs := AppendEntries(old(store).logs, Entries([ReplyLog(response)], time)),
        activeNode := if response.Ok? then old(store).activeNode.(history := history + [ModelMessage(response.value, status, repliedAt)])
                      else old(store).activeNode)
    {
      if response.Ok? {
        SetHistory(history + [ModelMessage(response.value, status, repliedAt)]);
      }
      Log([ReplyLog(response)], time);
    }

    /** The inference step of `sendMessage`: the task goes to the inference
        engine, and on success the reply is appended to the given history. */
    method Infer(reg: KernelRegistry, history: seq<ChatMessage>, model: AIModel, status: NodeStatus, task: Value,
                 repliedAt: nat, now: int, time: string, signature: string)
      modifies this`store, this`isThinking, reg`auditLog
      ensures var events := Stamp(RequestEvents(reg.engines, InferenceIntent, InferenceEngine, task), now, reg.kernelHash);
        var response := RequestOutcome(reg.engines, InferenceIntent, InferenceEngine, task, signature);
        store == old(store).(
          logs := AppendEntries(old(store).logs, Entries(InferLog(model, Mirrored(auditMirrored, events), response), time)),
          activeNode := if response.Ok? then old(store).activeNode.(history := history + [ModelMessage(response.value, status, repliedAt)])
                        else old(store).activeNode) &&
        reg.auditLog == old(reg.auditLog) + events &&
        |Mirrored(auditMirrored, events)| <= 3
      ensures !isThinking
    {
      isThinking := true;
      ghost var s := store;
      Log([EngagedLog(model)], time);
      var response := Request(reg, InferenceIntent, InferenceEngine, task, now, time, signature);
      ghost var lines := Mirrored(auditMirrored, Stamp(RequestEvents(reg.engines, InferenceIntent, InferenceEngine, task), now, reg.kernelHash));
      LogMore(s.logs, [EngagedLog(model)], lines, time);
      Reply(response, history, status, repliedAt, time);
      LogMore(s.logs, [EngagedLog(model)] + lines, [ReplyLog(response)], time);
      isThinking := false;
    }

    /** The user message is appended to the active node's history, and
        the inference step answers it with the active node's agent. */
    method Converse(reg: KernelRegistry, finalPrompt: string, inferenceTask: Value, sentAt: nat, repliedAt: nat,
                    now: int, time: string, signature: string)
      modifies this`store, this`isThinking, reg`auditLog
      ensures var events := Stamp(RequestEvents(reg.engines, InferenceIntent, InferenceEngine, inferenceTask), now, reg.kernelHash);
        var response := RequestOutcome(reg.engines, InferenceIntent, InferenceEngine, inferenceTask, signature);
        var node := old(store).activeNode;
        store == old(store).(
          logs := AppendEntries(old(store).logs, Entries(InferLog(node.model, Mirrored(auditMirrored, events), response), time)),
          activeNode := node.(history := node.history + [UserMessage(finalPrompt, sentAt)] +
                                         (if response.Ok? then [ModelMessage(response.value, node.status, repliedAt)] else []))) &&
        reg.auditLog == old(reg.auditLog) + events
      ensures !isThinking
    {
      var node := store.activeNode;
      var currentHistory := node.history + [UserMessage(finalPrompt, sentAt)];
      SetHistory(currentHistory);
      Infer(reg, currentHistory, node.model, node.status, inferenceTask, repliedAt, now, time, signature);
    }

    /** The part of `sendMessage` after its guards: the optimizer step,
        the user message, and the inference step, in that order. */
    method Engage(reg: KernelRegistry, prompt: string, inferenceTask: Value, sentAt: nat, repliedAt: nat,
                  now: int, time: string, optimizerSignature: string, inferenceSignature: string)
      modifies this`store, this`isChatLoading, this`isOptimizing, this`isThinking, reg`auditLog
      ensures var optimizerEvents := Stamp(RequestEvents(reg.engines, OptimizeIntent, OptimizerEngine, OptimizerTask(prompt)), now, reg.kernelHash);
        var inferenceEvents := Stamp(RequestEvents(reg.engines, InferenceIntent, InferenceEngine, inferenceTask), now, reg.kernelHash);
        var optimized := RequestOutcome(reg.engines, OptimizeIntent, OptimizerEngine, OptimizerTask(prompt), optimizerSignature);
        var response := RequestOutcome(reg.engines, InferenceIntent, InferenceEngine, inferenceTask, inferenceSignature);
        var entries := Entries(SentLog(old(store).activeNode.model, optimized, Mirrored(auditMirrored, optimizerEvents),
                                       response, Mirrored(auditMirrored, inferenceEvents)), time);
        store == old(store).(
          logs := AppendEntries(old(store).logs, entries),
          activeNode := old(store).activeNode.(history := SentHistory(old(store).activeNode.history, prompt, optimized,
                                                                       response, old(store).activeNode.status, sentAt, repliedAt))) &&
        reg.auditLog == old(reg.auditLog) + optimizerEvents + inferenceEvents
      ensures !isChatLoading && !isThinking && !isOptimizing
    {
      ghost var s := store;
      isChatLoading := true;
      var finalPrompt := Optimize(reg, prompt, now, time, optimizerSignature);
      ghost var s1 := store;
      Converse(reg, finalPrompt, inferenceTask, sentAt, repliedAt, now, time, inferenceSignature);
      isChatLoading := false;
      EngagedStore(s, s1, store, prompt, finalPrompt,
        RequestOutcome(reg.engines, OptimizeIntent, OptimizerEngine, OptimizerTask(prompt), optimizerSignature),
        Mirrored(auditMirrored, Stamp(RequestEvents(reg.engines, OptimizeIntent, OptimizerEngine, OptimizerTask(prompt)), now, reg.kernelHash)),
        RequestOutcome(reg.engines, InferenceIntent, InferenceEngine, inferenceTask, inferenceSignature),
        Mirrored(auditMirrored, Stamp(RequestEvents(reg.engines, InferenceIntent, InferenceEngine, inferenceTask), now, reg.kernelHash)),
        sentAt, repliedAt, time);
    }

    /** `sendMessage`: nothing for a blank prompt or while a message is
        loading, a denial for a locked agent, and otherwise the engaged
        exchange. */
    method SendMessage(reg: KernelRegistry, prompt: string, inferenceTask: Value, sentAt: nat, repliedAt: nat,
                       now: int, time: string, optimizerSignature: string, inferenceSignature: string)
      modifies this`store, this`isChatLoading, this`isOptimizing, this`isThinking, reg`auditLog
      ensures Trim(prompt) == [] || old(isChatLoading) ==>
        store == old(store) && reg.auditLog == old(reg.auditLog) &&
        isChatLoading == old(isChatLoading) && isThinking == old(isThinking) && isOptimizing == old(isOptimizing)
      ensures Trim(prompt) != [] && !old(isChatLoading) && Gated(old(store).activeNode.model, old(store).user) ==>
        store == old(store).(logs := AppendEntries(old(store).logs, Entries([DeniedLog(old(store).activeNode.model)], time))) &&
        reg.auditLog == old(reg.auditLog) &&
        isChatLoading == old(isChatLoading) && isThinking == old(isThinking) && isOptimizing == old(isOptimizing)
      ensures Trim(prompt) != [] && !old(isChatLoading) && !Gated(old(store).activeNode.model, old(store).user) ==>
        var optimizerEvents := Stamp(RequestEvents(reg.engines, OptimizeIntent, OptimizerEngine, OptimizerTask(prompt)), now, reg.kernelHash);
        var inferenceEvents := Stamp(RequestEvents(reg.engines, InferenceIntent, InferenceEngine, inferenceTask), now, reg.kernelHash);
        var optimized := RequestOutcome(reg.engines, OptimizeIntent, OptimizerEngine, OptimizerTask(prompt), optimizerSignature);
        var response := RequestOutcome(reg.engines, InferenceIntent, InferenceEngine, inferenceTask, inferenceSignature);
        var entries := Entries(SentLog(old(store).activeNode.model, optimized, Mirrored(auditMirrored, optimizerEvents),
                                       response, Mirrored(auditMirrored, inferenceEvents)), time);
        store == old(store).(
          logs := AppendEntries(old(store).logs, entries),
          activeNode := old(store).activeNode.(history := SentHistory(old(store).activeNode.history, prompt, optimized,
                                                                       response, old(store).activeNode.status, sentAt, repliedAt))) &&
        reg.auditLog == old(reg.auditLog) + optimizerEvents + inferenceEvents &&
        !isChatLoading && !isThinking && !isOptimizing
    {
      if Trim(prompt) == [] || isChatLoading {
        return;
      }
      var model := store.activeNode.model;
      if Gated(model, store.user) {
        Log([DeniedLog(model)], time);
        return;
      }
      Engage(reg, prompt, inferenceTask, sentAt, repliedAt, now, time, optimizerSignature, inferenceSignature);
    }

    /** The end of `trainSynapticNode`: a trained DNA is merged under the
        headers and set both as the store's DNA and as the active node's,
        which becomes ACTIVE; a failure is only logged. */
    method ApplyTraining(result: Result<Value>, isoTime: string, time: string)
      modifies this`store
      ensures result.Err? ==>
        store == old(store).(logs := AppendEntries(old(store).logs, Entries([TrainOutcomeLog(result)], time)))
      ensures result.Ok? ==> var merged := MergedDna(isoTime, FinalDna(result.value));
        store == old(store).(
          logs := AppendEntries(old(store).logs, Entries([TrainOutcomeLog(result)], time)),
          activeNode := old(store).activeNode.(dna := merged, status := ACTIVE),
          centralBrainDNA := merged)
    {
      if result.Ok? {
        var finalDna := FinalDna(result.value);
        var merged := MergedDna(isoTime, finalDna);
        store := Reduce(store, SetDna(merged));
        store := Reduce(store, UpdateActiveNode(EmptyNodePatch.(dna := Some(merged), status := Some(ACTIVE))));
        Log([IndexedLog], time);
      } else {
        Log(["MAPPING_ERR: " + result.message], time);
      }
    }

    /** The start of a training run: the mapping entry is logged and the
        new files are added to the active node. */
    method BeginTraining(files: seq<FileMetadata>, time: string)
      modifies this`store
      ensures store == old(store).(logs := AppendEntries(old(store).logs, Entries([MappingLog], time)),
                                   activeNode := old(store).activeNode.(files := old(store).activeNode.files + files))
    {
      var s := store;
      Log([MappingLog], time);
      store := Reduce(store, UpdateActiveNode(EmptyNodePatch.(files := Some(s.activeNode.files + files))));
    }

    /** `trainSynapticNode`: the new files are added to the node, then the
        trainer request runs with its audit lines mirrored, then the outcome
        is applied to the store's DNA and to the node. */
    method TrainSynapticNode(reg: KernelRegistry, files: seq<FileMetadata>, task: Value, isoTime: string,
                             now: int, time: string, signature: string)
      modifies this`store, this`isTraining, reg`auditLog
      ensures var events := Stamp(RequestEvents(reg.engines, TrainIntent, TrainerEngine, task), now, reg.kernelHash);
        var result := RequestOutcome(reg.engines, TrainIntent, TrainerEngine, task, signature);
        store == old(store).(
          logs := AppendEntries(old(store).logs, Entries(TrainLog(Mirrored(auditMirrored, events), result), time)),
          activeNode := TrainedNode(old(store).activeNode, files, result, isoTime),
          centralBrainDNA := if result.Ok? then MergedDna(isoTime, FinalDna(result.value)) else old(store).centralBrainDNA) &&
        reg.auditLog == old(reg.auditLog) + events
      ensures !isTraining
    {
      ghost var s := store;
      isTraining := true;
      BeginTraining(files, time);
      ghost var s1 := store;
      var result := Request(reg, TrainIntent, TrainerEngine, task, now, time, signature);
      ghost var s2 := store;
      ApplyTraining(result, isoTime, time);
      TrainedStore(s, s1, s2, store, files, result,
        Mirrored(auditMirrored, Stamp(RequestEvents(reg.engines, TrainIntent, TrainerEngine, task), now, reg.kernelHash)), isoTime, time);
      isTraining := false;
    }
  }
}
