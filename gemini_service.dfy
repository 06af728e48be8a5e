/** The request side of the generative-AI wrapper: turning the chat history
    into request contents, choosing the target model and its configuration
    from the agent alias, attaching uploaded files to the last turn, and
    assembling the reply from the response. The network call itself is not
    modelled; its response comes in as a value. */
module GeminiService {
  import opened Wrappers
  import opened Types
  import opened Strings

  datatype Part = TextPart(text: string) | InlinePart(data: string, mimeType: string)

  /** One turn of the request: a role and its parts. */
  datatype Content = Content(role: Role, parts: seq<Part>)

  // ------------------------------------------------------------ history

  /** `h.content?.trim() || h.mediaUrl`: kept when the content is not blank
      or a non-empty media URL is present. */
  predicate Kept(m: ChatMessage) {
    Trim(m.content) != "" || (m.mediaUrl.Some? && m.mediaUrl.value != "")
  }

  /** The filtered history, in order. */
  function Cleaned(h: seq<ChatMessage>): seq<ChatMessage> {
    if h == [] then []
    else if Kept(h[0]) then [h[0]] + Cleaned(h[1..])
    else Cleaned(h[1..])
  }

  /** The filter keeps exactly the kept messages of the history: nothing
      else, and none of them is lost. */
  lemma {:induction false} CleanedFilters(h: seq<ChatMessage>)
    ensures |Cleaned(h)| <= |h|
    ensures forall k :: 0 <= k < |Cleaned(h)| ==> Kept(Cleaned(h)[k]) && Cleaned(h)[k] in h
    ensures forall m :: m in h && Kept(m) ==> m in Cleaned(h)
  {
    if h != [] {
      var t := h[1..];
      CleanedFilters(t);
      var c := Cleaned(h);
      var ct := Cleaned(t);
      if Kept(h[0]) {
        assert c == [h[0]] + ct;
        forall k | 0 <= k < |c| ensures Kept(c[k]) && c[k] in h {
          if k > 0 {
            assert c[k] == ct[k - 1];
          }
        }
      } else {
        assert c == ct;
      }
      forall m | m in h && Kept(m) ensures m in c {
        if m != h[0] {
          assert m in t;
        }
      }
    }
  }

  /** The filter works message by message: filtering two histories one
      after the other is filtering their concatenation. */
  lemma {:induction false} CleanedConcat(a: seq<ChatMessage>, b: seq<ChatMessage>)
    ensures Cleaned(a + b) == Cleaned(a) + Cleaned(b)
    decreases |a|
  {
    if a == [] {
      assert a + b == b;
    } else {
      HeadOfConcat(a, b);
      CleanedConcat(a[1..], b);
    }
  }

  /** A single message stays exactly when it is kept. */
  lemma CleanedSingle(m: ChatMessage)
    ensures Cleaned([m]) == if Kept(m) then [m] else []
  {
    assert [m][1..] == [];
  }

  /** A history whose every message is kept passes the filter unchanged. */
  lemma {:induction false} CleanedAllKept(h: seq<ChatMessage>)
    requires forall k :: 0 <= k < |h| ==> Kept(h[k])
    ensures Cleaned(h) == h
  {
    if h != [] {
      CleanedAllKept(h[1..]);
    }
  }

  /** A merged entry before it becomes request content: its role and its one text. */
  datatype Turn = Turn(role: Role, text: string)

  /** One step of the merge loop: a message in the same role as the last
      entry is appended to that entry's text after a newline; any other
      message starts a new entry. */
  function MergeStep(acc: seq<Turn>, m: ChatMessage): seq<Turn> {
    if acc != [] && acc[|acc| - 1].role == m.role then
      acc[..|acc| - 1] + [Turn(m.role, acc[|acc| - 1].text + "\n" + m.content)]
    else
      acc + [Turn(m.role, m.content)]
  }

  /** The merge loop over a whole (filtered) history. */
  function Merged(ms: seq<ChatMessage>): seq<Turn>
    decreases |ms|
  {
    if ms == [] then [] else MergeStep(Merged(ms[..|ms| - 1]), ms[|ms| - 1])
  }

  /** No two neighbouring turns share a role. */
  predicate Alternates(ts: seq<Turn>) {
    forall k :: 0 < k < |ts| ==> ts[k - 1].role != ts[k].role
  }

  function TurnTexts(ts: seq<Turn>): (r: seq<string>)
    ensures |r| == |ts|
    ensures forall k :: 0 <= k < |ts| ==> r[k] == ts[k].text
  {
    seq(|ts|, k requires 0 <= k < |ts| => ts[k].text)
  }

  function Contents(ms: seq<ChatMessage>): (r: seq<string>)
    ensures |r| == |ms|
    ensures forall k :: 0 <= k < |ms| ==> r[k] == ms[k].content
  {
    seq(|ms|, k requires 0 <= k < |ms| => ms[k].content)
  }

  lemma {:induction false} JoinSnoc(xs: seq<string>, t: string, sep: char)
    requires xs != []
    ensures Join(xs + [t], sep) == Join(xs, sep) + [sep] + t
    decreases |xs|
  {
    if |xs| == 1 {
      assert xs + [t] == [xs[0], t];
      assert [t][1..] == [];
    } else {
      assert (xs + [t])[1..] == xs[1..] + [t];
      JoinSnoc(xs[1..], t, sep);
    }
  }

  /** One merge step keeps the roles alternating, adds at most one entry,
      ends in the message's role and keeps the first entry's role. */
  lemma MergeStepShape(acc: seq<Turn>, m: ChatMessage)
    requires Alternates(acc)
    ensures var r := MergeStep(acc, m);
      Alternates(r) && |acc| <= |r| <= |acc| + 1 && r != [] && r[|r| - 1].role == m.role &&
      (acc != [] ==> r[0].role == acc[0].role)
  {
    var r := MergeStep(acc, m);
    if acc != [] && acc[|acc| - 1].role == m.role {
      forall k | 0 < k < |r| ensures r[k - 1].role != r[k].role {
        if k < |r| - 1 {
          assert r[k - 1] == acc[k - 1] && r[k] == acc[k];
        } else {
          assert r[k - 1] == acc[k - 1] && r[k].role == acc[k].role;
        }
      }
    } else {
      forall k | 0 < k < |r| ensures r[k - 1].role != r[k].role {
        if k < |r| - 1 {
          assert r[k - 1] == acc[k - 1] && r[k] == acc[k];
        }
      }
    }
  }

  /** The merge alternates roles, starts and ends in the roles of the first
      and last messages, and is empty only for an empty history. */
  lemma {:induction false} MergedShape(ms: seq<ChatMessage>)
    ensures Alternates(Merged(ms))
    ensures |Merged(ms)| <= |ms|
    ensures (Merged(ms) == []) == (ms == [])
    ensures ms != [] ==> Merged(ms)[0].role == ms[0].role && Merged(ms)[|Merged(ms)| - 1].role == ms[|ms| - 1].role
    decreases |ms|
  {
    if ms != [] {
      var init := ms[..|ms| - 1];
      MergedShape(init);
      MergeStepShape(Merged(init), ms[|ms| - 1]);
      if init != [] {
        assert ms[0] == init[0];
      }
    }
  }

  /** One merge step onto a non-empty merge adds the message's content to
      the joined text after a newline, whichever branch it takes. */
  lemma MergeStepText(acc: seq<Turn>, m: ChatMessage)
    requires acc != []
    ensures Join(TurnTexts(MergeStep(acc, m)), '\n') == Join(TurnTexts(acc), '\n') + "\n" + m.content
  {
    var n := |acc| - 1;
    if acc[n].role == m.role {
      var joined := acc[n].text + "\n" + m.content;
      assert MergeStep(acc, m) == acc[..n] + [Turn(m.role, joined)];
      if n == 0 {
        assert TurnTexts(MergeStep(acc, m)) == [joined];
        assert TurnTexts(acc) == [acc[0].text];
      } else {
        assert TurnTexts(MergeStep(acc, m)) == TurnTexts(acc[..n]) + [joined];
        assert TurnTexts(acc) == TurnTexts(acc[..n]) + [acc[n].text];
        JoinSnoc(TurnTexts(acc[..n]), joined, '\n');
        JoinSnoc(TurnTexts(acc[..n]), acc[n].text, '\n');
      }
    } else {
      assert TurnTexts(MergeStep(acc, m)) == TurnTexts(acc) + [m.content];
      JoinSnoc(TurnTexts(acc), m.content, '\n');
    }
  }

  /** The merge loses no text: joining the entries with newlines gives
      every message's content joined with newlines. */
  lemma {:induction false} MergedKeepsText(ms: seq<ChatMessage>)
    ensures Join(TurnTexts(Merged(ms)), '\n') == Join(Contents(ms), '\n')
    decreases |ms|
  {
    if ms != [] {
      var init := ms[..|ms| - 1];
      var m := ms[|ms| - 1];
      assert Contents(ms) == Contents(init) + [m.content];
      if init == [] {
        assert Merged(ms) == [Turn(m.role, m.content)];
        assert TurnTexts(Merged(ms)) == [m.content];
      } else {
        MergedKeepsText(init);
        MergedShape(init);
        MergeStepText(Merged(init), m);
        JoinSnoc(Contents(init), m.content, '\n');
      }
    }
  }

  /** A history whose roles already alternate merges into one entry per message. */
  lemma {:induction false} MergedAlternating(ms: seq<ChatMessage>)
    requires forall k :: 0 < k < |ms| ==> ms[k - 1].role != ms[k].role
    ensures |Merged(ms)| == |ms|
    ensures forall k :: 0 <= k < |ms| ==> Merged(ms)[k] == Turn(ms[k].role, ms[k].content)
    decreases |ms|
  {
    if ms != [] {
      var init := ms[..|ms| - 1];
      var m := ms[|ms| - 1];
      assert forall k :: 0 < k < |init| ==> init[k - 1].role != init[k].role;
      MergedAlternating(init);
      if init != [] {
        assert Merged(init)[|init| - 1].role == ms[|ms| - 2].role;
      }
      assert Merged(ms) == Merged(init) + [Turn(m.role, m.content)];
    }
  }

  /** The request content a turn becomes: its role and one text part. */
  function AsContents(ts: seq<Turn>): (r: seq<Content>)
    ensures |r| == |ts|
    ensures forall k :: 0 <= k < |ts| ==> r[k] == Content(ts[k].role, [TextPart(ts[k].text)])
  {
    seq(|ts|, k requires 0 <= k < |ts| => Content(ts[k].role, [TextPart(ts[k].text)]))
  }

  /** Each entry is one text part, and no two neighbours share a role. */
  predicate WellFormed(cs: seq<Content>) {
    (forall k :: 0 <= k < |cs| ==> |cs[k].parts| == 1 && cs[k].parts[0].TextPart?)
    && (forall k :: 0 < k < |cs| ==> cs[k - 1].role != cs[k].role)
  }

  /** `result.slice(-15)`. */
  function LastFifteen<T>(xs: seq<T>): (r: seq<T>)
    ensures |r| == if |xs| <= 15 then |xs| else 15
    ensures r == xs[|xs| - |r|..]
  {
    if |xs| <= 15 then xs else xs[|xs| - 15..]
  }

  /** `if (result[0].role === 'model') result.shift()`. */
  function DropLeadingModel(ts: seq<Turn>): (r: seq<Turn>)
    ensures r == ts || (ts != [] && ts[0].role == ModelRole && r == ts[1..])
  {
    if ts != [] && ts[0].role == ModelRole then ts[1..] else ts
  }

  /** The whole of `prepareHistory`: filter, merge, drop one leading model
      entry, keep the last fifteen. */
  function PreparedHistory(h: seq<ChatMessage>): (r: seq<Content>)
    ensures |r| <= 15 && WellFormed(r)
  {
    PreparedHistoryShape(Cleaned(h));
    PreparedFrom(Cleaned(h))
  }

  /** Everything after the filter: merge, drop one leading model entry,
      keep the last fifteen. */
  function PreparedFrom(cleaned: seq<ChatMessage>): seq<Content> {
    AsContents(KeptTurns(cleaned))
  }

  function KeptTurns(cleaned: seq<ChatMessage>): seq<Turn> {
    LastFifteen(DropLeadingModel(Merged(cleaned)))
  }

  /** Dropping a prefix or keeping a suffix of an alternating list keeps it alternating. */
  lemma SuffixAlternates(ts: seq<Turn>, j: nat)
    requires Alternates(ts) && j <= |ts|
    ensures Alternates(ts[j..])
  {
    forall k | 0 < k < |ts| - j ensures ts[j..][k - 1].role != ts[j..][k].role {
      assert ts[j..][k - 1] == ts[j + k - 1] && ts[j..][k] == ts[j + k];
    }
  }

  /** Alternating turns become well-formed request contents. */
  lemma AsContentsWellFormed(ts: seq<Turn>)
    requires Alternates(ts)
    ensures WellFormed(AsContents(ts))
  {
    var cs := AsContents(ts);
    forall k | 0 < k < |cs| ensures cs[k - 1].role != cs[k].role {
      assert cs[k - 1].role == ts[k - 1].role && cs[k].role == ts[k].role;
    }
  }

  /** Shifting off a leading model turn keeps the turns alternating, and
      leaves a user turn first. */
  lemma DropLeadingModelShape(ts: seq<Turn>)
    requires Alternates(ts)
    ensures Alternates(DropLeadingModel(ts))
    ensures DropLeadingModel(ts) != [] ==> DropLeadingModel(ts)[0].role == UserRole
  {
    if ts != [] && ts[0].role == ModelRole {
      SuffixAlternates(ts, 1);
      if |ts| > 1 {
        assert ts[0].role != ts[1].role;
      }
    }
  }

  /** The turns that survive the shift and the slice: at most fifteen,
      alternating, and starting with the user when the merge fits. */
  lemma KeptTurnsShape(cleaned: seq<ChatMessage>)
    ensures |KeptTurns(cleaned)| <= 15 && Alternates(KeptTurns(cleaned))
    ensures |Merged(cleaned)| <= 15 && KeptTurns(cleaned) != [] ==> KeptTurns(cleaned)[0].role == UserRole
  {
    MergedShape(cleaned);
    var shifted := DropLeadingModel(Merged(cleaned));
    DropLeadingModelShape(Merged(cleaned));
    SuffixAlternates(shifted, |shifted| - |LastFifteen(shifted)|);
  }

  /** The prepared history has at most fifteen entries, each a single text
      part, with no two neighbours in the same role; when the merge fits in
      fifteen entries it starts with a user turn. */
  lemma PreparedHistoryShape(cleaned: seq<ChatMessage>)
    ensures |PreparedFrom(cleaned)| <= 15 && WellFormed(PreparedFrom(cleaned))
    ensures |Merged(cleaned)| <= 15 && PreparedFrom(cleaned) != [] ==> PreparedFrom(cleaned)[0].role == UserRole
  {
    KeptTurnsShape(cleaned);
    AsContentsWellFormed(KeptTurns(cleaned));
  }

  /** With more than fifteen merged entries the kept window can begin with a
      model turn again, because the leading model entry is dropped before
      slicing: sixteen alternating messages starting with the user keep the
      last fifteen, which start with the model. */
  lemma SliceCanStartWithModel(h: seq<ChatMessage>)
    requires |h| == 16 && h[0].role == UserRole
    requires forall k :: 0 <= k < |h| ==> Kept(h[k])
    requires forall k :: 0 < k < |h| ==> h[k - 1].role != h[k].role
    ensures |PreparedHistory(h)| == 15 && PreparedHistory(h)[0].role == ModelRole
  {
    CleanedAllKept(h);
    MergedAlternating(h);
    var merged := Merged(h);
    assert DropLeadingModel(merged) == merged;
    assert LastFifteen(merged)[0] == merged[1];
    assert h[1].role == ModelRole;
  }

  /** One step of the merge, on request contents: either a new entry with
      one text part, or the last entry's text extended in place. */
  lemma StepContents(ts: seq<Turn>, m: ChatMessage)
    ensures ts != [] && ts[|ts| - 1].role == m.role ==>
      AsContents(MergeStep(ts, m)) ==
        AsContents(ts)[..|ts| - 1] + [Content(m.role, [TextPart(ts[|ts| - 1].text + "\n" + m.content)])]
    ensures !(ts != [] && ts[|ts| - 1].role == m.role) ==>
      AsContents(MergeStep(ts, m)) == AsContents(ts) + [Content(m.role, [TextPart(m.content)])]
  {
  }

  lemma AsContentsSuffix(ts: seq<Turn>, j: nat)
    requires j <= |ts|
    ensures AsContents(ts[j..]) == AsContents(ts)[j..]
  {
  }

  lemma AsContentsLastFifteen(ts: seq<Turn>)
    ensures LastFifteen(AsContents(ts)) == AsContents(LastFifteen(ts))
  {
    AsContentsSuffix(ts, |ts| - |LastFifteen(ts)|);
  }

  /** One iteration of `prepareHistory`'s loop: the message opens a new
      entry, or, in the role of the last entry, extends its text in place. */
  method MergeInto(result: seq<Content>, lastRole: Option<Role>, msg: ChatMessage, ghost turns: seq<Turn>)
    returns (next: seq<Content>, nextRole: Option<Role>)
    requires result == AsContents(turns)
    requires lastRole == if turns == [] then None else Some(turns[|turns| - 1].role)
    ensures next == AsContents(MergeStep(turns, msg))
    ensures var ts := MergeStep(turns, msg); nextRole == if ts == [] then None else Some(ts[|ts| - 1].role)
  {
    StepContents(turns, msg);
    if lastRole == Some(msg.role) {
      var lastMsg := result[|result| - 1];
      assert lastMsg == Content(msg.role, [TextPart(turns[|turns| - 1].text)]);
      assert lastMsg.parts[1..] == [];
      lastMsg := lastMsg.(parts := [TextPart(lastMsg.parts[0].text + "\n" + msg.content)] + lastMsg.parts[1..]);
      assert lastMsg == Content(msg.role, [TextPart(turns[|turns| - 1].text + "\n" + msg.content)]);
      return result[..|result| - 1] + [lastMsg], lastRole;
    }
    return result + [Content(msg.role, [TextPart(msg.content)])], Some(msg.role);
  }

  /** The imperative `prepareHistory`: one pass over the filtered history,
      either appending a new entry or extending the last one's text in
      place, then the leading model entry is shifted off and the last
      fifteen are kept. */
  method PrepareHistory(history: seq<ChatMessage>) returns (result: seq<Content>)
    ensures result == PreparedHistory(history)
    ensures |result| <= 15 && WellFormed(result)
  {
    var cleaned := Cleaned(history);
    result := [];
    var lastRole: Option<Role> := None;
    ghost var turns: seq<Turn> := [];
    for i := 0 to |cleaned|
      invariant turns == Merged(cleaned[..i])
      invariant result == AsContents(turns)
      invariant lastRole == if turns == [] then None else Some(turns[|turns| - 1].role)
    {
      assert cleaned[..i + 1][..i] == cleaned[..i];
      result, lastRole := MergeInto(result, lastRole, cleaned[i], turns);
      turns := MergeStep(turns, cleaned[i]);
    }
    assert cleaned[..|cleaned|] == cleaned;
    ghost var shifted := DropLeadingModel(turns);
    if |result| > 0 && result[0].role == ModelRole {
      AsContentsSuffix(turns, 1);
      result := result[1..];
    }
    assert result == AsContents(shifted);
    AsContentsLastFifteen(shifted);
    result := LastFifteen(result);
  }

  // ------------------------------------------------------------ routing

  /** The alias as an agent, when it names one. */
  function ParseAlias(alias: string): (r: Option<AIModel>)
    ensures r.Some? ==> ModelName(r.value) == alias
  {
    FindByName(AllModels, alias)
  }

  /** No agent is found exactly when no agent has that name. */
  lemma ParseAliasNone(alias: string)
    ensures ParseAlias(alias).None? <==> forall m: AIModel :: ModelName(m) != alias
  {
    AgentSetIsClosed();
    if ParseAlias(alias).None? {
      forall m: AIModel ensures ModelName(m) != alias {
        assert m in AllModels;
        var k :| 0 <= k < |AllModels| && AllModels[k] == m;
      }
    }
  }

  function FindByName(ms: seq<AIModel>, alias: string): (r: Option<AIModel>)
    ensures r.Some? ==> ModelName(r.value) == alias
    ensures r.None? ==> forall k :: 0 <= k < |ms| ==> ModelName(ms[k]) != alias
  {
    if ms == [] then None
    else if ModelName(ms[0]) == alias then Some(ms[0])
    else FindByName(ms[1..], alias)
  }

  lemma ParseAliasOfName(m: AIModel)
    ensures ParseAlias(ModelName(m)) == Some(m)
  {
    ParseAliasNone(ModelName(m));
    AgentSetIsClosed();
  }

  datatype ImageConfig = ImageConfig(aspectRatio: string, imageSize: string)

  /** The request configuration the switch builds. `profile` is the title of
      the expert profile appended to the system instruction; `contextDna` is
      the DNA the base instruction quotes. */
  datatype RequestConfig = RequestConfig(
    targetModel: string,
    thinkingBudget: Option<nat>,
    googleSearch: bool,
    imageConfig: Option<ImageConfig>,
    contextDna: string,
    profile: Option<string>)

  /** `x || fallback` for an optional string: the fallback when absent or empty. */
  function OrDefault(x: Option<string>, fallback: string): (r: string)
    ensures r == fallback || (x.Some? && r == x.value && r != "")
  {
    if x.Some? && x.value != "" then x.value else fallback
  }

  /** The defaults every request starts from: the flash model, no
      thinking budget, no tools, no image settings and no profile. */
  function BaseConfig(neuralDNA: Option<string>): RequestConfig {
    RequestConfig("gemini-3-flash-preview", None, false, None, OrDefault(neuralDNA, "EMPTY_DNA"), None)
  }

  /** The switch on the parsed alias: an alias naming no agent keeps the
      defaults. */
  function Configure(alias: string, aspectRatio: Option<string>, imageSize: Option<string>, neuralDNA: Option<string>): (r: RequestConfig)
    ensures r.contextDna == OrDefault(neuralDNA, "EMPTY_DNA")
    ensures r.profile.None? <==> ParseAlias(alias).None?
    ensures r.thinkingBudget.Some? ==> r.targetModel == "gemini-3-pro-preview"
    ensures r.imageConfig.Some? ==> r.targetModel == "gemini-3-pro-image-preview"
  {
    match ParseAlias(alias)
    case None => BaseConfig(neuralDNA)
    case Some(m) => AgentConfig(m, aspectRatio, imageSize, neuralDNA)
  }

  /** The switch's cases, read column by column: each agent's case sets
      the fields below and leaves the rest of the defaults alone. */
  function AgentConfig(m: AIModel, aspectRatio: Option<string>, imageSize: Option<string>, neuralDNA: Option<string>): RequestConfig {
    BaseConfig(neuralDNA).(targetModel := TargetModel(m), thinkingBudget := ThinkingBudget(m), googleSearch := GoogleSearch(m),
                           imageConfig := ImageSettings(m, aspectRatio, imageSize), profile := Some(Profile(m)))
  }

  function TargetModel(m: AIModel): string {
    match m
    case MASTER_FRANKLIN | ORACLE_ESTIMATOR | PROJECT_MANAGER_AGENT
       | STRUCTURAL_AGENT | MEP_AGENT | RISK_ANALYZER | GEOTECH_ENGINEER => "gemini-3-pro-preview"
    case SITE_WORK_AGENT => "gemini-3-flash-lite-latest"
    case DEVELOPMENT_PLANNER | VISUAL_RENDERER => "gemini-3-pro-image-preview"
    case TEMPORAL_VEO => "veo-3.1-fast-generate-preview"
    case ACOUSTIC_LIVE => "gemini-2.5-flash-native-audio-preview-12-2025"
    case LAND_PROCUREMENT | ENVIRONMENTAL_AGENT | FINISHES_AGENT => "gemini-3-flash-preview"
  }

  function ThinkingBudget(m: AIModel): Option<nat> {
    match m
    case MASTER_FRANKLIN | ORACLE_ESTIMATOR | PROJECT_MANAGER_AGENT => Some(32768)
    case STRUCTURAL_AGENT | MEP_AGENT | RISK_ANALYZER | GEOTECH_ENGINEER => Some(16000)
    case _ => None
  }

  function GoogleSearch(m: AIModel): bool {
    m == PROJECT_MANAGER_AGENT || m == LAND_PROCUREMENT || m == ENVIRONMENTAL_AGENT
  }

  function ImageSettings(m: AIModel, aspectRatio: Option<string>, imageSize: Option<string>): Option<ImageConfig> {
    match m
    case DEVELOPMENT_PLANNER => Some(ImageConfig(OrDefault(aspectRatio, "16:9"), OrDefault(imageSize, "1K")))
    case VISUAL_RENDERER => Some(ImageConfig(OrDefault(aspectRatio, "1:1"), OrDefault(imageSize, "1K")))
    case _ => None
  }

  /** The title of the expert profile each agent's case appends. */
  function Profile(m: AIModel): string {
    match m
    case MASTER_FRANKLIN => "MASTER CIVIL ENGINEER & ALLIANCE ORCHESTRATOR"
    case ORACLE_ESTIMATOR => "ORACLE MASTER ESTIMATOR"
    case PROJECT_MANAGER_AGENT => "PROJECT MANAGEMENT & RISK ANALYST"
    case LAND_PROCUREMENT => "LAND PROCUREMENT & DUE DILIGENCE SPECIALIST"
    case ENVIRONMENTAL_AGENT => "ENVIRONMENTAL COMPLIANCE SPECIALIST"
    case STRUCTURAL_AGENT => "STRUCTURAL ENGINEERING ANALYST"
    case MEP_AGENT => "MEP SYSTEMS ENGINEER"
    case FINISHES_AGENT => "ARCHITECTURAL FINISHES SPECIALIST"
    case SITE_WORK_AGENT => "SITE WORK & EARTHWORK ANALYST"
    case DEVELOPMENT_PLANNER => "DEVELOPMENT PLANNING & LAYOUT GENERATOR"
    case RISK_ANALYZER => "CONSTRUCTION RISK ANALYST"
    case GEOTECH_ENGINEER => "GEOTECHNICAL ENGINEER"
    case VISUAL_RENDERER => "2D/3D VISUALIZATION ENGINE"
    case TEMPORAL_VEO => "TEMPORAL VEO (VIDEO) GENERATOR"
    case ACOUSTIC_LIVE => "REAL-TIME ACOUSTIC COMMUNICATION INTERFACE"
  }

  /** An alias that names no agent falls through to the flash model with no
      thinking budget, no tools, no image settings and no profile. */
  lemma UnknownAliasDefaults(alias: string, ar: Option<string>, sz: Option<string>, dna: Option<string>)
    requires forall m: AIModel :: ModelName(m) != alias
    ensures var c := Configure(alias, ar, sz, dna);
      c.targetModel == "gemini-3-flash-preview" && c.thinkingBudget.None? && !c.googleSearch &&
      c.imageConfig.None? && c.profile.None?
  {
    ParseAliasNone(alias);
  }

  /** An agent's own name selects that agent's case of the switch. */
  lemma ConfigureOfName(m: AIModel, ar: Option<string>, sz: Option<string>, dna: Option<string>)
    ensures Configure(ModelName(m), ar, sz, dna) == AgentConfig(m, ar, sz, dna)
  {
    ParseAliasOfName(m);
  }

  /** Field by field: an agent's own name sets that agent's model, budget,
      search flag, image settings and profile, over the context DNA. */
  lemma ConfigureFields(m: AIModel, ar: Option<string>, sz: Option<string>, dna: Option<string>)
    ensures var c := Configure(ModelName(m), ar, sz, dna);
      c.targetModel == TargetModel(m) && c.thinkingBudget == ThinkingBudget(m) &&
      c.googleSearch == GoogleSearch(m) && c.imageConfig == ImageSettings(m, ar, sz) &&
      c.contextDna == OrDefault(dna, "EMPTY_DNA") && c.profile == Some(Profile(m))
  {
    ConfigureOfName(m, ar, sz, dna);
  }

  /** The thinking budgets: 32768 exactly for the three orchestration agents,
      16000 exactly for the four engineering agents, none for the rest. */
  lemma ThinkingBudgetTable(m: AIModel)
    ensures var b := ThinkingBudget(m);
      (b == Some(32768) <==> m in {MASTER_FRANKLIN, ORACLE_ESTIMATOR, PROJECT_MANAGER_AGENT}) &&
      (b == Some(16000) <==> m in {STRUCTURAL_AGENT, MEP_AGENT, RISK_ANALYZER, GEOTECH_ENGINEER}) &&
      (b.None? <==> m !in {MASTER_FRANKLIN, ORACLE_ESTIMATOR, PROJECT_MANAGER_AGENT,
                           STRUCTURAL_AGENT, MEP_AGENT, RISK_ANALYZER, GEOTECH_ENGINEER})
  {
  }

  /** Web search is switched on exactly for the project manager, land
      procurement and environmental agents. */
  lemma SearchToolTable(m: AIModel)
    ensures GoogleSearch(m) <==> m in {PROJECT_MANAGER_AGENT, LAND_PROCUREMENT, ENVIRONMENTAL_AGENT}
  {
  }

  /** Only the two image agents get image settings; without options the
      planner asks for 16:9 and the renderer for 1:1, both at size 1K. */
  lemma ImageDefaults(m: AIModel)
    ensures var i := ImageSettings(m, None, None);
      (i.Some? <==> m in {DEVELOPMENT_PLANNER, VISUAL_RENDERER}) &&
      (m == DEVELOPMENT_PLANNER ==> i == Some(ImageConfig("16:9", "1K"))) &&
      (m == VISUAL_RENDERER ==> i == Some(ImageConfig("1:1", "1K")))
  {
  }

  // ----------------------------------------------------- attached files

  /** `file.data` is truthy. */
  predicate HasData(f: FileMetadata) {
    f.data.Some? && f.data.value != ""
  }

  /** Images, PDFs and CAD drawings are sent as inline data. */
  predicate IsMedia(f: FileMetadata) {
    (f.mimeType.Some? && (StartsWith(f.mimeType.value, "image/") || Contains(f.mimeType.value, "pdf")))
    || EndsWith(f.name, ".dwg") || EndsWith(f.name, ".dxf")
  }

  /** `data.includes(',') ? data.split(',')[1] : data`: with a comma, the
      text between the first comma and the next one (or the end). */
  function InlinePayload(data: string): (r: string)
    ensures !HasChar(r, ',')
    ensures !HasChar(data, ',') ==> r == data
    ensures HasChar(data, ',') ==> |Split(data, ',')| >= 2 && r == Split(data, ',')[1]
  {
    if HasChar(data, ',') then
      var pieces := Split(data, ',');
      if |pieces| >= 2 then pieces[1]
      else
        assert false; ""
    else data
  }

  /** The text a non-media file contributes: a tagged header naming the
      file, then the first 40000 characters of its data. */
  function ArtifactNote(name: string, data: string): string {
    "\n[CRITICAL_SPEC_ARTIFACT: " + name + "]\n" + Prefix(data, 40000)
  }

  /** The part one file contributes, if any. */
  function FilePart(f: FileMetadata): (r: Option<Part>)
    ensures r.Some? <==> HasData(f)
    ensures r.Some? && IsMedia(f) ==> r.value == InlinePart(InlinePayload(f.data.value), OrDefault(f.mimeType, "application/octet-stream"))
    ensures r.Some? && !IsMedia(f) ==> r.value.TextPart? && EndsWith(r.value.text, Prefix(f.data.value, 40000))
    ensures r.Some? && !IsMedia(f) ==>
      StartsWith(r.value.text, "\n[CRITICAL_SPEC_ARTIFACT: " + f.name + "]\n") &&
      |r.value.text| == |"\n[CRITICAL_SPEC_ARTIFACT: " + f.name + "]\n"| + |Prefix(f.data.value, 40000)|
  {
    if !HasData(f) then None
    else if IsMedia(f) then Some(InlinePart(InlinePayload(f.data.value), OrDefault(f.mimeType, "application/octet-stream")))
    else Some(TextPart(ArtifactNote(f.name, f.data.value)))
  }

  /** The parts all the files contribute, in file order. */
  function FileParts(files: seq<FileMetadata>): (r: seq<Part>)
    ensures |r| <= |files|
    decreases |files|
  {
    if files == [] then []
    else
      var last := files[|files| - 1];
      var init := FileParts(files[..|files| - 1]);
      match FilePart(last)
      case Some(p) => init + [p]
      case None => init
  }

  /** No file contributes a part exactly when no file has data. */
  lemma {:induction false} FilePartsEmpty(files: seq<FileMetadata>)
    ensures FileParts(files) == [] <==> forall k :: 0 <= k < |files| ==> !HasData(files[k])
    decreases |files|
  {
    if files != [] {
      var init := files[..|files| - 1];
      FilePartsEmpty(init);
      assert forall k :: 0 <= k < |init| ==> init[k] == files[k];
    }
  }

  lemma FilePartsSnoc(files: seq<FileMetadata>, i: nat)
    requires i < |files|
    ensures FileParts(files[..i + 1]) == FileParts(files[..i]) + (if HasData(files[i]) then [FilePart(files[i]).value] else [])
  {
    assert files[..i + 1][..i] == files[..i];
  }

  /** One step of the attachments loop, for a file with data: a media file
      is sent inline with its type, any other file as a tagged text note. */
  method AppendFilePart(parts: seq<Part>, file: FileMetadata) returns (next: seq<Part>)
    requires HasData(file)
    ensures next == parts + [FilePart(file).value]
  {
    if IsMedia(file) {
      next := parts + [InlinePart(InlinePayload(file.data.value), OrDefault(file.mimeType, "application/octet-stream"))];
    } else {
      next := parts + [TextPart(ArtifactNote(file.name, file.data.value))];
    }
  }

  const NoLastTurn := "TypeError: Cannot read properties of undefined (reading 'parts')"

  /** What the attachments loop leaves: the parts of all files appended to
      the last turn, or, with no turn, a failure as soon as one file
      contributes a part. */
  function Attached(formatted: seq<Content>, files: seq<FileMetadata>): Result<seq<Content>> {
    if formatted == [] then
      if FileParts(files) == [] then Ok([]) else Err(NoLastTurn)
    else
      var last := formatted[|formatted| - 1];
      Ok(formatted[..|formatted| - 1] + [last.(parts := last.parts + FileParts(files))])
  }

  /** With no turn to add to, the loop fails exactly when some file has
      data (the source reads a property of `undefined`); otherwise every
      turn but the last is kept and the last gains the files' parts. */
  lemma AttachedMeaning(formatted: seq<Content>, files: seq<FileMetadata>)
    ensures var r := Attached(formatted, files);
      (r.Err? <==> formatted == [] && exists k :: 0 <= k < |files| && HasData(files[k])) &&
      (r.Ok? && formatted == [] ==> r.value == []) &&
      (r.Ok? && formatted != [] ==>
        |r.value| == |formatted| &&
        r.value[..|formatted| - 1] == formatted[..|formatted| - 1] &&
        r.value[|formatted| - 1] == formatted[|formatted| - 1].(parts := formatted[|formatted| - 1].parts + FileParts(files)))
  {
    var r := Attached(formatted, files);
    FilePartsEmpty(files);
    if formatted != [] {
      assert r.value[..|formatted| - 1] == formatted[..|formatted| - 1];
    }
  }

  /** The attachments loop: every file with data adds its part to the last
      turn, and the first such file fails when there is none. */
  method AttachFiles(formatted: seq<Content>, files: seq<FileMetadata>) returns (r: Result<seq<Content>>)
    ensures r == Attached(formatted, files)
  {
    if |files| == 0 {
      if formatted != [] {
        var last := formatted[|formatted| - 1];
        assert last.parts + [] == last.parts;
        assert formatted == formatted[..|formatted| - 1] + [last];
      }
      return Ok(formatted);
    }
    var lastParts: seq<Part> := if formatted != [] then formatted[|formatted| - 1].parts else [];
    ghost var base := lastParts;
    for i := 0 to |files|
      invariant formatted == [] ==> FileParts(files[..i]) == []
      invariant lastParts == base + FileParts(files[..i])
    {
      var file := files[i];
      FilePartsSnoc(files, i);
      if HasData(file) {
        if formatted == [] {
          FilePartsEmpty(files);
          return Err(NoLastTurn);
        }
        var part := FilePart(file).value;
        lastParts := AppendFilePart(lastParts, file);
        assert lastParts == base + (FileParts(files[..i]) + [part]);
      }
    }
    assert files[..|files|] == files;
    if formatted == [] {
      return Ok([]);
    }
    var last := formatted[|formatted| - 1];
    r := Ok(formatted[..|formatted| - 1] + [last.(parts := lastParts)]);
  }

  // --------------------------------------------------- reply assembling

  /** `part.inlineData` of a response part. */
  datatype Blob = Blob(mimeType: string, data: string)

  /** A grounding chunk: its maps URI and its web URI, each optional. */
  datatype Chunk = Chunk(mapsUri: Option<string>, webUri: Option<string>)

  /** `response.usageMetadata`: the three token counts, each as the
      response gives it (possibly undefined). */
  datatype Usage = Usage(promptTokenCount: Option<int>, candidatesTokenCount: Option<int>, totalTokenCount: Option<int>)

  /** The reply's `metrics`, copied from the usage metadata. */
  datatype Metrics = Metrics(promptTokens: Option<int>, candidatesTokens: Option<int>, totalTokens: Option<int>)

  /** `response.candidates?.[0]?.content`: absent (no candidate, or a
      candidate without content), present without `parts`, or present with
      its parts, each carrying inline data or not. */
  datatype CandidateContent = NoContent | ContentWithoutParts | ContentParts(parts: seq<Option<Blob>>)

  /** What `content.parts.forEach` throws when `content` has no `parts`; the
      optional chain guards `content` but not `parts`. */
  const NoResponseParts := "TypeError: Cannot read properties of undefined (reading 'forEach')"

  datatype Reply = Reply(text: string, mediaUrl: Option<string>, mediaType: Option<MediaType>, groundingUrls: seq<string>, metrics: Option<Metrics>)

  /** A URI that is present and not empty. */
  predicate Truthy(u: Option<string>) {
    u.Some? && u.value != ""
  }

  /** The URLs one chunk contributes: the maps URI, then the web URI. */
  function ChunkUrls(c: Chunk): (r: seq<string>)
    ensures |r| == (if Truthy(c.mapsUri) then 1 else 0) + (if Truthy(c.webUri) then 1 else 0)
    ensures Truthy(c.mapsUri) ==> r[0] == c.mapsUri.value
    ensures Truthy(c.webUri) ==> r[|r| - 1] == c.webUri.value
    ensures forall k :: 0 <= k < |r| ==> r[k] != ""
  {
    (if Truthy(c.mapsUri) then [c.mapsUri.value] else []) + (if Truthy(c.webUri) then [c.webUri.value] else [])
  }

  /** Every chunk's URLs, chunk by chunk. */
  function GroundingUrls(cs: seq<Chunk>): (r: seq<string>)
    ensures |r| <= 2 * |cs|
    ensures forall k :: 0 <= k < |r| ==> r[k] != ""
    decreases |cs|
  {
    if cs == [] then [] else GroundingUrls(cs[..|cs| - 1]) + ChunkUrls(cs[|cs| - 1])
  }

  /** The grounding URLs are, in order, exactly every chunk's present maps
      URI followed by its present web URI. */
  lemma {:induction false} GroundingUrlsConcat(a: seq<Chunk>, b: seq<Chunk>)
    ensures GroundingUrls(a + b) == GroundingUrls(a) + GroundingUrls(b)
    decreases |b|
  {
    if b == [] {
      assert a + b == a;
    } else {
      var init := b[..|b| - 1];
      var last := b[|b| - 1];
      assert (a + b)[..|a + b| - 1] == a + init;
      assert (a + b)[|a + b| - 1] == last;
      GroundingUrlsConcat(a, init);
      calc {
        GroundingUrls(a + b);
        GroundingUrls(a + init) + ChunkUrls(last);
        (GroundingUrls(a) + GroundingUrls(init)) + ChunkUrls(last);
        GroundingUrls(a) + (GroundingUrls(init) + ChunkUrls(last));
      }
    }
  }

  /** Each chunk's URLs come after those of the chunks before it and before
      those of the chunks after it. */
  lemma GroundingUrlsAt(cs: seq<Chunk>, k: nat)
    requires k < |cs|
    ensures GroundingUrls(cs) == GroundingUrls(cs[..k]) + ChunkUrls(cs[k]) + GroundingUrls(cs[k + 1..])
  {
    AroundIndex(cs, k);
    GroundingUrlsAround(cs[..k], cs[k], cs[k + 1..]);
  }


  lemma GroundingUrlsAround(a: seq<Chunk>, c: Chunk, b: seq<Chunk>)
    ensures GroundingUrls(a + [c] + b) == GroundingUrls(a) + ChunkUrls(c) + GroundingUrls(b)
  {
    GroundingUrlsConcat(a + [c], b);
    GroundingUrlsConcat(a, [c]);
    assert [c][..0] == [];
  }

  /** The last response part that carries inline data. */
  function LastBlob(parts: seq<Option<Blob>>): (r: Option<Blob>)
    ensures r.Some? ==> exists k :: 0 <= k < |parts| && parts[k] == r && forall j :: k < j < |parts| ==> parts[j].None?
    ensures r.None? <==> forall k :: 0 <= k < |parts| ==> parts[k].None?
    decreases |parts|
  {
    if parts == [] then None
    else if parts[|parts| - 1].Some? then
      assert parts[|parts| - 1] == parts[|parts| - 1];
      parts[|parts| - 1]
    else
      var init := parts[..|parts| - 1];
      var r := LastBlob(init);
      assert forall k :: 0 <= k < |init| ==> init[k] == parts[k];
      if r.Some? then
        ghost var k :| 0 <= k < |init| && init[k] == r && forall j :: k < j < |init| ==> init[j].None?;
        assert parts[k] == r && forall j :: k < j < |parts| ==> parts[j].None?;
        r
      else r
  }

  function DataUrl(b: Blob): string {
    "data:" + b.mimeType + ";base64," + b.data
  }

  /** The `parts.forEach` over the response parts: the last part with
      inline data sets the media URL, typed as an image. */
  method ScanParts(ps: seq<Option<Blob>>) returns (mediaUrl: Option<string>, mediaType: Option<MediaType>)
    ensures mediaUrl == if LastBlob(ps).Some? then Some(DataUrl(LastBlob(ps).value)) else None
    ensures mediaType == if LastBlob(ps).Some? then Some(Image) else None
  {
    mediaUrl, mediaType := None, None;
    for i := 0 to |ps|
      invariant mediaUrl == if LastBlob(ps[..i]).Some? then Some(DataUrl(LastBlob(ps[..i]).value)) else None
      invariant mediaType == if LastBlob(ps[..i]).Some? then Some(Image) else None
    {
      assert ps[..i + 1][..i] == ps[..i];
      if ps[i].Some? {
        mediaUrl := Some(DataUrl(ps[i].value));
        mediaType := Some(Image);
      }
    }
    assert ps[..|ps|] == ps;
  }

  /** The `groundingChunks.forEach`: each chunk pushes its maps URI, then
      its web URI. */
  method CollectUrls(cs: seq<Chunk>) returns (urls: seq<string>)
    ensures urls == GroundingUrls(cs)
  {
    urls := [];
    for i := 0 to |cs|
      invariant urls == GroundingUrls(cs[..i])
    {
      assert cs[..i + 1][..i] == cs[..i];
      var c := cs[i];
      if Truthy(c.mapsUri) { urls := urls + [c.mapsUri.value]; }
      if Truthy(c.webUri) { urls := urls + [c.webUri.value]; }
    }
    assert cs[..|cs|] == cs;
  }

  /** Building the reply from a response: the text trimmed (empty when
      absent), the media URL of the last inline part with type image, the
      grounding URLs of every chunk in order, and the token counts when the
      response has usage metadata. A first candidate whose content has no
      `parts` makes the `forEach` throw, and the error propagates to the
      caller. */
  method AssembleReply(text: Option<string>, content: CandidateContent, chunks: Option<seq<Chunk>>, usage: Option<Usage>)
    returns (r: Result<Reply>)
    ensures r.Err? <==> content.ContentWithoutParts?
    ensures r.Err? ==> r.message == NoResponseParts
    ensures r.Ok? ==> r.value.text == Trim(text.GetOr(""))
    ensures r.Ok? ==> r.value.text == [] || (!IsSpace(r.value.text[0]) && !IsSpace(r.value.text[|r.value.text| - 1]))
    ensures content.ContentParts? && LastBlob(content.parts).Some? ==>
      r.Ok? && r.value.mediaUrl == Some(DataUrl(LastBlob(content.parts).value)) && r.value.mediaType == Some(Image)
    ensures (content.NoContent? || (content.ContentParts? && LastBlob(content.parts).None?)) ==>
      r.Ok? && r.value.mediaUrl.None? && r.value.mediaType.None?
    ensures r.Ok? ==> r.value.groundingUrls == if chunks.Some? then GroundingUrls(chunks.value) else []
    ensures r.Ok? ==> (r.value.metrics.Some? <==> usage.Some?)
    ensures r.Ok? && usage.Some? ==> r.value.metrics == Some(Metrics(usage.value.promptTokenCount, usage.value.candidatesTokenCount, usage.value.totalTokenCount))
  {
    if content.ContentWithoutParts? {
      return Err(NoResponseParts);
    }
    var mediaUrl: Option<string> := None;
    var mediaType: Option<MediaType> := None;
    if content.ContentParts? {
      mediaUrl, mediaType := ScanParts(content.parts);
    }
    var urls: seq<string> := [];
    if chunks.Some? {
      urls := CollectUrls(chunks.value);
    }
    var metrics: Option<Metrics> := None;
    if usage.Some? {
      metrics := Some(Metrics(usage.value.promptTokenCount, usage.value.candidatesTokenCount, usage.value.totalTokenCount));
    }
    var trimmed := Trim(text.GetOr(""));
    r := Ok(Reply(trimmed, mediaUrl, mediaType, urls, metrics));
  }
}
