/** The agent panel: the grouped agent table, which agent the header shows,
    which agents a visitor may pick, the upgrade button, the label and
    header formatting, and the numbered DNA listing. */
module ModelOrchestrator {
  import opened Wrappers
  import opened Strings
  import opened Types
  import ApiService
  import TerminalPanel

  datatype Agent = Agent(name: AIModel, premium: bool)

  datatype AgentGroup = AgentGroup(title: string, agents: seq<Agent>)

  /** `AGENT_GROUPS`, without the icons and descriptions. */
  const AgentGroups: seq<AgentGroup> := [
    AgentGroup("SOVEREIGN_ORCHESTRATION", [
      Agent(MASTER_FRANKLIN, true), Agent(PROJECT_MANAGER_AGENT, true), Agent(ORACLE_ESTIMATOR, false)]),
    AgentGroup("LAND_DEVELOPMENT_COMPONENTS", [
      Agent(LAND_PROCUREMENT, true), Agent(DEVELOPMENT_PLANNER, true), Agent(GEOTECH_ENGINEER, true)]),
    AgentGroup("CONSTRUCTION_DISCIPLINES", [
      Agent(STRUCTURAL_AGENT, false), Agent(MEP_AGENT, true), Agent(FINISHES_AGENT, false), Agent(SITE_WORK_AGENT, false)]),
    AgentGroup("ADVANCED_ANALYSIS", [
      Agent(RISK_ANALYZER, true), Agent(ENVIRONMENTAL_AGENT, true), Agent(VISUAL_RENDERER, false), Agent(TEMPORAL_VEO, false)])
  ]

  /** How many agents the groups hold together. */
  function AgentCount(groups: seq<AgentGroup>): nat {
    if groups == [] then 0 else |groups[0].agents| + AgentCount(groups[1..])
  }

  /** Every agent of the table, group after group: each agent of each group,
      and nothing else, once per occurrence. */
  function Flatten(groups: seq<AgentGroup>): (r: seq<Agent>)
    ensures |r| == AgentCount(groups)
    ensures forall a :: a in r <==> exists g :: g in groups && a in g.agents
  {
    if groups == [] then []
    else
      assert forall g :: g in groups <==> g == groups[0] || g in groups[1..];
      groups[0].agents + Flatten(groups[1..])
  }

  /** `agents.find(a => a.name === selected)`. */
  function FindAgent(agents: seq<Agent>, selected: AIModel): (r: Option<Agent>)
    ensures r.None? <==> forall k :: 0 <= k < |agents| ==> agents[k].name != selected
    ensures r.Some? ==> r.value.name == selected
    ensures r.Some? ==> exists k :: 0 <= k < |agents| && agents[k] == r.value && (forall j :: 0 <= j < k ==> agents[j].name != selected)
  {
    if agents == [] then None
    else if agents[0].name == selected then Some(agents[0])
    else
      var rest := FindAgent(agents[1..], selected);
      if rest.Some? then
        ghost var k :| 0 <= k < |agents[1..]| && agents[1..][k] == rest.value &&
          (forall j :: 0 <= j < k ==> agents[1..][j].name != selected);
        assert agents[k + 1] == rest.value;
        rest
      else rest
  }

  /** The search of `activeAgent`: group by group, the first match. */
  function SearchGroups(groups: seq<AgentGroup>, selected: AIModel): (r: Option<Agent>)
    ensures r.Some? ==> r.value.name == selected && exists g :: g in groups && r.value in g.agents
  {
    if groups == [] then None
    else match FindAgent(groups[0].agents, selected)
      case Some(a) => Some(a)
      case None =>
        var rest := SearchGroups(groups[1..], selected);
        assert forall g :: g in groups[1..] ==> g in groups;
        rest
  }

  /** Searching group by group is the same as searching the whole table in order. */
  lemma {:induction false} SearchGroupsIsFlatSearch(groups: seq<AgentGroup>, selected: AIModel)
    ensures SearchGroups(groups, selected) == FindAgent(Flatten(groups), selected)
  {
    if groups != [] {
      SearchGroupsIsFlatSearch(groups[1..], selected);
      FindAgentConcat(groups[0].agents, Flatten(groups[1..]), selected);
    }
  }

  lemma {:induction false} FindAgentConcat(a: seq<Agent>, b: seq<Agent>, selected: AIModel)
    ensures FindAgent(a + b, selected) == if FindAgent(a, selected).Some? then FindAgent(a, selected) else FindAgent(b, selected)
  {
    if a == [] {
      assert a + b == b;
    } else {
      assert (a + b)[0] == a[0];
      assert (a + b)[1..] == a[1..] + b;
      FindAgentConcat(a[1..], b, selected);
    }
  }

  /** `activeAgent`: the first agent with the selected name, or the first
      agent of the first group. */
  function ActiveAgent(selected: AIModel): (r: Agent)
    ensures r.name == selected || r == AgentGroups[0].agents[0]
    ensures exists g :: g in AgentGroups && r in g.agents
  {
    match SearchGroups(AgentGroups, selected)
    case Some(a) => a
    case None => AgentGroups[0].agents[0]
  }

  /** The table read group after group. */
  const AgentList: seq<Agent> := [
    Agent(MASTER_FRANKLIN, true), Agent(PROJECT_MANAGER_AGENT, true), Agent(ORACLE_ESTIMATOR, false),
    Agent(LAND_PROCUREMENT, true), Agent(DEVELOPMENT_PLANNER, true), Agent(GEOTECH_ENGINEER, true),
    Agent(STRUCTURAL_AGENT, false), Agent(MEP_AGENT, true), Agent(FINISHES_AGENT, false), Agent(SITE_WORK_AGENT, false),
    Agent(RISK_ANALYZER, true), Agent(ENVIRONMENTAL_AGENT, true), Agent(VISUAL_RENDERER, false), Agent(TEMPORAL_VEO, false)]

  const PremiumNames: set<AIModel> := {MASTER_FRANKLIN, PROJECT_MANAGER_AGENT, LAND_PROCUREMENT, DEVELOPMENT_PLANNER,
    GEOTECH_ENGINEER, MEP_AGENT, RISK_ANALYZER, ENVIRONMENTAL_AGENT}

  const FreeNames: set<AIModel> := {ORACLE_ESTIMATOR, STRUCTURAL_AGENT, FINISHES_AGENT, SITE_WORK_AGENT,
    VISUAL_RENDERER, TEMPORAL_VEO}

  lemma FlattenTable()
    ensures Flatten(AgentGroups) == AgentList
  {
    assert Flatten(AgentGroups[4..]) == [];
    assert AgentGroups[3..][1..] == AgentGroups[4..];
    assert Flatten(AgentGroups[3..]) == AgentGroups[3].agents;
    assert AgentGroups[2..][1..] == AgentGroups[3..];
    assert Flatten(AgentGroups[2..]) == AgentGroups[2].agents + AgentGroups[3].agents;
    assert AgentGroups[1..][1..] == AgentGroups[2..];
    assert Flatten(AgentGroups[1..]) == AgentGroups[1].agents + AgentGroups[2].agents + AgentGroups[3].agents;
  }

  /** Every agent but ACOUSTIC_LIVE is found in the table. */
  lemma ListedAgents()
    ensures forall m: AIModel :: FindAgent(AgentList, m).Some? <==> m != ACOUSTIC_LIVE
  {
    forall m: AIModel ensures FindAgent(AgentList, m).Some? <==> m != ACOUSTIC_LIVE {
      match m
      case MASTER_FRANKLIN => FoundAt(AgentList, 0, m);
      case PROJECT_MANAGER_AGENT => FoundAt(AgentList, 1, m);
      case ORACLE_ESTIMATOR => FoundAt(AgentList, 2, m);
      case LAND_PROCUREMENT => FoundAt(AgentList, 3, m);
      case DEVELOPMENT_PLANNER => FoundAt(AgentList, 4, m);
      case GEOTECH_ENGINEER => FoundAt(AgentList, 5, m);
      case STRUCTURAL_AGENT => FoundAt(AgentList, 6, m);
      case MEP_AGENT => FoundAt(AgentList, 7, m);
      case FINISHES_AGENT => FoundAt(AgentList, 8, m);
      case SITE_WORK_AGENT => FoundAt(AgentList, 9, m);
      case RISK_ANALYZER => FoundAt(AgentList, 10, m);
      case ENVIRONMENTAL_AGENT => FoundAt(AgentList, 11, m);
      case VISUAL_RENDERER => FoundAt(AgentList, 12, m);
      case TEMPORAL_VEO => FoundAt(AgentList, 13, m);
      case ACOUSTIC_LIVE =>
        assert forall k :: 0 <= k < |AgentList| ==> AgentList[k].name != m;
    }
  }

  /** An agent at some position is found. */
  lemma FoundAt(agents: seq<Agent>, k: nat, m: AIModel)
    requires k < |agents| && agents[k].name == m
    ensures FindAgent(agents, m).Some?
  {
  }

  /** The table has four groups and fourteen agents; every agent but
      ACOUSTIC_LIVE is found in it; the premium ones are the eight of
      `PremiumNames`, the others the six of `FreeNames`. */
  lemma AgentTable()
    ensures |AgentGroups| == 4 && |Flatten(AgentGroups)| == 14
    ensures forall m: AIModel :: FindAgent(Flatten(AgentGroups), m).Some? <==> m != ACOUSTIC_LIVE
    ensures forall k :: 0 <= k < 14 ==>
      (Flatten(AgentGroups)[k].premium <==> Flatten(AgentGroups)[k].name in PremiumNames) &&
      (!Flatten(AgentGroups)[k].premium <==> Flatten(AgentGroups)[k].name in FreeNames)
  {
    FlattenTable();
    ListedAgents();
  }

  /** The header shows the selected agent for every listed agent, and
      MASTER_FRANKLIN when ACOUSTIC_LIVE is selected. */
  lemma ActiveAgentShowsSelection(selected: AIModel)
    ensures selected != ACOUSTIC_LIVE ==> ActiveAgent(selected).name == selected
    ensures selected == ACOUSTIC_LIVE ==> ActiveAgent(selected) == Agent(MASTER_FRANKLIN, true)
  {
    AgentTable();
    SearchGroupsIsFlatSearch(AgentGroups, selected);
  }

  /** The header's agent is premium exactly when the table marks the
      selected agent premium. */
  lemma ActiveAgentPremium(selected: AIModel)
    requires selected != ACOUSTIC_LIVE
    ensures ActiveAgent(selected).name == selected
    ensures ActiveAgent(selected).premium <==> selected in PremiumNames
  {
    AgentTable();
    FlattenTable();
    SearchGroupsIsFlatSearch(AgentGroups, selected);
    var r := FindAgent(AgentList, selected);
    assert r.Some?;
    var k :| 0 <= k < |AgentList| && AgentList[k] == r.value && (forall j :: 0 <= j < k ==> AgentList[j].name != selected);
    assert ActiveAgent(selected) == AgentList[k];
  }

  /** `agent.premium && !isSubscribed`. */
  predicate IsLocked(a: Agent, isSubscribed: bool) {
    a.premium && !isSubscribed
  }

  /** A click selects the agent unless it is locked. */
  function Click(a: Agent, isSubscribed: bool, selected: AIModel): (r: AIModel)
    ensures r == a.name <==> !IsLocked(a, isSubscribed) || selected == a.name
    ensures r != a.name ==> r == selected
  {
    if IsLocked(a, isSubscribed) then selected else a.name
  }

  /** A subscriber can pick any listed agent; a visitor only the six free ones. */
  lemma SelectableAgents(isSubscribed: bool, k: nat)
    requires k < 14
    ensures isSubscribed ==> !IsLocked(Flatten(AgentGroups)[k], isSubscribed)
    ensures !isSubscribed ==> (!IsLocked(Flatten(AgentGroups)[k], isSubscribed) <==> Flatten(AgentGroups)[k].name in FreeNames)
  {
    AgentTable();
  }

  // ------------------------------------------------------------- labels

  const LabelTokens: seq<string> := ["_AGENT", "_ESTIMATOR", "_RENDERER", "_VEO", "_PLANNER", "_ENGINEER"]

  /** The first token, in the regular expression's order, the text starts
      with. Every token begins with `_`, so any other first character
      matches none of them. */
  function TokenAt(s: string): Option<string> {
    if s == [] || s[0] != '_' then None
    else if StartsWith(s, "_AGENT") then Some("_AGENT")
    else if StartsWith(s, "_ESTIMATOR") then Some("_ESTIMATOR")
    else if StartsWith(s, "_RENDERER") then Some("_RENDERER")
    else if StartsWith(s, "_VEO") then Some("_VEO")
    else if StartsWith(s, "_PLANNER") then Some("_PLANNER")
    else if StartsWith(s, "_ENGINEER") then Some("_ENGINEER")
    else None
  }

  /** The alternation matches one of its tokens at the start when there is
      one, and nothing when no token starts there. */
  lemma TokenAtMeaning(s: string)
    ensures var r := TokenAt(s);
      (r.Some? ==> r.value in LabelTokens && StartsWith(s, r.value)) &&
      (r.None? <==> forall t :: t in LabelTokens ==> !StartsWith(s, t))
  {
  }

  /** No token starts at a character other than `_`. */
  lemma NoTokenAt(s: string)
    requires s != [] && s[0] != '_'
    ensures TokenAt(s).None?
  {
    NotStartsWith(s, "_AGENT", 0);
    NotStartsWith(s, "_ESTIMATOR", 0);
    NotStartsWith(s, "_RENDERER", 0);
    NotStartsWith(s, "_VEO", 0);
    NotStartsWith(s, "_PLANNER", 0);
    NotStartsWith(s, "_ENGINEER", 0);
  }

  /** `name.replace(/_AGENT|_ESTIMATOR|_RENDERER|_VEO|_PLANNER|_ENGINEER/g, '')`. */
  function StripTokens(s: string): (r: string)
    ensures |r| <= |s|
    decreases |s|
  {
    if s == [] then ""
    else match TokenAt(s)
      case Some(t) => StripTokens(s[|t|..])
      case None => [s[0]] + StripTokens(s[1..])
  }

  /** Text without an underscore passes through the stripping unchanged. */
  lemma {:induction false} StripTokensPlain(a: string, b: string)
    requires !HasChar(a, '_')
    ensures StripTokens(a + b) == a + StripTokens(b)
    decreases |a|
  {
    if a == [] {
      assert a + b == b;
    } else {
      TailWithoutChar(a, '_');
      StripTokensPlain(a[1..], b);
      PlainCons(a, b);
    }
  }

  /** Dropping the first character keeps a string free of `c`. */
  lemma TailWithoutChar(a: string, c: char)
    requires a != [] && !HasChar(a, c)
    ensures a[0] != c && !HasChar(a[1..], c)
  {
    var tail := a[1..];
    forall i | 0 <= i < |tail| ensures tail[i] != c {
      assert tail[i] == a[i + 1];
    }
  }

  /** One character other than `_` in front of text that passes through. */
  lemma PlainCons(a: string, b: string)
    requires a != [] && a[0] != '_'
    requires StripTokens(a[1..] + b) == a[1..] + StripTokens(b)
    ensures StripTokens(a + b) == a + StripTokens(b)
  {
    DropFirst(a, b);
    PlainCharStep(a + b);
    ConsAgain(a, StripTokens(b));
  }

  lemma DropFirst(a: string, b: string)
    requires a != []
    ensures (a + b)[0] == a[0] && (a + b)[1..] == a[1..] + b
  {
  }

  lemma ConsAgain(a: string, u: string)
    requires a != []
    ensures [a[0]] + (a[1..] + u) == a + u
  {
    assert a == [a[0]] + a[1..];
  }

  /** A character other than `_` starts no token and is kept. */
  lemma PlainCharStep(s: string)
    requires s != [] && s[0] != '_'
    ensures StripTokens(s) == [s[0]] + StripTokens(s[1..])
  {
    NoTokenAt(s);
  }

  lemma NotStartsWith(s: string, p: string, i: nat)
    requires i < |p| && i < |s| && s[i] != p[i]
    ensures !StartsWith(s, p)
  {
    if |p| <= |s| {
      assert s[..|p|][i] != p[i];
    }
  }

  /** A token alone is removed entirely: no earlier alternative of the
      expression matches it. */
  lemma StripTokenAlone(t: string)
    requires t in LabelTokens
    ensures StripTokens(t) == ""
  {
    assert StartsWith(t, t);
    if t == "_ESTIMATOR" {
      NotStartsWith(t, "_AGENT", 1);
    } else if t == "_RENDERER" {
      NotStartsWith(t, "_AGENT", 1);
      NotStartsWith(t, "_ESTIMATOR", 1);
    } else if t == "_VEO" {
      NotStartsWith(t, "_AGENT", 1);
    } else if t == "_PLANNER" {
      NotStartsWith(t, "_AGENT", 1);
      NotStartsWith(t, "_VEO", 1);
    } else if t == "_ENGINEER" {
      NotStartsWith(t, "_AGENT", 1);
      NotStartsWith(t, "_ESTIMATOR", 2);
      NotStartsWith(t, "_RENDERER", 1);
      NotStartsWith(t, "_VEO", 1);
      NotStartsWith(t, "_PLANNER", 1);
    }
    assert TokenAt(t) == Some(t);
    assert t[|t|..] == [];
  }

  /** A trailing role token is dropped from a one-word name. */
  lemma StripsTrailingToken(word: string, t: string)
    requires !HasChar(word, '_') && t in LabelTokens
    ensures StripTokens(word + t) == word
  {
    StripTokensPlain(word, t);
    StripTokenAlone(t);
  }

  /** The labels of the agent list: the role suffix is dropped. */
  lemma StructuralLabel()
    ensures StripTokens("STRUCTURAL_AGENT") == "STRUCTURAL"
  {
    assert "STRUCTURAL_AGENT" == "STRUCTURAL" + "_AGENT";
    StripsTrailingToken("STRUCTURAL", "_AGENT");
  }

  lemma TemporalLabel()
    ensures StripTokens("TEMPORAL_VEO") == "TEMPORAL"
  {
    assert "TEMPORAL_VEO" == "TEMPORAL" + "_VEO";
    StripsTrailingToken("TEMPORAL", "_VEO");
  }

  /** `selectedModel.replace(/_/g, ' ')`: the header title. */
  function HeaderTitle(s: string): (r: string)
    ensures |r| == |s|
    ensures forall i :: 0 <= i < |s| ==> r[i] == (if s[i] == '_' then ' ' else s[i])
  {
    if s == [] then "" else [if s[0] == '_' then ' ' else s[0]] + HeaderTitle(s[1..])
  }

  lemma HeaderHasNoUnderscore(m: AIModel)
    ensures !HasChar(HeaderTitle(ModelName(m)), '_')
  {
  }

  // -------------------------------------------------------- the DNA gutter

  /** The DNA tab: every line of `centralBrainDNA.split('\n')` beside its
      one-based number padded to three digits. */
  function DnaGutter(lines: seq<string>): (r: seq<(string, string)>)
    ensures |r| == |lines|
    ensures forall i :: 0 <= i < |r| ==> r[i].1 == lines[i]
  {
    seq(|lines|, i requires 0 <= i < |lines| => (TerminalPanel.LineNumber(i + 1), lines[i]))
  }

  /** Each gutter number is all digits and reads back as the line's
      position, counted from one; below a thousand it has three digits. */
  lemma GutterNumbersCount(lines: seq<string>, i: nat)
    requires i < |DnaGutter(lines)|
    ensures AllDigits(DnaGutter(lines)[i].0)
    ensures DigitsValue(DnaGutter(lines)[i].0) == i + 1
    ensures i + 1 < 1000 ==> |DnaGutter(lines)[i].0| == 3
  {
    var g := DnaGutter(lines);
    var s := TerminalPanel.LineNumber(i + 1);
    assert g[i] == (s, lines[i]);
    LineNumberValue(i + 1);
  }

  lemma LineNumberValue(n: nat)
    ensures var s := TerminalPanel.LineNumber(n);
      AllDigits(s) && DigitsValue(s) == n
  {
    PadZerosValue(NatToString(n), 3);
    NatToStringRoundTrip(n);
  }

  // ---------------------------------------------------------- the upgrade

  const UpgradeStartLog := "SOVEREIGN_BILLING: INITIATING_STRIPE_SESSION..."
  const UpgradeDoneLog := "SOVEREIGN_BILLING: SUBSCRIPTION_UPGRADED_SUCCESSFULLY_SIMULATED"

  /** `handleUpgradeClick`: the billing call upgrades the stored record, then
      the handler upgrades it a second time itself; the record is handed to
      SET_USER only when someone is signed in. Returns that payload and the
      log messages. */
  method HandleUpgradeClick(accounts: ApiService.MockAccountStore, signedIn: bool, origin: string)
    returns (setUser: Option<ApiService.StoredUser>, logs: seq<string>)
    modifies accounts
    ensures accounts.stored == Some(ApiService.Upgraded(Some(ApiService.Upgraded(old(accounts.stored)))))
    ensures setUser == if signedIn then accounts.stored else None
    ensures logs == [UpgradeStartLog, UpgradeDoneLog]
  {
    logs := [UpgradeStartLog];
    var url := accounts.CreateStripeSession(origin);
    var mockUser := if accounts.stored.Some? then accounts.stored.value else ApiService.StoredUser(None, None, None, None, ApiService.Missing);
    mockUser := mockUser.(isSubscribed := Some(true));
    mockUser := mockUser.(tier := Some(PREMIUM));
    mockUser := mockUser.(credits := ApiService.AddCredits(mockUser.credits, 1000));
    accounts.stored := Some(mockUser);
    setUser := if signedIn then Some(mockUser) else None;
    logs := logs + [UpgradeDoneLog];
  }

  /** One click credits the account twice: a signed-in user with n credits
      ends with n + 2000, and an empty slot ends with 1000 (NaN, then null
      counted as zero). */
  lemma UpgradeClickCredits(u: ApiService.StoredUser, n: int)
    requires u.credits == ApiService.Number(n)
    ensures ApiService.Upgraded(Some(ApiService.Upgraded(Some(u)))).credits == ApiService.Number(n + 2000)
    ensures ApiService.Upgraded(Some(ApiService.Upgraded(None))).credits == ApiService.Number(1000)
  {
  }
}
