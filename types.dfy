/** The records shared by the whole application: agents, users, chat
    messages, uploaded files, neural nodes and floating windows. Dates are
    abstract millisecond stamps. */
module Types {
  import opened Wrappers

  /** The closed set of agent names a node can run on. */
  datatype AIModel =
    | STRUCTURAL_AGENT | MEP_AGENT | FINISHES_AGENT | SITE_WORK_AGENT
    | LAND_PROCUREMENT | ENVIRONMENTAL_AGENT | ORACLE_ESTIMATOR | VISUAL_RENDERER
    | TEMPORAL_VEO | ACOUSTIC_LIVE | MASTER_FRANKLIN | PROJECT_MANAGER_AGENT
    | DEVELOPMENT_PLANNER | RISK_ANALYZER | GEOTECH_ENGINEER

  /** Every agent, once each, in declaration order. */
  const AllModels: seq<AIModel> := [
    STRUCTURAL_AGENT, MEP_AGENT, FINISHES_AGENT, SITE_WORK_AGENT,
    LAND_PROCUREMENT, ENVIRONMENTAL_AGENT, ORACLE_ESTIMATOR, VISUAL_RENDERER,
    TEMPORAL_VEO, ACOUSTIC_LIVE, MASTER_FRANKLIN, PROJECT_MANAGER_AGENT,
    DEVELOPMENT_PLANNER, RISK_ANALYZER, GEOTECH_ENGINEER
  ]

  /** The agent's name as the string the source uses for it. */
  function ModelName(m: AIModel): string {
    match m
    case STRUCTURAL_AGENT => "STRUCTURAL_AGENT"
    case MEP_AGENT => "MEP_AGENT"
    case FINISHES_AGENT => "FINISHES_AGENT"
    case SITE_WORK_AGENT => "SITE_WORK_AGENT"
    case LAND_PROCUREMENT => "LAND_PROCUREMENT"
    case ENVIRONMENTAL_AGENT => "ENVIRONMENTAL_AGENT"
    case ORACLE_ESTIMATOR => "ORACLE_ESTIMATOR"
    case VISUAL_RENDERER => "VISUAL_RENDERER"
    case TEMPORAL_VEO => "TEMPORAL_VEO"
    case ACOUSTIC_LIVE => "ACOUSTIC_LIVE"
    case MASTER_FRANKLIN => "MASTER_FRANKLIN"
    case PROJECT_MANAGER_AGENT => "PROJECT_MANAGER_AGENT"
    case DEVELOPMENT_PLANNER => "DEVELOPMENT_PLANNER"
    case RISK_ANALYZER => "RISK_ANALYZER"
    case GEOTECH_ENGINEER => "GEOTECH_ENGINEER"
  }

  /** The agent union has exactly fifteen members, listed once each, and
      their names tell them apart. */
  lemma AgentSetIsClosed()
    ensures |AllModels| == 15
    ensures forall i, j :: 0 <= i < j < |AllModels| ==> AllModels[i] != AllModels[j]
    ensures forall m: AIModel :: m in AllModels
    ensures forall m1: AIModel, m2: AIModel :: ModelName(m1) == ModelName(m2) ==> m1 == m2
  {
    forall m: AIModel ensures m in AllModels {
      match m
      case STRUCTURAL_AGENT => assert AllModels[0] == m;
      case MEP_AGENT => assert AllModels[1] == m;
      case FINISHES_AGENT => assert AllModels[2] == m;
      case SITE_WORK_AGENT => assert AllModels[3] == m;
      case LAND_PROCUREMENT => assert AllModels[4] == m;
      case ENVIRONMENTAL_AGENT => assert AllModels[5] == m;
      case ORACLE_ESTIMATOR => assert AllModels[6] == m;
      case VISUAL_RENDERER => assert AllModels[7] == m;
      case TEMPORAL_VEO => assert AllModels[8] == m;
      case ACOUSTIC_LIVE => assert AllModels[9] == m;
      case MASTER_FRANKLIN => assert AllModels[10] == m;
      case PROJECT_MANAGER_AGENT => assert AllModels[11] == m;
      case DEVELOPMENT_PLANNER => assert AllModels[12] == m;
      case RISK_ANALYZER => assert AllModels[13] == m;
      case GEOTECH_ENGINEER => assert AllModels[14] == m;
    }
    forall m1: AIModel, m2: AIModel | ModelName(m1) == ModelName(m2) ensures m1 == m2 {
      NameFixesModel(m1, m2);
    }
  }

  lemma NameFixesModel(m1: AIModel, m2: AIModel)
    requires ModelName(m1) == ModelName(m2)
    ensures m1 == m2
  {
    var n1, n2 := ModelName(m1), ModelName(m2);
    assert |n1| == |n2| && n1[0] == n2[0] && n1[1] == n2[1] && n1[|n1| - 1] == n2[|n2| - 1];
  }

  datatype Tier = BASIC | PREMIUM

  datatype User = User(id: string, email: string, isSubscribed: bool, tier: Tier, credits: int)

  datatype Role = UserRole | ModelRole

  datatype MediaType = Video | Image

  /** A chat message; the optional fields are the source's `?:` members. */
  datatype ChatMessage = ChatMessage(
    role: Role,
    content: string,
    timestamp: nat,
    mediaUrl: Option<string>,
    mediaType: Option<MediaType>,
    groundingUrls: Option<seq<string>>,
    isThinking: Option<bool>,
    isSynaptic: Option<bool>)

  /** An uploaded file; `fileType` is the field the source calls `type`. */
  datatype FileMetadata = FileMetadata(
    id: string,
    name: string,
    size: int,
    fileType: string,
    path: string,
    content: Option<string>,
    data: Option<string>,
    mimeType: Option<string>,
    isOpen: Option<bool>,
    isTrained: Option<bool>)

  datatype NodeStatus = IDLE | TRAINING | ACTIVE

  datatype NeuralNode = NeuralNode(
    id: string,
    name: string,
    parentId: Option<string>,
    dna: string,
    model: AIModel,
    files: seq<FileMetadata>,
    history: seq<ChatMessage>,
    status: NodeStatus)

  /** One floating panel: visibility, stacking order and geometry in pixels. */
  datatype WindowConfig = WindowConfig(
    id: string,
    title: string,
    isOpen: bool,
    isMaximized: bool,
    zIndex: int,
    x: int,
    y: int,
    width: int,
    height: int,
    icon: string)
}
