/** Model of the pipeline descriptor: eight agents, eight tasks paired with
    them, a sequential process tag, and the architecture diagram that the
    solution architect's extra action renders. Everything here is constant
    data; running the pipeline belongs to the orchestration framework and is
    not modelled. */
module Crew {

  // ---------------------------------------------------------------------
  // Descriptor types
  // ---------------------------------------------------------------------

  /** Tools an agent or task may be given. The web-search tool is external,
      so it is an opaque identifier. */
  datatype ToolRef = WebSearch

  /** Zero-argument callables attached to an agent, as a closed set of
      variants; `Invoke` gives the text each one produces. */
  datatype Action = RenderArchitecturalDiagram

  datatype AgentSpec = AgentSpec(
    role: string,
    goal: string,
    backstory: string,
    verbose: bool,
    memory: bool,
    tools: seq<ToolRef>,
    additionalActions: seq<Action>)

  datatype TaskSpec = TaskSpec(
    description: string,
    expectedOutput: string,
    tools: seq<ToolRef>,
    agent: AgentSpec)

  datatype Process = Sequential

  datatype CrewSpec = CrewSpec(
    agents: seq<AgentSpec>,
    tasks: seq<TaskSpec>,
    process: Process)

  // ---------------------------------------------------------------------
  // The architecture diagram
  // ---------------------------------------------------------------------

  /** The Mermaid text returned by the diagram generator, line for line,
      including the blank first line and the indentation. */
  function ArchitecturalDiagram(): string
  {
    "\n" +
    "    graph TD;\n" +
    "        A[User] --> B[Embedded Device]\n" +
    "        B --> C[Firmware]\n" +
    "        B --> D[Microcontroller]\n" +
    "        D --> E[Sensor Module]\n" +
    "        D --> F[Communication Module]\n" +
    "        B --> G[Power Supply]\n" +
    "        B --> H[Actuator]\n" +
    "        B --> I[Cloud Server]\n" +
    "        I --> J[Database]\n" +
    "        I --> K[Mobile/PC Application]\n" +
    "    "
  }

  /** A directed edge between two node identifiers. */
  datatype Edge = Edge(src: char, dst: char)

  /** The nodes of the graph the diagram text draws: each identifier with
      the label the text gives it where the node first appears. */
  function DiagramLabels(): map<char, string>
  {
    map[
      'A' := "User",
      'B' := "Embedded Device",
      'C' := "Firmware",
      'D' := "Microcontroller",
      'E' := "Sensor Module",
      'F' := "Communication Module",
      'G' := "Power Supply",
      'H' := "Actuator",
      'I' := "Cloud Server",
      'J' := "Database",
      'K' := "Mobile/PC Application"]
  }

  /** The edges of that graph, one per arrow, in the order the text writes them. */
  function DiagramEdges(): seq<Edge>
  {
    [Edge('A', 'B'),
     Edge('B', 'C'),
     Edge('B', 'D'),
     Edge('D', 'E'),
     Edge('D', 'F'),
     Edge('B', 'G'),
     Edge('B', 'H'),
     Edge('B', 'I'),
     Edge('I', 'J'),
     Edge('I', 'K')]
  }

  const DiagramRoot: char := 'A'

  /** Every edge joins two labelled nodes. */
  ghost predicate EdgesLabelled(labels: map<char, string>, edges: seq<Edge>)
  {
    forall e :: e in edges ==> e.src in labels && e.dst in labels
  }

  /** The identifiers of the nodes with an edge into `id`. */
  function Parents(edges: seq<Edge>, id: char): (ps: seq<char>)
    ensures |ps| <= |edges|
    ensures forall p :: p in ps <==> Edge(p, id) in edges
  {
    if edges == [] then []
    else (if edges[0].dst == id then [edges[0].src] else []) + Parents(edges[1..], id)
  }

  /** The nodes reached from `root` by following the first n edges in the
      order given: an edge adds its target when its source is already reached. */
  function ReachedInOrder(edges: seq<Edge>, root: char, n: nat): (r: set<char>)
    requires n <= |edges|
    ensures root in r
  {
    if n == 0 then {root}
    else
      var r := ReachedInOrder(edges, root, n - 1);
      var e := edges[n - 1];
      if e.src in r then r + {e.dst} else r
  }

  /** The target of each edge, in order. */
  function Targets(edges: seq<Edge>): seq<char>
  {
    seq(|edges|, i requires 0 <= i < |edges| => edges[i].dst)
  }

  /** No element occurs twice. */
  ghost predicate Distinct(s: seq<char>)
  {
    forall i, j :: 0 <= i < j < |s| ==> s[i] != s[j]
  }

  /** A tree rooted at `root`: the root has no parent, every other node has
      exactly one, every edge joins labelled nodes, and every node is reached
      from the root. */
  ghost predicate IsTree(labels: map<char, string>, edges: seq<Edge>, root: char)
  {
    && root in labels
    && EdgesLabelled(labels, edges)
    && Parents(edges, root) == []
    && (forall id :: id in labels && id != root ==> |Parents(edges, id)| == 1)
    && ReachedInOrder(edges, root, |edges|) == labels.Keys
  }

  // ---------------------------------------------------------------------
  // Extra actions
  // ---------------------------------------------------------------------

  const DiagramHeading: string := "Architectural Diagram:\n"

  /** What an extra action returns when the framework calls it. */
  function Invoke(a: Action): (out: string)
    ensures |out| == |DiagramHeading| + |ArchitecturalDiagram()|
    ensures out[..|DiagramHeading|] == DiagramHeading
    ensures out[|DiagramHeading|..] == ArchitecturalDiagram()
  {
    match a
    case RenderArchitecturalDiagram => DiagramHeading + ArchitecturalDiagram()
  }

  // ---------------------------------------------------------------------
  // The eight agents
  // ---------------------------------------------------------------------

  const IdeationAgent := AgentSpec(
    "Product Ideation Specialist",
    "Identify a viable industry and use case for the product.",
    "An experienced professional in product development who excels at "
      + "identifying market needs and brainstorming innovative solutions.",
    true, true, [WebSearch], [])

  const MarketResearchAgent := AgentSpec(
    "Market Analyst",
    "Conduct market research to understand the problem and pricing.",
    "A data-driven analyst with a knack for uncovering market trends and consumer behavior.",
    true, true, [WebSearch], [])

  const TechnicalSpecAgent := AgentSpec(
    "Requirements Engineer",
    "Develop a detailed requirements specification document.",
    "An engineer with a strong background in defining technical requirements and documentation.",
    true, true, [], [])

  const SolutionArchitectAgent := AgentSpec(
    "Solution Architect",
    "Design the architecture of the embedded system.",
    "An expert in embedded systems with extensive experience in hardware and software design.",
    true, true, [], [RenderArchitecturalDiagram])

  const ComponentSelectionAgent := AgentSpec(
    "Component Engineer",
    "Select appropriate components and finalize the design.",
    "A meticulous engineer who excels at choosing the best components for a project.",
    true, true, [], [])

  const TestPlanAgent := AgentSpec(
    "Test Engineer",
    "Develop a comprehensive test plan.",
    "An engineer specializing in validation and verification of hardware and software designs.",
    true, true, [], [])

  const ImplementationAgent := AgentSpec(
    "Software Developer",
    "Implement the design through detailed coding and programming.",
    "A skilled software developer with expertise in embedded systems programming.",
    true, true, [], [])

  const DocumentationAgent := AgentSpec(
    "Technical Writer",
    "Compile final summary documentation for the client.",
    "An expert in creating clear and comprehensive technical documentation.",
    true, true, [], [])

  // ---------------------------------------------------------------------
  // The eight tasks
  // ---------------------------------------------------------------------

  const IdeationTask := TaskSpec(
    "Prompt the user for the industry or specific use case. "
      + "Validate the use case with the user until a suitable one is found.",
    "A validated industry and use case.",
    [WebSearch], IdeationAgent)

  const MarketResearchTask := TaskSpec(
    "Perform online research on the problem the product will solve. "
      + "Determine the average price customers would pay for the solution.",
    "A detailed market research report with problem analysis and pricing.",
    [WebSearch], MarketResearchAgent)

  const TechnicalSpecTask := TaskSpec(
    "Create a document outlining the product purpose, block diagram flow, main features, and environmental conditions.",
    "A detailed technical specification document.",
    [], TechnicalSpecAgent)

  const SolutionArchitectTask := TaskSpec(
    "Develop strategies to build the solution. "
      + "Design the firmware, mobile/PC/cloud application architecture. "
      + "Create the architectural diagram using Mermaid.",
    "An architectural diagram and detailed design strategies.",
    [], SolutionArchitectAgent)

  const ComponentSelectionTask := TaskSpec(
    "Decide on the components to be used. "
      + "Finalize the design.",
    "A list of selected components and finalized design.",
    [], ComponentSelectionAgent)

  const TestPlanTask := TaskSpec(
    "Create a test plan covering hardware design validation, software design validation, and production-level testing.",
    "A comprehensive test plan document.",
    [], TestPlanAgent)

  const ImplementationTask := TaskSpec(
    "Code and program the embedded system according to the design specifications in detail.",
    "Implemented code and program for the embedded system in detail.",
    [], ImplementationAgent)

  const DocumentationTask := TaskSpec(
    "Create user guides, technical details, and final summary documents. "
      + "Integrate necessary diagrams (e.g., architectural diagrams) using Mermaid.",
    "Complete documentation with user guides and technical details.",
    [], DocumentationAgent)

  // ---------------------------------------------------------------------
  // The crew
  // ---------------------------------------------------------------------

  const EmbeddedSystemsCrew := CrewSpec(
    [IdeationAgent, MarketResearchAgent, TechnicalSpecAgent, SolutionArchitectAgent,
     ComponentSelectionAgent, TestPlanAgent, ImplementationAgent, DocumentationAgent],
    [IdeationTask, MarketResearchTask, TechnicalSpecTask, SolutionArchitectTask,
     ComponentSelectionTask, TestPlanTask, ImplementationTask, DocumentationTask],
    Sequential)

  /** The roles of a crew's agents, in order. */
  function Roles(agents: seq<AgentSpec>): (rs: seq<string>)
    ensures |rs| == |agents|
    ensures forall i :: 0 <= i < |agents| ==> rs[i] == agents[i].role
  {
    if agents == [] then [] else [agents[0].role] + Roles(agents[1..])
  }

  /** A well-formed descriptor: at least one task, no agent
      without a role or goal, and every task assigned to an agent of the crew. */
  ghost predicate WellFormed(c: CrewSpec)
  {
    && |c.tasks| > 0
    && (forall a :: a in c.agents ==> a.role != "" && a.goal != "")
    && (forall t :: t in c.tasks ==> t.agent in c.agents)
  }

  /** The stricter shape this crew has: task i is assigned agent i. */
  ghost predicate PairedByPosition(c: CrewSpec)
  {
    && |c.tasks| == |c.agents|
    && forall i :: 0 <= i < |c.tasks| ==> c.tasks[i].agent == c.agents[i]
  }
}
