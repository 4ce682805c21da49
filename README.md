# MAIAS embedded-systems prototyping crew — Dafny model

The repository configures a pipeline of eight role-playing language-model
agents for product design: ideation, market research, technical spec,
solution architecture, component selection, test plan, implementation and
documentation. Each agent has one task, and the tasks run in sequence. The
repository also ships a sample tool that reverses its query. The agents,
tasks and crew are configuration objects handed to an external agent
framework. That framework does all the scheduling, prompting, memory and
tool calls. So this model covers two things:

- `custom_tool.dfy` (module `CustomTool`): the sample tool as a record
  holding its name, with the default name `"CustomSearchTool"`. Its
  operation `Use` is the slice `query[::-1]`. It is proved equal to an
  independent recursive definition of reversal, `Reversed`. From that,
  `Use` keeps the length, mirrors every index and undoes itself when
  applied twice.
- `crew.dfy` (module `Crew`): the pipeline descriptor as immutable data.
  Agents are `AgentSpec` values and tasks are `TaskSpec` values. The crew
  is a `CrewSpec` with a `Sequential` process tag. The web-search tool is
  the opaque identifier `WebSearch`. The architect's extra action is a
  closed variant, and `Invoke` gives the text that action returns. The
  diagram generator's Mermaid text is kept literally as
  `ArchitecturalDiagram`. The graph that text draws is kept as data:
  labels for the nodes A to K and a list of edges.
- `crew_properties.dfy` (module `CrewProperties`): the structural facts
  about that fixed table:
  - eight agents and eight tasks, in stage order;
  - task i is paired with agent i;
  - only the first two stages carry the search tool;
  - every agent has memory enabled;
  - only the architect has an extra action;
  - the diagram graph has 11 nodes and 10 edges and is a tree rooted at
    A (User).

The diagram counts follow the code: it declares 11 labelled nodes (A to K)
and 10 arrows.

## Model

| member | source | states |
|---|---|---|
| `CustomTool.CustomSearchTool.Use` | src/MAIAS_EmbeddedSystemsPrototyping/tools/custom_tool.py:7-15 | for every query, with no error case, the result is the reversal of the query, equal to the independent definition `Reversed` |
| `CustomTool.NewTool` | src/MAIAS_EmbeddedSystemsPrototyping/tools/custom_tool.py:3-5 | a new tool carries the given name, which defaults to `"CustomSearchTool"`; its operation maps the empty query to the empty result |
| `CustomTool.ReversedIndex` | src/MAIAS_EmbeddedSystemsPrototyping/tools/custom_tool.py:14 | reversal keeps the length, and position i of the result holds position \|s\|-1-i of the input |
| `CustomTool.ReversedMatchesSlice` | src/MAIAS_EmbeddedSystemsPrototyping/tools/custom_tool.py:14 | any sequence of the same length that mirrors the input index by index (the slice `[::-1]`) is the reversal |
| `CustomTool.ReversedAppend` | src/MAIAS_EmbeddedSystemsPrototyping/tools/custom_tool.py:14 | reversing a concatenation reverses both parts and swaps their order |
| `CustomTool.ReversedInvolution` | src/MAIAS_EmbeddedSystemsPrototyping/tools/custom_tool.py:14 | reversing twice gives back the input |
| `CustomTool.UseProperties` | src/MAIAS_EmbeddedSystemsPrototyping/tools/custom_tool.py:14 | using the tool keeps the query's length and mirrors every character, and using it on its own result restores the query |
| `CustomTool.UseExample` | src/MAIAS_EmbeddedSystemsPrototyping/tools/custom_tool.py:18-21 | a tool built with no name is named `"CustomSearchTool"` and turns `"Example query"` into `"yreuq elpmaxE"` |
| `Crew.Invoke` | src/MAIAS_EmbeddedSystemsPrototyping/crew.py:83-85 | the architect's extra action returns the heading `"Architectural Diagram:\n"` followed by exactly the diagram text |
| `CrewProperties.CrewShape` | src/MAIAS_EmbeddedSystemsPrototyping/crew.py:212-234 | the crew has 8 agents and 8 tasks, its process is sequential, the eight agents are pairwise different, and its agents' roles are, in order, ideation specialist, market analyst, requirements engineer, solution architect, component engineer, test engineer, software developer, technical writer |
| `CrewProperties.CrewPairing` | src/MAIAS_EmbeddedSystemsPrototyping/crew.py:133-234 | task i of the crew is assigned agent i of the crew, for each of the eight positions |
| `CrewProperties.PairedTasksHaveCrewAgents` | src/MAIAS_EmbeddedSystemsPrototyping/crew.py:212-234 | in any crew whose tasks are paired with its agents by position, every task's agent is a member of the crew |
| `CrewProperties.CrewAgentsNamed` | src/MAIAS_EmbeddedSystemsPrototyping/crew.py:40-130 | every agent has a non-empty role and goal |
| `CrewProperties.CrewWellFormed` | src/MAIAS_EmbeddedSystemsPrototyping/crew.py:212-234 | the crew is well formed: it has tasks, every agent has a role and a goal, and every task's agent belongs to the crew |
| `CrewProperties.CrewToolPlacement` | src/MAIAS_EmbeddedSystemsPrototyping/crew.py:40-209 | only the ideation and market-research agents and tasks carry the search tool; every other agent and task has no tool; each task has exactly its agent's tools |
| `CrewProperties.CrewMemoryEnabled` | src/MAIAS_EmbeddedSystemsPrototyping/crew.py:40-130 | every agent of the crew has memory enabled |
| `CrewProperties.CrewAdditionalActions` | src/MAIAS_EmbeddedSystemsPrototyping/crew.py:74-86 | only the solution architect (position 3) has an extra action; it has exactly one, and it returns the heading followed by the diagram text |
| `CrewProperties.DiagramNodeIds` | src/MAIAS_EmbeddedSystemsPrototyping/crew.py:26-36 | the diagram's node identifiers are exactly A to K, and A is labelled User |
| `CrewProperties.DiagramSize` | src/MAIAS_EmbeddedSystemsPrototyping/crew.py:26-36 | the diagram has 11 nodes and 10 edges |
| `CrewProperties.DiagramTargets` | src/MAIAS_EmbeddedSystemsPrototyping/crew.py:27-36 | the arrows point at B to K, in that order, and no node is pointed at twice |
| `CrewProperties.DiagramTargetSet` | src/MAIAS_EmbeddedSystemsPrototyping/crew.py:27-36 | a node is the target of an arrow exactly when it is a diagram node other than A |
| `CrewProperties.DiagramReachesAll` | src/MAIAS_EmbeddedSystemsPrototyping/crew.py:27-36 | following the arrows in the order written, starting from A, reaches all eleven nodes |
| `CrewProperties.DiagramEdgesLabelled` | src/MAIAS_EmbeddedSystemsPrototyping/crew.py:27-36 | every arrow joins two labelled nodes |
| `CrewProperties.DistinctTargetsOneParent` | src/MAIAS_EmbeddedSystemsPrototyping/crew.py:27-36 | in any edge list whose targets are distinct, a node has exactly one parent if it is a target and none otherwise |
| `CrewProperties.TargetsGiveParents` | src/MAIAS_EmbeddedSystemsPrototyping/crew.py:27-36 | in any graph whose distinct targets are exactly the non-root nodes, the root has no parent and every other node has exactly one |
| `CrewProperties.DiagramIsTree` | src/MAIAS_EmbeddedSystemsPrototyping/crew.py:24-37 | the diagram graph is a tree rooted at A: A has no parent, every other node has exactly one, every arrow joins labelled nodes, and every node is reached from A |

## Left out

- The agent framework's runtime: building agents, tasks and crews, the
  LLM calls, memory, prompting, tool dispatch and the sequential
  scheduling (crew.py:2, 40-234). Only the descriptor is modelled, as data.
  The `Sequential` tag is carried but not executed.
- Rejecting a malformed descriptor (no tasks, an agent with an empty role
  or goal, a task whose agent is not in the crew) is not modelled; the
  source has no such check. The model states the condition as `WellFormed`
  and proves the crew meets it.
- Object identity became value equality. In the source a task's `agent`
  is the same object as the one in the crew's agent list. In the model
  each task holds a copy of the `AgentSpec` value. `CrewShape` proves the
  eight agents pairwise different, so a task's agent matches exactly one
  crew position, as the reference does.
- The web-search tool (crew.py:3, 21) is an external network service. It
  is the opaque identifier `WebSearch`.
- The API-key getters and the environment-variable writes (crew.py:5-18).
  They only set process-wide credentials and a model name, and they carry
  no logic.
- The tool base class from the tools library (custom_tool.py:1, 5). The tool
  is a record holding its name, with `Use` as its operation. Because the
  record is immutable, using the tool cannot change its name.
- The `__main__` demo's print (custom_tool.py:17-21). Only its example
  survives, as `UseExample`.
- The `verbose` flags and the free-text role, goal, backstory, description
  and expected-output strings are carried verbatim. Only the roles, the
  non-emptiness of roles and goals, and the memory flags are stated.
- The link between the diagram text and its graph is by reading. No
  Mermaid parser or renderer is proved against the literal text, because
  character-level equality of the whole text costs the solver too much.
  `ArchitecturalDiagram` is the literal text. `DiagramLabels` and
  `DiagramEdges` are its nodes and arrows as the text writes them.
- `ArchitecturalDiagram` always returning the same text needs no lemma: it
  is a Dafny function with no parameters.
