/** Structural facts about the fixed pipeline descriptor and its diagram. */
module CrewProperties {
  import opened Crew

  /** Pairing by position puts every task's agent in the crew. */
  lemma PairedTasksHaveCrewAgents(c: CrewSpec)
    requires PairedByPosition(c)
    ensures forall t :: t in c.tasks ==> t.agent in c.agents
  {
    forall t | t in c.tasks
      ensures t.agent in c.agents
    {
      var i :| 0 <= i < |c.tasks| && c.tasks[i] == t;
      assert c.agents[i] == t.agent;
    }
  }

  /** Eight agents and eight tasks, run sequentially, with the stages in the
      order ideation, market research, technical spec, architecture,
      component selection, test plan, implementation, documentation. */
  lemma CrewShape()
    ensures |EmbeddedSystemsCrew.agents| == 8 && |EmbeddedSystemsCrew.tasks| == 8
    ensures EmbeddedSystemsCrew.process == Sequential
    ensures forall i, j :: 0 <= i < j < 8 ==> EmbeddedSystemsCrew.agents[i] != EmbeddedSystemsCrew.agents[j]
    ensures Roles(EmbeddedSystemsCrew.agents) == [
      "Product Ideation Specialist", "Market Analyst", "Requirements Engineer",
      "Solution Architect", "Component Engineer", "Test Engineer",
      "Software Developer", "Technical Writer"]
  {
  }

  /** Task i is assigned agent i. */
  lemma CrewPairing()
    ensures PairedByPosition(EmbeddedSystemsCrew)
  {
  }

  /** Every agent has a role and a goal. */
  lemma CrewAgentsNamed()
    ensures forall i :: 0 <= i < |EmbeddedSystemsCrew.agents| ==>
      EmbeddedSystemsCrew.agents[i].role != "" && EmbeddedSystemsCrew.agents[i].goal != ""
  {
  }

  /** The descriptor is well formed: it has tasks, every agent has a role
      and a goal, and every task's agent is in the crew. */
  lemma CrewWellFormed()
    ensures WellFormed(EmbeddedSystemsCrew)
  {
    CrewShape();
    CrewAgentsNamed();
    CrewPairing();
    PairedTasksHaveCrewAgents(EmbeddedSystemsCrew);
    forall a | a in EmbeddedSystemsCrew.agents
      ensures a.role != "" && a.goal != ""
    {
      var i :| 0 <= i < |EmbeddedSystemsCrew.agents| && EmbeddedSystemsCrew.agents[i] == a;
    }
  }

  /** Only the first two stages (ideation, market research) carry the web
      search tool, on both the agent and the task; all others have none. */
  lemma CrewToolPlacement()
    ensures forall i :: 0 <= i < 8 ==>
      EmbeddedSystemsCrew.agents[i].tools == (if i < 2 then [WebSearch] else [])
    ensures forall i :: 0 <= i < 8 ==>
      EmbeddedSystemsCrew.tasks[i].tools == (if i < 2 then [WebSearch] else [])
    ensures forall t :: t in EmbeddedSystemsCrew.tasks ==> t.tools == t.agent.tools
  {
    CrewAgentTools();
    CrewTaskTools();
    CrewPairing();
  }

  lemma CrewAgentTools()
    ensures forall i :: 0 <= i < 8 ==>
      EmbeddedSystemsCrew.agents[i].tools == (if i < 2 then [WebSearch] else [])
  {
  }

  lemma CrewTaskTools()
    ensures forall i :: 0 <= i < 8 ==>
      EmbeddedSystemsCrew.tasks[i].tools == (if i < 2 then [WebSearch] else [])
  {
  }

  /** Every agent has memory enabled. */
  lemma CrewMemoryEnabled()
    ensures forall a :: a in EmbeddedSystemsCrew.agents ==> a.memory
  {
  }

  /** Only the solution architect (stage 3) has an extra action, and that
      action returns the heading followed by the diagram text. */
  lemma CrewAdditionalActions()
    ensures forall i :: 0 <= i < 8 && i != 3 ==> EmbeddedSystemsCrew.agents[i].additionalActions == []
    ensures EmbeddedSystemsCrew.agents[3].role == "Solution Architect"
    ensures EmbeddedSystemsCrew.agents[3].additionalActions == [RenderArchitecturalDiagram]
    ensures Invoke(EmbeddedSystemsCrew.agents[3].additionalActions[0])
      == "Architectural Diagram:\n" + ArchitecturalDiagram()
  {
  }

  /** The diagram's node identifiers are A to K, and the root A is the user. */
  lemma DiagramNodeIds()
    ensures DiagramLabels().Keys == {'A', 'B', 'C', 'D', 'E', 'F', 'G', 'H', 'I', 'J', 'K'}
    ensures DiagramLabels()[DiagramRoot] == "User"
  {
  }

  /** The diagram has 11 nodes and 10 edges. */
  lemma DiagramSize()
    ensures |DiagramLabels()| == 11
    ensures |DiagramEdges()| == 10
  {
    assert |{'A', 'B', 'C', 'D', 'E', 'F', 'G', 'H', 'I', 'J', 'K'}| == 11;
    DiagramNodeIds();
  }

  /** When no node is the target of two edges, each node has one parent if
      it is a target and none otherwise. */
  lemma {:induction false} DistinctTargetsOneParent(edges: seq<Edge>, id: char)
    requires Distinct(Targets(edges))
    ensures |Parents(edges, id)| == if id in Targets(edges) then 1 else 0
  {
    if edges != [] {
      var rest := edges[1..];
      assert Targets(edges) == [edges[0].dst] + Targets(rest);
      assert Distinct(Targets(rest)) by {
        forall i, j | 0 <= i < j < |rest|
          ensures Targets(rest)[i] != Targets(rest)[j]
        {
          assert Targets(edges)[i + 1] != Targets(edges)[j + 1];
        }
      }
      DistinctTargetsOneParent(rest, id);
      if edges[0].dst == id {
        assert id !in Targets(rest) by {
          forall j | 0 <= j < |rest|
            ensures Targets(rest)[j] != id
          {
            assert Targets(edges)[0] != Targets(edges)[j + 1];
          }
        }
      }
    }
  }

  /** The diagram's edge targets: every node but A, each once. */
  lemma DiagramTargets()
    ensures Targets(DiagramEdges()) == ['B', 'C', 'D', 'E', 'F', 'G', 'H', 'I', 'J', 'K']
    ensures Distinct(Targets(DiagramEdges()))
  {
  }

  /** Following the edges in the order written reaches every node from A. */
  lemma DiagramReachesAll()
    ensures ReachedInOrder(DiagramEdges(), DiagramRoot, |DiagramEdges()|)
      == {'A', 'B', 'C', 'D', 'E', 'F', 'G', 'H', 'I', 'J', 'K'}
  {
    assert |DiagramEdges()| == 10;
  }

  /** Every edge of the diagram joins two labelled nodes. */
  lemma DiagramEdgesLabelled()
    ensures EdgesLabelled(DiagramLabels(), DiagramEdges())
  {
  }

  /** If the edge targets are distinct and are exactly the labelled nodes
      other than the root, the root has no parent and every other labelled
      node has exactly one. */
  lemma TargetsGiveParents(labels: map<char, string>, edges: seq<Edge>, root: char)
    requires Distinct(Targets(edges))
    requires forall id :: id in Targets(edges) <==> id in labels && id != root
    ensures Parents(edges, root) == []
    ensures forall id :: id in labels && id != root ==> |Parents(edges, id)| == 1
  {
    DistinctTargetsOneParent(edges, root);
    forall id | id in labels && id != root
      ensures |Parents(edges, id)| == 1
    {
      DistinctTargetsOneParent(edges, id);
    }
  }

  /** The diagram's edge targets are exactly its nodes other than A. */
  lemma DiagramTargetSet()
    ensures forall id :: id in Targets(DiagramEdges()) <==> id in DiagramLabels() && id != DiagramRoot
  {
    DiagramNodeIds();
    DiagramTargets();
  }

  /** The diagram's graph is a tree rooted at A (User). */
  lemma DiagramIsTree()
    ensures IsTree(DiagramLabels(), DiagramEdges(), DiagramRoot)
  {
    DiagramNodeIds();
    DiagramReachesAll();
    DiagramEdgesLabelled();
    DiagramTargets();
    DiagramTargetSet();
    TargetsGiveParents(DiagramLabels(), DiagramEdges(), DiagramRoot);
  }
}
