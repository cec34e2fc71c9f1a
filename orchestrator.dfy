/** The orchestrator agent's session state, as its unit tests pin it down:
    the workflow graph it records nodes, edges and attribute merges into, the
    accumulated results and travel context, the query history and the
    current conversation id. The workflow run itself, the summary and the
    question answer come from collaborators whose code is not part of this
    model; they enter as parameters. */
module Orchestrator {
  import opened Wrappers
  import opened Json
  import opened Events

  /** The overall state of a workflow graph. */
  datatype RunState = Ready | Running | Completed | InputRequired | Error

  datatype WorkflowNode = WorkflowNode(id: string, task: string, nodeKey: Option<string>, nodeLabel: Option<string>)

  datatype Edge = Edge(parent: string, child: string)

  datatype AttributeUpdate = AttributeUpdate(nodeId: string, attributes: map<string, string>)

  /** The attributes of node `id` after all `updates`, merged in order, a later
      value overwriting an earlier one under the same key. */
  function MergedAttributes(updates: seq<AttributeUpdate>, id: string): (m: map<string, string>)
    ensures forall k :: k in m ==> exists i :: 0 <= i < |updates| && updates[i].nodeId == id && k in updates[i].attributes
    ensures forall i :: 0 <= i < |updates| && updates[i].nodeId == id ==> updates[i].attributes.Keys <= m.Keys
  {
    if updates == [] then map[]
    else
      var init := updates[..|updates| - 1];
      var u := updates[|updates| - 1];
      var before := MergedAttributes(init, id);
      assert forall i :: 0 <= i < |init| ==> init[i] == updates[i];
      var m := if u.nodeId == id then before + u.attributes else before;
      assert forall k :: k in m ==> exists i :: 0 <= i < |updates| && updates[i].nodeId == id && k in updates[i].attributes by {
        forall k | k in m
          ensures exists i :: 0 <= i < |updates| && updates[i].nodeId == id && k in updates[i].attributes
        {
          if k in before {
            var i :| 0 <= i < |init| && init[i].nodeId == id && k in init[i].attributes;
            assert updates[i] == init[i];
          } else {
            assert updates[|updates| - 1] == u;
          }
        }
      }
      m
  }

  /** The attributes of the latest update win; other nodes' attributes stay as they were. */
  lemma MergeOverwrites(updates: seq<AttributeUpdate>, id: string, attrs: map<string, string>, other: string)
    requires other != id
    ensures var after := updates + [AttributeUpdate(id, attrs)];
      && (forall k :: k in attrs ==> MergedAttributes(after, id)[k] == attrs[k])
      && (forall k :: k in MergedAttributes(updates, id) && k !in attrs ==>
            MergedAttributes(after, id)[k] == MergedAttributes(updates, id)[k])
      && MergedAttributes(after, other) == MergedAttributes(updates, other)
  {
    var after := updates + [AttributeUpdate(id, attrs)];
    assert after[..|after| - 1] == updates;
  }

  /** A recorder for the workflow graph: the nodes, edges and attribute
      updates it has been given, and the run state it was left in. */
  class WorkflowGraph {
    var nodes: seq<WorkflowNode>
    var edges: seq<Edge>
    var updates: seq<AttributeUpdate>
    var state: RunState

    function NodeIds(): set<string>
      reads this
    {
      set n | n in nodes :: n.id
    }

    /** Node ids are distinct and every edge leads to a recorded node. */
    ghost predicate Valid()
      reads this
    {
      && (forall i, j :: 0 <= i < j < |nodes| ==> nodes[i].id != nodes[j].id)
      && (forall e :: e in edges ==> e.child in NodeIds())
    }

    constructor ()
      ensures Valid()
      ensures nodes == [] && edges == [] && updates == [] && state == Ready
    {
      nodes, edges, updates, state := [], [], [], Ready;
    }

    /** Merged attributes of one node. */
    function Attributes(id: string): map<string, string>
      reads this
    {
      MergedAttributes(updates, id)
    }

    method AddNode(node: WorkflowNode)
      requires Valid() && node.id !in NodeIds()
      modifies this
      ensures Valid()
      ensures nodes == old(nodes) + [node] && NodeIds() == old(NodeIds()) + {node.id}
      ensures edges == old(edges) && updates == old(updates) && state == old(state)
    {
      nodes := nodes + [node];
    }

    method AddEdge(parent: string, child: string)
      requires Valid() && child in NodeIds()
      modifies this
      ensures Valid()
      ensures edges == old(edges) + [Edge(parent, child)]
      ensures nodes == old(nodes) && updates == old(updates) && state == old(state)
    {
      edges := edges + [Edge(parent, child)];
    }

    method SetNodeAttributes(id: string, attrs: map<string, string>)
      requires Valid()
      modifies this
      ensures Valid()
      ensures updates == old(updates) + [AttributeUpdate(id, attrs)]
      ensures Attributes(id) == old(Attributes(id)) + attrs
      ensures forall other :: other != id ==> Attributes(other) == old(Attributes(other))
      ensures nodes == old(nodes) && edges == old(edges) && state == old(state)
    {
      updates := updates + [AttributeUpdate(id, attrs)];
      assert updates[..|updates| - 1] == old(updates);
    }

    /** Where a run of the workflow leaves the graph. */
    method Finish(s: RunState)
      modifies this
      ensures state == s
      ensures nodes == old(nodes) && edges == old(edges) && updates == old(updates)
    {
      state := s;
    }
  }

  /** The attributes `set_node_attributes` forwards: exactly the ones supplied. */
  function SuppliedAttributes(taskId: Option<string>, contextId: Option<string>, query: Option<string>): (m: map<string, string>)
    ensures m.Keys <= {"task_id", "context_id", "query"}
    ensures "task_id" in m <==> taskId.Some?
    ensures "context_id" in m <==> contextId.Some?
    ensures "query" in m <==> query.Some?
    ensures taskId.Some? ==> m["task_id"] == taskId.value
    ensures contextId.Some? ==> m["context_id"] == contextId.value
    ensures query.Some? ==> m["query"] == query.value
  {
    var m1 := if taskId.Some? then map["task_id" := taskId.value] else map[];
    var m2 := if contextId.Some? then m1["context_id" := contextId.value] else m1;
    if query.Some? then m2["query" := query.value] else m2
  }

  /** The one event a completed workflow ends with. */
  function SummaryEvent(summary: string): (r: Response)
    ensures r.isTaskComplete && !r.requireUserInput && r.content == JString(summary)
  {
    Response(Some(Text), true, false, JString(summary))
  }

  /** What `stream` yields for a non-empty query: the workflow's own events,
      then one summary event if the graph ended up completed. */
  function StreamEvents(run: seq<Response>, state: RunState, summary: string): (r: seq<Response>)
    ensures |r| == |run| + (if state == Completed then 1 else 0)
    ensures r[..|run|] == run
    ensures state == Completed ==> r[|run|] == SummaryEvent(summary)
    ensures run == [] && state == Completed ==> r == [SummaryEvent(summary)]
    ensures run == [] && state != Completed ==> r == []
  {
    if state == Completed then run + [SummaryEvent(summary)] else run
  }

  datatype StreamError = EmptyQuery(message: string)

  const CannotAnswer := "{\"can_answer\": \"no\", \"answer\": \"Cannot answer based on provided context\"}"

  class OrchestratorAgent {
    const agentName: string
    const description: string
    const contentTypes: seq<string>

    var graph: WorkflowGraph?
    var results: seq<Json>
    var travelContext: map<string, Json>
    var queryHistory: seq<string>
    var contextId: Option<string>

    ghost predicate Valid()
      reads this, graph
    {
      graph != null ==> graph.Valid()
    }

    constructor ()
      ensures Valid()
      ensures agentName == "Orchestrator Agent"
      ensures description == "Facilitate inter agent communication"
      ensures contentTypes == ["text", "text/plain"]
      ensures graph == null && results == [] && travelContext == map[] && queryHistory == [] && contextId.None?
    {
      agentName := "Orchestrator Agent";
      description := "Facilitate inter agent communication";
      contentTypes := ["text", "text/plain"];
      graph, results, travelContext, queryHistory, contextId := null, [], map[], [], None;
    }

    /** `clear_state`: drops the graph and empties the session collections,
        whatever they held; the conversation id stays. */
    method ClearState()
      modifies this
      ensures Valid()
      ensures graph == null && results == [] && travelContext == map[] && queryHistory == []
      ensures contextId == old(contextId)
    {
      graph, results, travelContext, queryHistory := null, [], map[], [];
    }

    /** `set_node_attributes`: forwards exactly the supplied attributes for `nodeId`. */
    method SetNodeAttributes(nodeId: string, taskId: Option<string>, ctxId: Option<string>, query: Option<string>)
      requires Valid() && graph != null
      modifies graph
      ensures Valid()
      ensures graph.updates == old(graph.updates) + [AttributeUpdate(nodeId, SuppliedAttributes(taskId, ctxId, query))]
      ensures graph.nodes == old(graph.nodes) && graph.edges == old(graph.edges) && graph.state == old(graph.state)
    {
      graph.SetNodeAttributes(nodeId, SuppliedAttributes(taskId, ctxId, query));
    }

    /** `add_graph_node`: a new node whose task is the query, added once, an
        edge from the parent when one is given, and the call's attributes on
        the new node. `newId` is the identifier the node is created with. */
    method AddGraphNode(taskId: Option<string>, ctxId: Option<string>, query: string,
                        parentId: Option<string>, nodeKey: Option<string>, nodeLabel: Option<string>,
                        newId: string) returns (node: WorkflowNode)
      requires Valid() && graph != null && newId !in graph.NodeIds()
      modifies graph
      ensures Valid()
      ensures node == WorkflowNode(newId, query, nodeKey, nodeLabel)
      ensures graph.nodes == old(graph.nodes) + [node]
      ensures graph.edges == old(graph.edges) + (if parentId.Some? then [Edge(parentId.value, newId)] else [])
      ensures graph.updates == old(graph.updates) + [AttributeUpdate(newId, SuppliedAttributes(taskId, ctxId, Some(query)))]
      ensures graph.state == old(graph.state)
    {
      node := WorkflowNode(newId, query, nodeKey, nodeLabel);
      graph.AddNode(node);
      if parentId.Some? {
        graph.AddEdge(parentId.value, node.id);
      }
      SetNodeAttributes(node.id, taskId, ctxId, Some(query));
    }

    /** `stream`, with the workflow run abstracted: `run` are the events it
        yields and `finalState` the state it leaves the graph in; `summary`
        is what the summary collaborator returns. */
    method Stream(query: string, ctxId: string, taskId: string,
                  run: seq<Response>, finalState: RunState, summary: string)
      returns (out: Result<seq<Response>, StreamError>)
      requires Valid()
      modifies this, graph
      ensures Valid()
      ensures query == "" ==> out == Failure(EmptyQuery("Query cannot be empty"))
      ensures query == "" ==> graph == old(graph) && results == old(results) && travelContext == old(travelContext)
                              && queryHistory == old(queryHistory) && contextId == old(contextId)
      ensures query == "" && old(graph) != null ==> unchanged(old(graph))
      ensures query != "" ==> out == Success(StreamEvents(run, finalState, summary))
      ensures query != "" ==> contextId == Some(ctxId) && graph != null && graph.state == finalState
      ensures query != "" && old(contextId) != Some(ctxId) ==>
                fresh(graph) && results == [] && travelContext == map[] && queryHistory == [query]
      ensures query != "" && old(contextId) == Some(ctxId) ==>
                results == old(results) && travelContext == old(travelContext)
                && queryHistory == old(queryHistory) + [query]
                && (old(graph) != null ==> graph == old(graph)) && (old(graph) == null ==> fresh(graph))
    {
      if query == "" {
        return Failure(EmptyQuery("Query cannot be empty"));
      }
      if contextId != Some(ctxId) {
        ClearState();
        contextId := Some(ctxId);
      }
      queryHistory := queryHistory + [query];
      if graph == null {
        graph := new WorkflowGraph();
      }
      graph.Finish(finalState);
      out := Success(StreamEvents(run, finalState, summary));
    }

    /** `answer_user_question`: the collaborator's reply as it came, or the
        fixed "cannot answer" text when the collaborator failed (`reply` None). */
    method AnswerUserQuestion(question: string, reply: Option<string>) returns (answer: string)
      ensures reply.Some? ==> answer == reply.value
      ensures reply.None? ==> answer == CannotAnswer
    {
      match reply
      case Some(text) => answer := text;
      case None => answer := CannotAnswer;
    }
  }
}
