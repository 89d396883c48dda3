/**
 * The workflow canvas as the service sees it after decoding: a list of nodes,
 * each with the inputs the service reads or rewrites and a list of nested
 * `Blocks` (the bodies of loop and batch nodes).
 */
module Canvas {
  import opened Wrappers

  /**
   * Node types the service distinguishes. Which concrete types use databases,
   * knowledge bases or plugins is node metadata; each such group is one kind here.
   */
  datatype NodeKind =
    | Entry
    | Exit
    | SubWorkflow
    | LLM
    | DatabaseOp
    | KnowledgeOp
    | PluginCall
    | CreateConversation
    | ConversationDelete
    | ConversationUpdate
    | ConversationList
    | OtherKind(tag: string)

  /** A workflow offered as a tool to an LLM node (`FCParam.WorkflowFCParam.WorkflowList`). */
  datatype WorkflowFC = WorkflowFC(workflowID: string, workflowVersion: string)

  /** A plugin tool offered to an LLM node (`FCParam.PluginFCParam.PluginList`). */
  datatype PluginFC = PluginFC(pluginID: string, apiID: string, pluginVersion: string, isDraft: bool)

  datatype VarType = VarString | VarOtherType(tag: string)

  datatype Variable = Variable(name: string, vtype: VarType, defaultValue: string)

  /** An element of an entry node's `Data.Outputs`: either it parses as a variable or it does not. */
  datatype OutputVar = Parsed(v: Variable) | Unparsable

  /** An element of an exit node's `Data.Inputs.InputParameters`. */
  datatype Param = Param(name: string, source: string)

  /**
   * The node inputs the core reads. An optional list stands for a Go reference
   * that may be nil: `subWorkflow` and `llm` say whether `Inputs.SubWorkflow`
   * and `Inputs.LLM` are set; `databases`, `knowledge` and `apiParams` are the
   * ID lists of database, knowledge and plugin nodes, present when the
   * corresponding parameter block is set.
   */
  datatype Inputs = Inputs(
    workflowID: string,
    workflowVersion: string,
    subWorkflow: bool,
    llm: bool,
    fcWorkflows: Option<seq<WorkflowFC>>,
    fcPlugins: Option<seq<PluginFC>>,
    fcKnowledge: Option<seq<string>>,
    databases: Option<seq<string>>,
    knowledge: Option<seq<string>>,
    apiParams: Option<map<string, string>>)

  datatype Node = Node(
    kind: NodeKind,
    inputs: Inputs,
    outputs: seq<OutputVar>,
    inputParameters: seq<Param>,
    blocks: seq<Node>)

  predicate IsConversationNode(n: Node)
  {
    n.kind in {CreateConversation, ConversationDelete, ConversationUpdate, ConversationList}
  }

  /** Number of nodes at every depth; the measure for recursion over blocks. */
  function Size(nodes: seq<Node>): nat
  {
    if nodes == [] then 0 else 1 + Size(nodes[0].blocks) + Size(nodes[1..])
  }

  lemma {:induction false} SizeAppend(a: seq<Node>, b: seq<Node>)
    ensures Size(a + b) == Size(a) + Size(b)
    decreases |a|
  {
    if a != [] {
      assert (a + b)[1..] == a[1..] + b;
      SizeAppend(a[1..], b);
    } else {
      assert a + b == b;
    }
  }

  lemma {:induction false} SizeOfBlocks(nodes: seq<Node>, i: nat)
    requires i < |nodes|
    ensures Size(nodes[i].blocks) < Size(nodes)
    ensures Size(nodes[i + 1..]) < Size(nodes)
    decreases i
  {
    if i > 0 {
      SizeOfBlocks(nodes[1..], i - 1);
      assert nodes[1..][i - 1] == nodes[i];
      assert nodes[1..][i..] == nodes[i + 1..];
    }
  }

  lemma SizeOfElement(nodes: seq<Node>, i: nat)
    requires i < |nodes|
    ensures Size([nodes[i]]) <= Size(nodes)
  {
    assert nodes == nodes[..i] + [nodes[i]] + nodes[i + 1..];
    SizeAppend(nodes[..i] + [nodes[i]], nodes[i + 1..]);
    SizeAppend(nodes[..i], [nodes[i]]);
  }

  /** Every node at every depth, in pre-order: a node, then its blocks, then its later siblings. */
  function Flatten(nodes: seq<Node>): seq<Node>
  {
    if nodes == [] then [] else [nodes[0]] + Flatten(nodes[0].blocks) + Flatten(nodes[1..])
  }

  lemma {:induction false} FlattenAppend(a: seq<Node>, b: seq<Node>)
    ensures Flatten(a + b) == Flatten(a) + Flatten(b)
    decreases |a|
  {
    if a != [] {
      assert (a + b)[0] == a[0];
      assert (a + b)[1..] == a[1..] + b;
      FlattenAppend(a[1..], b);
    } else {
      assert a + b == b;
    }
  }

  /** The nodes of a list, and the nodes nested in any of them, all occur in its flattening. */
  lemma {:induction false} FlattenContains(nodes: seq<Node>, i: nat)
    requires i < |nodes|
    ensures nodes[i] in Flatten(nodes)
    ensures forall m :: m in Flatten(nodes[i].blocks) ==> m in Flatten(nodes)
    decreases i
  {
    if i > 0 {
      FlattenContains(nodes[1..], i - 1);
      assert nodes[1..][i - 1] == nodes[i];
    }
  }

  /** A node nested in a flattened node is itself in the flattening. */
  lemma {:induction false} FlattenClosed(nodes: seq<Node>, n: Node)
    requires n in Flatten(nodes)
    ensures forall m :: m in Flatten(n.blocks) ==> m in Flatten(nodes)
    decreases Size(nodes)
  {
    var rest := Flatten(nodes[0].blocks) + Flatten(nodes[1..]);
    assert Flatten(nodes) == [nodes[0]] + rest;
    if n == nodes[0] {
      FlattenContains(nodes, 0);
    } else if n in Flatten(nodes[0].blocks) {
      SizeOfBlocks(nodes, 0);
      FlattenClosed(nodes[0].blocks, n);
      FlattenContains(nodes, 0);
    } else {
      SizeOfBlocks(nodes, 0);
      FlattenClosed(nodes[1..], n);
    }
  }

  /** `workflowIdentity`: the `(WorkflowID, WorkflowVersion)` of one sub-workflow node. */
  datatype Identity = Identity(id: string, version: string)

  /** Identities of the sub-workflow nodes of a flat list, in list order. */
  function SubWorkflowsOf(flat: seq<Node>): seq<Identity>
  {
    if flat == [] then []
    else
      (if flat[0].kind == SubWorkflow then [Identity(flat[0].inputs.workflowID, flat[0].inputs.workflowVersion)] else [])
      + SubWorkflowsOf(flat[1..])
  }

  lemma {:induction false} SubWorkflowsOfAppend(a: seq<Node>, b: seq<Node>)
    ensures SubWorkflowsOf(a + b) == SubWorkflowsOf(a) + SubWorkflowsOf(b)
    decreases |a|
  {
    if a != [] {
      assert (a + b)[0] == a[0];
      assert (a + b)[1..] == a[1..] + b;
      SubWorkflowsOfAppend(a[1..], b);
    } else {
      assert a + b == b;
    }
  }

  /**
   * `getAllSubWorkflowIdentities`: walks every node and records a sub-workflow
   * node's identity before descending into its blocks; every node with blocks
   * is descended into, whatever its type.
   */
  function GetAllSubWorkflowIdentities(nodes: seq<Node>): seq<Identity>
  {
    if nodes == [] then []
    else
      var n := nodes[0];
      (if n.kind == SubWorkflow then [Identity(n.inputs.workflowID, n.inputs.workflowVersion)] else [])
      + GetAllSubWorkflowIdentities(n.blocks)
      + GetAllSubWorkflowIdentities(nodes[1..])
  }

  /** The collected identities are exactly the sub-workflow nodes at any depth, in pre-order. */
  lemma {:induction false} IdentitiesArePreorderSubWorkflows(nodes: seq<Node>)
    ensures GetAllSubWorkflowIdentities(nodes) == SubWorkflowsOf(Flatten(nodes))
  {
    if nodes != [] {
      var n := nodes[0];
      IdentitiesArePreorderSubWorkflows(n.blocks);
      IdentitiesArePreorderSubWorkflows(nodes[1..]);
      SubWorkflowsOfAppend([n] + Flatten(n.blocks), Flatten(nodes[1..]));
      SubWorkflowsOfAppend([n], Flatten(n.blocks));
      assert SubWorkflowsOf([n]) == (if n.kind == SubWorkflow then [Identity(n.inputs.workflowID, n.inputs.workflowVersion)] else []);
    }
  }

  /** Each collected identity belongs to a sub-workflow node somewhere in the canvas, and vice versa. */
  lemma {:induction false} SubWorkflowsOfMembers(flat: seq<Node>)
    ensures forall n :: n in flat && n.kind == SubWorkflow ==>
              Identity(n.inputs.workflowID, n.inputs.workflowVersion) in SubWorkflowsOf(flat)
    ensures forall x :: x in SubWorkflowsOf(flat) ==>
              exists n :: n in flat && n.kind == SubWorkflow && x == Identity(n.inputs.workflowID, n.inputs.workflowVersion)
  {
    if flat != [] {
      SubWorkflowsOfMembers(flat[1..]);
    }
  }
}
