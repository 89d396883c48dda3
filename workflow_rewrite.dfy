/**
 * `replaceRelatedWorkflowOrExternalResourceInWorkflowNodes`: rewrites the IDs a
 * canvas refers to through old-to-new maps, when a workflow and the resources
 * it uses are copied into another space. Sub-workflow and LLM tool references
 * go through the workflow map; database, knowledge and plugin IDs through the
 * external-resource maps.
 */
module WorkflowRewrite {
  import opened Wrappers
  import opened Decimal
  import opened Canvas

  /** `entity.IDVersionPair`: where a copied workflow now lives. */
  datatype IDVersionPair = IDVersionPair(id: int, version: string)

  /** A plugin's new identity; the version is optional (it may be nil in the source). */
  datatype PluginEntity = PluginEntity(pluginID: int, pluginVersion: Option<string>)

  /** `vo.ExternalResourceRelated`. */
  datatype ExternalResourceRelated = ExternalResourceRelated(
    pluginMap: map<int, PluginEntity>,
    pluginToolMap: map<int, int>,
    knowledgeMap: map<int, int>,
    databaseMap: map<int, int>)

  /** A number that `strconv.ParseInt` rejects, or a plugin parameter that is missing. */
  datatype RewriteError = BadNumber(text: string) | MissingParam(name: string)

  predicate UsesDatabase(k: NodeKind) { k == DatabaseOp }
  predicate UsesKnowledge(k: NodeKind) { k == KnowledgeOp }
  predicate UsesPlugin(k: NodeKind) { k == PluginCall }

  /** The new text of one ID: the mapped number when the map has it, the old text otherwise. */
  function MappedID(text: string, v: int, m: map<int, int>): string
  {
    if v in m then FormatInt(m[v]) else text
  }

  /** Rewrites each ID of a list through `m`, failing on the first ID that is not a number. */
  function MapIDs(ids: seq<string>, m: map<int, int>): (r: Result<seq<string>, RewriteError>)
    ensures r.Ok? <==> forall j :: 0 <= j < |ids| ==> ParseInt64(ids[j]).Some?
    ensures r.Ok? ==> |r.value| == |ids|
    ensures r.Ok? ==> forall j :: 0 <= j < |ids| ==> r.value[j] == MappedID(ids[j], ParseInt64(ids[j]).value, m)
  {
    if ids == [] then Ok([])
    else match ParseInt64(ids[0])
      case None => Err(BadNumber(ids[0]))
      case Some(v) =>
        match MapIDs(ids[1..], m)
        case Err(e) => Err(e)
        case Ok(rest) => Ok([MappedID(ids[0], v, m)] + rest)
  }

  /** One function-calling workflow entry: mapped ID and version when the original ID is in the map. */
  function MapWorkflowFC(w: WorkflowFC, v: int, wfMap: map<int, IDVersionPair>): WorkflowFC
  {
    if v in wfMap then WorkflowFC(FormatInt(wfMap[v].id), wfMap[v].version) else w
  }

  /** Rewrites each entry of an LLM node's workflow list, failing on the first ID that is not a number. */
  function MapWorkflowList(list: seq<WorkflowFC>, wfMap: map<int, IDVersionPair>): (r: Result<seq<WorkflowFC>, RewriteError>)
    ensures r.Ok? ==> |r.value| == |list|
  {
    if list == [] then Ok([])
    else match ParseInt64(list[0].workflowID)
      case None => Err(BadNumber(list[0].workflowID))
      case Some(v) =>
        match MapWorkflowList(list[1..], wfMap)
        case Err(e) => Err(e)
        case Ok(rest) => Ok([MapWorkflowFC(list[0], v, wfMap)] + rest)
  }

  /**
   * The list rewrites exactly when every ID parses, and then each entry is
   * rewritten in place: a mapped one takes the new ID and version.
   */
  lemma {:induction false} MapWorkflowListMeaning(list: seq<WorkflowFC>, wfMap: map<int, IDVersionPair>)
    ensures MapWorkflowList(list, wfMap).Ok? <==> forall j :: 0 <= j < |list| ==> ParseInt64(list[j].workflowID).Some?
    ensures MapWorkflowList(list, wfMap).Ok? ==> forall j :: 0 <= j < |list| ==>
              MapWorkflowList(list, wfMap).value[j] == MapWorkflowFC(list[j], ParseInt64(list[j].workflowID).value, wfMap)
    decreases |list|
  {
    if list != [] {
      var tail := list[1..];
      MapWorkflowListMeaning(tail, wfMap);
      assert forall j :: 1 <= j < |list| ==> tail[j - 1] == list[j];
      if ParseInt64(list[0].workflowID).Some? && MapWorkflowList(tail, wfMap).Ok? {
        var r := MapWorkflowList(list, wfMap).value;
        assert forall j :: 1 <= j < |list| ==> r[j] == MapWorkflowList(tail, wfMap).value[j - 1];
      }
    }
  }

  /**
   * One function-calling plugin entry. Its plugin ID and tool ID must both
   * parse; when the plugin is mapped, the tool ID is mapped if the tool map has
   * it, the plugin ID always, and a given version replaces the old one and
   * clears the draft flag.
   */
  function MapPluginFC(p: PluginFC, rel: ExternalResourceRelated): Result<PluginFC, RewriteError>
  {
    match ParseInt64(p.pluginID)
    case None => Err(BadNumber(p.pluginID))
    case Some(pid) =>
      match ParseInt64(p.apiID)
      case None => Err(BadNumber(p.apiID))
      case Some(tid) =>
        if pid !in rel.pluginMap then Ok(p)
        else
          var ref := rel.pluginMap[pid];
          var api := if tid in rel.pluginToolMap then FormatInt(rel.pluginToolMap[tid]) else p.apiID;
          var q := p.(apiID := api, pluginID := FormatInt(ref.pluginID));
          Ok(if ref.pluginVersion.Some? then q.(pluginVersion := ref.pluginVersion.value, isDraft := false) else q)
  }

  function MapPluginList(list: seq<PluginFC>, rel: ExternalResourceRelated): (r: Result<seq<PluginFC>, RewriteError>)
    ensures r.Ok? ==> |r.value| == |list|
    ensures r.Ok? ==> forall j :: 0 <= j < |list| ==> MapPluginFC(list[j], rel) == Ok(r.value[j])
  {
    if list == [] then Ok([])
    else match MapPluginFC(list[0], rel)
      case Err(e) => Err(e)
      case Ok(p) =>
        match MapPluginList(list[1..], rel)
        case Err(e) => Err(e)
        case Ok(rest) => Ok([p] + rest)
  }

  const PluginIDParam := "pluginID"
  const PluginVersionParam := "pluginVersion"
  const APIIDParam := "apiID"

  /**
   * A plugin node's API parameters, by name: the plugin ID, plugin version and
   * API ID parameters must all be present and both IDs must parse.
   */
  function MapPluginParams(params: map<string, string>, rel: ExternalResourceRelated): (r: Result<map<string, string>, RewriteError>)
    ensures r.Ok? ==> r.value.Keys == params.Keys
    ensures r.Ok? ==> forall name :: name in params && name !in {PluginIDParam, PluginVersionParam, APIIDParam} ==> r.value[name] == params[name]
  {
    if PluginIDParam !in params then Err(MissingParam(PluginIDParam))
    else match ParseInt64(params[PluginIDParam])
      case None => Err(BadNumber(params[PluginIDParam]))
      case Some(pid) =>
        if PluginVersionParam !in params then Err(MissingParam(PluginVersionParam))
        else
          var p1 :=
            if pid !in rel.pluginMap then params
            else
              var ref := rel.pluginMap[pid];
              var p0 := params[PluginIDParam := FormatInt(ref.pluginID)];
              if ref.pluginVersion.Some? then p0[PluginVersionParam := ref.pluginVersion.value] else p0;
          if APIIDParam !in params then Err(MissingParam(APIIDParam))
          else match ParseInt64(params[APIIDParam])
            case None => Err(BadNumber(params[APIIDParam]))
            case Some(aid) =>
              Ok(if aid in rel.pluginToolMap then p1[APIIDParam := FormatInt(rel.pluginToolMap[aid])] else p1)
  }

  /** An LLM node's three function-calling lists, each rewritten only when its map is non-empty. */
  function RewriteLLMInputs(inp: Inputs, wfMap: map<int, IDVersionPair>, rel: ExternalResourceRelated): Result<Inputs, RewriteError>
  {
    var wfs :=
      if |wfMap| > 0 && inp.fcWorkflows.Some? then
        match MapWorkflowList(inp.fcWorkflows.value, wfMap)
        case Err(e) => Err(e)
        case Ok(l) => Ok(Some(l))
      else Ok(inp.fcWorkflows);
    match wfs
    case Err(e) => Err(e)
    case Ok(wfs) =>
      var pls :=
        if |rel.pluginMap| > 0 && inp.fcPlugins.Some? then
          match MapPluginList(inp.fcPlugins.value, rel)
          case Err(e) => Err(e)
          case Ok(l) => Ok(Some(l))
        else Ok(inp.fcPlugins);
      match pls
      case Err(e) => Err(e)
      case Ok(pls) =>
        var kns :=
          if |rel.knowledgeMap| > 0 && inp.fcKnowledge.Some? then
            match MapIDs(inp.fcKnowledge.value, rel.knowledgeMap)
            case Err(e) => Err(e)
            case Ok(l) => Ok(Some(l))
          else Ok(inp.fcKnowledge);
        match kns
        case Err(e) => Err(e)
        case Ok(kns) => Ok(inp.(fcWorkflows := wfs, fcPlugins := pls, fcKnowledge := kns))
  }

  /** The rewrite of a node's own inputs, leaving its blocks alone. */
  function RewriteOwn(n: Node, wfMap: map<int, IDVersionPair>, rel: ExternalResourceRelated): Result<Node, RewriteError>
  {
    var inp := n.inputs;
    if UsesDatabase(n.kind) then
      if |rel.databaseMap| == 0 || inp.databases.None? then Ok(n)
      else match MapIDs(inp.databases.value, rel.databaseMap)
        case Err(e) => Err(e)
        case Ok(ids) => Ok(n.(inputs := inp.(databases := Some(ids))))
    else if UsesKnowledge(n.kind) then
      if |rel.knowledgeMap| == 0 || inp.knowledge.None? then Ok(n)
      else match MapIDs(inp.knowledge.value, rel.knowledgeMap)
        case Err(e) => Err(e)
        case Ok(ids) => Ok(n.(inputs := inp.(knowledge := Some(ids))))
    else if UsesPlugin(n.kind) then
      if |rel.pluginMap| == 0 || inp.apiParams.None? then Ok(n)
      else match MapPluginParams(inp.apiParams.value, rel)
        case Err(e) => Err(e)
        case Ok(ps) => Ok(n.(inputs := inp.(apiParams := Some(ps))))
    else if n.kind == SubWorkflow then
      if |wfMap| == 0 || !inp.subWorkflow then Ok(n)
      else match ParseInt64(inp.workflowID)
        case None => Err(BadNumber(inp.workflowID))
        case Some(v) =>
          if v in wfMap then Ok(n.(inputs := inp.(workflowID := FormatInt(wfMap[v].id), workflowVersion := wfMap[v].version)))
          else Ok(n)
    else if n.kind == LLM then
      if !inp.llm then Ok(n)
      else match RewriteLLMInputs(inp, wfMap, rel)
        case Err(e) => Err(e)
        case Ok(inp') => Ok(n.(inputs := inp'))
    else Ok(n)
  }

  /**
   * Whether the loop reaches the block recursion for this node: database,
   * knowledge and plugin nodes always `continue` before it, a sub-workflow node
   * does when there is no workflow map or no sub-workflow parameter, and an LLM
   * node does when it has no LLM parameter.
   */
  predicate RewritesBlocks(n: Node, wfMap: map<int, IDVersionPair>)
  {
    && !UsesDatabase(n.kind) && !UsesKnowledge(n.kind) && !UsesPlugin(n.kind)
    && !(n.kind == SubWorkflow && (|wfMap| == 0 || !n.inputs.subWorkflow))
    && !(n.kind == LLM && !n.inputs.llm)
  }

  /** The whole rewrite of a node list: node by node, stopping at the first error. */
  function RewriteNodes(nodes: seq<Node>, wfMap: map<int, IDVersionPair>, rel: ExternalResourceRelated): (r: Result<seq<Node>, RewriteError>)
    ensures r.Ok? ==> |r.value| == |nodes|
  {
    if nodes == [] then Ok([])
    else
      var n := nodes[0];
      match RewriteOwn(n, wfMap, rel)
      case Err(e) => Err(e)
      case Ok(n') =>
        var head :=
          if RewritesBlocks(n, wfMap) && |n.blocks| > 0 then
            match RewriteNodes(n.blocks, wfMap, rel)
            case Err(e) => Err(e)
            case Ok(bs) => Ok(n'.(blocks := bs))
          else Ok(n');
        match head
        case Err(e) => Err(e)
        case Ok(h) =>
          match RewriteNodes(nodes[1..], wfMap, rel)
          case Err(e) => Err(e)
          case Ok(t) => Ok([h] + t)
  }

  /** The rewrite of one node together with whatever of its blocks the loop reaches. */
  function RewriteNode(n: Node, wfMap: map<int, IDVersionPair>, rel: ExternalResourceRelated): Result<Node, RewriteError>
  {
    match RewriteNodes([n], wfMap, rel)
    case Err(e) => Err(e)
    case Ok(s) => Ok(s[0])
  }

  /** RewriteOwn never touches the blocks. */
  lemma RewriteOwnKeepsBlocks(n: Node, wfMap: map<int, IDVersionPair>, rel: ExternalResourceRelated)
    ensures RewriteOwn(n, wfMap, rel).Ok? ==>
              RewriteOwn(n, wfMap, rel).value.blocks == n.blocks && RewriteOwn(n, wfMap, rel).value.kind == n.kind
  {
  }

  /**
   * The i-th node of a successful rewrite is that node's own rewrite, with its
   * blocks rewritten when the loop reaches the recursion and left exactly as
   * they were otherwise.
   */
  lemma {:induction false} RewriteNodesAt(nodes: seq<Node>, wfMap: map<int, IDVersionPair>, rel: ExternalResourceRelated, i: nat)
    requires i < |nodes|
    requires RewriteNodes(nodes, wfMap, rel).Ok?
    ensures RewriteOwn(nodes[i], wfMap, rel).Ok?
    ensures var out := RewriteNodes(nodes, wfMap, rel).value[i];
            var own := RewriteOwn(nodes[i], wfMap, rel).value;
            if RewritesBlocks(nodes[i], wfMap) && |nodes[i].blocks| > 0 then
              RewriteNodes(nodes[i].blocks, wfMap, rel).Ok? && out == own.(blocks := RewriteNodes(nodes[i].blocks, wfMap, rel).value)
            else out == own
    decreases i
  {
    if i > 0 {
      RewriteNodesAt(nodes[1..], wfMap, rel, i - 1);
      assert nodes[1..][i - 1] == nodes[i];
    }
  }

  /**
   * Under a database, knowledge or plugin node nothing nested is rewritten.
   */
  lemma BlocksUnderResourceNodesUnchanged(nodes: seq<Node>, wfMap: map<int, IDVersionPair>, rel: ExternalResourceRelated, i: nat)
    requires i < |nodes|
    requires RewriteNodes(nodes, wfMap, rel).Ok?
    requires UsesDatabase(nodes[i].kind) || UsesKnowledge(nodes[i].kind) || UsesPlugin(nodes[i].kind)
    ensures RewriteNodes(nodes, wfMap, rel).value[i].blocks == nodes[i].blocks
  {
    RewriteNodesAt(nodes, wfMap, rel, i);
    RewriteOwnKeepsBlocks(nodes[i], wfMap, rel);
  }

  /**
   * A sub-workflow node with a sub-workflow parameter, under a non-empty map:
   * its ID must parse; a mapped ID takes the new ID and version, an unmapped
   * one keeps both.
   */
  lemma SubWorkflowRewrite(n: Node, wfMap: map<int, IDVersionPair>, rel: ExternalResourceRelated)
    requires n.kind == SubWorkflow && n.inputs.subWorkflow && |wfMap| > 0
    ensures RewriteOwn(n, wfMap, rel).Ok? <==> ParseInt64(n.inputs.workflowID).Some?
    ensures RewriteOwn(n, wfMap, rel).Ok? ==>
              var v := ParseInt64(n.inputs.workflowID).value;
              var out := RewriteOwn(n, wfMap, rel).value.inputs;
              if v in wfMap then out.workflowID == FormatInt(wfMap[v].id) && out.workflowVersion == wfMap[v].version
                && out == n.inputs.(workflowID := out.workflowID, workflowVersion := out.workflowVersion)
              else out == n.inputs
  {
  }

  /**
   * After the rewrite a mapped sub-workflow reference parses to the new ID, so
   * every node that referred to the same original now names the same copy.
   */
  lemma RewrittenReferenceParses(n: Node, wfMap: map<int, IDVersionPair>, rel: ExternalResourceRelated)
    requires n.kind == SubWorkflow && n.inputs.subWorkflow
    requires ParseInt64(n.inputs.workflowID).Some? && ParseInt64(n.inputs.workflowID).value in wfMap
    requires InInt64(wfMap[ParseInt64(n.inputs.workflowID).value].id)
    ensures RewriteOwn(n, wfMap, rel).Ok?
    ensures var pair := wfMap[ParseInt64(n.inputs.workflowID).value];
            var out := RewriteOwn(n, wfMap, rel).value.inputs;
            ParseInt64(out.workflowID) == Some(pair.id) && out.workflowVersion == pair.version
  {
    ParseFormat(wfMap[ParseInt64(n.inputs.workflowID).value].id);
  }

  predicate NoRelations(wfMap: map<int, IDVersionPair>, rel: ExternalResourceRelated)
  {
    |wfMap| == 0 && |rel.pluginMap| == 0 && |rel.knowledgeMap| == 0 && |rel.databaseMap| == 0
  }

  /** With every map empty nothing is rewritten and nothing can fail. */
  lemma {:induction false} EmptyMapsChangeNothing(nodes: seq<Node>, wfMap: map<int, IDVersionPair>, rel: ExternalResourceRelated)
    requires NoRelations(wfMap, rel)
    ensures RewriteNodes(nodes, wfMap, rel) == Ok(nodes)
  {
    if nodes != [] {
      var n := nodes[0];
      assert RewriteOwn(n, wfMap, rel) == Ok(n);
      EmptyMapsChangeNothing(n.blocks, wfMap, rel);
      EmptyMapsChangeNothing(nodes[1..], wfMap, rel);
      assert n.(blocks := n.blocks) == n;
      assert [n] + nodes[1..] == nodes;
    }
  }

  /**
   * The top-level loop, updating the node list in place: node i is replaced by
   * its rewrite before node i + 1 is looked at.
   */
  method ReplaceRelated(nodes: array<Node>, wfMap: map<int, IDVersionPair>, rel: ExternalResourceRelated) returns (err: Option<RewriteError>)
    modifies nodes
    ensures err.None? ==> RewriteNodes(old(nodes[..]), wfMap, rel) == Ok(nodes[..])
    ensures err.Some? ==> RewriteNodes(old(nodes[..]), wfMap, rel) == Err(err.value)
  {
    ghost var orig := nodes[..];
    var i := 0;
    while i < nodes.Length
      invariant 0 <= i <= nodes.Length
      invariant forall k :: i <= k < nodes.Length ==> nodes[k] == orig[k]
      invariant RewriteNodes(orig[..i], wfMap, rel) == Ok(nodes[..i])
    {
      var step := RewriteNode(nodes[i], wfMap, rel);
      RewriteStep(orig, i, wfMap, rel);
      if step.Err? {
        return Some(step.error);
      }
      nodes[i] := step.value;
      assert nodes[..i + 1] == nodes[..i] + [step.value];
      i := i + 1;
    }
    assert orig[..i] == orig && nodes[..i] == nodes[..];
    return None;
  }

  /** Two rewrite outcomes joined: the first error wins, otherwise the lists are concatenated. */
  function AppendResults(x: Result<seq<Node>, RewriteError>, y: Result<seq<Node>, RewriteError>): Result<seq<Node>, RewriteError>
  {
    match x
    case Err(e) => Err(e)
    case Ok(a) =>
      match y
      case Err(e) => Err(e)
      case Ok(b) => Ok(a + b)
  }

  lemma AppendResultsAssoc(x: Result<seq<Node>, RewriteError>, y: Result<seq<Node>, RewriteError>, z: Result<seq<Node>, RewriteError>)
    ensures AppendResults(AppendResults(x, y), z) == AppendResults(x, AppendResults(y, z))
  {
    if x.Ok? && y.Ok? && z.Ok? {
      assert (x.value + y.value) + z.value == x.value + (y.value + z.value);
    }
  }

  /** One node's rewrite as a one-element list. */
  function AsSingleton(r: Result<Node, RewriteError>): Result<seq<Node>, RewriteError>
  {
    match r
    case Err(e) => Err(e)
    case Ok(h) => Ok([h])
  }

  /** A sequence rewrites by its first node (with what its blocks give) and then the rest. */
  lemma RewriteNodesCons(nodes: seq<Node>, wfMap: map<int, IDVersionPair>, rel: ExternalResourceRelated)
    requires nodes != []
    ensures RewriteNodes(nodes, wfMap, rel) ==
              AppendResults(AsSingleton(RewriteNode(nodes[0], wfMap, rel)), RewriteNodes(nodes[1..], wfMap, rel))
  {
    var n := nodes[0];
    assert [n][0] == n;
    assert RewriteNodes([n][1..], wfMap, rel) == Ok([]) by {
      assert [n][1..] == [];
    }
    match RewriteOwn(n, wfMap, rel)
    case Err(e) =>
    case Ok(n') =>
      if RewritesBlocks(n, wfMap) && |n.blocks| > 0 {
        match RewriteNodes(n.blocks, wfMap, rel)
        case Err(e) =>
        case Ok(bs) =>
          assert [n'.(blocks := bs)] + [] == [n'.(blocks := bs)];
      } else {
        assert [n'] + [] == [n'];
      }
  }

  /** A one-node list rewrites to the list of that node's rewrite. */
  lemma RewriteSingleton(n: Node, wfMap: map<int, IDVersionPair>, rel: ExternalResourceRelated)
    ensures RewriteNodes([n], wfMap, rel) == AsSingleton(RewriteNode(n, wfMap, rel))
  {
    if RewriteNodes([n], wfMap, rel).Ok? {
      var s := RewriteNodes([n], wfMap, rel).value;
      assert |s| == 1 && s == [s[0]];
    }
  }

  /**
   * One step of the top-level loop: on success the prefix up to i grows by
   * node i's rewrite; on failure the whole list fails with that error.
   */
  lemma RewriteStep(orig: seq<Node>, i: nat, wfMap: map<int, IDVersionPair>, rel: ExternalResourceRelated)
    requires i < |orig|
    ensures RewriteNode(orig[i], wfMap, rel).Ok? ==>
      RewriteNodes(orig[..i + 1], wfMap, rel) == AppendResults(RewriteNodes(orig[..i], wfMap, rel), Ok([RewriteNode(orig[i], wfMap, rel).value]))
    ensures (RewriteNode(orig[i], wfMap, rel).Err? && RewriteNodes(orig[..i], wfMap, rel).Ok?) ==>
      RewriteNodes(orig, wfMap, rel) == Err(RewriteNode(orig[i], wfMap, rel).error)
  {
    assert orig[..i + 1] == orig[..i] + [orig[i]];
    RewriteSplit(orig[..i], [orig[i]], wfMap, rel);
    RewriteSingleton(orig[i], wfMap, rel);
    assert orig[..i + 1] + orig[i + 1..] == orig;
    RewriteSplit(orig[..i + 1], orig[i + 1..], wfMap, rel);
  }

  /** A rewrite of a concatenation is the concatenation of the rewrites, the first error winning. */
  lemma {:induction false} RewriteSplit(a: seq<Node>, b: seq<Node>, wfMap: map<int, IDVersionPair>, rel: ExternalResourceRelated)
    ensures RewriteNodes(a + b, wfMap, rel) == AppendResults(RewriteNodes(a, wfMap, rel), RewriteNodes(b, wfMap, rel))
    decreases |a|
  {
    if a == [] {
      assert a + b == b;
      if RewriteNodes(b, wfMap, rel).Ok? {
        assert [] + RewriteNodes(b, wfMap, rel).value == RewriteNodes(b, wfMap, rel).value;
      }
    } else {
      assert (a + b)[0] == a[0];
      assert (a + b)[1..] == a[1..] + b;
      RewriteSplit(a[1..], b, wfMap, rel);
      RewriteNodesCons(a, wfMap, rel);
      RewriteNodesCons(a + b, wfMap, rel);
      AppendResultsAssoc(AsSingleton(RewriteNode(a[0], wfMap, rel)), RewriteNodes(a[1..], wfMap, rel), RewriteNodes(b, wfMap, rel));
    }
  }
}
