/**
 * `canvasToRefs`: the reference edges a workflow's canvas declares, stored
 * with every published version. A sub-workflow node yields a sub-workflow
 * edge; an LLM node yields a tool edge for each workflow in its
 * function-calling list; any other node is searched through its blocks.
 */
module WorkflowRefs {
  import opened Wrappers
  import opened Decimal
  import opened Canvas

  datatype ReferType = SubWorkflowRef | ToolRef

  /** `entity.WorkflowReferenceKey`; the referring business type is always "workflow". */
  datatype ReferenceKey = ReferenceKey(referredID: int, referringID: int, referType: ReferType)

  /** `ErrSchemaConversionFail`, carrying the ID text that did not parse. */
  datatype RefError = SchemaConversionFail(badID: string)

  /** An ID string a node mentions, together with the kind of edge it would make. */
  datatype Mention = Mention(id: string, referType: ReferType)

  function ToolMentions(list: seq<WorkflowFC>): seq<Mention>
  {
    if list == [] then [] else [Mention(list[0].workflowID, ToolRef)] + ToolMentions(list[1..])
  }

  lemma {:induction false} ToolMentionsAppend(a: seq<WorkflowFC>, b: seq<WorkflowFC>)
    ensures ToolMentions(a + b) == ToolMentions(a) + ToolMentions(b)
    decreases |a|
  {
    if a != [] {
      assert (a + b)[0] == a[0];
      assert (a + b)[1..] == a[1..] + b;
      ToolMentionsAppend(a[1..], b);
    } else {
      assert a + b == b;
    }
  }

  /** What one node contributes itself, before any of its blocks. */
  function OwnMentions(n: Node): seq<Mention>
  {
    if n.kind == SubWorkflow then [Mention(n.inputs.workflowID, SubWorkflowRef)]
    else if n.kind == LLM && n.inputs.llm && n.inputs.fcWorkflows.Some? then ToolMentions(n.inputs.fcWorkflows.value)
    else []
  }

  /** The else-if chain: only nodes that are neither sub-workflow nor LLM nodes are searched inside. */
  predicate SearchesBlocks(n: Node)
  {
    n.kind != SubWorkflow && n.kind != LLM
  }

  /** Every ID the traversal parses, in the order it parses them. */
  function Mentions(nodes: seq<Node>): seq<Mention>
  {
    if nodes == [] then []
    else
      OwnMentions(nodes[0])
      + (if SearchesBlocks(nodes[0]) then Mentions(nodes[0].blocks) else [])
      + Mentions(nodes[1..])
  }

  lemma {:induction false} MentionsAppend(a: seq<Node>, b: seq<Node>)
    ensures Mentions(a + b) == Mentions(a) + Mentions(b)
    decreases |a|
  {
    if a != [] {
      assert (a + b)[0] == a[0];
      assert (a + b)[1..] == a[1..] + b;
      MentionsAppend(a[1..], b);
    } else {
      assert a + b == b;
    }
  }

  lemma MentionsSingle(n: Node)
    ensures Mentions([n]) == OwnMentions(n) + (if SearchesBlocks(n) then Mentions(n.blocks) else [])
  {
    assert [n][1..] == [];
  }

  function KeyOf(referringID: int, m: Mention): ReferenceKey
    requires ParseInt64(m.id).Some?
  {
    ReferenceKey(ParseInt64(m.id).value, referringID, m.referType)
  }

  /** Inserting the edges of `ms` one by one into `acc`, stopping at the first ID that does not parse. */
  function Accumulate(acc: set<ReferenceKey>, referringID: int, ms: seq<Mention>): Result<set<ReferenceKey>, RefError>
    decreases |ms|
  {
    if ms == [] then Ok(acc)
    else match ParseInt64(ms[0].id)
      case None => Err(SchemaConversionFail(ms[0].id))
      case Some(v) => Accumulate(acc + {ReferenceKey(v, referringID, ms[0].referType)}, referringID, ms[1..])
  }

  lemma {:induction false} AccumulateAppend(acc: set<ReferenceKey>, referringID: int, a: seq<Mention>, b: seq<Mention>)
    ensures Accumulate(acc, referringID, a + b) ==
              match Accumulate(acc, referringID, a)
              case Ok(s) => Accumulate(s, referringID, b)
              case Err(e) => Err(e)
    decreases |a|
  {
    if a != [] {
      assert (a + b)[0] == a[0];
      assert (a + b)[1..] == a[1..] + b;
      match ParseInt64(a[0].id)
      case None =>
      case Some(v) => AccumulateAppend(acc + {ReferenceKey(v, referringID, a[0].referType)}, referringID, a[1..], b);
    } else {
      assert a + b == b;
    }
  }

  /** One more mention: the accumulation either fails on it or gains its edge. */
  lemma AccumulateStep(acc: set<ReferenceKey>, referringID: int, ms: seq<Mention>, m: Mention)
    ensures Accumulate(acc, referringID, ms + [m]) ==
              match Accumulate(acc, referringID, ms)
              case Err(e) => Err(e)
              case Ok(s) =>
                match ParseInt64(m.id)
                case None => Err(SchemaConversionFail(m.id))
                case Some(v) => Ok(s + {ReferenceKey(v, referringID, m.referType)})
  {
    AccumulateAppend(acc, referringID, ms, [m]);
    match Accumulate(acc, referringID, ms)
    case Err(e) =>
    case Ok(s) =>
      assert [m][1..] == [];
  }

  predicate AllParse(ms: seq<Mention>)
  {
    forall j :: 0 <= j < |ms| ==> ParseInt64(ms[j].id).Some?
  }

  /** The edges of every parsable mention. */
  function ParsedKeys(referringID: int, ms: seq<Mention>): set<ReferenceKey>
  {
    set j | 0 <= j < |ms| && ParseInt64(ms[j].id).Some? :: KeyOf(referringID, ms[j])
  }

  lemma AllParseCons(ms: seq<Mention>)
    requires ms != []
    ensures AllParse(ms) <==> ParseInt64(ms[0].id).Some? && AllParse(ms[1..])
  {
    if ParseInt64(ms[0].id).Some? && AllParse(ms[1..]) {
      forall j | 0 <= j < |ms| ensures ParseInt64(ms[j].id).Some? {
        if j > 0 { assert ms[j] == ms[1..][j - 1]; }
      }
    }
    if AllParse(ms) {
      forall j | 0 <= j < |ms| - 1 ensures ParseInt64(ms[1..][j].id).Some? {
        assert ms[1..][j] == ms[j + 1];
      }
    }
  }

  lemma ParsedKeysCons(referringID: int, ms: seq<Mention>)
    requires ms != [] && ParseInt64(ms[0].id).Some?
    ensures ParsedKeys(referringID, ms) == {KeyOf(referringID, ms[0])} + ParsedKeys(referringID, ms[1..])
  {
    var whole := ParsedKeys(referringID, ms);
    var tail := ParsedKeys(referringID, ms[1..]);
    forall k | k in whole ensures k in {KeyOf(referringID, ms[0])} + tail {
      var j :| 0 <= j < |ms| && ParseInt64(ms[j].id).Some? && k == KeyOf(referringID, ms[j]);
      if j > 0 { assert ms[j] == ms[1..][j - 1]; }
    }
    forall k | k in tail ensures k in whole {
      var j :| 0 <= j < |ms[1..]| && ParseInt64(ms[1..][j].id).Some? && k == KeyOf(referringID, ms[1..][j]);
      assert ms[1..][j] == ms[j + 1];
    }
  }

  /** The accumulation succeeds exactly when every mentioned ID parses. */
  lemma {:induction false} AccumulateOk(acc: set<ReferenceKey>, referringID: int, ms: seq<Mention>)
    ensures Accumulate(acc, referringID, ms).Ok? <==> AllParse(ms)
    decreases |ms|
  {
    if ms != [] {
      AllParseCons(ms);
      match ParseInt64(ms[0].id)
      case None =>
      case Some(v) => AccumulateOk(acc + {ReferenceKey(v, referringID, ms[0].referType)}, referringID, ms[1..]);
    }
  }

  /** A successful accumulation adds one edge per distinct (referred ID, edge kind), duplicates collapsing. */
  lemma {:induction false} AccumulateValue(acc: set<ReferenceKey>, referringID: int, ms: seq<Mention>)
    ensures Accumulate(acc, referringID, ms).Ok? ==>
              Accumulate(acc, referringID, ms).value == acc + ParsedKeys(referringID, ms)
    decreases |ms|
  {
    if ms != [] {
      match ParseInt64(ms[0].id)
      case None =>
      case Some(v) =>
        AccumulateValue(acc + {ReferenceKey(v, referringID, ms[0].referType)}, referringID, ms[1..]);
        ParsedKeysCons(referringID, ms);
    }
  }

  /** A failed accumulation reports the first mentioned ID that does not parse. */
  lemma {:induction false} AccumulateFirstError(acc: set<ReferenceKey>, referringID: int, ms: seq<Mention>)
    ensures Accumulate(acc, referringID, ms).Err? ==>
              exists k :: 0 <= k < |ms| && AllParse(ms[..k]) && ParseInt64(ms[k].id).None?
                && Accumulate(acc, referringID, ms).error == SchemaConversionFail(ms[k].id)
    decreases |ms|
  {
    if ms != [] {
      match ParseInt64(ms[0].id)
      case None =>
        assert AllParse(ms[..0]);
      case Some(v) =>
        var acc' := acc + {ReferenceKey(v, referringID, ms[0].referType)};
        AccumulateFirstError(acc', referringID, ms[1..]);
        if Accumulate(acc, referringID, ms).Err? {
          var k :| 0 <= k < |ms[1..]| && AllParse(ms[1..][..k]) && ParseInt64(ms[1..][k].id).None?
                 && Accumulate(acc', referringID, ms[1..]).error == SchemaConversionFail(ms[1..][k].id);
          assert ms[1..][k] == ms[k + 1];
          assert AllParse(ms[..k + 1]) by {
            forall j | 0 <= j < k + 1 ensures ParseInt64(ms[j].id).Some? {
              if j > 0 { assert ms[j] == ms[1..][..k][j - 1]; }
            }
          }
        }
    }
  }

  /**
   * The meaning of the accumulation: it fails exactly when some mentioned ID
   * does not parse, reporting the first such ID; otherwise it adds one edge per
   * distinct (referred ID, edge kind), duplicates collapsing.
   */
  lemma AccumulateMeaning(acc: set<ReferenceKey>, referringID: int, ms: seq<Mention>)
    ensures Accumulate(acc, referringID, ms).Ok? <==> AllParse(ms)
    ensures Accumulate(acc, referringID, ms).Ok? ==>
              Accumulate(acc, referringID, ms).value == acc + ParsedKeys(referringID, ms)
    ensures Accumulate(acc, referringID, ms).Err? ==>
              exists k :: 0 <= k < |ms| && AllParse(ms[..k]) && ParseInt64(ms[k].id).None?
                && Accumulate(acc, referringID, ms).error == SchemaConversionFail(ms[k].id)
  {
    AccumulateOk(acc, referringID, ms);
    AccumulateValue(acc, referringID, ms);
    AccumulateFirstError(acc, referringID, ms);
  }

  /** The inner loop over an LLM node's function-calling workflow list. */
  method CollectToolRefs(referringID: int, list: seq<WorkflowFC>, acc: set<ReferenceKey>) returns (r: Result<set<ReferenceKey>, RefError>)
    ensures r == Accumulate(acc, referringID, ToolMentions(list))
  {
    var refs := acc;
    var j := 0;
    while j < |list|
      invariant 0 <= j <= |list|
      invariant Accumulate(acc, referringID, ToolMentions(list[..j])) == Ok(refs)
    {
      ToolsStep(acc, referringID, list, j, refs);
      var id := ParseInt64(list[j].workflowID);
      if id.None? {
        return Err(SchemaConversionFail(list[j].workflowID));
      }
      refs := refs + {ReferenceKey(id.value, referringID, ToolRef)};
      j := j + 1;
    }
    assert list[..j] == list;
    return Ok(refs);
  }

  /** One more tool entry: its ID's key is added, or the whole list fails on it. */
  lemma ToolsStep(acc: set<ReferenceKey>, referringID: int, list: seq<WorkflowFC>, j: nat, refs: set<ReferenceKey>)
    requires j < |list| && Accumulate(acc, referringID, ToolMentions(list[..j])) == Ok(refs)
    ensures ParseInt64(list[j].workflowID).None? ==>
              Accumulate(acc, referringID, ToolMentions(list)) == Err(SchemaConversionFail(list[j].workflowID))
    ensures ParseInt64(list[j].workflowID).Some? ==>
              Accumulate(acc, referringID, ToolMentions(list[..j + 1]))
              == Ok(refs + {ReferenceKey(ParseInt64(list[j].workflowID).value, referringID, ToolRef)})
  {
    assert list[..j + 1] == list[..j] + [list[j]];
    ToolMentionsAppend(list[..j], [list[j]]);
    assert ToolMentions([list[j]]) == [Mention(list[j].workflowID, ToolRef)];
    AccumulateStep(acc, referringID, ToolMentions(list[..j]), Mention(list[j].workflowID, ToolRef));
    if ParseInt64(list[j].workflowID).None? {
      assert list == list[..j + 1] + list[j + 1..];
      ToolMentionsAppend(list[..j + 1], list[j + 1..]);
      AccumulateAppend(acc, referringID, ToolMentions(list[..j + 1]), ToolMentions(list[j + 1..]));
    }
  }

  /** One more node: the accumulation goes on from it, and fails with it when it fails. */
  lemma NodesStep(acc: set<ReferenceKey>, referringID: int, nodes: seq<Node>, i: nat, refs: set<ReferenceKey>)
    requires i < |nodes| && Accumulate(acc, referringID, Mentions(nodes[..i])) == Ok(refs)
    ensures Accumulate(acc, referringID, Mentions(nodes[..i + 1])) == Accumulate(refs, referringID, Mentions([nodes[i]]))
    ensures Accumulate(refs, referringID, Mentions([nodes[i]])).Err? ==>
              Accumulate(acc, referringID, Mentions(nodes)) == Accumulate(refs, referringID, Mentions([nodes[i]]))
  {
    assert nodes[..i + 1] == nodes[..i] + [nodes[i]];
    MentionsAppend(nodes[..i], [nodes[i]]);
    AccumulateAppend(acc, referringID, Mentions(nodes[..i]), Mentions([nodes[i]]));
    if Accumulate(refs, referringID, Mentions([nodes[i]])).Err? {
      assert nodes == nodes[..i + 1] + nodes[i + 1..];
      MentionsAppend(nodes[..i + 1], nodes[i + 1..]);
      AccumulateAppend(acc, referringID, Mentions(nodes[..i + 1]), Mentions(nodes[i + 1..]));
    }
  }

  /** One iteration of `getRefFn`'s loop: the else-if chain for one node. */
  method CollectNodeRefs(referringID: int, node: Node, acc: set<ReferenceKey>) returns (r: Result<set<ReferenceKey>, RefError>)
    ensures r == Accumulate(acc, referringID, Mentions([node]))
    decreases Size([node]), 0
  {
    MentionsSingle(node);
    if node.kind == SubWorkflow {
      var id := ParseInt64(node.inputs.workflowID);
      if id.None? {
        return Err(SchemaConversionFail(node.inputs.workflowID));
      }
      return Ok(acc + {ReferenceKey(id.value, referringID, SubWorkflowRef)});
    } else if node.kind == LLM {
      if node.inputs.llm && node.inputs.fcWorkflows.Some? {
        r := CollectToolRefs(referringID, node.inputs.fcWorkflows.value, acc);
        assert Mentions([node]) == ToolMentions(node.inputs.fcWorkflows.value);
      } else {
        r := Ok(acc);
        assert Mentions([node]) == [];
      }
    } else if |node.blocks| > 0 {
      assert [node][0].blocks == node.blocks;
      SizeOfBlocks([node], 0);
      r := CollectBlockRefs(referringID, node.blocks, acc);
      assert Mentions([node]) == Mentions(node.blocks);
    } else {
      return Ok(acc);
    }
  }

  /** The loop over a container's blocks, one recursive `getRefFn` call per block. */
  method CollectBlockRefs(referringID: int, blocks: seq<Node>, acc: set<ReferenceKey>) returns (r: Result<set<ReferenceKey>, RefError>)
    ensures r == Accumulate(acc, referringID, Mentions(blocks))
    decreases Size(blocks), 2
  {
    var refs := acc;
    var j := 0;
    while j < |blocks|
      invariant 0 <= j <= |blocks|
      invariant Accumulate(acc, referringID, Mentions(blocks[..j])) == Ok(refs)
    {
      NodesStep(acc, referringID, blocks, j, refs);
      SizeOfElement(blocks, j);
      var sub := CollectRefs(referringID, [blocks[j]], refs);
      if sub.Err? {
        return sub;
      }
      refs := sub.value;
      j := j + 1;
    }
    assert blocks[..j] == blocks;
    return Ok(refs);
  }

  /** The recursive `getRefFn`: a loop over the nodes, each handled by `CollectNodeRefs`. */
  method CollectRefs(referringID: int, nodes: seq<Node>, acc: set<ReferenceKey>) returns (r: Result<set<ReferenceKey>, RefError>)
    ensures r == Accumulate(acc, referringID, Mentions(nodes))
    decreases Size(nodes), 1
  {
    var refs := acc;
    var i := 0;
    while i < |nodes|
      invariant 0 <= i <= |nodes|
      invariant Accumulate(acc, referringID, Mentions(nodes[..i])) == Ok(refs)
    {
      NodesStep(acc, referringID, nodes, i, refs);
      SizeOfElement(nodes, i);
      var step := CollectNodeRefs(referringID, nodes[i], refs);
      if step.Err? {
        return step;
      }
      refs := step.value;
      i := i + 1;
    }
    assert nodes[..i] == nodes;
    return Ok(refs);
  }

  /**
   * `canvasToRefs(referringID, canvas)`: the set of edges the canvas declares,
   * or the conversion error for the first mentioned ID that is not a decimal
   * 64-bit integer.
   */
  method CanvasToRefs(referringID: int, canvas: seq<Node>) returns (r: Result<set<ReferenceKey>, RefError>)
    ensures r.Ok? <==> AllParse(Mentions(canvas))
    ensures r.Ok? ==> forall k :: k in r.value <==>
              exists j :: 0 <= j < |Mentions(canvas)| && ParseInt64(Mentions(canvas)[j].id).Some?
                && k == KeyOf(referringID, Mentions(canvas)[j])
    ensures r.Err? ==> (exists j :: 0 <= j < |Mentions(canvas)| && AllParse(Mentions(canvas)[..j])
                                 && r.error == SchemaConversionFail(Mentions(canvas)[j].id))
  {
    r := CollectRefs(referringID, canvas, {});
    AccumulateMeaning({}, referringID, Mentions(canvas));
  }

  /** A sub-workflow or LLM node's blocks are never searched: replacing them changes nothing. */
  lemma BlocksOfReferringNodesIgnored(n: Node, blocks: seq<Node>)
    requires n.kind == SubWorkflow || n.kind == LLM
    ensures Mentions([n.(blocks := blocks)]) == Mentions([n])
  {
    MentionsSingle(n);
    MentionsSingle(n.(blocks := blocks));
  }

  /** Any other node contributes only what its blocks contribute. */
  lemma ContainerContributesBlocks(n: Node)
    requires SearchesBlocks(n)
    ensures Mentions([n]) == Mentions(n.blocks)
  {
    MentionsSingle(n);
  }

  /**
   * The two traversals differ: under an LLM node, every sub-workflow node
   * nested in its blocks at any depth is an identity for
   * `getAllSubWorkflowIdentities`, while the node's edges are only its own
   * tool mentions, whatever the blocks hold.
   */
  lemma NestedUnderLLMIsNotAnEdge(outer: Node)
    requires outer.kind == LLM
    ensures GetAllSubWorkflowIdentities([outer]) == GetAllSubWorkflowIdentities(outer.blocks)
    ensures forall n :: n in Flatten(outer.blocks) && n.kind == SubWorkflow ==>
              Identity(n.inputs.workflowID, n.inputs.workflowVersion) in GetAllSubWorkflowIdentities([outer])
    ensures Mentions([outer]) == OwnMentions(outer)
  {
    assert [outer][1..] == [];
    IdentitiesArePreorderSubWorkflows(outer.blocks);
    SubWorkflowsOfMembers(Flatten(outer.blocks));
    MentionsSingle(outer);
  }
}
