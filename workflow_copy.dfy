/**
 * Copying a workflow together with every app workflow it references, when a
 * workflow moves from an app to the library (`CopyWorkflowFromAppToLibrary`)
 * or an app is duplicated (`DuplicateWorkflowsByAppID`).
 *
 * Phase one builds a reference tree: for each sub-workflow node and each
 * workflow offered as a tool to an LLM node, the referenced draft becomes a
 * child (once per parent), and the library copy validates each referenced
 * workflow once. Phase two walks the tree post-order against a memo of what
 * has been copied: children first, then the workflow itself if it is not in
 * the memo, its canvas rewritten through the memo so that it points at the
 * copies.
 */
module WorkflowCopy {
  import opened Wrappers
  import opened Decimal
  import opened Canvas
  import opened WorkflowRefs
  import opened WorkflowRewrite

  /** `vo.DraftInfo`, with the canvas already decoded. */
  datatype DraftInfo = DraftInfo(canvas: seq<Node>, inputParams: string, outputParams: string, commitID: string)

  /** `copiedWorkflow`: a workflow to copy and, as `refWfs`, the workflows it references. */
  datatype RefTree = RefTree(id: int, draft: DraftInfo, children: seq<RefTree>)

  datatype Issue = Issue(message: string)

  /** `toValidateIssue`: the issues `validateWorkflowTree` found in one workflow. */
  datatype WorkflowIssues = WorkflowIssues(workflowID: int, issues: seq<Issue>)

  datatype CopyError =
    | NotANumber(text: string)
    | ValidationFailed(reason: string)
    | DepthExhausted
    | RewriteFailed(rewriteError: RewriteError)
    | RefsFailed(refError: RefError)
    | StoreFailed(reason: string)

  /** One copy made: original ID, the copy's ID, its rewritten canvas and, when published, its edges. */
  datatype Copied = Copied(original: int, newID: int, canvas: seq<Node>, refs: set<ReferenceKey>)

  /** The version every library copy is published at. */
  const PublishVersion := "v0.0.1"

  function ChildIDs(cs: seq<RefTree>): set<int>
  {
    set i | 0 <= i < |cs| :: cs[i].id
  }

  predicate DistinctIDs(cs: seq<RefTree>)
  {
    forall i, j :: 0 <= i < j < |cs| ==> cs[i].id != cs[j].id
  }

  predicate Extends<T(==)>(before: seq<T>, after: seq<T>)
  {
    |before| <= |after| && after[..|before|] == before
  }

  function TreeIDs(t: RefTree): set<int>
  {
    {t.id} + ForestIDs(t.children)
  }

  function ForestIDs(cs: seq<RefTree>): set<int>
  {
    if cs == [] then {} else TreeIDs(cs[0]) + ForestIDs(cs[1..])
  }

  /** Every subtree of a tree, itself included. */
  function Subtrees(t: RefTree): set<RefTree>
  {
    {t} + ForestSubtrees(t.children)
  }

  function ForestSubtrees(cs: seq<RefTree>): set<RefTree>
  {
    if cs == [] then {} else Subtrees(cs[0]) + ForestSubtrees(cs[1..])
  }

  lemma {:induction false} ForestAppend(a: seq<RefTree>, b: seq<RefTree>)
    ensures ForestIDs(a + b) == ForestIDs(a) + ForestIDs(b)
    ensures ForestSubtrees(a + b) == ForestSubtrees(a) + ForestSubtrees(b)
    decreases |a|
  {
    if a == [] {
      assert a + b == b;
    } else {
      assert (a + b)[0] == a[0];
      assert (a + b)[1..] == a[1..] + b;
      ForestAppend(a[1..], b);
    }
  }

  lemma {:induction false} ForestMembers(cs: seq<RefTree>, i: nat)
    requires i < |cs|
    ensures TreeIDs(cs[i]) <= ForestIDs(cs)
    ensures Subtrees(cs[i]) <= ForestSubtrees(cs)
    decreases i
  {
    if i > 0 {
      ForestMembers(cs[1..], i - 1);
      assert cs[1..][i - 1] == cs[i];
    }
  }

  /** The IDs of a forest are its roots' IDs and the IDs further down. */
  lemma {:induction false} ForestIDsCover(cs: seq<RefTree>)
    ensures ChildIDs(cs) <= ForestIDs(cs)
    ensures forall k :: k in ForestIDs(cs) ==> exists i :: 0 <= i < |cs| && k in TreeIDs(cs[i])
    decreases |cs|
  {
    if cs != [] {
      ForestIDsCover(cs[1..]);
      forall i | 0 <= i < |cs| ensures cs[i].id in ForestIDs(cs) {
        ForestMembers(cs, i);
      }
      forall k | k in ForestIDs(cs) ensures exists i :: 0 <= i < |cs| && k in TreeIDs(cs[i]) {
        if k !in TreeIDs(cs[0]) {
          var i :| 0 <= i < |cs[1..]| && k in TreeIDs(cs[1..][i]);
          assert cs[1..][i] == cs[i + 1];
        }
      }
    }
  }

  // ---------------------------------------------------------------------
  // The references the build walk follows
  // ---------------------------------------------------------------------

  /**
   * The child IDs `validateAndBuildWorkflowReference` leaves a workflow with
   * after walking `nodes`, starting from the child IDs `ids`, where `keys`
   * are the app's draft IDs; `None` when a walked reference does not parse.
   * Only app drafts become children. A sub-workflow node whose draft is not
   * an app draft, or is already a child, is passed over together with its
   * blocks; every other node's blocks are walked with the same parent.
   */
  function WalkRefs(nodes: seq<Node>, ids: set<int>, keys: set<int>): Option<set<int>>
    decreases Size(nodes), 1
  {
    if nodes == [] then Some(ids)
    else
      SizeOfElement(nodes, 0);
      SizeOfBlocks(nodes, 0);
      match WalkNode(nodes[0], ids, keys)
      case None => None
      case Some(next) => WalkRefs(nodes[1..], next, keys)
  }

  /** One node of that walk. */
  function WalkNode(node: Node, ids: set<int>, keys: set<int>): Option<set<int>>
    decreases Size([node]), 0
  {
    SizeOfBlocks([node], 0);
    if node.kind == SubWorkflow then
      match ParseInt64(node.inputs.workflowID)
      case None => None
      case Some(id) =>
        if id !in keys || id in ids then Some(ids)
        else WalkRefs(node.blocks, ids + {id}, keys)
    else if node.kind == LLM && node.inputs.llm && node.inputs.fcWorkflows.Some? then
      match WalkTools(node.inputs.fcWorkflows.value, ids, keys)
      case None => None
      case Some(next) => WalkRefs(node.blocks, next, keys)
    else WalkRefs(node.blocks, ids, keys)
  }

  /** The workflows offered as tools to an LLM node, in list order. */
  function WalkTools(list: seq<WorkflowFC>, ids: set<int>, keys: set<int>): Option<set<int>>
    decreases |list|
  {
    if list == [] then Some(ids)
    else
      match ParseInt64(list[0].workflowID)
      case None => None
      case Some(id) => WalkTools(list[1..], ids + ({id} * keys), keys)
  }

  /**
   * Whether `validateAndBuildWorkflowReference` gets through `nodes`, and the
   * child IDs it then leaves: the walk above, where adding a child also
   * validates its draft when validating and builds the draft's own canvas
   * one level deeper, with `fuel` levels left. `None` is a failure.
   */
  function BuildsRefs(drafts: map<int, DraftInfo>, validate: seq<Node> -> Result<seq<Issue>, string>, validating: bool,
                      nodes: seq<Node>, ids: set<int>, fuel: nat): Option<set<int>>
    decreases fuel, Size(nodes), 1
  {
    if nodes == [] then Some(ids)
    else
      SizeOfElement(nodes, 0);
      SizeOfBlocks(nodes, 0);
      match BuildsNode(drafts, validate, validating, nodes[0], ids, fuel)
      case None => None
      case Some(next) => BuildsRefs(drafts, validate, validating, nodes[1..], next, fuel)
  }

  /** One node of that build. */
  function BuildsNode(drafts: map<int, DraftInfo>, validate: seq<Node> -> Result<seq<Issue>, string>, validating: bool,
                      node: Node, ids: set<int>, fuel: nat): Option<set<int>>
    decreases fuel, Size([node]), 0
  {
    SizeOfBlocks([node], 0);
    if node.kind == SubWorkflow then
      match ParseInt64(node.inputs.workflowID)
      case None => None
      case Some(id) =>
        if id !in drafts || id in ids then Some(ids)
        else
          match BuildsRef(drafts, validate, validating, id, ids, fuel)
          case None => None
          case Some(next) => BuildsRefs(drafts, validate, validating, node.blocks, next, fuel)
    else if node.kind == LLM && node.inputs.llm && node.inputs.fcWorkflows.Some? then
      match BuildsTools(drafts, validate, validating, node.inputs.fcWorkflows.value, ids, fuel)
      case None => None
      case Some(next) => BuildsRefs(drafts, validate, validating, node.blocks, next, fuel)
    else BuildsRefs(drafts, validate, validating, node.blocks, ids, fuel)
  }

  /** The tool list of an LLM node in that build. */
  function BuildsTools(drafts: map<int, DraftInfo>, validate: seq<Node> -> Result<seq<Issue>, string>, validating: bool,
                       list: seq<WorkflowFC>, ids: set<int>, fuel: nat): Option<set<int>>
    decreases fuel, 0, 2, |list|
  {
    if list == [] then Some(ids)
    else
      match BuildsTool(drafts, validate, validating, list[0], ids, fuel)
      case None => None
      case Some(next) => BuildsTools(drafts, validate, validating, list[1..], next, fuel)
  }

  /** One entry of that tool list: its ID must parse, and is then a referenced ID. */
  function BuildsTool(drafts: map<int, DraftInfo>, validate: seq<Node> -> Result<seq<Issue>, string>, validating: bool,
                      w: WorkflowFC, ids: set<int>, fuel: nat): (r: Option<set<int>>)
    ensures ParseInt64(w.workflowID).None? ==> r.None?
    ensures r.Some? ==> r.value == ids + ({ParseInt64(w.workflowID).value} * drafts.Keys)
    decreases fuel, 0, 1
  {
    match ParseInt64(w.workflowID)
    case None => None
    case Some(id) => BuildsRef(drafts, validate, validating, id, ids, fuel)
  }

  /**
   * One referenced ID in that build: passed over unless it is an app draft
   * not yet a child; otherwise its validation must not fail, a level must be
   * left, and its own canvas must build.
   */
  function BuildsRef(drafts: map<int, DraftInfo>, validate: seq<Node> -> Result<seq<Issue>, string>, validating: bool,
                     id: int, ids: set<int>, fuel: nat): (r: Option<set<int>>)
    ensures r.Some? ==> r.value == ids + ({id} * drafts.Keys)
    decreases fuel, 0, 0
  {
    if id !in drafts || id in ids then Some(ids)
    else if validating && validate(drafts[id].canvas).Err? then None
    else if fuel == 0 then None
    else
      match BuildsRefs(drafts, validate, validating, drafts[id].canvas, {}, fuel - 1)
      case None => None
      case Some(_) => Some(ids + {id})
  }

  /** The build over the nodes from `i` on is node `i` followed by the rest. */
  lemma BuildsRefsStep(drafts: map<int, DraftInfo>, validate: seq<Node> -> Result<seq<Issue>, string>, validating: bool,
                       nodes: seq<Node>, i: nat, ids: set<int>, fuel: nat)
    requires i < |nodes|
    ensures BuildsRefs(drafts, validate, validating, nodes[i..], ids, fuel) ==
      match BuildsNode(drafts, validate, validating, nodes[i], ids, fuel)
      case None => None
      case Some(next) => BuildsRefs(drafts, validate, validating, nodes[i + 1..], next, fuel)
  {
    assert nodes[i..][0] == nodes[i];
    assert nodes[i..][1..] == nodes[i + 1..];
  }

  /** The build over the tool list from `j` on is tool `j` followed by the rest. */
  lemma BuildsToolsStep(drafts: map<int, DraftInfo>, validate: seq<Node> -> Result<seq<Issue>, string>, validating: bool,
                        list: seq<WorkflowFC>, j: nat, ids: set<int>, fuel: nat)
    requires j < |list|
    ensures BuildsTools(drafts, validate, validating, list[j..], ids, fuel) ==
      match BuildsTool(drafts, validate, validating, list[j], ids, fuel)
      case None => None
      case Some(next) => BuildsTools(drafts, validate, validating, list[j + 1..], next, fuel)
  {
    assert list[j..][0] == list[j];
    assert list[j..][1..] == list[j + 1..];
  }

  /** A build that gets through finds exactly the references the walk finds. */
  lemma {:induction false} BuildsRefsWalk(drafts: map<int, DraftInfo>, validate: seq<Node> -> Result<seq<Issue>, string>,
                                          validating: bool, nodes: seq<Node>, ids: set<int>, fuel: nat)
    requires BuildsRefs(drafts, validate, validating, nodes, ids, fuel).Some?
    ensures WalkRefs(nodes, ids, drafts.Keys) == BuildsRefs(drafts, validate, validating, nodes, ids, fuel)
    decreases fuel, Size(nodes), 1
  {
    if nodes != [] {
      SizeOfElement(nodes, 0);
      SizeOfBlocks(nodes, 0);
      BuildsNodeWalk(drafts, validate, validating, nodes[0], ids, fuel);
      var next := BuildsNode(drafts, validate, validating, nodes[0], ids, fuel).value;
      BuildsRefsWalk(drafts, validate, validating, nodes[1..], next, fuel);
    }
  }

  lemma {:induction false} BuildsNodeWalk(drafts: map<int, DraftInfo>, validate: seq<Node> -> Result<seq<Issue>, string>,
                                          validating: bool, node: Node, ids: set<int>, fuel: nat)
    requires BuildsNode(drafts, validate, validating, node, ids, fuel).Some?
    ensures WalkNode(node, ids, drafts.Keys) == BuildsNode(drafts, validate, validating, node, ids, fuel)
    decreases fuel, Size([node]), 0
  {
    SizeOfBlocks([node], 0);
    if node.kind == SubWorkflow {
      var id := ParseInt64(node.inputs.workflowID).value;
      if id in drafts && id !in ids {
        var next := BuildsRef(drafts, validate, validating, id, ids, fuel).value;
        assert next == ids + {id};
        BuildsRefsWalk(drafts, validate, validating, node.blocks, next, fuel);
      }
    } else if node.kind == LLM && node.inputs.llm && node.inputs.fcWorkflows.Some? {
      BuildsToolsWalk(drafts, validate, validating, node.inputs.fcWorkflows.value, ids, fuel);
      var next := BuildsTools(drafts, validate, validating, node.inputs.fcWorkflows.value, ids, fuel).value;
      BuildsRefsWalk(drafts, validate, validating, node.blocks, next, fuel);
    } else {
      BuildsRefsWalk(drafts, validate, validating, node.blocks, ids, fuel);
    }
  }

  lemma {:induction false} BuildsToolsWalk(drafts: map<int, DraftInfo>, validate: seq<Node> -> Result<seq<Issue>, string>,
                                           validating: bool, list: seq<WorkflowFC>, ids: set<int>, fuel: nat)
    requires BuildsTools(drafts, validate, validating, list, ids, fuel).Some?
    ensures WalkTools(list, ids, drafts.Keys) == BuildsTools(drafts, validate, validating, list, ids, fuel)
    decreases fuel, 0, 2, |list|
  {
    if list != [] {
      var next := BuildsTool(drafts, validate, validating, list[0], ids, fuel).value;
      BuildsToolsWalk(drafts, validate, validating, list[1..], next, fuel);
    }
  }

  /**
   * What copying `t` through the memo `m` needs: the rewrite succeeds, the
   * repository copies the workflow and, when publishing, the copy's edges
   * parse and its version is created.
   */
  ghost predicate CopySucceeds(t: RefTree, m: map<int, IDVersionPair>, related: ExternalResourceRelated,
                               publishing: bool, copyFault: int -> Option<string>, versionFault: int -> Option<string>)
  {
    && RewriteNodes(t.draft.canvas, m, related).Ok?
    && copyFault(t.id).None?
    && (publishing ==> AllParse(Mentions(RewriteNodes(t.draft.canvas, m, related).value)) && versionFault(t.id).None?)
  }

  /** Where a copy stops: `s` is due (not in the memo, its children all are) and its copy fails. */
  ghost predicate StuckAt(s: RefTree, m: map<int, IDVersionPair>, related: ExternalResourceRelated,
                          publishing: bool, copyFault: int -> Option<string>, versionFault: int -> Option<string>)
  {
    s.id !in m && ChildIDs(s.children) <= m.Keys && !CopySucceeds(s, m, related, publishing, copyFault, versionFault)
  }

  /** The validation `DuplicateWorkflowsByAppID` does not do. */
  function NoIssues(canvas: seq<Node>): Result<seq<Issue>, string>
  {
    Ok([])
  }

  /** The version store `DuplicateWorkflowsByAppID` does not call. */
  function NoFault(original: int): Option<string>
  {
    None
  }

  /**
   * `t` is the reference tree of its own draft: its children are exactly the
   * app drafts the walk over its canvas finds, none twice, and each child is
   * the built tree of that draft.
   */
  ghost predicate ReferenceTree(drafts: map<int, DraftInfo>, t: RefTree)
    decreases t, 0
  {
    && DistinctIDs(t.children)
    && WalkRefs(t.draft.canvas, {}, drafts.Keys) == Some(ChildIDs(t.children))
    && forall i :: 0 <= i < |t.children| ==> Built(drafts, t.children[i])
  }

  /** A subtree built from the app's drafts: the draft found by its ID, and the reference tree of that draft. */
  ghost predicate Built(drafts: map<int, DraftInfo>, t: RefTree)
    decreases t, 1
  {
    t.id in drafts && t.draft == drafts[t.id] && ReferenceTree(drafts, t)
  }

  ghost predicate AllBuilt(drafts: map<int, DraftInfo>, cs: seq<RefTree>)
  {
    forall i :: 0 <= i < |cs| ==> Built(drafts, cs[i])
  }

  /** The memo after a sequence of copies: each original maps to its copy. */
  function MemoOf(cs: seq<Copied>, version: string): map<int, IDVersionPair>
    decreases |cs|
  {
    if cs == [] then map[]
    else MemoOf(cs[..|cs| - 1], version)[cs[|cs| - 1].original := IDVersionPair(cs[|cs| - 1].newID, version)]
  }

  predicate DistinctOriginals(cs: seq<Copied>)
  {
    forall i, j :: 0 <= i < j < |cs| ==> cs[i].original != cs[j].original
  }

  function Originals(cs: seq<Copied>): set<int>
  {
    set i | 0 <= i < |cs| :: cs[i].original
  }

  lemma OriginalsAppend(cs: seq<Copied>, c: Copied)
    ensures Originals(cs + [c]) == Originals(cs) + {c.original}
  {
    assert (cs + [c])[|cs|] == c;
    forall k | k in Originals(cs + [c]) ensures k in Originals(cs) + {c.original} {
      var i :| 0 <= i < |cs + [c]| && (cs + [c])[i].original == k;
      if i < |cs| { assert (cs + [c])[i] == cs[i]; }
    }
    forall k | k in Originals(cs) ensures k in Originals(cs + [c]) {
      var i :| 0 <= i < |cs| && cs[i].original == k;
      assert (cs + [c])[i] == cs[i];
    }
  }

  lemma MemoOfAppend(cs: seq<Copied>, c: Copied, version: string)
    ensures MemoOf(cs + [c], version) == MemoOf(cs, version)[c.original := IDVersionPair(c.newID, version)]
  {
    assert (cs + [c])[..|cs|] == cs;
  }

  /** The memo's keys are exactly the copied originals. */
  lemma {:induction false} MemoKeys(cs: seq<Copied>, version: string)
    ensures MemoOf(cs, version).Keys == Originals(cs)
    decreases |cs|
  {
    if cs != [] {
      var init := cs[..|cs| - 1];
      assert cs == init + [cs[|cs| - 1]];
      MemoKeys(init, version);
      OriginalsAppend(init, cs[|cs| - 1]);
    }
  }

  /** With each workflow copied once, the memo maps each original to its own copy. */
  lemma {:induction false} MemoMeaning(cs: seq<Copied>, version: string)
    requires DistinctOriginals(cs)
    ensures MemoOf(cs, version).Keys == Originals(cs)
    ensures forall i :: 0 <= i < |cs| ==> MemoOf(cs, version)[cs[i].original] == IDVersionPair(cs[i].newID, version)
    decreases |cs|
  {
    MemoKeys(cs, version);
    if cs != [] {
      var init := cs[..|cs| - 1];
      MemoMeaning(init, version);
      forall i | 0 <= i < |cs| - 1 ensures MemoOf(cs, version)[cs[i].original] == IDVersionPair(cs[i].newID, version) {
        assert init[i] == cs[i];
      }
    }
  }

  /**
   * What a sequence of copies promises, with `triggers[i]` the tree node
   * whose visit made `copies[i]`: each workflow copied at most once, copy IDs
   * handed out in order, every copy made after those of the workflows it
   * references, and its canvas the original rewritten through the memo as it
   * stood at that moment.
   */
  ghost predicate CopiesInvariant(copies: seq<Copied>, triggers: seq<RefTree>, version: string,
                                  related: ExternalResourceRelated, firstID: int)
  {
    && |triggers| == |copies|
    && DistinctOriginals(copies)
    && (forall i :: 0 <= i < |copies| ==> copies[i].original == triggers[i].id && copies[i].newID == firstID + i)
    && (forall i {:trigger triggers[i]} :: 0 <= i < |copies| ==> ChildIDs(triggers[i].children) <= Originals(copies[..i]))
    && (forall i {:trigger triggers[i]} :: 0 <= i < |copies| ==> CopiedFrom(triggers[i], copies[i], MemoOf(copies[..i], version), related))
  }

  /** A copy's canvas is its original's, rewritten by `replaceRelated` through the memo of the time. */
  ghost predicate CopiedFrom(t: RefTree, c: Copied, memo: map<int, IDVersionPair>, related: ExternalResourceRelated)
  {
    RewriteNodes(t.draft.canvas, memo, related) == Ok(c.canvas)
  }

  /** Copying one more workflow, after its references, keeps the invariant. */
  lemma CopiesInvariantAppend(copies: seq<Copied>, triggers: seq<RefTree>, version: string,
                              related: ExternalResourceRelated, firstID: int, t: RefTree, c: Copied)
    requires CopiesInvariant(copies, triggers, version, related, firstID)
    requires CopiedNext(copies, t, c, version, related, firstID)
    ensures CopiesInvariant(copies + [c], triggers + [t], version, related, firstID)
  {
    var cs := copies + [c];
    var ts := triggers + [t];
    assert cs[..|copies|] == copies;
    forall i | 0 <= i < |cs| ensures cs[i].original == ts[i].id && cs[i].newID == firstID + i {
      if i < |copies| {
        assert cs[i] == copies[i] && ts[i] == triggers[i];
      }
    }
    forall i, j | 0 <= i < j < |cs| ensures cs[i].original != cs[j].original {
      assert cs[i] == copies[i];
      if j < |copies| {
        assert cs[j] == copies[j];
      } else {
        assert copies[i].original in Originals(copies);
      }
    }
    forall i | 0 <= i < |cs|
      ensures ChildIDs(ts[i].children) <= Originals(cs[..i])
      ensures CopiedFrom(ts[i], cs[i], MemoOf(cs[..i], version), related)
    {
      if i < |copies| {
        assert cs[..i] == copies[..i];
        assert cs[i] == copies[i] && ts[i] == triggers[i];
      }
    }
  }

  /**
   * The same promise stated copy by copy: the copies before the last keep
   * it, and the last was made from its trigger after the copies of its
   * references, under the next ID, through the memo of the earlier copies.
   */
  ghost predicate CopyChain(copies: seq<Copied>, triggers: seq<RefTree>, version: string,
                            related: ExternalResourceRelated, firstID: int)
    decreases |copies|
  {
    && |triggers| == |copies|
    && (copies != [] ==>
          var n := |copies| - 1;
          && CopyChain(copies[..n], triggers[..n], version, related, firstID)
          && CopiedNext(copies[..n], triggers[n], copies[n], version, related, firstID))
  }

  /** `c`, made from `t`, may follow the copies `prior`. */
  ghost predicate CopiedNext(prior: seq<Copied>, t: RefTree, c: Copied, version: string,
                             related: ExternalResourceRelated, firstID: int)
  {
    && c.original == t.id && t.id !in Originals(prior) && c.newID == firstID + |prior|
    && ChildIDs(t.children) <= Originals(prior)
    && CopiedFrom(t, c, MemoOf(prior, version), related)
  }

  lemma CopyChainAppend(copies: seq<Copied>, triggers: seq<RefTree>, version: string,
                        related: ExternalResourceRelated, firstID: int, t: RefTree, c: Copied)
    requires CopyChain(copies, triggers, version, related, firstID)
    requires CopiedNext(copies, t, c, version, related, firstID)
    ensures CopyChain(copies + [c], triggers + [t], version, related, firstID)
  {
    assert (copies + [c])[..|copies|] == copies;
    assert (triggers + [t])[..|triggers|] == triggers;
  }

  /** A chain of copies keeps the invariant. */
  lemma {:induction false} CopyChainInvariant(copies: seq<Copied>, triggers: seq<RefTree>, version: string,
                                              related: ExternalResourceRelated, firstID: int)
    requires CopyChain(copies, triggers, version, related, firstID)
    ensures CopiesInvariant(copies, triggers, version, related, firstID)
    decreases |copies|
  {
    if copies != [] {
      var n := |copies| - 1;
      var prior, priorTriggers := copies[..n], triggers[..n];
      assert prior + [copies[n]] == copies;
      assert priorTriggers + [triggers[n]] == triggers;
      CopyChainInvariant(prior, priorTriggers, version, related, firstID);
      CopiesInvariantAppend(prior, priorTriggers, version, related, firstID, triggers[n], copies[n]);
    }
  }

  /**
   * The copy process. `validating` and `publishing` are set for the library
   * copy, which validates each referenced workflow and publishes each copy at
   * `PublishVersion`; app duplication does neither and leaves versions empty.
   * `copyFault` and `versionFault` are the repository's answers to
   * `CopyWorkflow` and `CreateVersion` for the copy of a given original: an
   * error, or `None` for success. `firstID` stands for the ID generator: the
   * copies get consecutive IDs from it.
   */
  class ClosureCopy {
    const drafts: map<int, DraftInfo>
    const validate: seq<Node> -> Result<seq<Issue>, string>
    const validating: bool
    const publishing: bool
    const related: ExternalResourceRelated
    const firstID: int
    const copyFault: int -> Option<string>
    const versionFault: int -> Option<string>
    /** The entries recorded before the build: the root's own issues. */
    const rootIssues: seq<WorkflowIssues>

    /** `hasVerifiedWorkflowIDMap`. */
    var verified: set<int>
    /** `vIssues`. */
    var issues: seq<WorkflowIssues>
    /** Every ID handed to `validateWorkflowTree` during the build, in order. */
    ghost var validated: seq<int>

    /** `hasPublishedWorkflows` / `hasCopiedWorkflows`. */
    var memo: map<int, IDVersionPair>
    /** `copiedWorkflowArray`. */
    var copies: seq<Copied>
    /** The tree node whose visit made each copy. */
    ghost var triggers: seq<RefTree>

    function Version(): string
    {
      if publishing then PublishVersion else ""
    }

    /**
     * Each workflow validated at most once, only app drafts, only when
     * validating; a verified workflow validated cleanly or has its issues
     * recorded; every recorded entry is the root's or a verified workflow's
     * issues; no recorded entry is empty.
     */
    ghost predicate ValidBuild()
      reads this`verified, this`issues, this`validated
    {
      && verified <= drafts.Keys
      && (forall i :: 0 <= i < |validated| ==> validated[i] in verified)
      && (forall k :: k in verified ==> k in validated)
      && (forall i, j :: 0 <= i < j < |validated| ==> validated[i] != validated[j])
      && (!validating ==> verified == {})
      && (forall k :: k in verified ==> validate(drafts[k].canvas).Ok?)
      && (forall k :: k in verified ==>
            validate(drafts[k].canvas) == Ok([]) || WorkflowIssues(k, validate(drafts[k].canvas).value) in issues)
      && |rootIssues| <= |issues| && issues[..|rootIssues|] == rootIssues
      && (forall w :: w in issues ==>
            w in rootIssues || (w.workflowID in verified && validate(drafts[w.workflowID].canvas) == Ok(w.issues)))
      && (forall w :: w in issues ==> |w.issues| > 0)
    }

    ghost predicate ValidCopies()
      reads this`memo, this`copies, this`triggers
    {
      && memo == MemoOf(copies, Version())
      && CopyChain(copies, triggers, Version(), related, firstID)
    }

    constructor (drafts: map<int, DraftInfo>, validate: seq<Node> -> Result<seq<Issue>, string>,
                 validating: bool, publishing: bool, related: ExternalResourceRelated, firstID: int,
                 copyFault: int -> Option<string>, versionFault: int -> Option<string>,
                 initialIssues: seq<WorkflowIssues>)
      requires forall w :: w in initialIssues ==> |w.issues| > 0
      requires !validating ==> initialIssues == []
      ensures this.drafts == drafts && this.validate == validate && this.related == related
      ensures this.validating == validating && this.publishing == publishing && this.firstID == firstID
      ensures this.copyFault == copyFault && this.versionFault == versionFault && rootIssues == initialIssues
      ensures verified == {} && validated == [] && issues == initialIssues
      ensures memo == map[] && copies == [] && triggers == []
      ensures ValidBuild() && ValidCopies()
    {
      this.drafts := drafts;
      this.validate := validate;
      this.validating := validating;
      this.publishing := publishing;
      this.related := related;
      this.firstID := firstID;
      this.copyFault := copyFault;
      this.versionFault := versionFault;
      rootIssues := initialIssues;
      verified := {};
      issues := initialIssues;
      validated := [];
      memo := map[];
      copies := [];
      triggers := [];
    }

    /**
     * `validateWorkflowTree` on a referenced draft not verified yet, its
     * issues recorded when there are any, and the draft marked verified.
     */
    method Verify(wfID: int) returns (err: Option<CopyError>)
      requires ValidBuild() && wfID in drafts && validating && wfID !in verified
      modifies this`verified, this`issues, this`validated
      ensures ValidBuild() && old(verified) <= verified && |old(issues)| <= |issues|
      ensures err.None? <==> validate(drafts[wfID].canvas).Ok?
      ensures err.None? ==> verified == old(verified) + {wfID}
      ensures err.None? && validate(drafts[wfID].canvas).value != [] ==>
                issues == old(issues) + [WorkflowIssues(wfID, validate(drafts[wfID].canvas).value)]
      ensures err.None? && validate(drafts[wfID].canvas).value == [] ==> issues == old(issues)
    {
      var res := validate(drafts[wfID].canvas);
      if res.Err? {
        return Some(ValidationFailed(res.error));
      }
      if |res.value| > 0 {
        issues := issues + [WorkflowIssues(wfID, res.value)];
      }
      verified := verified + {wfID};
      validated := validated + [wfID];
      err := None;
    }

    /**
     * One referenced ID: skipped when it is not an app draft or is already a
     * child of this parent; otherwise validated if not yet verified, and
     * added as a child with its own references built from its draft.
     */
    method AddReference(wfID: int, children: seq<RefTree>, fuel: nat) returns (r: Result<seq<RefTree>, CopyError>)
      requires ValidBuild() && DistinctIDs(children)
      modifies this`verified, this`issues, this`validated
      ensures ValidBuild() && old(verified) <= verified && |old(issues)| <= |issues|
      ensures r.Ok? ==> Grown(children, r.value, old(verified), verified)
      ensures r.Ok? <==> BuildsRef(drafts, validate, validating, wfID, ChildIDs(children), fuel).Some?
      ensures r.Ok? ==> ChildIDs(r.value) == ChildIDs(children) + ({wfID} * drafts.Keys)
      decreases fuel, 0, 0, 0
    {
      if wfID !in drafts || wfID in ChildIDs(children) {
        assert children[|children|..] == [];
        return Ok(children);
      }
      var draft := drafts[wfID];
      if validating && wfID !in verified {
        var err := Verify(wfID);
        if err.Some? {
          return Err(err.value);
        }
      }
      if fuel == 0 {
        return Err(DepthExhausted);
      }
      assert ChildIDs([]) == {};
      var sub := Build(draft.canvas, [], fuel - 1);
      if sub.Err? {
        return Err(sub.error);
      }
      var child := RefTree(wfID, draft, sub.value);
      assert sub.value[0..] == sub.value;
      assert Built(drafts, child);
      AppendChild(children, child);
      r := Ok(children + [child]);
    }

    /** One node of `validateAndBuildWorkflowReference`'s loop. */
    method BuildNode(node: Node, children: seq<RefTree>, fuel: nat) returns (r: Result<seq<RefTree>, CopyError>)
      requires ValidBuild() && DistinctIDs(children)
      modifies this`verified, this`issues, this`validated
      ensures ValidBuild() && old(verified) <= verified && |old(issues)| <= |issues|
      ensures r.Ok? ==> Grown(children, r.value, old(verified), verified)
      ensures r.Ok? <==> BuildsNode(drafts, validate, validating, node, ChildIDs(children), fuel).Some?
      ensures r.Ok? ==> BuildsNode(drafts, validate, validating, node, ChildIDs(children), fuel) == Some(ChildIDs(r.value))
      ensures r.Ok? ==> WalkNode(node, ChildIDs(children), drafts.Keys) == Some(ChildIDs(r.value))
      decreases fuel, Size([node]), 0, 1
    {
      if node.kind == SubWorkflow {
        r := BuildSubWorkflow(node, children, fuel);
        return;
      }
      var cs := children;
      assert cs[|children|..] == [];
      SizeOfBlocks([node], 0);
      if node.kind == LLM && node.inputs.llm && node.inputs.fcWorkflows.Some? {
        var tools := BuildTools(node.inputs.fcWorkflows.value, cs, fuel);
        if tools.Err? {
          return tools;
        }
        cs := tools.value;
      }
      assert BuildsNode(drafts, validate, validating, node, ChildIDs(children), fuel) ==
             BuildsRefs(drafts, validate, validating, node.blocks, ChildIDs(cs), fuel);
      if |node.blocks| > 0 {
        ghost var before, v1 := cs, verified;
        var inner := Build(node.blocks, cs, fuel);
        if inner.Err? {
          return inner;
        }
        cs := inner.value;
        GrownTrans(children, before, cs, old(verified), v1, verified);
      }
      BuildsNodeWalk(drafts, validate, validating, node, ChildIDs(children), fuel);
      return Ok(cs);
    }

    /**
     * A sub-workflow node: its ID must parse; an app draft not yet a child is
     * added, and then the node's blocks are built. Any other ID leaves the
     * node, blocks included, without children.
     */
    method BuildSubWorkflow(node: Node, children: seq<RefTree>, fuel: nat) returns (r: Result<seq<RefTree>, CopyError>)
      requires node.kind == SubWorkflow
      requires ValidBuild() && DistinctIDs(children)
      modifies this`verified, this`issues, this`validated
      ensures ValidBuild() && old(verified) <= verified && |old(issues)| <= |issues|
      ensures r.Ok? ==> Grown(children, r.value, old(verified), verified)
      ensures r.Ok? <==> BuildsNode(drafts, validate, validating, node, ChildIDs(children), fuel).Some?
      ensures r.Ok? ==> BuildsNode(drafts, validate, validating, node, ChildIDs(children), fuel) == Some(ChildIDs(r.value))
      ensures r.Ok? ==> WalkNode(node, ChildIDs(children), drafts.Keys) == Some(ChildIDs(r.value))
      decreases fuel, Size([node]), 0, 0
    {
      var cs := children;
      assert cs[|children|..] == [];
      SizeOfBlocks([node], 0);
      var id := ParseInt64(node.inputs.workflowID);
      if id.None? {
        return Err(NotANumber(node.inputs.workflowID));
      }
      if id.value !in drafts || id.value in ChildIDs(cs) {
        return Ok(cs);
      }
      var added := AddReference(id.value, cs, fuel);
      if added.Err? {
        return added;
      }
      cs := added.value;
      assert BuildsNode(drafts, validate, validating, node, ChildIDs(children), fuel) ==
             BuildsRefs(drafts, validate, validating, node.blocks, ChildIDs(cs), fuel);
      if |node.blocks| > 0 {
        ghost var before, v1 := cs, verified;
        var inner := Build(node.blocks, cs, fuel);
        if inner.Err? {
          return inner;
        }
        cs := inner.value;
        GrownTrans(children, before, cs, old(verified), v1, verified);
      }
      BuildsNodeWalk(drafts, validate, validating, node, ChildIDs(children), fuel);
      return Ok(cs);
    }

    /** The loop over an LLM node's `WorkflowFCParam.WorkflowList`. */
    method BuildTools(list: seq<WorkflowFC>, children: seq<RefTree>, fuel: nat) returns (r: Result<seq<RefTree>, CopyError>)
      requires ValidBuild() && DistinctIDs(children)
      modifies this`verified, this`issues, this`validated
      ensures ValidBuild() && old(verified) <= verified && |old(issues)| <= |issues|
      ensures r.Ok? ==> Grown(children, r.value, old(verified), verified)
      ensures r.Ok? <==> BuildsTools(drafts, validate, validating, list, ChildIDs(children), fuel).Some?
      ensures r.Ok? ==> BuildsTools(drafts, validate, validating, list, ChildIDs(children), fuel) == Some(ChildIDs(r.value))
      ensures r.Ok? ==> WalkTools(list, ChildIDs(children), drafts.Keys) == Some(ChildIDs(r.value))
      decreases fuel, 0, 2, 0
    {
      var cs := children;
      assert cs[|children|..] == [];
      ghost var goal := BuildsTools(drafts, validate, validating, list, ChildIDs(children), fuel);
      var j := 0;
      while j < |list|
        invariant 0 <= j <= |list|
        invariant ValidBuild() && old(verified) <= verified && |old(issues)| <= |issues|
        invariant Grown(children, cs, old(verified), verified)
        invariant goal == BuildsTools(drafts, validate, validating, list[j..], ChildIDs(cs), fuel)
      {
        ghost var before, v1 := cs, verified;
        BuildsToolsStep(drafts, validate, validating, list, j, ChildIDs(before), fuel);
        var added := AddTool(list[j], cs, fuel);
        if added.Err? {
          return added;
        }
        cs := added.value;
        GrownTrans(children, before, cs, old(verified), v1, verified);
        j := j + 1;
      }
      assert list[|list|..] == [];
      BuildsToolsWalk(drafts, validate, validating, list, ChildIDs(children), fuel);
      return Ok(cs);
    }

    /** One entry of the tool list: its ID must parse, and is then a referenced ID. */
    method AddTool(w: WorkflowFC, children: seq<RefTree>, fuel: nat) returns (r: Result<seq<RefTree>, CopyError>)
      requires ValidBuild() && DistinctIDs(children)
      modifies this`verified, this`issues, this`validated
      ensures ValidBuild() && old(verified) <= verified && |old(issues)| <= |issues|
      ensures ParseInt64(w.workflowID).None? ==> r == Err(NotANumber(w.workflowID))
      ensures r.Ok? ==> Grown(children, r.value, old(verified), verified)
      ensures r.Ok? ==> ParseInt64(w.workflowID).Some? &&
                        ChildIDs(r.value) == ChildIDs(children) + ({ParseInt64(w.workflowID).value} * drafts.Keys)
      ensures r.Ok? <==> BuildsTool(drafts, validate, validating, w, ChildIDs(children), fuel).Some?
      ensures r.Ok? ==> BuildsTool(drafts, validate, validating, w, ChildIDs(children), fuel) == Some(ChildIDs(r.value))
      decreases fuel, 0, 1, 0
    {
      var id := ParseInt64(w.workflowID);
      if id.None? {
        return Err(NotANumber(w.workflowID));
      }
      r := AddReference(id.value, children, fuel);
    }

    /** `validateAndBuildWorkflowReference(nodes, wf)`, with `children` as `wf.refWfs`. */
    method Build(nodes: seq<Node>, children: seq<RefTree>, fuel: nat) returns (r: Result<seq<RefTree>, CopyError>)
      requires ValidBuild() && DistinctIDs(children)
      modifies this`verified, this`issues, this`validated
      ensures ValidBuild() && old(verified) <= verified && |old(issues)| <= |issues|
      ensures r.Ok? ==> Grown(children, r.value, old(verified), verified)
      ensures r.Ok? <==> BuildsRefs(drafts, validate, validating, nodes, ChildIDs(children), fuel).Some?
      ensures r.Ok? ==> BuildsRefs(drafts, validate, validating, nodes, ChildIDs(children), fuel) == Some(ChildIDs(r.value))
      ensures r.Ok? ==> WalkRefs(nodes, ChildIDs(children), drafts.Keys) == Some(ChildIDs(r.value))
      decreases fuel, Size(nodes), 1, 0
    {
      var cs := children;
      assert cs[|children|..] == [];
      ghost var goal := BuildsRefs(drafts, validate, validating, nodes, ChildIDs(children), fuel);
      var i := 0;
      while i < |nodes|
        invariant 0 <= i <= |nodes|
        invariant ValidBuild() && old(verified) <= verified && |old(issues)| <= |issues|
        invariant Grown(children, cs, old(verified), verified)
        invariant goal == BuildsRefs(drafts, validate, validating, nodes[i..], ChildIDs(cs), fuel)
      {
        SizeOfElement(nodes, i);
        ghost var before, v1 := cs, verified;
        BuildsRefsStep(drafts, validate, validating, nodes, i, ChildIDs(before), fuel);
        var step := BuildNode(nodes[i], cs, fuel);
        if step.Err? {
          return step;
        }
        cs := step.value;
        GrownTrans(children, before, cs, old(verified), v1, verified);
        i := i + 1;
      }
      assert nodes[|nodes|..] == [];
      BuildsRefsWalk(drafts, validate, validating, nodes, ChildIDs(children), fuel);
      return Ok(cs);
    }

    /**
     * `cs` extends `children` by distinct built subtrees, and the verified
     * set went from `v0` to `v1` by exactly their IDs (all of them when
     * validating).
     */
    ghost predicate Grown(children: seq<RefTree>, cs: seq<RefTree>, v0: set<int>, v1: set<int>)
    {
      && Extends(children, cs) && DistinctIDs(cs) && AllBuilt(drafts, cs[|children|..])
      && (validating ==> ForestIDs(cs[|children|..]) <= v1)
      && v1 <= v0 + ForestIDs(cs[|children|..])
    }

    /** Growing a child list twice is growing it once. */
    lemma GrownTrans(a: seq<RefTree>, b: seq<RefTree>, c: seq<RefTree>, v0: set<int>, v1: set<int>, v2: set<int>)
      requires Grown(a, b, v0, v1) && Grown(b, c, v1, v2) && v1 <= v2
      ensures Grown(a, c, v0, v2)
    {
      assert c[|a|..] == b[|a|..] + c[|b|..];
      ForestAppend(b[|a|..], c[|b|..]);
      forall i | 0 <= i < |c[|a|..]| ensures Built(drafts, c[|a|..][i]) {
        if i < |b| - |a| {
          assert c[|a|..][i] == b[|a|..][i];
        } else {
          assert c[|a|..][i] == c[|b|..][i - (|b| - |a|)];
        }
      }
      ExtendsChain(a, b, c);
    }

    /**
     * The copy of one workflow whose references are all copied:
     * `replaceRelated` through the memo, `CopyWorkflow` under the next ID,
     * for the library its reference edges computed and `CreateVersion`
     * publishing it, and the memo entry added. The first failing step stops
     * the copy and changes nothing.
     */
    method CopyOne(t: RefTree) returns (err: Option<CopyError>)
      requires ValidCopies() && t.id !in memo && ChildIDs(t.children) <= memo.Keys
      modifies this`memo, this`copies, this`triggers
      ensures ValidCopies()
      ensures err.None? <==> CopySucceeds(t, old(memo), related, publishing, copyFault, versionFault)
      ensures err.Some? ==> memo == old(memo) && copies == old(copies) && triggers == old(triggers)
      ensures err.None? ==> memo.Keys == old(memo).Keys + {t.id} && triggers == old(triggers) + [t]
      ensures err.None? ==> |copies| == |old(copies)| + 1 && copies[..|old(copies)|] == old(copies)
      ensures err.None? && publishing ==> RefsOf(copies[|copies| - 1].newID, copies[|copies| - 1].canvas, copies[|copies| - 1].refs)
      ensures err.None? && !publishing ==> copies[|copies| - 1].refs == {}
    {
      var rewritten := CopyCanvas(t.draft.canvas, memo, related);
      if rewritten.Err? {
        return Some(rewritten.error);
      }
      if copyFault(t.id).Some? {
        return Some(StoreFailed(copyFault(t.id).value));
      }
      var newID := firstID + |copies|;
      var refs: set<ReferenceKey> := {};
      if publishing {
        var found := CanvasToRefs(newID, rewritten.value);
        if found.Err? {
          return Some(RefsFailed(found.error));
        }
        if versionFault(t.id).Some? {
          return Some(StoreFailed(versionFault(t.id).value));
        }
        refs := found.value;
      }
      Record(t, Copied(t.id, newID, rewritten.value, refs));
      assert copies[..|old(copies)|] == old(copies);
      err := None;
    }

    /** Recording a copy: appended to `copiedWorkflowArray` and entered in the memo. */
    method Record(t: RefTree, c: Copied)
      requires ValidCopies() && t.id !in memo && ChildIDs(t.children) <= memo.Keys
      requires c.original == t.id && c.newID == firstID + |copies| && CopiedFrom(t, c, memo, related)
      modifies this`memo, this`copies, this`triggers
      ensures ValidCopies()
      ensures memo == old(memo)[t.id := IDVersionPair(c.newID, Version())]
      ensures copies == old(copies) + [c] && triggers == old(triggers) + [t]
    {
      MemoKeys(copies, Version());
      CopyChainAppend(copies, triggers, Version(), related, firstID, t, c);
      MemoOfAppend(copies, c, Version());
      copies := copies + [c];
      triggers := triggers + [t];
      memo := memo[t.id := IDVersionPair(c.newID, Version())];
    }

    /**
     * `copyAndPublishWorkflowProcess` / `duplicateWorkflow`: every child
     * first, then the workflow itself unless the memo already has it.
     */
    method Materialize(t: RefTree) returns (err: Option<CopyError>)
      requires ValidCopies()
      modifies this`memo, this`copies, this`triggers
      ensures ValidCopies()
      ensures Extends(old(copies), copies) && Extends(old(triggers), triggers)
      ensures forall j :: |old(triggers)| <= j < |triggers| ==> triggers[j] in Subtrees(t)
      ensures old(memo).Keys <= memo.Keys <= old(memo).Keys + TreeIDs(t)
      ensures err.None? ==> TreeIDs(t) <= memo.Keys
      ensures err.Some? ==> exists s :: s in Subtrees(t) && StuckAt(s, memo, related, publishing, copyFault, versionFault)
      decreases t, 2
    {
      assert Subtrees(t) == {t} + ForestSubtrees(t.children);
      err := MaterializeChildren(t);
      if err.Some? {
        ghost var s :| s in ForestSubtrees(t.children) && StuckAt(s, memo, related, publishing, copyFault, versionFault);
        assert s in Subtrees(t);
        return;
      }
      ForestIDsCover(t.children);
      ghost var before, beforeCopies := triggers, copies;
      err := MaterializeSelf(t);
      ExtendsChain(old(triggers), before, triggers);
      ExtendsChain(old(copies), beforeCopies, copies);
      forall j | |old(triggers)| <= j < |triggers| ensures triggers[j] in Subtrees(t) {
        if j < |before| {
          assert triggers[j] == before[j];
        }
      }
      if err.Some? {
        assert t in Subtrees(t);
      }
    }

    /** A workflow whose children are all copied: copied itself unless the memo already has it. */
    method MaterializeSelf(t: RefTree) returns (err: Option<CopyError>)
      requires ValidCopies() && ChildIDs(t.children) <= memo.Keys
      modifies this`memo, this`copies, this`triggers
      ensures ValidCopies()
      ensures Extends(old(copies), copies) && Extends(old(triggers), triggers)
      ensures forall j :: |old(triggers)| <= j < |triggers| ==> triggers[j] == t
      ensures old(memo).Keys <= memo.Keys <= old(memo).Keys + {t.id}
      ensures err.None? ==> t.id in memo
      ensures err.Some? ==> StuckAt(t, memo, related, publishing, copyFault, versionFault)
    {
      if t.id in memo {
        return None;
      }
      err := CopyOne(t);
    }

    /** The loop over `wf.refWfs` that precedes a workflow's own copy. */
    method MaterializeChildren(t: RefTree) returns (err: Option<CopyError>)
      requires ValidCopies()
      modifies this`memo, this`copies, this`triggers
      ensures ValidCopies()
      ensures Extends(old(copies), copies) && Extends(old(triggers), triggers)
      ensures forall j :: |old(triggers)| <= j < |triggers| ==> triggers[j] in ForestSubtrees(t.children)
      ensures old(memo).Keys <= memo.Keys <= old(memo).Keys + ForestIDs(t.children)
      ensures err.None? ==> ForestIDs(t.children) <= memo.Keys
      ensures err.Some? ==> exists s :: s in ForestSubtrees(t.children) && StuckAt(s, memo, related, publishing, copyFault, versionFault)
      decreases t, 1
    {
      var i := 0;
      while i < |t.children|
        invariant 0 <= i <= |t.children|
        invariant ValidCopies()
        invariant Extends(old(copies), copies) && Extends(old(triggers), triggers)
        invariant forall j :: |old(triggers)| <= j < |triggers| ==> triggers[j] in ForestSubtrees(t.children[..i])
        invariant old(memo).Keys <= memo.Keys <= old(memo).Keys + ForestIDs(t.children[..i])
        invariant ForestIDs(t.children[..i]) <= memo.Keys
      {
        err := MaterializeAt(t, i, old(copies), old(triggers), old(memo).Keys);
        if err.Some? {
          return;
        }
        i := i + 1;
      }
      assert t.children[..i] == t.children;
      err := None;
    }

    /**
     * One iteration of that loop: child i materialised, with what the copies,
     * triggers and memo keys were when the loop started (`c0`, `t0`, `m0`).
     */
    method MaterializeAt(t: RefTree, i: nat, ghost c0: seq<Copied>, ghost t0: seq<RefTree>, ghost m0: set<int>)
      returns (err: Option<CopyError>)
      requires ValidCopies() && i < |t.children|
      requires Extends(c0, copies) && Extends(t0, triggers)
      requires forall j :: |t0| <= j < |triggers| ==> triggers[j] in ForestSubtrees(t.children[..i])
      requires m0 <= memo.Keys <= m0 + ForestIDs(t.children[..i]) && ForestIDs(t.children[..i]) <= memo.Keys
      modifies this`memo, this`copies, this`triggers
      ensures ValidCopies()
      ensures Extends(c0, copies) && Extends(t0, triggers)
      ensures forall j :: |t0| <= j < |triggers| ==> triggers[j] in ForestSubtrees(t.children[..i + 1])
      ensures forall j :: |t0| <= j < |triggers| ==> triggers[j] in ForestSubtrees(t.children)
      ensures m0 <= memo.Keys <= m0 + ForestIDs(t.children[..i + 1]) && memo.Keys <= m0 + ForestIDs(t.children)
      ensures err.None? ==> ForestIDs(t.children[..i + 1]) <= memo.Keys
      ensures err.Some? ==> exists s :: s in ForestSubtrees(t.children) && StuckAt(s, memo, related, publishing, copyFault, versionFault)
      decreases t, 0
    {
      ghost var before := triggers;
      ghost var beforeCopies := copies;
      ghost var keysBefore := memo.Keys;
      err := Materialize(t.children[i]);
      TriggersStep(t0, before, triggers, t.children, i);
      KeysStep(m0, keysBefore, memo.Keys, t.children, i, err.None?);
      ExtendsChain(c0, beforeCopies, copies);
      if err.Some? {
        ghost var s :| s in Subtrees(t.children[i]) && StuckAt(s, memo, related, publishing, copyFault, versionFault);
        ForestMembers(t.children, i);
      }
    }

    /** One iteration of `DuplicateWorkflowsByAppID`'s loop: build a draft's tree and materialise it. */
    method CopyDraft(id: int, fuel: nat) returns (err: Option<CopyError>)
      requires ValidBuild() && ValidCopies() && AllBuilt(drafts, triggers) && memo.Keys <= drafts.Keys
      requires id in drafts
      modifies this`verified, this`issues, this`validated, this`memo, this`copies, this`triggers
      ensures ValidBuild() && ValidCopies() && AllBuilt(drafts, triggers)
      ensures old(memo).Keys <= memo.Keys <= drafts.Keys
      ensures err.None? ==> id in memo
      ensures err.Some? ==> BuildsRefs(drafts, validate, validating, drafts[id].canvas, {}, fuel).None? ||
                            exists s :: Built(drafts, s) && StuckAt(s, memo, related, publishing, copyFault, versionFault)
    {
      assert ChildIDs([]) == {};
      var children := Build(drafts[id].canvas, [], fuel);
      if children.Err? {
        return Some(children.error);
      }
      assert children.value[0..] == children.value;
      var root := RefTree(id, drafts[id], children.value);
      assert Built(drafts, root);
      BuiltIDs(drafts, root);
      ghost var n0 := |triggers|;
      ghost var before := triggers;
      err := Materialize(root);
      forall j | 0 <= j < |triggers| ensures Built(drafts, triggers[j]) {
        if j < n0 {
          assert triggers[j] == before[j];
        } else {
          BuiltSubtrees(drafts, root, triggers[j]);
        }
      }
      if err.Some? {
        ghost var s :| s in Subtrees(root) && StuckAt(s, memo, related, publishing, copyFault, versionFault);
        BuiltSubtrees(drafts, root, s);
      }
    }

    /**
     * The loop of `DuplicateWorkflowsByAppID` over the app's drafts; `keys`
     * is the order Go's map iteration happens to take, which the source leaves
     * unspecified.
     */
    /** Ready for the next draft: the build and copy state consistent, every trigger built, the memo within the drafts. */
    ghost predicate Ready()
      reads this`verified, this`issues, this`validated, this`memo, this`copies, this`triggers
    {
      ValidBuild() && ValidCopies() && AllBuilt(drafts, triggers) && memo.Keys <= drafts.Keys
    }

    /**
     * Why a copy of the app's drafts stops: the build of some draft fails, or
     * some built tree is due and its own copy fails.
     */
    ghost predicate FailureExplained(fuel: nat)
      reads this`memo
    {
      || (exists k :: k in drafts && BuildsRefs(drafts, validate, validating, drafts[k].canvas, {}, fuel).None?)
      || exists s :: Built(drafts, s) && StuckAt(s, memo, related, publishing, copyFault, versionFault)
    }

    /** One iteration of the loop: a draft the memo lacks is copied. */
    method CopyNext(id: int, fuel: nat) returns (err: Option<CopyError>)
      requires Ready() && id in drafts
      modifies this`verified, this`issues, this`validated, this`memo, this`copies, this`triggers
      ensures Ready()
      ensures old(memo).Keys <= memo.Keys
      ensures err.None? ==> id in memo
      ensures err.Some? ==> FailureExplained(fuel)
    {
      if id in memo {
        return None;
      }
      err := CopyDraft(id, fuel);
    }

    method CopyAll(keys: seq<int>, fuel: nat) returns (err: Option<CopyError>)
      requires Ready()
      requires forall k :: k in drafts <==> k in keys
      modifies this`verified, this`issues, this`validated, this`memo, this`copies, this`triggers
      ensures Ready()
      ensures err.None? ==> memo.Keys == drafts.Keys
      ensures err.Some? ==> FailureExplained(fuel)
    {
      var i := 0;
      while i < |keys|
        invariant 0 <= i <= |keys|
        invariant Ready()
        invariant AllIn(keys[..i], memo.Keys)
      {
        ghost var before := memo.Keys;
        err := CopyNext(keys[i], fuel);
        if err.Some? {
          return;
        }
        AllInStep(keys, i, before, memo.Keys);
        i := i + 1;
      }
      assert keys[..i] == keys;
      KeysCovered(keys, drafts.Keys, memo.Keys);
      err := None;
    }
  }

  /** Every element of `ks` is in `s`. */
  predicate AllIn(ks: seq<int>, s: set<int>)
  {
    forall j :: 0 <= j < |ks| ==> ks[j] in s
  }

  lemma AllInStep(ks: seq<int>, i: nat, before: set<int>, after: set<int>)
    requires i < |ks| && AllIn(ks[..i], before) && before <= after && ks[i] in after
    ensures AllIn(ks[..i + 1], after)
  {
    assert forall j :: 0 <= j < i ==> ks[..i + 1][j] == ks[..i][j];
  }

  /** Keys that list every draft, all in the memo, put every draft in the memo. */
  lemma KeysCovered(keys: seq<int>, draftIDs: set<int>, memoIDs: set<int>)
    requires forall k :: k in draftIDs <==> k in keys
    requires AllIn(keys, memoIDs)
    ensures draftIDs <= memoIDs
  {
    forall k | k in draftIDs ensures k in memoIDs {
      var j :| 0 <= j < |keys| && keys[j] == k;
    }
  }

  /** A forest's first `i + 1` trees are its first `i` and tree `i`. */
  lemma ForestStep(cs: seq<RefTree>, i: nat)
    requires i < |cs|
    ensures ForestIDs(cs[..i + 1]) == ForestIDs(cs[..i]) + TreeIDs(cs[i])
    ensures ForestSubtrees(cs[..i + 1]) == ForestSubtrees(cs[..i]) + Subtrees(cs[i])
  {
    assert cs[..i + 1] == cs[..i] + [cs[i]];
    ForestAppend(cs[..i], [cs[i]]);
    assert [cs[i]][1..] == [];
  }

  lemma ForestPrefix(cs: seq<RefTree>, i: nat)
    requires i <= |cs|
    ensures ForestIDs(cs[..i]) <= ForestIDs(cs)
    ensures ForestSubtrees(cs[..i]) <= ForestSubtrees(cs)
  {
    assert cs == cs[..i] + cs[i..];
    ForestAppend(cs[..i], cs[i..]);
  }

  /** The edges `canvasToRefs` finds in a canvas saved under `referringID`. */
  ghost predicate RefsOf(referringID: int, canvas: seq<Node>, refs: set<ReferenceKey>)
  {
    forall k :: k in refs <==>
      exists j :: 0 <= j < |Mentions(canvas)| && ParseInt64(Mentions(canvas)[j].id).Some?
        && k == KeyOf(referringID, Mentions(canvas)[j])
  }

  /** A copy's canvas: the original rewritten in place by `replaceRelated` through the memo. */
  method CopyCanvas(canvas: seq<Node>, memo: map<int, IDVersionPair>, related: ExternalResourceRelated)
    returns (r: Result<seq<Node>, CopyError>)
    ensures RewriteNodes(canvas, memo, related).Err? ==> r == Err(RewriteFailed(RewriteNodes(canvas, memo, related).error))
    ensures RewriteNodes(canvas, memo, related).Ok? ==> r == Ok(RewriteNodes(canvas, memo, related).value)
  {
    var a := new Node[|canvas|](j requires 0 <= j < |canvas| => canvas[j]);
    assert a[..] == canvas;
    var rewriteError := ReplaceRelated(a, memo, related);
    if rewriteError.Some? {
      return Err(RewriteFailed(rewriteError.value));
    }
    return Ok(a[..]);
  }

  /** The triggers after materialising child i extend those before and come from the first i + 1 children. */
  lemma TriggersStep(t0: seq<RefTree>, before: seq<RefTree>, after: seq<RefTree>, cs: seq<RefTree>, i: nat)
    requires i < |cs|
    requires Extends(t0, before) && Extends(before, after)
    requires forall j :: |t0| <= j < |before| ==> before[j] in ForestSubtrees(cs[..i])
    requires forall j :: |before| <= j < |after| ==> after[j] in Subtrees(cs[i])
    ensures Extends(t0, after)
    ensures forall j :: |t0| <= j < |after| ==> after[j] in ForestSubtrees(cs[..i + 1])
    ensures forall j :: |t0| <= j < |after| ==> after[j] in ForestSubtrees(cs)
  {
    ForestStep(cs, i);
    ForestPrefix(cs, i + 1);
    ExtendsChain(t0, before, after);
    forall j | |t0| <= j < |after| ensures after[j] in ForestSubtrees(cs[..i + 1]) {
      if j < |before| {
        assert after[j] == before[j];
      }
    }
  }

  /** The memo keys after materialising child i stay within the first i + 1 children's IDs, and cover them on success. */
  lemma KeysStep(m0: set<int>, before: set<int>, after: set<int>, cs: seq<RefTree>, i: nat, ok: bool)
    requires i < |cs|
    requires m0 <= before <= m0 + ForestIDs(cs[..i]) && ForestIDs(cs[..i]) <= before
    requires before <= after <= before + TreeIDs(cs[i])
    requires ok ==> TreeIDs(cs[i]) <= after
    ensures m0 <= after <= m0 + ForestIDs(cs[..i + 1]) && after <= m0 + ForestIDs(cs)
    ensures ok ==> ForestIDs(cs[..i + 1]) <= after
  {
    ForestStep(cs, i);
    ForestPrefix(cs, i + 1);
  }

  lemma ExtendsChain<T>(a: seq<T>, b: seq<T>, c: seq<T>)
    requires Extends(a, b) && Extends(b, c)
    ensures Extends(a, c)
  {
    assert c[..|a|] == c[..|b|][..|a|];
  }

  lemma AppendChild(children: seq<RefTree>, child: RefTree)
    requires DistinctIDs(children) && child.id !in ChildIDs(children)
    ensures Extends(children, children + [child]) && DistinctIDs(children + [child])
    ensures (children + [child])[|children|..] == [child]
    ensures ChildIDs(children + [child]) == ChildIDs(children) + {child.id}
    ensures ForestIDs([child]) == TreeIDs(child)
  {
    var cs := children + [child];
    assert cs[..|children|] == children;
    forall i | 0 <= i < |children| ensures cs[i] == children[i] && children[i].id != child.id {
      assert children[i].id in ChildIDs(children);
    }
    forall k | k in ChildIDs(cs) ensures k in ChildIDs(children) + {child.id} {
      var i :| 0 <= i < |cs| && cs[i].id == k;
      if i < |children| { assert cs[i] == children[i]; }
    }
    forall k | k in ChildIDs(children) ensures k in ChildIDs(cs) {
      var i :| 0 <= i < |children| && children[i].id == k;
      assert cs[i] == children[i];
    }
    assert cs[|children|].id == child.id;
    assert [child][1..] == [];
  }

  /** `entity.CopyWorkflowFromAppToLibraryResult`. */
  datatype LibraryCopyResult =
    | ValidateIssues(issues: seq<WorkflowIssues>)
    | Published(idVersionMap: map<int, IDVersionPair>, copied: seq<Copied>)

  /**
   * `CopyWorkflowFromAppToLibrary`: validate the workflow and everything it
   * references; any issue stops the copy and is reported. Otherwise every
   * workflow of the reference tree is copied into the library exactly once,
   * referenced ones before the workflows that refer to them, and published at
   * `PublishVersion`. `firstID` stands for the IDs the repository hands out,
   * `copyFault` and `versionFault` for its answers to `CopyWorkflow` and
   * `CreateVersion`, and `fuel` bounds the depth of the reference tree.
   */
  method CopyWorkflowFromAppToLibrary(
    workflowID: int, draft: DraftInfo, drafts: map<int, DraftInfo>,
    validate: seq<Node> -> Result<seq<Issue>, string>, related: ExternalResourceRelated,
    firstID: int, copyFault: int -> Option<string>, versionFault: int -> Option<string>, fuel: nat)
    returns (r: Result<LibraryCopyResult, CopyError>, ghost tree: RefTree, ghost order: seq<RefTree>, ghost done: seq<Copied>)
    ensures validate(draft.canvas).Err? ==> r.Err?
    ensures validate(draft.canvas).Ok? && BuildsRefs(drafts, validate, true, draft.canvas, {}, fuel).None? ==> r.Err?
    ensures r.Ok? ==> validate(draft.canvas).Ok? && BuildsRefs(drafts, validate, true, draft.canvas, {}, fuel) == Some(ChildIDs(tree.children))
    ensures r.Err? ==>
              || validate(draft.canvas).Err?
              || BuildsRefs(drafts, validate, true, draft.canvas, {}, fuel).None?
              || (&& tree.id == workflowID && ReferenceTree(drafts, tree)
                  && exists s :: s in Subtrees(tree) && StuckAt(s, MemoOf(done, PublishVersion), related, true, copyFault, versionFault))
    ensures (&& validate(draft.canvas).Ok? && BuildsRefs(drafts, validate, true, draft.canvas, {}, fuel).Some?
             && forall s, m :: CopySucceeds(s, m, related, true, copyFault, versionFault)) ==> r.Ok?
    ensures r.Ok? ==> tree.id == workflowID && tree.draft == draft && ReferenceTree(drafts, tree)
    ensures r.Ok? && r.value.ValidateIssues? ==>
              |r.value.issues| > 0 && Reported(r.value.issues, workflowID, draft, drafts, validate, tree.children)
    ensures r.Ok? ==> (r.value.Published? <==> Clean(draft, drafts, validate, tree.children))
    ensures r.Ok? && r.value.Published? ==> r.value.idVersionMap == MemoOf(r.value.copied, PublishVersion)
    ensures r.Ok? && r.value.Published? ==> Originals(r.value.copied) == TreeIDs(tree)
    ensures r.Ok? && r.value.Published? ==> CopiesInvariant(r.value.copied, order, PublishVersion, related, firstID)
    ensures r.Ok? && r.value.Published? ==>
              forall i :: 0 <= i < |order| ==> order[i] in Subtrees(tree) && ReferenceTree(drafts, order[i])
  {
    tree := RefTree(workflowID, draft, []);
    order := [];
    done := [];
    var rootIssues := validate(draft.canvas);
    if rootIssues.Err? {
      return Err(ValidationFailed(rootIssues.error)), tree, order, done;
    }
    var initial := if |rootIssues.value| > 0 then [WorkflowIssues(workflowID, rootIssues.value)] else [];
    var copier := new ClosureCopy(drafts, validate, true, true, related, firstID, copyFault, versionFault, initial);
    assert ChildIDs([]) == {};
    var children := copier.Build(draft.canvas, [], fuel);
    if children.Err? {
      return Err(children.error), tree, order, done;
    }
    assert children.value[0..] == children.value;
    var root := RefTree(workflowID, draft, children.value);
    tree := root;
    assert ReferenceTree(drafts, root);
    assert copier.verified == ForestIDs(children.value);
    r, order, done := PublishTree(copier, root);
  }

  /**
   * The rest of `CopyWorkflowFromAppToLibrary` once the reference tree `t` is
   * built: any recorded issue stops it and is reported; otherwise the tree is
   * materialised into the library and published.
   */
  method PublishTree(c: ClosureCopy, t: RefTree)
    returns (r: Result<LibraryCopyResult, CopyError>, ghost order: seq<RefTree>, ghost done: seq<Copied>)
    requires c.ValidBuild() && c.ValidCopies() && c.publishing && c.validating
    requires c.memo == map[] && c.copies == [] && c.triggers == []
    requires ReferenceTree(c.drafts, t) && c.verified == ForestIDs(t.children)
    requires c.validate(t.draft.canvas).Ok?
    requires c.rootIssues == if |c.validate(t.draft.canvas).value| > 0
                             then [WorkflowIssues(t.id, c.validate(t.draft.canvas).value)] else []
    modifies c`memo, c`copies, c`triggers
    ensures r.Ok? && r.value.ValidateIssues? ==>
              |r.value.issues| > 0 && Reported(r.value.issues, t.id, t.draft, c.drafts, c.validate, t.children)
    ensures r.Ok? ==> (r.value.Published? <==> Clean(t.draft, c.drafts, c.validate, t.children))
    ensures r.Err? ==>
              exists s :: s in Subtrees(t) && StuckAt(s, MemoOf(done, PublishVersion), c.related, true, c.copyFault, c.versionFault)
    ensures r.Ok? && r.value.Published? ==> r.value.idVersionMap == MemoOf(r.value.copied, PublishVersion)
    ensures r.Ok? && r.value.Published? ==> Originals(r.value.copied) == TreeIDs(t)
    ensures r.Ok? && r.value.Published? ==> CopiesInvariant(r.value.copied, order, PublishVersion, c.related, c.firstID)
    ensures r.Ok? && r.value.Published? ==>
              forall i :: 0 <= i < |order| ==> order[i] in Subtrees(t) && ReferenceTree(c.drafts, order[i])
  {
    order := [];
    done := [];
    if |c.issues| > 0 {
      IssuesOutcome(c, t.id, t.draft, t.children);
      return Ok(ValidateIssues(c.issues)), order, done;
    }
    CleanValidation(c, t.draft, t.children);
    var err := c.Materialize(t);
    done := c.copies;
    if err.Some? {
      return Err(err.value), order, done;
    }
    order := c.triggers;
    LibraryOutcome(c, t);
    r := Ok(Published(c.memo, c.copies));
  }

  /** No workflow of the tree has an issue: the root's draft and every referenced draft validate cleanly. */
  ghost predicate Clean(draft: DraftInfo, drafts: map<int, DraftInfo>, validate: seq<Node> -> Result<seq<Issue>, string>,
                        cs: seq<RefTree>)
  {
    && validate(draft.canvas) == Ok([])
    && forall k :: k in ForestIDs(cs) ==> k in drafts && validate(drafts[k].canvas) == Ok([])
  }

  /**
   * `issues` reports the tree under the root `workflowID`: no entry is empty,
   * each is the root's issues or those of a referenced draft of the tree, the
   * root has its entry when it has issues, and so does every referenced
   * draft, all of which validate.
   */
  ghost predicate Reported(issues: seq<WorkflowIssues>, workflowID: int, draft: DraftInfo, drafts: map<int, DraftInfo>,
                           validate: seq<Node> -> Result<seq<Issue>, string>, cs: seq<RefTree>)
  {
    && (forall w :: w in issues ==> |w.issues| > 0)
    && (forall w :: w in issues ==>
          || (w.workflowID == workflowID && validate(draft.canvas) == Ok(w.issues))
          || (w.workflowID in ForestIDs(cs) && w.workflowID in drafts && validate(drafts[w.workflowID].canvas) == Ok(w.issues)))
    && (validate(draft.canvas).Ok? && validate(draft.canvas).value != [] ==>
          WorkflowIssues(workflowID, validate(draft.canvas).value) in issues)
    && (forall k :: k in ForestIDs(cs) ==>
          && k in drafts && validate(drafts[k].canvas).Ok?
          && (validate(drafts[k].canvas).value != [] ==> WorkflowIssues(k, validate(drafts[k].canvas).value) in issues))
  }

  /** What the build leaves when it recorded an issue: the report on the tree, which is then not clean. */
  lemma IssuesOutcome(c: ClosureCopy, workflowID: int, draft: DraftInfo, cs: seq<RefTree>)
    requires c.ValidBuild() && c.verified == ForestIDs(cs) && |c.issues| > 0
    requires c.validate(draft.canvas).Ok?
    requires c.rootIssues == if |c.validate(draft.canvas).value| > 0
                             then [WorkflowIssues(workflowID, c.validate(draft.canvas).value)] else []
    ensures Reported(c.issues, workflowID, draft, c.drafts, c.validate, cs)
    ensures !Clean(draft, c.drafts, c.validate, cs)
  {
    var w := c.issues[0];
    assert w in c.issues;
    if c.validate(draft.canvas).value != [] {
      assert c.issues[..|c.rootIssues|][0] == c.issues[0];
    } else {
      assert w.workflowID in ForestIDs(cs) && c.validate(c.drafts[w.workflowID].canvas) != Ok([]);
    }
  }

  /** With no issue recorded, the tree is clean. */
  lemma CleanValidation(c: ClosureCopy, draft: DraftInfo, cs: seq<RefTree>)
    requires c.ValidBuild() && c.issues == [] && ForestIDs(cs) <= c.verified && c.validate(draft.canvas) == Ok([])
    ensures Clean(draft, c.drafts, c.validate, cs)
  {
  }

  /**
   * What a finished library copy holds: the tree's workflows, each copied
   * once, in a valid order, each copy made from a reference tree.
   */
  lemma LibraryOutcome(c: ClosureCopy, t: RefTree)
    requires c.ValidCopies() && c.publishing && c.memo.Keys == TreeIDs(t) && ReferenceTree(c.drafts, t)
    requires forall i :: 0 <= i < |c.triggers| ==> c.triggers[i] in Subtrees(t)
    ensures Originals(c.copies) == TreeIDs(t)
    ensures c.memo == MemoOf(c.copies, PublishVersion)
    ensures CopiesInvariant(c.copies, c.triggers, PublishVersion, c.related, c.firstID)
    ensures forall i :: 0 <= i < |c.triggers| ==> ReferenceTree(c.drafts, c.triggers[i])
  {
    CopyChainInvariant(c.copies, c.triggers, PublishVersion, c.related, c.firstID);
    MemoMeaning(c.copies, PublishVersion);
    forall i | 0 <= i < |c.triggers| ensures ReferenceTree(c.drafts, c.triggers[i]) {
      ReferenceSubtrees(c.drafts, t, c.triggers[i]);
    }
  }

  /**
   * `DuplicateWorkflowsByAppID`: every draft of the app, in the map's
   * (unspecified) iteration order `keys`, has its reference tree built and
   * materialised against one shared memo, so every draft is copied exactly
   * once; then the app's template conversations are copied, with
   * `conversationFault` the repository's answer to that.
   */
  method DuplicateWorkflowsByAppID(drafts: map<int, DraftInfo>, keys: seq<int>, related: ExternalResourceRelated,
                                   firstID: int, copyFault: int -> Option<string>, conversationFault: Option<string>,
                                   fuel: nat)
    returns (r: Result<seq<Copied>, CopyError>, ghost order: seq<RefTree>, ghost done: seq<Copied>)
    requires forall k :: k in drafts <==> k in keys
    ensures conversationFault.Some? ==> r.Err?
    ensures r.Err? ==>
              || conversationFault.Some?
              || (exists k :: k in drafts && BuildsRefs(drafts, NoIssues, false, drafts[k].canvas, {}, fuel).None?)
              || exists s :: Built(drafts, s) && StuckAt(s, MemoOf(done, ""), related, false, copyFault, NoFault)
    ensures (&& conversationFault.None?
             && (forall k :: k in drafts ==> BuildsRefs(drafts, NoIssues, false, drafts[k].canvas, {}, fuel).Some?)
             && forall s, m :: CopySucceeds(s, m, related, false, copyFault, NoFault)) ==> r.Ok?
    ensures r.Ok? ==> Originals(r.value) == drafts.Keys
    ensures r.Ok? ==> CopiesInvariant(r.value, order, "", related, firstID)
    ensures r.Ok? ==> forall i :: 0 <= i < |order| ==> Built(drafts, order[i])
    ensures r.Ok? ==> forall i :: 0 <= i < |r.value| ==> ReferencesCopiedBefore(drafts, r.value, i)
  {
    var copier := new ClosureCopy(drafts, NoIssues, false, false, related, firstID, copyFault, NoFault, []);
    order := [];
    var err := copier.CopyAll(keys, fuel);
    done := copier.copies;
    if err.Some? {
      DuplicateFailure(copier, drafts, related, copyFault, fuel);
      return Err(err.value), order, done;
    }
    if conversationFault.Some? {
      return Err(StoreFailed(conversationFault.value)), order, done;
    }
    order := copier.triggers;
    DuplicateOutcome(copier);
    var copies := copier.copies;
    r := Ok(copies);
  }

  /** Why a duplication stops, in the terms of its parameters. */
  lemma DuplicateFailure(c: ClosureCopy, drafts: map<int, DraftInfo>, related: ExternalResourceRelated,
                         copyFault: int -> Option<string>, fuel: nat)
    requires c.drafts == drafts && c.related == related && c.copyFault == copyFault
    requires c.validate == NoIssues && !c.validating && !c.publishing && c.versionFault == NoFault
    requires c.ValidCopies() && c.FailureExplained(fuel)
    ensures || (exists k :: k in drafts && BuildsRefs(drafts, NoIssues, false, drafts[k].canvas, {}, fuel).None?)
            || exists s :: Built(drafts, s) && StuckAt(s, MemoOf(c.copies, ""), related, false, copyFault, NoFault)
  {
    if exists k :: k in c.drafts && BuildsRefs(c.drafts, c.validate, c.validating, c.drafts[k].canvas, {}, fuel).None? {
      var k :| k in c.drafts && BuildsRefs(c.drafts, c.validate, c.validating, c.drafts[k].canvas, {}, fuel).None?;
      assert k in drafts && BuildsRefs(drafts, NoIssues, false, drafts[k].canvas, {}, fuel).None?;
    } else {
      var s :| Built(c.drafts, s) && StuckAt(s, c.memo, c.related, c.publishing, c.copyFault, c.versionFault);
      assert c.memo == MemoOf(c.copies, "");
      assert Built(drafts, s) && StuckAt(s, MemoOf(c.copies, ""), related, false, copyFault, NoFault);
    }
  }

  /** Copy `i` is of an app draft, and every app draft that draft's canvas refers to was copied before it. */
  ghost predicate ReferencesCopiedBefore(drafts: map<int, DraftInfo>, copies: seq<Copied>, i: nat)
    requires i < |copies|
  {
    && copies[i].original in drafts
    && var refs := WalkRefs(drafts[copies[i].original].canvas, {}, drafts.Keys);
       refs.Some? && refs.value <= Originals(copies[..i])
  }

  /** What a finished duplication holds: every draft copied once, after the drafts it refers to. */
  lemma DuplicateOutcome(c: ClosureCopy)
    requires c.ValidCopies() && c.memo.Keys == c.drafts.Keys && AllBuilt(c.drafts, c.triggers) && !c.publishing
    ensures Originals(c.copies) == c.drafts.Keys
    ensures CopiesInvariant(c.copies, c.triggers, "", c.related, c.firstID)
    ensures forall i :: 0 <= i < |c.copies| ==> ReferencesCopiedBefore(c.drafts, c.copies, i)
  {
    CopyChainInvariant(c.copies, c.triggers, "", c.related, c.firstID);
    MemoMeaning(c.copies, "");
    forall i | 0 <= i < |c.copies| ensures ReferencesCopiedBefore(c.drafts, c.copies, i) {
      CopiedAfterReferences(c.drafts, c.copies, c.triggers, "", c.related, c.firstID, i);
    }
  }

  /** A copy made from a built tree comes after the copies of every draft its canvas refers to. */
  lemma CopiedAfterReferences(drafts: map<int, DraftInfo>, copies: seq<Copied>, triggers: seq<RefTree>, version: string,
                              related: ExternalResourceRelated, firstID: int, i: nat)
    requires CopiesInvariant(copies, triggers, version, related, firstID) && AllBuilt(drafts, triggers)
    requires i < |copies|
    ensures ReferencesCopiedBefore(drafts, copies, i)
  {
    var t := triggers[i];
    assert Built(drafts, t) && ReferenceTree(drafts, t);
    assert copies[i].original == t.id && drafts[t.id] == t.draft;
    assert WalkRefs(t.draft.canvas, {}, drafts.Keys) == Some(ChildIDs(t.children));
    assert ChildIDs(t.children) <= Originals(copies[..i]);
  }

  /** A built tree only holds draft IDs. */
  lemma {:induction false} BuiltIDs(drafts: map<int, DraftInfo>, t: RefTree)
    requires Built(drafts, t)
    ensures TreeIDs(t) <= drafts.Keys
    decreases t, 0
  {
    BuiltForestIDs(drafts, t.children);
  }

  lemma {:induction false} BuiltForestIDs(drafts: map<int, DraftInfo>, cs: seq<RefTree>)
    requires AllBuilt(drafts, cs)
    ensures ForestIDs(cs) <= drafts.Keys
    decreases cs, 1
  {
    if cs != [] {
      BuiltIDs(drafts, cs[0]);
      BuiltForestIDs(drafts, cs[1..]);
    }
  }

  /** Every subtree of a built tree is built. */
  lemma {:induction false} BuiltSubtrees(drafts: map<int, DraftInfo>, t: RefTree, s: RefTree)
    requires Built(drafts, t) && s in Subtrees(t)
    ensures Built(drafts, s)
    decreases t, 0
  {
    if s != t {
      BuiltForestSubtrees(drafts, t.children, s);
    }
  }

  lemma {:induction false} BuiltForestSubtrees(drafts: map<int, DraftInfo>, cs: seq<RefTree>, s: RefTree)
    requires AllBuilt(drafts, cs) && s in ForestSubtrees(cs)
    ensures Built(drafts, s)
    decreases cs, 1
  {
    if s in Subtrees(cs[0]) {
      BuiltSubtrees(drafts, cs[0], s);
    } else {
      BuiltForestSubtrees(drafts, cs[1..], s);
    }
  }

  /** Every subtree of a reference tree is a reference tree. */
  lemma ReferenceSubtrees(drafts: map<int, DraftInfo>, t: RefTree, s: RefTree)
    requires ReferenceTree(drafts, t) && s in Subtrees(t)
    ensures ReferenceTree(drafts, s)
  {
    if s != t {
      BuiltForestSubtrees(drafts, t.children, s);
    }
  }
}
