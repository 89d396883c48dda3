# Coze Studio backend core, modelled in Dafny

This project models the core rules of the Coze Studio backend: the workflow
service, the plugin tool executor, the plugin application service, the
user service, and the session middlewares. Two node behaviours are modelled
from their table tests: the question-answer workflow node and the
multimodal message fallback.

The modules follow the repository's structure:

- `Canvas`, `Decimal`, `Strings` and `Wrappers` define the decoded workflow
  canvas and the Go library operations the core relies on:
  - `strconv.ParseInt` and `strconv.FormatInt`;
  - `strings.Split`, `Contains` and `ToLower`;
  - `(value, error)` results.
- `WorkflowDraft` covers a draft's input and output parameters, the
  "test run succeeded" flag, the gates of `Publish`, the node-schema flags
  and `adaptToChatFlow`.
- `WorkflowCheck` is `WorkflowSchemaCheck`: a breadth-first walk over a
  canvas, its blocks and the canvases of the workflows it refers to. A
  `visited` set guards the walk.
- `WorkflowRefs` is `canvasToRefs`: the reference edges stored with a
  published version.
- `WorkflowRewrite` is `replaceRelatedWorkflowOrExternalResourceInWorkflowNodes`:
  it rewrites the IDs a canvas refers to through old-to-new maps, and updates
  the node list in place.
- `WorkflowCopy` is `CopyWorkflowFromAppToLibrary` and
  `DuplicateWorkflowsByAppID`. A class holds the copy process's mutable
  state: the verified set, the issues, the memo and the copied list. The
  model proves that every workflow of the closure is copied exactly once, that
  each reference tree's children are exactly the drafts its canvas refers
  to, and that each copy comes after the copies of those drafts. It also
  says when they fail: a build fails exactly when the functional reading
  `BuildsRefs` does (an unparsable ID, a failing validation, or no depth
  left), and a failing copy names a workflow whose own copy failed.
- `ToolResponse` and `ToolExecutor` trim a tool's JSON response against its
  declared schema under the three invalid-response strategies. They also
  cover `processResponse`, `execute`, `acquireAccessTokenIfNeed` and schema
  inference.
- `PluginAuth` covers `PluginAuthInfo.ToAuthV2`. `PluginApp` covers the
  product-list keyword filter, the product extra info, the draft access
  check and the edit lock.
- `UserRules` covers the user service: profile validation, the names
  derived from an e-mail address, the admission checks of `Create`, the
  password-hash layout, and the session key's signature and expiry.
- `SessionMiddleware` covers `SessionAuthMW` and `AdminAuthMW`.
- `QuestionAnswer` is the checkpointed question-answer node, as a class
  whose `Invoke` runs at first start and at every resume.
- `Multimodal` covers the agent runner's `preHandlerInput` and
  `concatContentString`, the LLM node's `transformMessagePart`, and
  `URLToBase64`.

Storage, JSON encoding and decoding, cryptography, the clock, ID
generation, HTTP and LLM calls are parameters. These include functions,
repository answers passed as `Result`/`Option` values, and the first ID
handed out.

## Model

| member | source | states |
|---|---|---|
| Canvas.IdentitiesArePreorderSubWorkflows | backend/domain/workflow/service/service_impl.go:291-312 | `getAllSubWorkflowIdentities` returns exactly the identities of the sub-workflow nodes at every depth, in pre-order (each node before its blocks, and its blocks before its later siblings) |
| Canvas.SubWorkflowsOfMembers | backend/domain/workflow/service/service_impl.go:291-312 | every collected identity belongs to a sub-workflow node of the canvas, and every sub-workflow node's identity is collected |
| Canvas.FlattenClosed | backend/domain/workflow/service/service_impl.go:291-312 | a node nested in a visited node is itself visited, so the traversal misses no depth |
| Decimal.ParseInt64 | backend/domain/workflow/service/service_impl.go:1697-1700 | a parsed ID fits in 64 bits and comes from a non-empty string |
| Decimal.ParseFormat | backend/domain/workflow/service/service_impl.go:2044-2055 | every 64-bit ID that `FormatInt` writes into a rewritten canvas parses back to the same number |
| Decimal.FormatNatValue | backend/domain/workflow/service/service_impl.go:2044-2055 | the decimal digits written for a number denote that number |
| Strings.SplitShape | backend/domain/user/service/user_impl.go:535 | `strings.Split` gives one more piece than there are separators; no piece holds the separator; the first piece is the text before the first separator |
| Strings.JoinSplit | backend/domain/user/service/user_impl.go:535 | joining the pieces of a split restores the string |
| Strings.SplitJoin | backend/domain/user/service/user_impl.go:535 | splitting a join of separator-free pieces gives the pieces back |
| Strings.ContainsAt | backend/application/plugin/plugin.go:151 | `Contains(s, sub)` holds if and only if `sub` occurs in `s` at some offset |
| Strings.ToLower | backend/application/plugin/plugin.go:151 | lower-casing keeps the length and lower-cases each character |
| Strings.ToLowerIdempotent | backend/application/plugin/plugin.go:151 | lower-casing twice is lower-casing once |
| WorkflowDraft.ExtractInputsAndOutputs | backend/domain/workflow/service/service_impl.go:166-218 | the scan stops once both an entry and an exit node have been seen, and the last of each kind in the scanned prefix wins; the inputs are the selected entry node's converted outputs, and the outputs are the selected exit node's converted input parameters; a failed conversion gives an empty list |
| WorkflowDraft.SelectedIffPresent | backend/domain/workflow/service/service_impl.go:166-218 | an entry (or exit) node is selected if and only if the canvas has one |
| WorkflowDraft.UniqueEntrySelected | backend/domain/workflow/service/service_impl.go:166-218 | with a single entry node, that node's outputs are the draft's inputs |
| WorkflowDraft.TransformAll | backend/domain/workflow/service/service_impl.go:190-214 | the conversion succeeds with every element converted in order, or fails only when some element does not convert |
| WorkflowDraft.CalculateTestRunSuccess | backend/domain/workflow/service/service_impl.go:1920-1946 | a lookup error is an error only when the new canvas compiles; the flag survives if and only if the new schema is execution-equal to the stored one and the stored flag was set |
| WorkflowDraft.ResaveKeepsFlag | backend/domain/workflow/service/service_impl.go:1920-1946 | saving a canvas that compiles to the stored schema keeps the stored flag |
| WorkflowDraft.Publish | backend/domain/workflow/service/service_impl.go:695-749 | publishing succeeds exactly when the meta and draft are found, both versions pass the incremental gate, a test run passed or the publish is forced, the reference edges parse and `CreateVersion` succeeds; the version created carries the draft's canvas, parameters, commit and edges; each failure has its own error: missing meta, an unparsable version, "not incremental" exactly when both versions parse and are not incremental, missing draft, no test run, unparsable edges, and the store's error |
| WorkflowDraft.IsEnableUserQueryMeaning | backend/domain/workflow/service/service_impl.go:493-513 | a node enables the user query if and only if it is an entry node with a single-segment user-input output source |
| WorkflowDraft.IsRefGlobalVariableMeaning | backend/domain/workflow/service/service_impl.go:528-540 | a node refers to a global variable if and only if one of its input or output sources does |
| WorkflowDraft.AnyUserInputMeaning | backend/domain/workflow/service/service_impl.go:500-511 | the scan over output sources finds a user-input path if and only if one exists |
| WorkflowDraft.AnyGlobalReferenceMeaning | backend/domain/workflow/service/service_impl.go:528-540 | the scan over sources finds a global reference if and only if one exists |
| WorkflowDraft.AdaptToChatFlow | backend/domain/workflow/service/service_impl.go:2133-2187 | the loop over the first entry node's outputs produces the adapted canvas, or the error for a missing entry node or an undecodable output |
| WorkflowDraft.AdaptedChangesOnlyStart | backend/domain/workflow/service/service_impl.go:2133-2187 | a canvas without an entry node is refused; otherwise only the first entry node changes, its old outputs come first and unchanged, and both chat-flow variables are declared |
| WorkflowDraft.WithChatVariablesDeclares | backend/domain/workflow/service/service_impl.go:2160-2180 | the two chat-flow variables are appended only when missing: at most two outputs are added, the existing ones are kept, and nothing changes when both are declared |
| WorkflowDraft.AdaptedIdempotent | backend/domain/workflow/service/service_impl.go:2133-2187 | adapting an adapted canvas changes nothing more |
| WorkflowCheck.CheckBotAgentNode | backend/domain/workflow/service/service_impl.go:1656-1661 | exactly the four conversation node types are refused, with the chat-flow message |
| WorkflowCheck.CheckNode | backend/domain/workflow/service/service_impl.go:1675-1685 | a node fails its check if and only if the check type is BotAgent and it is a conversation node |
| WorkflowCheck.Message | backend/domain/workflow/service/service_impl.go:1658 | the conversation error carries exactly the chat-flow message, and no message is empty |
| WorkflowCheck.RefKey | backend/domain/workflow/service/service_impl.go:1692-1707 | a reference yields a visit key if and only if its ID is non-empty and parses; the key is the parsed ID paired with the version |
| WorkflowCheck.Visit | backend/domain/workflow/service/service_impl.go:1709-1729 | a visited key is skipped and queues nothing; an unvisited key that is not found is skipped; a found one becomes visited and queues exactly its canvas; a failed fetch and an undecodable canvas are their own errors; the fetch log keeps its invariant |
| WorkflowCheck.VisitNodeRefs | backend/domain/workflow/service/service_impl.go:1690-1767 | a node's sub-workflow and LLM tool branches fail if and only if the node has a rejected reference (an unparsable non-empty ID, or an unvisited referred workflow whose fetch fails or whose canvas does not decode); on success every key it refers to is visited or not found, and the queued nodes are exactly from the canvases it refers to |
| WorkflowCheck.ValidateNodesRecursively | backend/domain/workflow/service/service_impl.go:1663-1781 | the walk succeeds if and only if some closed set holding the roots has no node the walk stops at (a conversation node under BotAgent, or a rejected reference); on success the explored nodes hold the roots, are closed under blocks and referred canvases, and no path from the roots reaches such a node; a conversation error means the BotAgent check; every repository key is fetched at most once unless it was not found |
| WorkflowCheck.PathStaysInClosure | backend/domain/workflow/service/service_impl.go:1663-1781 | a closed set holding the roots holds every node that a path of walk steps reaches |
| WorkflowCheck.PassingMeansNoReachableFault | backend/domain/workflow/service/service_impl.go:1663-1781 | when a fault-free closure exists, no path from the roots reaches a node the walk stops at, and under BotAgent none reaches a conversation node |
| WorkflowCheck.NoRefFault | backend/domain/workflow/service/service_impl.go:1690-1767 | a node whose IDs all parse and whose referred keys are all visited or not found has no rejected reference |
| WorkflowCheck.QueueStep | backend/domain/workflow/service/service_impl.go:1667-1767 | popping a node and queueing its blocks and referred canvases keeps the queue inside every closed set holding the roots |
| WorkflowCheck.FaultyHeadFails | backend/domain/workflow/service/service_impl.go:1672-1767 | a node the walk stops at, once queued, rules out every fault-free closure, so an early error return is forced |
| WorkflowCheck.FromTargetsIn | backend/domain/workflow/service/service_impl.go:1709-1724 | a closed set holding a node holds every canvas node queued for its references |
| WorkflowCheck.FrontierStep | backend/domain/workflow/service/service_impl.go:1667-1767 | one round of the loop, popping a node and queueing its blocks and referred canvases, keeps the frontier invariant |
| WorkflowCheck.FrontierDone | backend/domain/workflow/service/service_impl.go:1667 | with the queue empty, the explored nodes hold the roots and are closed |
| WorkflowCheck.LogAppend | backend/domain/workflow/service/service_impl.go:1709-1724 | a fetch of an unvisited key keeps the log invariant, whether the key is found or not |
| WorkflowCheck.UnvisitedShrinks | backend/domain/workflow/service/service_impl.go:1709-1713 | recording a found key strictly shrinks the set of unvisited found keys, which is why the walk terminates on cyclic references |
| WorkflowCheck.PopShrinks | backend/domain/workflow/service/service_impl.go:1668-1690 | popping a node and queueing its blocks shrinks the queue's node count |
| WorkflowCheck.CheckOnce | backend/domain/workflow/service/service_impl.go:1796-1810 | a result is a pass if and only if its reason is empty, if and only if a fault-free closure of the canvas exists; it carries its check type |
| WorkflowCheck.WorkflowSchemaCheck | backend/domain/workflow/service/service_impl.go:1783-1810 | an undecodable canvas is an error, and only then; otherwise there is one result per check, in order, each a pass if and only if a fault-free closure exists for the walk whose visited set holds the root's key |
| WorkflowRefs.AccumulateMeaning | backend/domain/workflow/service/service_impl.go:646-686 | collecting edges fails if and only if some mentioned ID does not parse, and then reports the first such ID; otherwise it adds one edge per distinct (referred ID, edge kind), duplicates collapsing |
| WorkflowRefs.AccumulateOk | backend/domain/workflow/service/service_impl.go:646-686 | the accumulation succeeds if and only if every mentioned ID parses |
| WorkflowRefs.AccumulateValue | backend/domain/workflow/service/service_impl.go:646-686 | a successful accumulation adds the edges of every parsable mention |
| WorkflowRefs.AccumulateFirstError | backend/domain/workflow/service/service_impl.go:646-686 | a failed accumulation reports the first mention whose ID does not parse |
| WorkflowRefs.AccumulateAppend | backend/domain/workflow/service/service_impl.go:646-686 | accumulating a concatenation is accumulating the first part and then the second, the first error winning |
| WorkflowRefs.AccumulateStep | backend/domain/workflow/service/service_impl.go:646-686 | one more mention either fails on its ID or adds its edge |
| WorkflowRefs.MentionsAppend | backend/domain/workflow/service/service_impl.go:646-686 | the mentions of a node list are the mentions of its parts, in order |
| WorkflowRefs.MentionsSingle | backend/domain/workflow/service/service_impl.go:648-683 | a node mentions its own references, followed by its blocks' only when it is neither a sub-workflow nor an LLM node |
| WorkflowRefs.ToolMentionsAppend | backend/domain/workflow/service/service_impl.go:660-675 | the workflow-tool mentions of a list are those of its parts, in order |
| WorkflowRefs.CollectToolRefs | backend/domain/workflow/service/service_impl.go:660-675 | the loop over an LLM node's workflow list adds a tool edge per parsable ID and fails on the first one that does not parse |
| WorkflowRefs.ToolsStep | backend/domain/workflow/service/service_impl.go:661-674 | one more workflow-list entry adds its tool edge, or fails the whole list on it |
| WorkflowRefs.NodesStep | backend/domain/workflow/service/service_impl.go:647-684 | one more node continues the accumulation from it, and fails the whole list when it fails |
| WorkflowRefs.CollectNodeRefs | backend/domain/workflow/service/service_impl.go:648-683 | the else-if chain for one node: a sub-workflow edge, the tool edges, or the edges of its blocks |
| WorkflowRefs.CollectBlockRefs | backend/domain/workflow/service/service_impl.go:676-682 | the loop over a container's blocks accumulates exactly the blocks' edges |
| WorkflowRefs.CollectRefs | backend/domain/workflow/service/service_impl.go:646-686 | the recursive `getRefFn` accumulates exactly the edges its nodes mention |
| WorkflowRefs.CanvasToRefs | backend/domain/workflow/service/service_impl.go:639-693 | the result succeeds if and only if every mentioned ID parses; the edges are exactly those of the mentions; an error names the first unparsable mention |
| WorkflowRefs.BlocksOfReferringNodesIgnored | backend/domain/workflow/service/service_impl.go:649-675 | the blocks of a sub-workflow or LLM node are never searched |
| WorkflowRefs.ContainerContributesBlocks | backend/domain/workflow/service/service_impl.go:676-682 | any other node contributes only what its blocks contribute |
| WorkflowRefs.NestedUnderLLMIsNotAnEdge | backend/domain/workflow/service/service_impl.go:660-682 | under any LLM node, every sub-workflow node nested in its blocks at any depth is an identity for `getAllSubWorkflowIdentities`, while the node's reference edges are only its own tool mentions |
| WorkflowRewrite.MapIDs | backend/domain/workflow/service/service_impl.go:1959-1976 | an ID list rewrites if and only if every ID parses; each ID becomes its mapped number if the map has it, and keeps its text otherwise |
| WorkflowRewrite.MapWorkflowListMeaning | backend/domain/workflow/service/service_impl.go:2060-2073 | a workflow list rewrites if and only if every ID parses; each entry is rewritten in place, and a mapped one takes the new ID and version |
| WorkflowRewrite.MapPluginList | backend/domain/workflow/service/service_impl.go:2075-2104 | a successful rewrite keeps the list's length and rewrites each entry through the plugin and tool maps |
| WorkflowRewrite.MapPluginParams | backend/domain/workflow/service/service_impl.go:1997-2041 | a successful rewrite keeps every parameter name and changes no parameter other than the plugin ID, plugin version and API ID |
| WorkflowRewrite.RewriteNodes | backend/domain/workflow/service/service_impl.go:1948-2125 | a successful rewrite keeps the number of nodes |
| WorkflowRewrite.RewriteNodesAt | backend/domain/workflow/service/service_impl.go:2116-2121 | node i of a successful rewrite is its own rewrite, with its blocks rewritten when the loop reaches the recursion and left exactly as they were otherwise |
| WorkflowRewrite.RewriteOwnKeepsBlocks | backend/domain/workflow/service/service_impl.go:1955-2114 | rewriting a node's own inputs keeps its kind and its blocks |
| WorkflowRewrite.BlocksUnderResourceNodesUnchanged | backend/domain/workflow/service/service_impl.go:1959-2041 | under a database, knowledge or plugin node nothing nested is rewritten, because these branches `continue` before the recursion |
| WorkflowRewrite.SubWorkflowRewrite | backend/domain/workflow/service/service_impl.go:2044-2055 | with a non-empty workflow map, a sub-workflow reference rewrites if and only if its ID parses; a mapped ID takes the new ID and version, and an unmapped one keeps both |
| WorkflowRewrite.RewrittenReferenceParses | backend/domain/workflow/service/service_impl.go:2044-2055 | a rewritten mapped reference parses to the copy's ID and carries its version |
| WorkflowRewrite.EmptyMapsChangeNothing | backend/domain/workflow/service/service_impl.go:1948-1957 | with every map empty nothing is rewritten and nothing fails |
| WorkflowRewrite.ReplaceRelated | backend/domain/workflow/service/service_impl.go:1948-2125 | the in-place loop leaves the array holding the rewrite of its old contents, or reports the rewrite's error |
| WorkflowRewrite.RewriteStep | backend/domain/workflow/service/service_impl.go:1954-2122 | one step of the loop: on success, the rewritten prefix grows by node i's rewrite; on failure, the whole list fails with that error |
| WorkflowRewrite.RewriteSplit | backend/domain/workflow/service/service_impl.go:1948-2125 | rewriting a concatenation is concatenating the rewrites, the first error winning |
| WorkflowRewrite.RewriteNodesCons | backend/domain/workflow/service/service_impl.go:1954-2122 | a list rewrites by its first node, together with what its blocks give, and then the rest |
| WorkflowRewrite.RewriteSingleton | backend/domain/workflow/service/service_impl.go:1954-2122 | a one-node list rewrites to the list of that node's rewrite |
| WorkflowRewrite.AppendResultsAssoc | backend/domain/workflow/service/service_impl.go:1948-2125 | joining rewrite outcomes is associative |
| WorkflowCopy.MemoMeaning | backend/domain/workflow/service/service_impl.go:1218-1221 | with each workflow copied once, the memo maps each original to its own copy at the publish version |
| WorkflowCopy.MemoKeys | backend/domain/workflow/service/service_impl.go:1218-1221 | the memo's keys are exactly the copied originals |
| WorkflowCopy.MemoOfAppend | backend/domain/workflow/service/service_impl.go:1216-1221 | recording a copy adds its original's entry to the memo |
| WorkflowCopy.OriginalsAppend | backend/domain/workflow/service/service_impl.go:1216 | recording a copy adds its original to the copied set |
| WorkflowCopy.CopiesInvariantAppend | backend/domain/workflow/service/service_impl.go:1157-1224 | copying one more workflow after all its references keeps the invariant: at most one copy per workflow, copy IDs in order, references copied first, each canvas rewritten through the memo as it stood then |
| WorkflowCopy.CopyChainAppend | backend/domain/workflow/service/service_impl.go:1216-1221 | a copy made from its trigger, after its references and under the next ID, extends the chain of copies |
| WorkflowCopy.CopyChainInvariant | backend/domain/workflow/service/service_impl.go:1157-1224 | a chain of copies keeps the copy invariant |
| WorkflowCopy.ForestIDsCover | backend/domain/workflow/service/service_impl.go:1010-1128 | the IDs of a reference forest are its roots' IDs and those further down |
| WorkflowCopy.BuildsRef | backend/domain/workflow/service/service_impl.go:1012-1061 | a referenced ID that gets through adds exactly itself when it is an app draft |
| WorkflowCopy.BuildsTool | backend/domain/workflow/service/service_impl.go:1064-1073 | a tool entry fails when its ID does not parse, and otherwise adds exactly that ID when it is an app draft |
| WorkflowCopy.BuildsRefsWalk | backend/domain/workflow/service/service_impl.go:1010-1128 | a build of a canvas that gets through leaves exactly the references the independent walk `WalkRefs` finds |
| WorkflowCopy.BuildsNodeWalk | backend/domain/workflow/service/service_impl.go:1010-1128 | the same for one node and `WalkNode` |
| WorkflowCopy.BuildsToolsWalk | backend/domain/workflow/service/service_impl.go:1063-1100 | the same for a tool list and `WalkTools` |
| WorkflowCopy.BuildsRefsStep | backend/domain/workflow/service/service_impl.go:1010-1128 | the build over the nodes from i on is node i followed by the rest |
| WorkflowCopy.BuildsToolsStep | backend/domain/workflow/service/service_impl.go:1063-1100 | the build over the tool list from j on is tool j followed by the rest |
| WorkflowCopy.ClosureCopy.Verify | backend/domain/workflow/service/service_impl.go:1030-1043 | a referenced draft is validated once: a failing validation is an error, its issues are recorded when there are any, and it is marked verified |
| WorkflowCopy.ClosureCopy.AddReference | backend/domain/workflow/service/service_impl.go:1012-1061 | a referenced ID succeeds if and only if `BuildsRef` does: it is skipped unless it is an app draft not yet a child; otherwise its validation must not fail, a level of fuel must be left and its own canvas must build; on success it is added as a child built from its draft, the child IDs grow by exactly that draft, and only the child's tree was verified |
| WorkflowCopy.ClosureCopy.BuildNode | backend/domain/workflow/service/service_impl.go:1010-1128 | one node of the build loop succeeds if and only if `BuildsNode` does, and then leaves exactly the child IDs `BuildsNode` computes (its sub-workflow ID, its tool IDs, then its blocks'), which are the references `WalkNode` finds; the children grow by built, distinct subtrees, which are exactly the newly verified workflows when validating |
| WorkflowCopy.ClosureCopy.BuildSubWorkflow | backend/domain/workflow/service/service_impl.go:1012-1061 | a sub-workflow node succeeds if and only if `BuildsNode` does: its ID must parse; an ID that is not an app draft or is already a child leaves the children unchanged, blocks included; otherwise the draft is added and the node's blocks built |
| WorkflowCopy.ClosureCopy.BuildTools | backend/domain/workflow/service/service_impl.go:1063-1100 | the loop over an LLM node's workflow tools succeeds if and only if `BuildsTools` does, and then adds exactly the listed app drafts not yet children, as built, distinct subtrees; an unparsable ID or a failing referenced draft is an error |
| WorkflowCopy.ClosureCopy.AddTool | backend/domain/workflow/service/service_impl.go:1064-1073 | a tool entry succeeds if and only if `BuildsTool` does: an ID that does not parse is a `NotANumber` error; otherwise it is a referenced ID, and the child IDs grow by exactly that ID when it is an app draft |
| WorkflowCopy.ClosureCopy.Build | backend/domain/workflow/service/service_impl.go:1010-1128 | building a canvas's references succeeds if and only if `BuildsRefs` does, that is, every ID parses and every reachable app draft validates and builds within the fuel; it then extends the children with built, distinct subtrees whose IDs are exactly the app drafts the canvas refers to (`WalkRefs`), and the workflows verified on the way are exactly the new subtrees' IDs |
| WorkflowCopy.ClosureCopy.GrownTrans | backend/domain/workflow/service/service_impl.go:1010-1128 | growing a child list twice by built, distinct, verified subtrees is growing it once |
| WorkflowCopy.ClosureCopy.Record | backend/domain/workflow/service/service_impl.go:1216-1221 | recording a copy appends it and enters it in the memo under the copy version |
| WorkflowCopy.ClosureCopy.CopyOne | backend/domain/workflow/service/service_impl.go:1164-1221 | a workflow whose references are all copied is copied if and only if its rewrite, the repository copy and, for the library, its edge parsing and version creation all succeed; a failure changes nothing; success adds exactly its key to the memo and appends one copy, with its edges when publishing and none otherwise |
| WorkflowCopy.ClosureCopy.Materialize | backend/domain/workflow/service/service_impl.go:1157-1224 | the post-order walk copies only workflows of the subtree, never one twice; on success every workflow of the subtree is in the memo; on failure some workflow of the subtree is stuck: not in the memo, its children all in it, and its own copy failing |
| WorkflowCopy.ClosureCopy.MaterializeSelf | backend/domain/workflow/service/service_impl.go:1213-1221 | a workflow whose children are copied is copied itself unless the memo has it; on failure it is stuck |
| WorkflowCopy.ClosureCopy.MaterializeChildren | backend/domain/workflow/service/service_impl.go:1158-1163 | the loop over the references copies only workflows of the children and, on success, all of them; on failure some workflow of the children's trees is stuck |
| WorkflowCopy.ClosureCopy.MaterializeAt | backend/domain/workflow/service/service_impl.go:1158-1163 | one iteration of the children loop covers the first i + 1 children, and on failure some workflow of child i's tree is stuck |
| WorkflowCopy.ClosureCopy.CopyDraft | backend/domain/workflow/service/service_impl.go:1389-1408 | duplicating one draft puts it in the memo, which stays within the app's drafts; on failure either the draft's build fails (`BuildsRefs`) or some built tree is stuck |
| WorkflowCopy.ClosureCopy.CopyNext | backend/domain/workflow/service/service_impl.go:1411-1419 | one iteration of the duplication loop keeps the copy state ready and puts the draft in the memo; on failure some draft's build fails or some built tree is stuck |
| WorkflowCopy.ClosureCopy.CopyAll | backend/domain/workflow/service/service_impl.go:1411-1419 | the loop over the app's drafts, on success, puts every draft in the memo; on failure some draft's build fails or some built tree is stuck |
| WorkflowCopy.KeysCovered | backend/domain/workflow/service/service_impl.go:1411-1419 | keys that list every draft, all in the memo, put every draft in the memo |
| WorkflowCopy.CopyCanvas | backend/domain/workflow/service/service_impl.go:1177-1186 | a copy's canvas is the original rewritten through the memo, and a rewrite error is reported as such |
| WorkflowCopy.CopyWorkflowFromAppToLibrary | backend/domain/workflow/service/service_impl.go:972-1236 | a failing root validation or build (`BuildsRefs`) is an error, and every error is one of these or a workflow of the tree stuck at its copy, so with the build getting through and every copy succeeding it returns a result; on success the tree is rooted at the workflow, every tree node's children are exactly the app drafts its canvas refers to, and the result is `Published` exactly when the tree is clean |
| WorkflowCopy.PublishTree | backend/domain/workflow/service/service_impl.go:1146-1235 | a recorded issue stops the copy with a report holding exactly the root's and the tree's non-empty issues; otherwise the tree is clean and a published result copies exactly the tree's workflows, each once, referenced ones first, with the memo of the copies as its ID map; a failure names a stuck workflow of the tree |
| WorkflowCopy.IssuesOutcome | backend/domain/workflow/service/service_impl.go:1030-1150 | a build that recorded an issue leaves a report holding only the root's and the tree's issues, an entry for each with issues, and a tree that is not clean |
| WorkflowCopy.CleanValidation | backend/domain/workflow/service/service_impl.go:1146-1150 | with no issue recorded, the root and every verified workflow of the tree validated cleanly |
| WorkflowCopy.LibraryOutcome | backend/domain/workflow/service/service_impl.go:1226-1235 | a finished library copy holds exactly the tree's workflows, each copied once in a valid order, the result map is their memo, and each copy was made from a tree whose children are its canvas's references |
| WorkflowCopy.DuplicateWorkflowsByAppID | backend/domain/workflow/service/service_impl.go:1238-1425 | a failing conversation copy is an error, and every error is that, a draft whose build fails (`BuildsRefs`) or a built tree stuck at its copy, so with none of these it succeeds; on success every draft of the app is copied exactly once, each from its own draft, and every draft a copy's canvas refers to was copied before it |
| WorkflowCopy.DuplicateFailure | backend/domain/workflow/service/service_impl.go:1389-1419 | a failed duplication has a draft whose build fails or a built tree stuck at its copy |
| WorkflowCopy.DuplicateOutcome | backend/domain/workflow/service/service_impl.go:1411-1425 | a finished duplication holds every draft copied once, in a valid order, and each copy comes after the copies of every draft its canvas refers to |
| WorkflowCopy.CopiedAfterReferences | backend/domain/workflow/service/service_impl.go:1256-1419 | a copy made from a built tree comes after the copies of every draft its canvas refers to |
| WorkflowCopy.ReferenceSubtrees | backend/domain/workflow/service/service_impl.go:1010-1128 | every subtree of a reference tree is a reference tree |
| WorkflowCopy.BuiltIDs | backend/domain/workflow/service/service_impl.go:1256-1344 | a built reference tree holds only app draft IDs |
| WorkflowCopy.BuiltSubtrees | backend/domain/workflow/service/service_impl.go:1256-1344 | every subtree of a built tree is built |
| ToolResponse.DisabledParam | backend/domain/plugin/service/exec_tool.go:890-902 | a schema without extensions is enabled; otherwise either disable flag disables it |
| ToolResponse.DisabledParamMeaning | backend/domain/plugin/service/exec_tool.go:890-902 | a schema is disabled if and only if a disable flag is set |
| ToolResponse.Kept | backend/domain/plugin/service/exec_tool.go:656-668 | the keys that survive trimming are exactly the declared, enabled keys of the response |
| ToolResponse.TrimRawMeaning | backend/domain/plugin/service/exec_tool.go:652-676 | return-raw keeps exactly the declared, enabled keys; it recurses only into object-typed object values and leaves every other value as it was |
| ToolResponse.TrimRawIdempotent | backend/domain/plugin/service/exec_tool.go:652-676 | trimming a trimmed response removes nothing more |
| ToolResponse.StrictMeaning | backend/domain/plugin/service/exec_tool.go:680-763 | return-error fails on a value of the wrong runtime type; a successful object keeps exactly the declared, enabled keys; strings pass unchanged; integers become their 64-bit values; nothing comes out null |
| ToolResponse.StrictFieldFails | backend/domain/plugin/service/exec_tool.go:766-782 | a kept field that fails makes the whole object fail |
| ToolResponse.StrictItemsSucceeds | backend/domain/plugin/service/exec_tool.go:712-722 | the array branch succeeds if and only if every element does |
| ToolResponse.StrictItemsMeaning | backend/domain/plugin/service/exec_tool.go:712-722 | a successful array keeps its length, and element j is element j processed |
| ToolResponse.DefaultTotalOnSupported | backend/domain/plugin/service/exec_tool.go:787-888 | return-default always succeeds under a schema with no unsupported type |
| ToolResponse.DefaultFieldsTotal | backend/domain/plugin/service/exec_tool.go:787-888 | the object branch of return-default always succeeds under a supported schema |
| ToolResponse.DefaultItemsTotal | backend/domain/plugin/service/exec_tool.go:819-829 | the array branch of return-default always succeeds under a supported schema |
| ToolResponse.DefaultItemsDropNulls | backend/domain/plugin/service/exec_tool.go:819-829 | an array after return-default holds no null and is no longer than the input |
| ToolResponse.StrictAgreesWithDefault | backend/domain/plugin/service/exec_tool.go:678-888 | on a response that fits the schema, return-default agrees with return-error |
| ToolResponse.StrictFieldsAgree | backend/domain/plugin/service/exec_tool.go:678-888 | the object branches of return-default and return-error agree on a fitting response |
| ToolResponse.StrictItemsAgree | backend/domain/plugin/service/exec_tool.go:712-829 | the array branches of return-default and return-error agree on a fitting response |
| ToolResponse.InferSchemaShape | backend/domain/plugin/service/exec_tool.go:420-489 | an empty object or array, or an object whose fields all infer to nothing, infers to nothing; an array's item schema is its first element's; an object's properties are its inferable fields; scalars infer to their types |
| ToolResponse.InferredSchemaWellFormed | backend/domain/plugin/service/exec_tool.go:420-489 | every inferred schema gives an item schema to every array, so the strict and default trimmers accept it |
| ToolResponse.InferredSchemaHasNoExtensions | backend/domain/plugin/service/exec_tool.go:420-489 | an inferred schema carries no extensions, so nothing in it is disabled |
| ToolResponse.InferredSchemaSupported | backend/domain/plugin/service/exec_tool.go:420-489 | every inferred schema is supported, so return-default always succeeds under it |
| ToolExecutor.ReturnRaw | backend/domain/plugin/service/exec_tool.go:652-676 | the deletion loop over the response map leaves exactly the trimmed object, whatever order it visits the keys in |
| ToolExecutor.RawVisit | backend/domain/plugin/service/exec_tool.go:656-674 | one iteration deletes the key, descends into an object value, or leaves it, and keeps the loop invariant |
| ToolExecutor.RawDone | backend/domain/plugin/service/exec_tool.go:652-676 | with every key visited, what is left is the trimmed object |
| ToolExecutor.ProcessStrict | backend/domain/plugin/service/exec_tool.go:680-763 | the return-error processor computes the strict trimming of its value |
| ToolExecutor.ReturnErr | backend/domain/plugin/service/exec_tool.go:678-785 | the object loop computes the strict trimming of the response map: only declared, enabled keys are processed, and the first failure fails it |
| ToolExecutor.ProcessStrictItems | backend/domain/plugin/service/exec_tool.go:712-722 | the array loop computes the strict array branch, and elements that come out nil are not appended |
| ToolExecutor.ProcessDefault | backend/domain/plugin/service/exec_tool.go:789-872 | the return-default processor computes the default trimming of its value |
| ToolExecutor.ReturnDefault | backend/domain/plugin/service/exec_tool.go:787-888 | the object loop computes the default trimming of the response map |
| ToolExecutor.ProcessDefaultItems | backend/domain/plugin/service/exec_tool.go:819-829 | the array loop computes the default array branch |
| ToolExecutor.Trim | backend/domain/plugin/service/exec_tool.go:620-642 | an undefined strategy is the only error; each defined strategy gives its trimmer's result |
| ToolExecutor.ProcessedResponse | backend/domain/plugin/service/exec_tool.go:591-650 | no declared responses give an empty result; a missing 200 response or JSON media type is an error; an undecodable body is an error; a schema without properties gives an empty result; once the trimmer runs, an unknown strategy is the invalid-strategy error, a trimmer giving nothing is the trim error (and only then), an unencodable trimmed object is the marshal error, and a non-empty result is the encoding of the trimmed object |
| ToolExecutor.ProcessResponse | backend/domain/plugin/service/exec_tool.go:591-650 | the method computes the processed response |
| ToolExecutor.ReturnDefaultFailsOnlyOnCodec | backend/domain/plugin/service/exec_tool.go:591-650 | under a supported schema, return-default fails only through decoding or encoding |
| ToolExecutor.Execute | backend/domain/plugin/service/exec_tool.go:524-589 | empty arguments are refused; a failed call is an error; an empty raw response gives the default response; otherwise the trimmed response is the processed one, or the default when that is empty; a success never has an empty response |
| ToolExecutor.AcquireAccessTokenIfNeed | backend/domain/plugin/service/exec_tool.go:93-133 | no token is fetched unless one is needed; when needed, success means both the token and the authorization URL were obtained, and a token error is returned |
| ToolExecutor.NoTokenWithoutAuth | backend/domain/plugin/service/exec_tool.go:93-133 | no auth, or an explicitly disabled auth mode, never fetches a token |
| PluginAuth.Lookup | backend/domain/plugin/dto/plugin_author.go:85-125 | a missing key reads as the empty string |
| PluginAuth.OAuthToAuthV2 | backend/domain/plugin/dto/plugin_author.go:71-137 | a missing sub-type, missing OAuth info, undecodable OAuth info and an unknown sub-type are each refused with their own error; success is an OAuth auth with the given sub-type |
| PluginAuth.ServiceToAuthV2 | backend/domain/plugin/dto/plugin_author.go:139-176 | a missing or wrong sub-type, location, token or key is each refused with its own error; success is a service auth with the API-token sub-type |
| PluginAuth.ToAuthV2 | backend/domain/plugin/dto/plugin_author.go:40-69 | a missing or unknown auth type is refused; no auth gives the empty AuthV2; OAuth and service go to their converters; success keeps the auth type |
| PluginAuth.ToAuthV2Coherent | backend/domain/plugin/dto/plugin_author.go:40-176 | every conversion result sets only the config matching its type and sub-type, and its payload is that config's encoding |
| PluginAuth.ToAuthV2Accepts | backend/domain/plugin/dto/plugin_author.go:40-176 | the conversion succeeds if and only if the manifest is acceptable field by field |
| PluginAuth.ToAuthV2Carries | backend/domain/plugin/dto/plugin_author.go:71-176 | the converted configs carry the manifest's values: the OAuth fields come from the info map, and the API token's location is lower-cased |
| PluginApp.CheckAndLockPluginEdit | backend/application/plugin/plugin.go:56-64 | the lock is always reported seized |
| PluginApp.UnlockPluginEdit | backend/application/plugin/plugin.go:120-125 | the lock is always reported released |
| PluginApp.Filtered | backend/application/plugin/plugin.go:148-156 | the kept products are products of the input whose lower-cased name contains the lower-cased keyword |
| PluginApp.FilteredKeepsMatches | backend/application/plugin/plugin.go:148-156 | every matching product is kept |
| PluginApp.FilteredAppend | backend/application/plugin/plugin.go:148-156 | filtering distributes over concatenation, so the kept products keep their input order |
| PluginApp.FilteredIdempotent | backend/application/plugin/plugin.go:148-156 | filtering twice filters no more |
| PluginApp.EmptyKeywordMatches | backend/application/plugin/plugin.go:148-156 | the empty keyword matches every product |
| PluginApp.FilterProducts | backend/application/plugin/plugin.go:148-156 | an empty keyword leaves the list unchanged; otherwise the loop keeps exactly the matching products, in order |
| PluginApp.ProductPluginTypeOf | backend/application/plugin/plugin.go:217-222 | the product is a local plugin if and only if the plugin is local |
| PluginApp.AuthModeOf | backend/application/plugin/plugin.go:252-267 | no auth unless the auth type is service or OAuth; then configured if and only if the manifest validates, and required otherwise |
| PluginApp.FirstBadTool | backend/application/plugin/plugin.go:226-251 | the first tool whose parameters do not convert, or none if and only if all convert |
| PluginApp.BuildToolInfos | backend/application/plugin/plugin.go:226-251 | the loop fails if and only if some tool's parameters do not convert, with the first such error; otherwise there is one info per tool, in order |
| PluginApp.FirstBadToolAt | backend/application/plugin/plugin.go:226-251 | a failing tool preceded only by converting ones is the first bad tool |
| PluginApp.ValidateDraftPluginAccess | backend/application/plugin/plugin.go:300-316 | no session is refused; a lookup error is passed on; access is granted if and only if the draft is found and the user is its developer, and the result is that draft |
| SessionMiddleware.SessionAuth | backend/api/middleware/session.go:41-75 | only web API requests on checked paths are checked; an empty cookie is unauthorized; a validation error is an internal error; otherwise the request continues with the validated session |
| SessionMiddleware.SessionOnlyFromValidation | backend/api/middleware/session.go:41-75 | a request continues with a session only when it is a checked web API request whose cookie validated to that session |
| SessionMiddleware.AnyEqual | backend/api/middleware/session.go:100-108 | the scan finds the e-mail if and only if it is in the list |
| SessionMiddleware.AdminAuth | backend/api/middleware/session.go:77-108 | a missing session or an unreadable config is an internal error; an empty admin list lets everyone through; otherwise the request continues if and only if the e-mail is one of the comma-separated pieces; no session is stored |
| SessionMiddleware.CommaEmailNeverAdmin | backend/api/middleware/session.go:100-108 | with a non-empty admin list, an e-mail containing a comma is never an admin |
| SessionMiddleware.AdminEmailsNotTrimmed | backend/api/middleware/session.go:100-108 | the pieces are compared verbatim: in any list written with a space after each comma, an e-mail not starting with a space can match only the first admin |
| UserRules.GetUserInfo | backend/domain/user/service/user_impl.go:136-150 | a non-positive ID is refused before the repository is asked; a lookup error and an icon-URL error are reported; the result is found if and only if the ID is positive and both succeed, and holds the stored user with its icon URL |
| UserRules.ValidateProfileUpdate | backend/domain/user/service/user_impl.go:175-210 | with neither field, a parameter is missing; an e-mail alone passes; a unique name outside the length bounds is too short or too long; otherwise the repository decides whether it is taken |
| UserRules.ValidateSuccessMeaning | backend/domain/user/service/user_impl.go:175-210 | a unique name passes only when its length is in bounds and it is free |
| UserRules.DefaultName | backend/domain/user/service/user_impl.go:278-281 | the stored name is the given one, or the e-mail's part before the first `@` |
| UserRules.DefaultNameIsLocalPart | backend/domain/user/service/user_impl.go:278-281 | a derived name is a prefix of the e-mail without `@`, and the whole address when it has no `@` |
| UserRules.UniqueNameFromEmail | backend/domain/user/service/user_impl.go:353-374 | an address without exactly one `@` is its own unique name; otherwise the local part is used if it is free, and the address otherwise |
| UserRules.UniqueNameFromEmailMeaning | backend/domain/user/service/user_impl.go:353-374 | the unique name is the local part if and only if the address has one `@` and the local part is free |
| UserRules.CreateUserNames | backend/domain/user/service/user_impl.go:252-351 | an existing e-mail, a taken requested unique name and lookup errors are refused; creation passes if and only if neither is taken; the stored name is the default name and the stored unique name comes from the e-mail |
| UserRules.HashParts | backend/domain/user/service/user_impl.go:533-538 | the format check succeeds if and only if the hash splits into six `$`-separated parts |
| UserRules.HashPartsCount | backend/domain/user/service/user_impl.go:533-538 | the format accepts exactly the strings with five `$` |
| UserRules.EncodedHashRoundTrip | backend/domain/user/service/user_impl.go:501-538 | what `hashPassword` writes passes the format check, and its parts come back in place |
| UserRules.SplitSignature | backend/domain/user/service/user_impl.go:618-625 | data shorter than the signature is too short; otherwise it splits into the payload and a 32-byte signature |
| UserRules.VerifySessionKey | backend/domain/user/service/user_impl.go:610-647 | an undecodable key and short data are refused; success means the signature matches the payload, the payload parses to the session, and the session has not expired |
| UserRules.SessionKeyRoundTrip | backend/domain/user/service/user_impl.go:583-647 | a key that `generateSessionKey` made verifies, up to its expiry, to the session it was made from |
| QuestionAnswer.OptionID | backend/domain/workflow/internal/compose/test/question_answer_test.go:509-517 | choice i is the letter i places after `A`, and never the `other` option |
| QuestionAnswer.FirstMatch | backend/domain/workflow/internal/compose/test/question_answer_test.go:496-517 | the answer matches a choice if and only if it is one, and the first equal choice is taken |
| QuestionAnswer.ResolveChoice | backend/domain/workflow/internal/compose/test/question_answer_test.go:356-377 | an exact match takes that choice's letter; otherwise a valid model pick takes that choice; and otherwise the answer is `other`, verbatim |
| QuestionAnswer.QANode.SetResumeData | backend/domain/workflow/internal/compose/test/question_answer_test.go:198-202 | the state modifier writes the answer into the resume data and changes nothing else |
| QuestionAnswer.QANode.Invoke | backend/domain/workflow/internal/compose/test/question_answer_test.go:188-207 | the first run records the question and interrupts; a resume without data interrupts again; a finished node stays finished; a resume with data consumes it and completes, asks again or fails |
| QuestionAnswer.AnswerDirectlyScenario | backend/domain/workflow/internal/compose/test/question_answer_test.go:188-207 | the first run interrupts with the question, and the resume completes with the answer |
| QuestionAnswer.FixedChoicesScenario | backend/domain/workflow/internal/compose/test/question_answer_test.go:356-377 | the choices are recorded in order, and an answer that matches none and that the model rejects is `other` |
| QuestionAnswer.DynamicChoicesScenario | backend/domain/workflow/internal/compose/test/question_answer_test.go:496-517 | an answer equal to the first choice is option `A` |
| QuestionAnswer.ExtractionScenario | backend/domain/workflow/internal/compose/test/question_answer_test.go:661-691 | with at most two answers, the first resume asks again and the second completes with the extracted fields |
| Multimodal.ConcatIsTextThenNotes | backend/domain/agent/singleagent/internal/agentflow/agent_flow_runner_test.go:351-418 | the concatenation is the text followed by every media part's note, in input order |
| Multimodal.NotesAppend | backend/domain/agent/singleagent/internal/agentflow/agent_flow_runner_test.go:378-407 | the notes of two part lists are the first's notes followed by the second's |
| Multimodal.ConcatWithoutMedia | backend/domain/agent/singleagent/internal/agentflow/agent_flow_runner_test.go:359-364 | without media parts the text is unchanged |
| Multimodal.ConcatAllKinds | backend/domain/agent/singleagent/internal/agentflow/agent_flow_runner_test.go:378-407 | the four-media case gives one note per part, in input order, for any text and URLs |
| Multimodal.Note | backend/domain/agent/singleagent/internal/agentflow/agent_flow_runner_test.go:409-418 | a part adds a note if and only if it is a media part |
| Multimodal.UnsupportedParts | backend/domain/agent/singleagent/internal/agentflow/agent_flow_runner_test.go:121-145 | the unsupported parts are exactly the media parts of a modality the model does not accept |
| Multimodal.KeptParts | backend/domain/agent/singleagent/internal/agentflow/agent_flow_runner_test.go:147-188 | the parts that stay are exactly the supported media and unknown parts |
| Multimodal.AnySupported | backend/domain/agent/singleagent/internal/agentflow/agent_flow_runner_test.go:84-119 | true if and only if some media part is supported |
| Multimodal.PreHandlerInput | backend/domain/agent/singleagent/internal/agentflow/agent_flow_runner_test.go:52-82 | a nil or empty part list, or all media supported, leaves the message unchanged, and the role is always kept |
| Multimodal.NoUnsupportedAfter | backend/domain/agent/singleagent/internal/agentflow/agent_flow_runner_test.go:44-350 | the adapted message holds no unsupported media part |
| Multimodal.FallbackText | backend/domain/agent/singleagent/internal/agentflow/agent_flow_runner_test.go:121-232 | the unsupported parts' notes follow the text: in a trailing text part when some media are supported, and in the content otherwise |
| Multimodal.PreHandlerMixedCase | backend/domain/agent/singleagent/internal/agentflow/agent_flow_runner_test.go:147-188 | a supported image stays, and the file's note joins the text part |
| Multimodal.PreHandlerUnknownCase | backend/domain/agent/singleagent/internal/agentflow/agent_flow_runner_test.go:313-340 | with no media, the text becomes the content and the unknown part stays |
| Multimodal.URLToBase64 | backend/pkg/urltobase64url/parser.go:33-71 | a fetch succeeds if and only if the status is 200; the MIME type is the response's, else the extension's, else the default; the URL is the data URL of the body |
| Multimodal.TransformMessagePart | backend/domain/workflow/internal/nodes/llm/prompt_test.go:40-178 | an unsupported media part becomes a text part holding its URL; a supported one is inlined when base64 transfer is on and the fetch succeeds, and is unchanged otherwise; text parts pass through |
| Multimodal.TransformedIsSupported | backend/domain/workflow/internal/nodes/llm/prompt_test.go:40-110 | after the transform no media part is unsupported, and the media kind is kept |
| Multimodal.InlinedPartIsDataURL | backend/domain/workflow/internal/nodes/llm/prompt_test.go:112-178 | with base64 transfer, a fetched part's URL is a data URL carrying its MIME type |

## Left out

- Storage, JSON encoding and decoding, cryptography (argon2, HMAC), base64, the clock, ID generation, HTTP and LLM calls are abstract parameters. The model states what the core does with their answers.
- Go panics are not modelled. These are a nil item schema, a disable flag that is not a boolean (excluded by the `WellFormed` and `FlagsTyped` preconditions), and a nil node in a canvas.
- WorkflowCopy.ClosureCopy.Build: a `fuel` parameter bounds the depth of the reference tree. The source has no cycle guard, so on cyclic references its build would recurse without end. The model fails when the fuel runs out, and `BuildsRefs` says exactly when that happens.
- WorkflowCopy.ClosureCopy.CopyOne: the IDs the repository's `CopyWorkflow` hands out are modelled as consecutive from `firstID`; `copyFault` and `versionFault` stand for its `CopyWorkflow` and `CreateVersion` answers, and the canvas's marshal and unmarshal errors are not modelled.
- WorkflowDraft.Publish: `createFault` stands for the repository's answer to `CreateVersion`; the stored version itself is storage.
- WorkflowCopy.CopyWorkflowFromAppToLibrary and WorkflowCopy.DuplicateWorkflowsByAppID: the error direction says which workflow a failure is due to, not that every stuck workflow is reached, since which is reached first depends on sibling order.
- WorkflowCopy.DuplicateWorkflowsByAppID: `CopyTemplateConversationByAppID` is modelled only by its answer `conversationFault`; what it copies is storage.
- WorkflowCheck.Visit: the source deletes a not-found key from `visited` again; the model never adds it, which is the same set.
- ToolResponse.LocalDisableKey and ToolResponse.GlobalDisableKey are stand-ins for the extension-key constants of the plugin model package, whose values are defined outside this model; only their being two distinct keys is used.
- WorkflowCopy.DuplicateWorkflowsByAppID: Go's map iteration order is unspecified, so the parameter `keys` stands for it. Children keep insertion order, and no claim is made about the order of siblings.
- WorkflowRewrite.ReplaceRelated: the knowledge and database list writes inside a node are modelled as value updates of the node, as Go's writes through a shared slice header make them.
- Node metadata (`UseDatabase`, `UseKnowledge`, `UsePlugin`) is approximated by three node kinds.
- Error messages are abstracted into constructors, apart from the chat-flow message and the session middleware messages.
- Strings.ToLower lower-cases ASCII letters only. A string's rune count is its sequence length.
- ToolExecutor.Trim: the raw response that accompanies the invalid-strategy error is dropped.
- `PublicGetProductList` beyond its keyword filter is not modelled: the repository queries and the product assembly are storage.
- UserRules.CreateUserNames: the repository and ID-generation steps of `Create` after its checks are not modelled, beyond the names they store.
- `SyncRelatedWorkflowResources` is not modelled, because it runs concurrent goroutines.
- `GetWorkflowDependenceResource` is not modelled, because it is repository queries.
- backend/domain/workflow/interface.go is an interface declaration only.
- The document search, parser, OCR and rerank implementations, model_with_info.go and the declaration-only dto files are not part of this model.
- WorkflowDraft.CalculateTestRunSuccess: the ignored unmarshal error of the stored canvas is modelled as a stored draft without a schema.
- WorkflowDraft.TransformAll: `slices.TransformWithErrorCheck` is modelled as giving nothing on error, which the caller then treats as an empty list.
- The `ToolAuthMode` constants are a datatype.
- QuestionAnswer: the question-answer node's implementation is not part of this model; its behaviour comes from its tests. The model assumes:
  - resume data is consumed on resume;
  - asking again at the answer limit fails the node;
  - a valid model pick gives that choice's letter and text;
  - at most 26 choices get letters.
- Multimodal: the agent-flow and LLM-node implementation files are not part of this model; their behaviour comes from their table tests. The model assumes:
  - several text parts are concatenated;
  - the folded text part is placed last;
  - the content is replaced when no media is supported;
  - a part of unknown type is kept unchanged;
  - a base64 fetch error leaves the part unchanged;
  - the HTTP request and the extension-to-MIME lookup are parameters.
