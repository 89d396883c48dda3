/**
 * Rules the service applies to a workflow's draft: which entry and exit nodes
 * give the draft its input and output parameters, whether the "test run
 * succeeded" flag survives a save, the gates of publishing, the node-schema
 * flags shown for a node, and the adaptation of a draft to chat-flow mode.
 */
module WorkflowDraft {
  import opened Wrappers
  import opened Decimal
  import opened Canvas
  import opened WorkflowRefs

  // ---------------------------------------------------------------------
  // extractInputsAndOutputsNamedInfoList
  // ---------------------------------------------------------------------

  /** The index of the first node of kind `k`. */
  function FirstIndex(nodes: seq<Node>, k: NodeKind): (r: Option<nat>)
    ensures r.Some? ==> r.value < |nodes| && nodes[r.value].kind == k
    ensures r.Some? ==> forall j :: 0 <= j < r.value ==> nodes[j].kind != k
    ensures r.None? ==> forall j :: 0 <= j < |nodes| ==> nodes[j].kind != k
  {
    if nodes == [] then None
    else if nodes[0].kind == k then Some(0)
    else match FirstIndex(nodes[1..], k)
      case None => None
      case Some(j) => Some(j + 1)
  }

  /** The last node of kind `k`. */
  function LastOf(nodes: seq<Node>, k: NodeKind): (r: Option<Node>)
    ensures r.Some? ==> exists j :: 0 <= j < |nodes| && nodes[j] == r.value && nodes[j].kind == k
                          && forall j' :: j < j' < |nodes| ==> nodes[j'].kind != k
    ensures r.None? ==> forall j :: 0 <= j < |nodes| ==> nodes[j].kind != k
  {
    if nodes == [] then None
    else if nodes[|nodes| - 1].kind == k then Some(nodes[|nodes| - 1])
    else
      var r := LastOf(nodes[..|nodes| - 1], k);
      assert forall j :: 0 <= j < |nodes| - 1 ==> nodes[..|nodes| - 1][j] == nodes[j];
      r
  }

  /** The length of the prefix the scan reads: up to and including the first point where both an entry and an exit have been seen. */
  function ScanLength(nodes: seq<Node>): (n: nat)
    ensures n <= |nodes|
  {
    match (FirstIndex(nodes, Entry), FirstIndex(nodes, Exit))
    case (Some(e), Some(x)) => 1 + (if e < x then x else e)
    case _ => |nodes|
  }

  /** The entry (or exit) node whose parameters are reported: the last one in the scanned prefix. */
  function Selected(nodes: seq<Node>, k: NodeKind): Option<Node>
  {
    LastOf(nodes[..ScanLength(nodes)], k)
  }

  /** `slices.TransformWithErrorCheck`: all elements converted, or nothing. */
  function TransformAll<A, B>(xs: seq<A>, f: A -> Option<B>): (r: Option<seq<B>>)
    ensures r.Some? ==> |r.value| == |xs| && forall i :: 0 <= i < |xs| ==> f(xs[i]) == Some(r.value[i])
    ensures r.None? ==> exists i :: 0 <= i < |xs| && f(xs[i]).None?
  {
    if xs == [] then Some([])
    else match f(xs[0])
      case None => None
      case Some(y) =>
        match TransformAll(xs[1..], f)
        case None => assert forall i :: 0 <= i < |xs| - 1 ==> xs[1..][i] == xs[i + 1]; None
        case Some(ys) => Some([y] + ys)
  }

  /** `vo.ParseVariable` followed by the named-type conversion of an entry output. */
  function OutputInfo<T>(o: OutputVar, varInfo: Variable -> Option<T>): Option<T>
  {
    match o
    case Unparsable => None
    case Parsed(v) => varInfo(v)
  }

  /** A failed conversion is logged and leaves the list empty. */
  function OrEmpty<T>(r: Option<seq<T>>): seq<T>
  {
    if r.Some? then r.value else []
  }

  function InputsOf<T>(start: Option<Node>, varInfo: Variable -> Option<T>): seq<T>
  {
    if start.None? then []
    else OrEmpty(TransformAll(start.value.outputs, (o: OutputVar) => OutputInfo(o, varInfo)))
  }

  function OutputsOf<T>(end: Option<Node>, paramInfo: Param -> Option<T>): seq<T>
  {
    if end.None? then [] else OrEmpty(TransformAll(end.value.inputParameters, paramInfo))
  }

  lemma FirstIndexAt(nodes: seq<Node>, k: NodeKind, e: nat)
    requires e < |nodes| && nodes[e].kind == k
    requires forall j :: 0 <= j < e ==> nodes[j].kind != k
    ensures FirstIndex(nodes, k) == Some(e)
  {
  }

  lemma LastOfAppend(nodes: seq<Node>, i: nat, k: NodeKind)
    requires i < |nodes|
    ensures LastOf(nodes[..i + 1], k) == if nodes[i].kind == k then Some(nodes[i]) else LastOf(nodes[..i], k)
  {
    assert nodes[..i + 1][..i] == nodes[..i];
  }

  /** A prefix holds a node of kind `k` exactly when the first such node lies in it. */
  lemma LastOfPrefix(nodes: seq<Node>, i: nat, k: NodeKind)
    requires i <= |nodes|
    ensures LastOf(nodes[..i], k).Some? <==> FirstIndex(nodes, k).Some? && FirstIndex(nodes, k).value < i
  {
    var f := FirstIndex(nodes, k);
    if f.Some? && f.value < i {
      assert nodes[..i][f.value].kind == k;
    }
    if LastOf(nodes[..i], k).Some? {
      var j :| 0 <= j < i && nodes[..i][j].kind == k;
      assert nodes[j].kind == k;
    }
  }

  /**
   * `extractInputsAndOutputsNamedInfoList`: scan for the entry and exit nodes
   * (stopping once both are found, a later one of a kind replacing an earlier
   * one before that), then convert the entry's outputs and the exit's input
   * parameters.
   */
  method ExtractInputsAndOutputs<T>(nodes: seq<Node>, varInfo: Variable -> Option<T>, paramInfo: Param -> Option<T>)
    returns (inputs: seq<T>, outputs: seq<T>)
    ensures inputs == InputsOf(Selected(nodes, Entry), varInfo)
    ensures outputs == OutputsOf(Selected(nodes, Exit), paramInfo)
  {
    var start: Option<Node> := None;
    var end: Option<Node> := None;
    var i := 0;
    while i < |nodes|
      invariant i <= ScanLength(nodes)
      invariant start == LastOf(nodes[..i], Entry)
      invariant end == LastOf(nodes[..i], Exit)
    {
      LastOfPrefix(nodes, i, Entry);
      LastOfPrefix(nodes, i, Exit);
      if start.Some? && end.Some? {
        break;
      }
      LastOfAppend(nodes, i, Entry);
      LastOfAppend(nodes, i, Exit);
      if nodes[i].kind == Entry {
        start := Some(nodes[i]);
      }
      if nodes[i].kind == Exit {
        end := Some(nodes[i]);
      }
      i := i + 1;
    }
    LastOfPrefix(nodes, i, Entry);
    LastOfPrefix(nodes, i, Exit);
    assert i == ScanLength(nodes);
    inputs := [];
    outputs := [];
    if start.Some? {
      inputs := OrEmpty(TransformAll(start.value.outputs, (o: OutputVar) => OutputInfo(o, varInfo)));
    }
    if end.Some? {
      outputs := OrEmpty(TransformAll(end.value.inputParameters, paramInfo));
    }
  }

  /** An entry (exit) node is reported whenever the canvas has one. */
  lemma SelectedIffPresent(nodes: seq<Node>, k: NodeKind)
    requires k == Entry || k == Exit
    ensures Selected(nodes, k).Some? <==> exists j :: 0 <= j < |nodes| && nodes[j].kind == k
  {
    var f := FirstIndex(nodes, k);
    LastOfPrefix(nodes, ScanLength(nodes), k);
    if f.Some? {
      assert f.value < ScanLength(nodes);
    }
  }

  /** A canvas with one entry node reports that node's outputs as its inputs. */
  lemma UniqueEntrySelected(nodes: seq<Node>, e: nat)
    requires e < |nodes| && nodes[e].kind == Entry
    requires forall j :: 0 <= j < |nodes| && j != e ==> nodes[j].kind != Entry
    ensures Selected(nodes, Entry) == Some(nodes[e])
  {
    var n := ScanLength(nodes);
    assert FirstIndex(nodes, Entry) == Some(e);
    assert e < n;
    var p := nodes[..n];
    var r := LastOf(p, Entry);
    assert p[e].kind == Entry;
    var j :| 0 <= j < |p| && p[j] == r.value && p[j].kind == Entry && forall j' :: j < j' < |p| ==> p[j'].kind != Entry;
    assert j == e;
  }

  // ---------------------------------------------------------------------
  // calculateTestRunSuccess
  // ---------------------------------------------------------------------

  /**
   * The stored draft a save is compared with: none, a lookup failure, or a
   * draft whose canvas compiles to `schema` (or does not) and its flag.
   */
  datatype PriorDraft<S> =
    | NoDraft
    | LookupFailed(reason: string)
    | Prior(schema: Option<S>, testRunSuccess: bool)

  /**
   * `calculateTestRunSuccess`, with `newSchema` the result of compiling the
   * saved canvas and `isEqual(old, new)` the schemas' execution equality.
   */
  function CalculateTestRunSuccess<S>(newSchema: Option<S>, prior: PriorDraft<S>, isEqual: (S, S) -> bool): (r: Result<bool, string>)
    ensures r.Err? <==> newSchema.Some? && prior.LookupFailed?
    ensures r == Ok(true) <==>
      newSchema.Some? && prior.Prior? && prior.schema.Some?
      && isEqual(prior.schema.value, newSchema.value) && prior.testRunSuccess
  {
    match newSchema
    case None => Ok(false)
    case Some(sc) =>
      match prior
      case NoDraft => Ok(false)
      case LookupFailed(reason) => Err(reason)
      case Prior(existed, flag) =>
        match existed
        case None => Ok(false)
        case Some(stored) => if !isEqual(stored, sc) then Ok(false) else Ok(flag)
  }

  /** Saving a canvas that compiles to the stored schema keeps the stored flag. */
  lemma ResaveKeepsFlag<S>(s: S, flag: bool, isEqual: (S, S) -> bool)
    requires isEqual(s, s)
    ensures CalculateTestRunSuccess(Some(s), Prior(Some(s), flag), isEqual) == Ok(flag)
  {
  }

  // ---------------------------------------------------------------------
  // Publish
  // ---------------------------------------------------------------------

  datatype Meta = Meta(latestPublishedVersion: Option<string>)

  datatype Draft = Draft(canvas: seq<Node>, inputParams: string, outputParams: string, commitID: string, testRunSuccess: bool)

  /** What `CreateVersion` is asked to store. */
  datatype VersionRecord = VersionRecord(
    version: string,
    canvas: seq<Node>,
    inputParams: string,
    outputParams: string,
    commitID: string,
    refs: set<ReferenceKey>)

  datatype PublishError =
    | MetaUnavailable
    | BadVersion(text: string)
    | NotIncremental(latest: string, current: string)
    | DraftUnavailable
    | NeedsTestRun(id: int)
    | RefsFailed(refError: RefError)
    | StoreFailed(reason: string)

  /** The version gate: a first publish passes; a later one must parse and be incremental. */
  predicate VersionGate<V>(latest: Option<string>, version: string, parseVersion: string -> Option<V>, isIncremental: (V, V) -> bool)
  {
    latest.Some? ==>
      parseVersion(latest.value).Some? && parseVersion(version).Some?
      && isIncremental(parseVersion(latest.value).value, parseVersion(version).value)
  }

  /**
   * `Publish`: `meta` and `draft` are the repository's answers (`None` for a
   * lookup error) and `createFault` its answer to `CreateVersion`; on
   * success the result is the version created.
   */
  method Publish<V>(id: int, version: string, force: bool, meta: Option<Meta>, draft: Option<Draft>,
                    parseVersion: string -> Option<V>, isIncremental: (V, V) -> bool, createFault: Option<string>)
    returns (r: Result<VersionRecord, PublishError>)
    ensures r.Ok? ==> meta.Some? && draft.Some?
    ensures r.Ok? ==> VersionGate(meta.value.latestPublishedVersion, version, parseVersion, isIncremental)
    ensures r.Ok? ==> force || draft.value.testRunSuccess
    ensures r.Ok? ==> r.value == VersionRecord(version, draft.value.canvas, draft.value.inputParams,
                                               draft.value.outputParams, draft.value.commitID,
                                               ParsedKeys(id, Mentions(draft.value.canvas)))
    ensures r.Ok? ==> AllParse(Mentions(draft.value.canvas)) && createFault.None?
    ensures meta.None? ==> r == Err(MetaUnavailable)
    ensures meta.Some? && meta.value.latestPublishedVersion.Some? && parseVersion(meta.value.latestPublishedVersion.value).None? ==>
      r == Err(BadVersion(meta.value.latestPublishedVersion.value))
    ensures (meta.Some? && meta.value.latestPublishedVersion.Some? && parseVersion(meta.value.latestPublishedVersion.value).Some? &&
             parseVersion(version).None?) ==> r == Err(BadVersion(version))
    ensures r.Err? && r.error.NotIncremental? <==>
      meta.Some? && meta.value.latestPublishedVersion.Some?
      && parseVersion(meta.value.latestPublishedVersion.value).Some? && parseVersion(version).Some?
      && !isIncremental(parseVersion(meta.value.latestPublishedVersion.value).value, parseVersion(version).value)
    ensures (meta.Some? && VersionGate(meta.value.latestPublishedVersion, version, parseVersion, isIncremental)
             && draft.None?) ==> r == Err(DraftUnavailable)
    ensures (meta.Some? && VersionGate(meta.value.latestPublishedVersion, version, parseVersion, isIncremental)
             && draft.Some? && !force && !draft.value.testRunSuccess) ==> r == Err(NeedsTestRun(id))
    ensures (meta.Some? && VersionGate(meta.value.latestPublishedVersion, version, parseVersion, isIncremental)
             && draft.Some? && (force || draft.value.testRunSuccess) && !AllParse(Mentions(draft.value.canvas))) ==>
      r.Err? && r.error.RefsFailed?
    ensures (meta.Some? && VersionGate(meta.value.latestPublishedVersion, version, parseVersion, isIncremental)
             && draft.Some? && (force || draft.value.testRunSuccess) && AllParse(Mentions(draft.value.canvas))) ==>
      r == (if createFault.Some? then Err(StoreFailed(createFault.value))
            else Ok(VersionRecord(version, draft.value.canvas, draft.value.inputParams, draft.value.outputParams,
                                  draft.value.commitID, ParsedKeys(id, Mentions(draft.value.canvas)))))
  {
    if meta.None? {
      return Err(MetaUnavailable);
    }
    var latest := meta.value.latestPublishedVersion;
    if latest.Some? {
      var latestVersion := parseVersion(latest.value);
      if latestVersion.None? {
        return Err(BadVersion(latest.value));
      }
      var currentVersion := parseVersion(version);
      if currentVersion.None? {
        return Err(BadVersion(version));
      }
      if !isIncremental(latestVersion.value, currentVersion.value) {
        return Err(NotIncremental(latest.value, version));
      }
    }
    if draft.None? {
      return Err(DraftUnavailable);
    }
    var d := draft.value;
    if !force && !d.testRunSuccess {
      return Err(NeedsTestRun(id));
    }
    var refs := CanvasToRefs(id, d.canvas);
    if refs.Err? {
      return Err(RefsFailed(refs.error));
    }
    assert refs.value == ParsedKeys(id, Mentions(d.canvas));
    if createFault.Some? {
      return Err(StoreFailed(createFault.value));
    }
    r := Ok(VersionRecord(version, d.canvas, d.inputParams, d.outputParams, d.commitID, refs.value));
  }

  // ---------------------------------------------------------------------
  // Node-schema flags: isEnableUserQuery, isRefGlobalVariable
  // ---------------------------------------------------------------------

  /** A field source of a compiled node: its path and whether it refers to a global variable. */
  datatype FieldSource = FieldSource(path: seq<string>, refsGlobalVariable: bool)

  datatype NodeSchema = NodeSchema(kind: NodeKind, inputSources: seq<FieldSource>, outputSources: seq<FieldSource>)

  predicate IsUserInputPath(path: seq<string>)
  {
    |path| == 1 && (path[0] == "BOT_USER_INPUT" || path[0] == "USER_INPUT")
  }

  predicate AnyUserInput(sources: seq<FieldSource>)
    decreases |sources|
  {
    |sources| > 0 && (IsUserInputPath(sources[0].path) || AnyUserInput(sources[1..]))
  }

  predicate AnyGlobalReference(sources: seq<FieldSource>)
    decreases |sources|
  {
    |sources| > 0 && (sources[0].refsGlobalVariable || AnyGlobalReference(sources[1..]))
  }

  /** `isEnableUserQuery`; `None` is a nil schema. */
  predicate IsEnableUserQuery(s: Option<NodeSchema>)
  {
    s.Some? && s.value.kind == Entry && |s.value.outputSources| > 0 && AnyUserInput(s.value.outputSources)
  }

  /** `isRefGlobalVariable`: any input source, then any output source. */
  predicate IsRefGlobalVariable(s: NodeSchema)
  {
    AnyGlobalReference(s.inputSources) || AnyGlobalReference(s.outputSources)
  }

  lemma {:induction false} AnyUserInputMeaning(sources: seq<FieldSource>)
    ensures AnyUserInput(sources) <==> exists i :: 0 <= i < |sources| && IsUserInputPath(sources[i].path)
    decreases |sources|
  {
    if |sources| > 0 {
      AnyUserInputMeaning(sources[1..]);
      assert forall i :: 0 < i < |sources| ==> sources[1..][i - 1] == sources[i];
      if exists i :: 0 <= i < |sources| && IsUserInputPath(sources[i].path) {
        var i :| 0 <= i < |sources| && IsUserInputPath(sources[i].path);
        if i > 0 {
          assert sources[1..][i - 1] == sources[i];
        }
      }
    }
  }

  lemma {:induction false} AnyGlobalReferenceMeaning(sources: seq<FieldSource>)
    ensures AnyGlobalReference(sources) <==> exists i :: 0 <= i < |sources| && sources[i].refsGlobalVariable
    decreases |sources|
  {
    if |sources| > 0 {
      AnyGlobalReferenceMeaning(sources[1..]);
      assert forall i :: 0 < i < |sources| ==> sources[1..][i - 1] == sources[i];
      if exists i :: 0 <= i < |sources| && sources[i].refsGlobalVariable {
        var i :| 0 <= i < |sources| && sources[i].refsGlobalVariable;
        if i > 0 {
          assert sources[1..][i - 1] == sources[i];
        }
      }
    }
  }

  /** A node enables the user query iff it is an entry node with a single-segment user-input output source. */
  lemma IsEnableUserQueryMeaning(s: Option<NodeSchema>)
    ensures IsEnableUserQuery(s) <==>
      s.Some? && s.value.kind == Entry
      && exists i :: 0 <= i < |s.value.outputSources| && IsUserInputPath(s.value.outputSources[i].path)
  {
    if s.Some? {
      AnyUserInputMeaning(s.value.outputSources);
    }
  }

  /** A node refers to a global variable iff one of its input or output sources does. */
  lemma IsRefGlobalVariableMeaning(s: NodeSchema)
    ensures IsRefGlobalVariable(s) <==>
      (exists i :: 0 <= i < |s.inputSources| && s.inputSources[i].refsGlobalVariable)
      || (exists i :: 0 <= i < |s.outputSources| && s.outputSources[i].refsGlobalVariable)
  {
    AnyGlobalReferenceMeaning(s.inputSources);
    AnyGlobalReferenceMeaning(s.outputSources);
  }

  // ---------------------------------------------------------------------
  // adaptToChatFlow
  // ---------------------------------------------------------------------

  const UserInputKey := "USER_INPUT"
  const ConversationNameKey := "CONVERSATION_NAME"

  datatype AdaptError = NoStartNode | BadOutput(index: nat)

  function OutputName(o: OutputVar): string
    requires o.Parsed?
  {
    o.v.name
  }

  predicate AllParsed(outs: seq<OutputVar>)
  {
    forall i :: 0 <= i < |outs| ==> outs[i].Parsed?
  }

  predicate Declares(outs: seq<OutputVar>, name: string)
  {
    exists i :: 0 <= i < |outs| && outs[i].Parsed? && outs[i].v.name == name
  }

  /** The start node's outputs after adaptation: the two chat-flow variables appended when missing. */
  function WithChatVariables(outs: seq<OutputVar>): seq<OutputVar>
  {
    var withInput := if Declares(outs, UserInputKey) then outs
                     else outs + [Parsed(Variable(UserInputKey, VarString, ""))];
    if Declares(outs, ConversationNameKey) then withInput
    else withInput + [Parsed(Variable(ConversationNameKey, VarString, "Default"))]
  }

  /** The canvas `adaptToChatFlow` saves: the first entry node's outputs completed, or the error. */
  function Adapted(canvas: seq<Node>): Result<seq<Node>, AdaptError>
  {
    match FirstIndex(canvas, Entry)
    case None => Err(NoStartNode)
    case Some(e) =>
      var outs := canvas[e].outputs;
      if !AllParsed(outs) then Err(BadOutput(FirstUnparsable(outs)))
      else Ok(canvas[e := canvas[e].(outputs := WithChatVariables(outs))])
  }

  function FirstUnparsable(outs: seq<OutputVar>): (i: nat)
    requires !AllParsed(outs)
    ensures i < |outs| && outs[i].Unparsable?
    ensures forall j :: 0 <= j < i ==> outs[j].Parsed?
  {
    if outs[0].Unparsable? then 0
    else
      assert !AllParsed(outs[1..]) by {
        var i :| 0 <= i < |outs| && !outs[i].Parsed?;
        assert outs[1..][i - 1] == outs[i];
      }
      1 + FirstUnparsable(outs[1..])
  }

  /**
   * `adaptToChatFlow` on the decoded draft canvas: find the first entry node,
   * collect the names of its outputs, append the missing chat-flow variables.
   * The result is the canvas to save.
   */
  method AdaptToChatFlow(canvas: seq<Node>) returns (r: Result<seq<Node>, AdaptError>)
    ensures r == Adapted(canvas)
  {
    var start := -1;
    var i := 0;
    while i < |canvas|
      invariant 0 <= i <= |canvas|
      invariant forall j :: 0 <= j < i ==> canvas[j].kind != Entry
    {
      if canvas[i].kind == Entry {
        start := i;
        break;
      }
      i := i + 1;
    }
    if start < 0 {
      return Err(NoStartNode);
    }
    assert FirstIndex(canvas, Entry) == Some(start);
    var outs := canvas[start].outputs;
    var names: set<string> := {};
    var k := 0;
    while k < |outs|
      invariant 0 <= k <= |outs|
      invariant AllParsed(outs[..k])
      invariant forall n :: n in names <==> Declares(outs[..k], n)
    {
      if outs[k].Unparsable? {
        assert FirstUnparsable(outs) == k by {
          assert forall j :: 0 <= j < k ==> outs[..k][j] == outs[j];
        }
        return Err(BadOutput(k));
      }
      DeclaresAppend(outs, k);
      names := names + {outs[k].v.name};
      k := k + 1;
    }
    assert outs[..k] == outs;
    var adapted := outs;
    if UserInputKey !in names {
      adapted := adapted + [Parsed(Variable(UserInputKey, VarString, ""))];
    }
    if ConversationNameKey !in names {
      adapted := adapted + [Parsed(Variable(ConversationNameKey, VarString, "Default"))];
    }
    r := Ok(canvas[start := canvas[start].(outputs := adapted)]);
  }

  lemma DeclaresAppend(outs: seq<OutputVar>, k: nat)
    requires k < |outs| && outs[k].Parsed?
    ensures forall n :: Declares(outs[..k + 1], n) <==> Declares(outs[..k], n) || n == outs[k].v.name
  {
    assert outs[..k + 1] == outs[..k] + [outs[k]];
    forall n | Declares(outs[..k + 1], n)
      ensures Declares(outs[..k], n) || n == outs[k].v.name
    {
      var i :| 0 <= i < k + 1 && outs[..k + 1][i].Parsed? && outs[..k + 1][i].v.name == n;
      if i < k {
        assert outs[..k][i] == outs[..k + 1][i];
      }
    }
    forall n | Declares(outs[..k], n)
      ensures Declares(outs[..k + 1], n)
    {
      var i :| 0 <= i < k && outs[..k][i].Parsed? && outs[..k][i].v.name == n;
      assert outs[..k + 1][i] == outs[..k][i];
    }
    assert outs[..k + 1][k] == outs[k];
  }

  lemma DeclaresPrefix(outs: seq<OutputVar>, extra: seq<OutputVar>, name: string)
    requires Declares(outs, name)
    ensures Declares(outs + extra, name)
  {
    var i :| 0 <= i < |outs| && outs[i].Parsed? && outs[i].v.name == name;
    assert (outs + extra)[i] == outs[i];
  }

  /** After adaptation both chat-flow variables are declared, and the old outputs come first, unchanged. */
  lemma WithChatVariablesDeclares(outs: seq<OutputVar>)
    ensures Declares(WithChatVariables(outs), UserInputKey)
    ensures Declares(WithChatVariables(outs), ConversationNameKey)
    ensures |outs| <= |WithChatVariables(outs)| <= |outs| + 2
    ensures WithChatVariables(outs)[..|outs|] == outs
    ensures Declares(outs, UserInputKey) && Declares(outs, ConversationNameKey) ==> WithChatVariables(outs) == outs
  {
    var withInput := if Declares(outs, UserInputKey) then outs
                     else outs + [Parsed(Variable(UserInputKey, VarString, ""))];
    if Declares(outs, UserInputKey) {
      DeclaresPrefix(outs, [], UserInputKey);
    } else {
      assert withInput[|outs|] == Parsed(Variable(UserInputKey, VarString, ""));
    }
    assert Declares(withInput, UserInputKey);
    var extra := [Parsed(Variable(ConversationNameKey, VarString, "Default"))];
    if Declares(outs, ConversationNameKey) {
      assert WithChatVariables(outs) == withInput;
    } else {
      DeclaresPrefix(withInput, extra, UserInputKey);
      assert (withInput + extra)[|withInput|] == extra[0];
    }
    if !Declares(outs, ConversationNameKey) {
      assert Declares(WithChatVariables(outs), ConversationNameKey);
    } else if Declares(outs, UserInputKey) {
      assert outs + [] == outs;
    } else {
      DeclaresPrefix(outs, [Parsed(Variable(UserInputKey, VarString, ""))], ConversationNameKey);
    }
  }

  /** Adapting an adapted canvas changes nothing more. */
  lemma AdaptedIdempotent(canvas: seq<Node>)
    requires Adapted(canvas).Ok?
    ensures Adapted(Adapted(canvas).value) == Adapted(canvas)
  {
    var e := FirstIndex(canvas, Entry).value;
    var outs := canvas[e].outputs;
    var outs' := WithChatVariables(outs);
    var c' := canvas[e := canvas[e].(outputs := outs')];
    assert Adapted(canvas).value == c';
    FirstIndexAt(c', Entry, e);
    WithChatVariablesParsed(outs);
    WithChatVariablesDeclares(outs);
    WithChatVariablesDeclares(outs');
    assert c'[e := c'[e].(outputs := WithChatVariables(outs'))] == c';
  }

  lemma WithChatVariablesParsed(outs: seq<OutputVar>)
    requires AllParsed(outs)
    ensures AllParsed(WithChatVariables(outs))
  {
  }

  /** Only the first entry node changes; a canvas without one, or with an undecodable output there, is refused. */
  lemma AdaptedChangesOnlyStart(canvas: seq<Node>)
    ensures Adapted(canvas) == Err(NoStartNode) <==> forall j :: 0 <= j < |canvas| ==> canvas[j].kind != Entry
    ensures Adapted(canvas).Ok? ==>
      var e := FirstIndex(canvas, Entry).value;
      |Adapted(canvas).value| == |canvas|
      && (forall j :: 0 <= j < |canvas| && j != e ==> Adapted(canvas).value[j] == canvas[j])
      && Adapted(canvas).value[e].outputs[..|canvas[e].outputs|] == canvas[e].outputs
      && Declares(Adapted(canvas).value[e].outputs, UserInputKey)
      && Declares(Adapted(canvas).value[e].outputs, ConversationNameKey)
  {
    if FirstIndex(canvas, Entry).Some? {
      WithChatVariablesDeclares(canvas[FirstIndex(canvas, Entry).value].outputs);
    }
  }
}
