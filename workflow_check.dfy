/**
 * The schema check run before a workflow is offered to an agent: a
 * breadth-first walk over the canvas, its nested blocks and, transitively,
 * the canvases of the workflows it refers to (sub-workflow nodes and the
 * workflow tools of LLM nodes). A `visited` set keyed by workflow ID and
 * version makes every referred workflow fetched at most once, so the walk
 * ends even on cyclic references.
 */
module WorkflowCheck {
  import opened Wrappers
  import opened Decimal
  import opened Canvas

  /**
   * The `visited` key `"<id>:<version>"`. A decimal ID contains no `:`, so the
   * string determines the pair and the pair is the key. An empty version means
   * the draft.
   */
  datatype VisitKey = VisitKey(id: int, version: string)

  /** What the repository answers for a key; a key the store lacks is not found. */
  datatype Fetched =
    | Found(canvas: seq<Node>)
    | Corrupt
    | NotFound
    | Failed

  type Repo = map<VisitKey, Fetched>

  function Fetch(repo: Repo, k: VisitKey): Fetched
  {
    if k in repo then repo[k] else NotFound
  }

  function FoundKeys(repo: Repo): set<VisitKey>
  {
    set k | k in repo && repo[k].Found?
  }

  datatype CheckType = BotAgent | OtherCheck(code: int)

  datatype CheckError =
    | ConversationNotSupported
    | InvalidSubWorkflowID(text: string)
    | InvalidToolWorkflowID(text: string)
    | FetchFailed(key: VisitKey)
    | CorruptCanvas(key: VisitKey)

  /** The message a failed check reports; node and workflow IDs in the messages are not modelled. */
  function Message(e: CheckError): (m: string)
    ensures |m| > 0
    ensures e.ConversationNotSupported? <==> m == "conversation-related nodes are not supported in chatflow"
  {
    match e
    case ConversationNotSupported => "conversation-related nodes are not supported in chatflow"
    case InvalidSubWorkflowID(_) => "invalid workflow ID in sub-workflow node"
    case InvalidToolWorkflowID(_) => "invalid workflow ID in large model node"
    case FetchFailed(_) => "failed to get sub-workflow entity"
    case CorruptCanvas(_) => "failed to unmarshal canvas for workflow"
  }

  /** `checkBotAgentNode`: the four conversation node types are refused. */
  function CheckBotAgentNode(n: Node): (r: Option<CheckError>)
    ensures r.Some? <==> IsConversationNode(n)
    ensures r.Some? ==> r.value == ConversationNotSupported
  {
    if n.kind == CreateConversation || n.kind == ConversationDelete
       || n.kind == ConversationUpdate || n.kind == ConversationList
    then Some(ConversationNotSupported)
    else None
  }

  /** The per-node check of one check type; only BotAgent checks anything. */
  function CheckNode(check: CheckType, n: Node): (r: Option<CheckError>)
    ensures r.Some? <==> check == BotAgent && IsConversationNode(n)
  {
    match check
    case BotAgent => CheckBotAgentNode(n)
    case OtherCheck(_) => None
  }

  /** The key a reference denotes, when its ID is non-empty and a number. */
  function RefKey(id: string, version: string): (r: Option<VisitKey>)
    ensures r.Some? <==> id != "" && ParseInt64(id).Some?
    ensures r.Some? ==> r.value == VisitKey(ParseInt64(id).value, version)
  {
    if id == "" then None
    else match ParseInt64(id)
      case None => None
      case Some(v) => Some(VisitKey(v, version))
  }

  predicate OffersWorkflowTools(n: Node)
  {
    n.kind == LLM && n.inputs.llm && n.inputs.fcWorkflows.Some?
  }

  /** The keys of the workflows a node refers to, as far as their IDs parse. */
  function RefKeys(n: Node): set<VisitKey>
  {
    if n.kind == SubWorkflow then
      var k := RefKey(n.inputs.workflowID, n.inputs.workflowVersion);
      if k.Some? then {k.value} else {}
    else if OffersWorkflowTools(n) then
      var list := n.inputs.fcWorkflows.value;
      set i | 0 <= i < |list| && RefKey(list[i].workflowID, list[i].workflowVersion).Some?
        :: RefKey(list[i].workflowID, list[i].workflowVersion).value
    else {}
  }

  // ---------------------------------------------------------------------
  // The closure the walk explores
  // ---------------------------------------------------------------------

  ghost predicate BlocksIn(n: Node, s: set<Node>)
  {
    forall i :: 0 <= i < |n.blocks| ==> n.blocks[i] in s
  }

  /** The canvas stored under `k`, if any, lies in `s`. */
  ghost predicate CanvasIn(repo: Repo, k: VisitKey, s: set<Node>)
  {
    Fetch(repo, k).Found? ==>
      forall j :: 0 <= j < |Fetch(repo, k).canvas| ==> Fetch(repo, k).canvas[j] in s
  }

  ghost predicate CanvasInSeq(repo: Repo, k: VisitKey, q: seq<Node>)
  {
    Fetch(repo, k).Found? ==>
      forall j :: 0 <= j < |Fetch(repo, k).canvas| ==> Fetch(repo, k).canvas[j] in q
  }

  ghost predicate TargetsIn(n: Node, s: set<Node>, repo: Repo, visited0: set<VisitKey>)
  {
    forall k :: k in RefKeys(n) && k !in visited0 ==> CanvasIn(repo, k, s)
  }

  /**
   * `s` is closed under the walk's steps: nested blocks, and the stored canvas
   * of every referred workflow except those whose keys were visited up front.
   */
  ghost predicate Closed(s: set<Node>, repo: Repo, visited0: set<VisitKey>)
  {
    forall n :: n in s ==> BlocksIn(n, s) && TargetsIn(n, s, repo, visited0)
  }

  ghost predicate Covers(s: set<Node>, roots: seq<Node>)
  {
    forall i :: 0 <= i < |roots| ==> roots[i] in s
  }

  /** One step of the walk: into a block, or into the canvas of a referred workflow. */
  ghost predicate Step(a: Node, b: Node, repo: Repo, visited0: set<VisitKey>)
  {
    (exists i :: 0 <= i < |a.blocks| && a.blocks[i] == b)
    || (exists k :: k in RefKeys(a) && k !in visited0 && Fetch(repo, k).Found? && b in Fetch(repo, k).canvas)
  }

  /** A chain of steps that starts at one of the roots. */
  ghost predicate IsPath(p: seq<Node>, roots: seq<Node>, repo: Repo, visited0: set<VisitKey>)
  {
    |p| > 0 && p[0] in roots
    && forall i :: 0 <= i < |p| - 1 ==> Step(p[i], p[i + 1], repo, visited0)
  }

  /** A closed set holding the roots holds every node a path reaches. */
  lemma {:induction false} PathStaysInClosure(s: set<Node>, p: seq<Node>, roots: seq<Node>, repo: Repo, visited0: set<VisitKey>)
    requires Closed(s, repo, visited0) && Covers(s, roots)
    requires IsPath(p, roots, repo, visited0)
    ensures p[|p| - 1] in s
    decreases |p|
  {
    if |p| == 1 {
      var i :| 0 <= i < |roots| && roots[i] == p[0];
    } else {
      var q := p[..|p| - 1];
      assert forall i :: 0 <= i < |q| ==> q[i] == p[i];
      assert IsPath(q, roots, repo, visited0);
      PathStaysInClosure(s, q, roots, repo, visited0);
      var a, b := p[|p| - 2], p[|p| - 1];
      assert a in s;
      assert Step(a, b, repo, visited0);
      if exists i :: 0 <= i < |a.blocks| && a.blocks[i] == b {
        var i :| 0 <= i < |a.blocks| && a.blocks[i] == b;
        assert BlocksIn(a, s);
      } else {
        var k :| k in RefKeys(a) && k !in visited0 && Fetch(repo, k).Found? && b in Fetch(repo, k).canvas;
        assert CanvasIn(repo, k, s);
        var j :| 0 <= j < |Fetch(repo, k).canvas| && Fetch(repo, k).canvas[j] == b;
      }
    }
  }

  /**
   * A reference of `n` the walk rejects: a non-empty workflow ID that does not
   * parse, or a referred workflow not visited up front whose fetch fails or
   * whose canvas does not decode.
   */
  ghost predicate RefFault(n: Node, repo: Repo, visited0: set<VisitKey>)
  {
    || (n.kind == SubWorkflow && n.inputs.workflowID != "" && ParseInt64(n.inputs.workflowID).None?)
    || (OffersWorkflowTools(n) && exists i :: 0 <= i < |n.inputs.fcWorkflows.value| && BadToolID(n.inputs.fcWorkflows.value[i]))
    || (exists k :: k in RefKeys(n) && k !in visited0 && (Fetch(repo, k).Failed? || Fetch(repo, k).Corrupt?))
  }

  predicate BadToolID(w: WorkflowFC)
  {
    w.workflowID != "" && ParseInt64(w.workflowID).None?
  }

  /** A node the walk stops at: a conversation node under the BotAgent check, or a rejected reference. */
  ghost predicate Faulty(check: CheckType, n: Node, repo: Repo, visited0: set<VisitKey>)
  {
    (check == BotAgent && IsConversationNode(n)) || RefFault(n, repo, visited0)
  }

  ghost predicate FaultFree(s: set<Node>, check: CheckType, repo: Repo, visited0: set<VisitKey>)
  {
    forall n :: n in s ==> !Faulty(check, n, repo, visited0)
  }

  /** The walk passes exactly when a closed set holding the roots has no faulty node. */
  ghost predicate PassingClosure(roots: seq<Node>, check: CheckType, repo: Repo, visited0: set<VisitKey>)
  {
    exists s :: Closed(s, repo, visited0) && Covers(s, roots) && FaultFree(s, check, repo, visited0)
  }

  /** Hence no path from the roots reaches a faulty node, and under BotAgent no conversation node. */
  lemma PassingMeansNoReachableFault(roots: seq<Node>, check: CheckType, repo: Repo, visited0: set<VisitKey>, p: seq<Node>)
    requires PassingClosure(roots, check, repo, visited0)
    requires IsPath(p, roots, repo, visited0)
    ensures !Faulty(check, p[|p| - 1], repo, visited0)
    ensures check == BotAgent ==> !IsConversationNode(p[|p| - 1])
  {
    var s :| Closed(s, repo, visited0) && Covers(s, roots) && FaultFree(s, check, repo, visited0);
    PathStaysInClosure(s, p, roots, repo, visited0);
  }

  // ---------------------------------------------------------------------
  // The fetch log
  // ---------------------------------------------------------------------

  /** A key is fetched twice only when the first fetch found nothing (and removed it again). */
  ghost predicate FetchedOnce(fetched: seq<VisitKey>, repo: Repo)
  {
    forall i, j :: 0 <= i < j < |fetched| && fetched[i] == fetched[j] ==> Fetch(repo, fetched[i]).NotFound?
  }

  /** What holds of the log when the walk stops with an error. */
  ghost predicate ErrorLog(fetched: seq<VisitKey>, visited0: set<VisitKey>, repo: Repo)
  {
    FetchedOnce(fetched, repo) && forall i :: 0 <= i < |fetched| ==> fetched[i] !in visited0
  }

  /**
   * What holds between fetches: keys visited up front stay and are never
   * fetched; every other visited key was found; every fetch so far either
   * found nothing or found a canvas whose key is still visited.
   */
  ghost predicate LogInvariant(fetched: seq<VisitKey>, visited: set<VisitKey>, visited0: set<VisitKey>, repo: Repo)
  {
    visited0 <= visited
    && visited - visited0 <= FoundKeys(repo)
    && ErrorLog(fetched, visited0, repo)
    && forall i :: 0 <= i < |fetched| ==> Fetch(repo, fetched[i]).NotFound? || fetched[i] in visited - visited0
  }

  lemma LogAppend(fetched: seq<VisitKey>, visited: set<VisitKey>, visited0: set<VisitKey>, repo: Repo, k: VisitKey)
    requires LogInvariant(fetched, visited, visited0, repo)
    requires k !in visited
    ensures ErrorLog(fetched + [k], visited0, repo)
    ensures Fetch(repo, k).Found? ==> LogInvariant(fetched + [k], visited + {k}, visited0, repo)
    ensures Fetch(repo, k).NotFound? ==> LogInvariant(fetched + [k], visited, visited0, repo)
  {
    var f := fetched + [k];
    assert forall i :: 0 <= i < |fetched| ==> f[i] == fetched[i];
    assert f[|fetched|] == k;
  }

  /** `GetEntity` for one reference, skipping and recording keys through `visited`. */
  method Visit(repo: Repo, key: VisitKey, visited: set<VisitKey>, ghost visited0: set<VisitKey>, ghost fetched: seq<VisitKey>)
    returns (err: Option<CheckError>, newVisited: set<VisitKey>, added: seq<Node>, ghost newFetched: seq<VisitKey>)
    requires LogInvariant(fetched, visited, visited0, repo)
    ensures err.None? ==> LogInvariant(newFetched, newVisited, visited0, repo)
    ensures err.Some? ==> ErrorLog(newFetched, visited0, repo)
    ensures err.Some? ==> err.value == FetchFailed(key) || err.value == CorruptCanvas(key)
    ensures err.None? ==> visited <= newVisited <= visited + {key}
    ensures err.None? ==> key in newVisited || Fetch(repo, key).NotFound?
    ensures err.None? ==> forall k :: k in newVisited - visited ==> CanvasInSeq(repo, k, added)
    ensures err.None? && added != [] ==> newVisited != visited
    ensures key in visited ==> err.None? && newVisited == visited && added == []
    ensures key !in visited && Fetch(repo, key).NotFound? ==> err.None? && newVisited == visited && added == []
    ensures key !in visited && Fetch(repo, key).Found? ==>
      err.None? && newVisited == visited + {key} && added == Fetch(repo, key).canvas
    ensures key !in visited && Fetch(repo, key).Failed? ==> err == Some(FetchFailed(key))
    ensures key !in visited && Fetch(repo, key).Corrupt? ==> err == Some(CorruptCanvas(key))
  {
    if key in visited {
      return None, visited, [], fetched;
    }
    LogAppend(fetched, visited, visited0, repo, key);
    newFetched := fetched + [key];
    match Fetch(repo, key)
    case NotFound =>
      err, newVisited, added := None, visited, [];
    case Failed =>
      err, newVisited, added := Some(FetchFailed(key)), visited, [];
    case Corrupt =>
      err, newVisited, added := Some(CorruptCanvas(key)), visited + {key}, [];
    case Found(canvas) =>
      err, newVisited, added := None, visited + {key}, canvas;
  }

  /** The reference part of the loop body: the sub-workflow branch and the LLM tool branch. */
  method VisitNodeRefs(repo: Repo, n: Node, visited: set<VisitKey>, ghost visited0: set<VisitKey>, ghost fetched: seq<VisitKey>)
    returns (err: Option<CheckError>, newVisited: set<VisitKey>, added: seq<Node>, ghost newFetched: seq<VisitKey>)
    requires LogInvariant(fetched, visited, visited0, repo)
    ensures err.None? ==> LogInvariant(newFetched, newVisited, visited0, repo)
    ensures err.Some? ==> ErrorLog(newFetched, visited0, repo)
    ensures err.Some? ==> !err.value.ConversationNotSupported?
    ensures err.None? ==> visited <= newVisited
    ensures err.None? ==> forall k :: k in RefKeys(n) ==> k in newVisited || Fetch(repo, k).NotFound?
    ensures err.None? ==> forall k :: k in newVisited - visited ==> CanvasInSeq(repo, k, added)
    ensures err.None? && added != [] ==> newVisited != visited
    ensures err.None? ==> FromTargets(added, n, repo, visited0)
    ensures err.Some? ==> RefFault(n, repo, visited0)
    ensures err.None? ==> !RefFault(n, repo, visited0)
  {
    newVisited, added, newFetched := visited, [], fetched;
    if n.kind == SubWorkflow {
      if n.inputs.workflowID == "" {
        assert RefKeys(n) == {};
        return None, visited, [], fetched;
      }
      var id := ParseInt64(n.inputs.workflowID);
      if id.None? {
        return Some(InvalidSubWorkflowID(n.inputs.workflowID)), visited, [], fetched;
      }
      var key := VisitKey(id.value, n.inputs.workflowVersion);
      assert RefKeys(n) == {key};
      err, newVisited, added, newFetched := Visit(repo, key, visited, visited0, fetched);
      if err.None? {
        NoRefFault(n, repo, visited0, newVisited);
      }
      return;
    }
    if OffersWorkflowTools(n) {
      var list := n.inputs.fcWorkflows.value;
      var i := 0;
      while i < |list|
        invariant 0 <= i <= |list|
        invariant LogInvariant(newFetched, newVisited, visited0, repo)
        invariant visited <= newVisited
        invariant forall j :: 0 <= j < i && RefKey(list[j].workflowID, list[j].workflowVersion).Some? ==>
          RefKey(list[j].workflowID, list[j].workflowVersion).value in newVisited
          || Fetch(repo, RefKey(list[j].workflowID, list[j].workflowVersion).value).NotFound?
        invariant forall k :: k in newVisited - visited ==> CanvasInSeq(repo, k, added)
        invariant added != [] ==> newVisited != visited
        invariant forall j :: 0 <= j < i ==> list[j].workflowID == "" || ParseInt64(list[j].workflowID).Some?
        invariant FromTargets(added, n, repo, visited0)
      {
        var ref := list[i];
        if ref.workflowID == "" {
          i := i + 1;
          continue;
        }
        var id := ParseInt64(ref.workflowID);
        if id.None? {
          return Some(InvalidToolWorkflowID(ref.workflowID)), newVisited, added, newFetched;
        }
        var key := VisitKey(id.value, ref.workflowVersion);
        assert RefKey(list[i].workflowID, list[i].workflowVersion) == Some(key);
        assert key in RefKeys(n);
        var e, v, a, f := Visit(repo, key, newVisited, visited0, newFetched);
        if e.Some? {
          return e, v, added, f;
        }
        FromTargetsAppend(added, a, n, repo, visited0, key);
        forall k | k in v - visited
          ensures CanvasInSeq(repo, k, added + a)
        {
          if k in newVisited {
            CanvasInSeqGrows(repo, k, added, a);
          } else {
            CanvasInSeqPrefix(repo, k, added, a);
          }
        }
        newVisited, added, newFetched := v, added + a, f;
        i := i + 1;
      }
      forall k | k in RefKeys(n)
        ensures k in newVisited || Fetch(repo, k).NotFound?
      {
        var j :| 0 <= j < |list| && RefKey(list[j].workflowID, list[j].workflowVersion).Some?
          && RefKey(list[j].workflowID, list[j].workflowVersion).value == k;
      }
    }
    NoRefFault(n, repo, visited0, newVisited);
    err := None;
  }

  /** A node all of whose references parse, and are visited or not found, has no rejected reference. */
  lemma NoRefFault(n: Node, repo: Repo, visited0: set<VisitKey>, visited: set<VisitKey>)
    requires visited - visited0 <= FoundKeys(repo)
    requires forall k :: k in RefKeys(n) ==> k in visited || Fetch(repo, k).NotFound?
    requires n.kind == SubWorkflow ==> n.inputs.workflowID == "" || ParseInt64(n.inputs.workflowID).Some?
    requires OffersWorkflowTools(n) ==>
      forall j :: 0 <= j < |n.inputs.fcWorkflows.value| ==> !BadToolID(n.inputs.fcWorkflows.value[j])
    ensures !RefFault(n, repo, visited0)
  {
    forall k | k in RefKeys(n) && k !in visited0
      ensures !(Fetch(repo, k).Failed? || Fetch(repo, k).Corrupt?)
    {
      if k in visited {
        assert k in FoundKeys(repo);
      }
    }
  }

  /** Every queued canvas node belongs to the stored canvas of a workflow `n` refers to. */
  ghost predicate FromTargets(added: seq<Node>, n: Node, repo: Repo, visited0: set<VisitKey>)
  {
    forall j :: 0 <= j < |added| ==> InTargetOf(added[j], n, repo, visited0)
  }

  ghost predicate InTargetOf(x: Node, n: Node, repo: Repo, visited0: set<VisitKey>)
  {
    exists k :: k in RefKeys(n) && k !in visited0 && Fetch(repo, k).Found? && x in Fetch(repo, k).canvas
  }

  lemma FromTargetsAppend(added: seq<Node>, a: seq<Node>, n: Node, repo: Repo, visited0: set<VisitKey>, k: VisitKey)
    requires FromTargets(added, n, repo, visited0)
    requires a == [] || (k in RefKeys(n) && k !in visited0 && Fetch(repo, k).Found? && a == Fetch(repo, k).canvas)
    ensures FromTargets(added + a, n, repo, visited0)
  {
    forall j | 0 <= j < |added + a|
      ensures InTargetOf((added + a)[j], n, repo, visited0)
    {
      if j < |added| {
        assert (added + a)[j] == added[j];
      } else {
        assert (added + a)[j] == a[j - |added|] && a[j - |added|] in a;
        assert k in RefKeys(n) && k !in visited0 && Fetch(repo, k).Found? && (added + a)[j] in Fetch(repo, k).canvas;
      }
    }
  }

  /** In a closed set, the canvases a member refers to are members too. */
  lemma FromTargetsIn(added: seq<Node>, n: Node, s: set<Node>, repo: Repo, visited0: set<VisitKey>)
    requires FromTargets(added, n, repo, visited0) && n in s && Closed(s, repo, visited0)
    ensures forall j :: 0 <= j < |added| ==> added[j] in s
  {
    forall j | 0 <= j < |added| ensures added[j] in s {
      assert InTargetOf(added[j], n, repo, visited0);
      var k :| k in RefKeys(n) && k !in visited0 && Fetch(repo, k).Found? && added[j] in Fetch(repo, k).canvas;
      assert TargetsIn(n, s, repo, visited0);
      assert CanvasIn(repo, k, s);
      var m :| 0 <= m < |Fetch(repo, k).canvas| && Fetch(repo, k).canvas[m] == added[j];
    }
  }

  /** Every queued node lies in every closed set that holds the roots. */
  ghost predicate QueueInClosures(queue: seq<Node>, roots: seq<Node>, repo: Repo, visited0: set<VisitKey>)
  {
    forall s :: Closed(s, repo, visited0) && Covers(s, roots) ==> forall i :: 0 <= i < |queue| ==> queue[i] in s
  }

  /** Popping a node and queueing its blocks and the canvases it refers to keeps the queue inside every closure. */
  lemma QueueStep(queue: seq<Node>, added: seq<Node>, roots: seq<Node>, repo: Repo, visited0: set<VisitKey>)
    requires queue != [] && QueueInClosures(queue, roots, repo, visited0)
    requires FromTargets(added, queue[0], repo, visited0)
    ensures QueueInClosures(queue[1..] + queue[0].blocks + added, roots, repo, visited0)
  {
    var q := queue[1..] + queue[0].blocks + added;
    forall s | Closed(s, repo, visited0) && Covers(s, roots)
      ensures forall i :: 0 <= i < |q| ==> q[i] in s
    {
      assert queue[0] in s;
      assert BlocksIn(queue[0], s);
      FromTargetsIn(added, queue[0], s, repo, visited0);
      forall i | 0 <= i < |q| ensures q[i] in s {
        if i < |queue| - 1 {
          assert q[i] == queue[i + 1];
        } else if i < |queue| - 1 + |queue[0].blocks| {
          assert q[i] == queue[0].blocks[i - (|queue| - 1)];
        } else {
          assert q[i] == added[i - (|queue| - 1) - |queue[0].blocks|];
        }
      }
    }
  }

  /** A faulty node at the head of the queue rules out every passing closure. */
  lemma FaultyHeadFails(queue: seq<Node>, roots: seq<Node>, check: CheckType, repo: Repo, visited0: set<VisitKey>)
    requires queue != [] && QueueInClosures(queue, roots, repo, visited0)
    requires Faulty(check, queue[0], repo, visited0)
    ensures !PassingClosure(roots, check, repo, visited0)
  {
    forall s | Closed(s, repo, visited0) && Covers(s, roots)
      ensures !FaultFree(s, check, repo, visited0)
    {
      assert queue[0] in s;
    }
  }

  lemma CanvasInSeqGrows(repo: Repo, k: VisitKey, q: seq<Node>, extra: seq<Node>)
    requires CanvasInSeq(repo, k, q)
    ensures CanvasInSeq(repo, k, q + extra)
  {
  }

  lemma CanvasInSeqPrefix(repo: Repo, k: VisitKey, front: seq<Node>, q: seq<Node>)
    requires CanvasInSeq(repo, k, q)
    ensures CanvasInSeq(repo, k, front + q)
  {
  }

  /** Taking a found key out of the unvisited ones strictly shrinks them. */
  lemma UnvisitedShrinks(repo: Repo, visited: set<VisitKey>, newVisited: set<VisitKey>)
    requires visited <= newVisited && newVisited != visited
    requires newVisited - visited <= FoundKeys(repo)
    ensures |FoundKeys(repo) - newVisited| < |FoundKeys(repo) - visited|
  {
    var k :| k in newVisited && k !in visited;
    assert FoundKeys(repo) - newVisited <= (FoundKeys(repo) - visited) - {k};
    assert |(FoundKeys(repo) - visited) - {k}| == |FoundKeys(repo) - visited| - 1;
    SubsetCard(FoundKeys(repo) - newVisited, (FoundKeys(repo) - visited) - {k});
  }

  lemma SubsetCard<T>(a: set<T>, b: set<T>)
    requires a <= b
    ensures |a| <= |b|
  {
    assert b == a + (b - a);
  }

  /** Popping a node and queueing its blocks shrinks the queue's node count. */
  lemma PopShrinks(queue: seq<Node>)
    requires queue != []
    ensures Size(queue[1..] + queue[0].blocks) < Size(queue)
  {
    SizeAppend(queue[1..], queue[0].blocks);
  }

  /** The walk's loop invariant about the explored nodes and the queue. */
  ghost predicate Frontier(explored: set<Node>, queue: seq<Node>, roots: seq<Node>, visited: set<VisitKey>,
                           visited0: set<VisitKey>, repo: Repo)
  {
    (forall i :: 0 <= i < |roots| ==> roots[i] in explored || roots[i] in queue)
    && (forall n :: n in explored ==> forall i :: 0 <= i < |n.blocks| ==> n.blocks[i] in explored || n.blocks[i] in queue)
    && (forall n :: n in explored ==> forall k :: k in RefKeys(n) ==> k in visited || Fetch(repo, k).NotFound?)
    && (forall k :: k in visited - visited0 ==> SplitCanvas(repo, k, explored, queue))
  }

  /** Every node of the canvas under `k` is explored or queued. */
  ghost predicate SplitCanvas(repo: Repo, k: VisitKey, explored: set<Node>, queue: seq<Node>)
  {
    Fetch(repo, k).Found? ==>
      forall j :: 0 <= j < |Fetch(repo, k).canvas| ==>
        Fetch(repo, k).canvas[j] in explored || Fetch(repo, k).canvas[j] in queue
  }

  lemma PopMember(q: seq<Node>, x: Node)
    requires x in q
    ensures x == q[0] || x in q[1..]
  {
    var i :| 0 <= i < |q| && q[i] == x;
    if i > 0 {
      assert q[1..][i - 1] == x;
    }
  }

  /** One round of the loop keeps the frontier invariant. */
  lemma FrontierStep(explored: set<Node>, queue: seq<Node>, roots: seq<Node>, visited: set<VisitKey>,
                     visited0: set<VisitKey>, repo: Repo, v: set<VisitKey>, added: seq<Node>)
    requires queue != []
    requires Frontier(explored, queue, roots, visited, visited0, repo)
    requires visited0 <= visited <= v
    requires forall k :: k in RefKeys(queue[0]) ==> k in v || Fetch(repo, k).NotFound?
    requires forall k :: k in v - visited ==> CanvasInSeq(repo, k, added)
    ensures Frontier(explored + {queue[0]}, queue[1..] + queue[0].blocks + added, roots, v, visited0, repo)
  {
    var e', q' := explored + {queue[0]}, queue[1..] + queue[0].blocks + added;
    forall x | x in explored || x in queue
      ensures x in e' || x in q'
    {
      if x !in explored {
        PopMember(queue, x);
      }
    }
    forall k | k in v - visited0
      ensures SplitCanvas(repo, k, e', q')
    {
      if k !in visited {
        assert CanvasInSeq(repo, k, added);
      } else {
        assert SplitCanvas(repo, k, explored, queue);
      }
    }
  }

  /** With the queue empty, the explored nodes are closed and hold the roots. */
  lemma FrontierDone(explored: set<Node>, roots: seq<Node>, visited: set<VisitKey>, visited0: set<VisitKey>, repo: Repo)
    requires Frontier(explored, [], roots, visited, visited0, repo)
    ensures Covers(explored, roots)
    ensures Closed(explored, repo, visited0)
  {
    forall n | n in explored
      ensures TargetsIn(n, explored, repo, visited0)
    {
      forall k | k in RefKeys(n) && k !in visited0
        ensures CanvasIn(repo, k, explored)
      {
        if k in visited {
          assert SplitCanvas(repo, k, explored, []);
        }
      }
    }
  }

  /**
   * `validateNodesRecursively`: breadth-first over the queue, checking each
   * node, queueing its blocks and the canvases of the workflows it refers to.
   * `visited0` is the caller's map, holding the root's own key.
   */
  method ValidateNodesRecursively(nodes: seq<Node>, check: CheckType, visited0: set<VisitKey>, repo: Repo)
    returns (r: Option<CheckError>, visited: set<VisitKey>, ghost fetched: seq<VisitKey>, ghost explored: set<Node>)
    ensures ErrorLog(fetched, visited0, repo)
    ensures r.None? ==> visited0 <= visited && visited - visited0 <= FoundKeys(repo)
    ensures r.None? <==> PassingClosure(nodes, check, repo, visited0)
    ensures r.None? ==> Covers(explored, nodes) && Closed(explored, repo, visited0)
    ensures r.None? ==> FaultFree(explored, check, repo, visited0)
    ensures r.None? ==> forall p :: IsPath(p, nodes, repo, visited0) ==> !Faulty(check, p[|p| - 1], repo, visited0)
    ensures r == Some(ConversationNotSupported) ==> check == BotAgent
  {
    var queue := nodes;
    visited, fetched, explored := visited0, [], {};
    while queue != []
      invariant LogInvariant(fetched, visited, visited0, repo)
      invariant Frontier(explored, queue, nodes, visited, visited0, repo)
      invariant FaultFree(explored, check, repo, visited0)
      invariant QueueInClosures(queue, nodes, repo, visited0)
      decreases |FoundKeys(repo) - visited|, Size(queue)
    {
      var node := queue[0];
      ghost var before := queue;
      var checkErr := CheckNode(check, node);
      if checkErr.Some? {
        FaultyHeadFails(queue, nodes, check, repo, visited0);
        return checkErr, visited, fetched, explored + {node};
      }
      var e, v, added, f := VisitNodeRefs(repo, node, visited, visited0, fetched);
      if e.Some? {
        FaultyHeadFails(queue, nodes, check, repo, visited0);
        return e, v, f, explored + {node};
      }
      FrontierStep(explored, queue, nodes, visited, visited0, repo, v, added);
      QueueStep(queue, added, nodes, repo, visited0);
      if added == [] {
        SubsetCard(FoundKeys(repo) - v, FoundKeys(repo) - visited);
        PopShrinks(queue);
        assert queue[1..] + node.blocks + added == queue[1..] + node.blocks;
      } else {
        UnvisitedShrinks(repo, visited, v);
      }
      explored := explored + {node};
      queue := queue[1..] + node.blocks + added;
      visited, fetched := v, f;
    }
    FrontierDone(explored, nodes, visited, visited0, repo);
    assert PassingClosure(nodes, check, repo, visited0);
    forall p | IsPath(p, nodes, repo, visited0)
      ensures p[|p| - 1] in explored
    {
      PathStaysInClosure(explored, p, nodes, repo, visited0);
    }
    r := None;
  }

  datatype CheckResult = CheckResult(isPass: bool, reason: string, checkType: CheckType)

  /** One entry of the check results: a walk and its verdict. */
  method CheckOnce(nodes: seq<Node>, check: CheckType, visited0: set<VisitKey>, repo: Repo) returns (res: CheckResult)
    ensures res.checkType == check
    ensures res.isPass <==> res.reason == ""
    ensures res.isPass <==> PassingClosure(nodes, check, repo, visited0)
  {
    var err, _, _, explored := ValidateNodesRecursively(nodes, check, visited0, repo);
    if err.Some? {
      res := CheckResult(false, Message(err.value), check);
    } else {
      res := CheckResult(true, "", check);
    }
  }

  /** The key the root workflow is entered under before each walk. */
  function RootVisited(wfID: int, version: string): set<VisitKey>
  {
    {VisitKey(wfID, version)}
  }

  /**
   * `WorkflowSchemaCheck`: one result per requested check type, in order,
   * each from a walk with a fresh `visited` set holding the root's key.
   * `canvas` is `None` when the workflow's canvas does not decode.
   */
  method WorkflowSchemaCheck(wfID: int, version: string, canvas: Option<seq<Node>>, checks: seq<CheckType>, repo: Repo)
    returns (r: Result<seq<CheckResult>, string>)
    ensures canvas.None? <==> r.Err?
    ensures r.Ok? ==> |r.value| == |checks|
    ensures r.Ok? ==> forall i :: 0 <= i < |checks| ==> r.value[i].checkType == checks[i]
    ensures r.Ok? ==> forall i :: 0 <= i < |checks| ==> (r.value[i].isPass <==> r.value[i].reason == "")
    ensures r.Ok? ==> forall i :: 0 <= i < |checks| ==>
      (r.value[i].isPass <==> PassingClosure(canvas.value, checks[i], repo, RootVisited(wfID, version)))
  {
    if canvas.None? {
      return Err("failed to unmarshal canvas for workflow");
    }
    var results: seq<CheckResult> := [];
    var i := 0;
    while i < |checks|
      invariant 0 <= i <= |checks|
      invariant |results| == i
      invariant forall j :: 0 <= j < i ==> results[j].checkType == checks[j]
      invariant forall j :: 0 <= j < i ==> (results[j].isPass <==> results[j].reason == "")
      invariant forall j :: 0 <= j < i ==>
        (results[j].isPass <==> PassingClosure(canvas.value, checks[j], repo, RootVisited(wfID, version)))
    {
      var res := CheckOnce(canvas.value, checks[i], RootVisited(wfID, version), repo);
      results := results + [res];
      i := i + 1;
    }
    return Ok(results);
  }
}
