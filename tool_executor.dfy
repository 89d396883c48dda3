/**
 * The trimming loops of the tool executor, proved against the functions
 * of `ToolResponse`. Go's map iteration order is unspecified, so every map
 * loop picks an arbitrary key still to be visited.
 */
module ToolExecutor {
  import opened Wrappers
  import opened PluginTypes
  import opened ToolResponse

  // ---------------------------------------------------------------------
  // Return raw: keys are deleted from the map in place while iterating
  // ---------------------------------------------------------------------

  /** The keys not yet visited still hold their input values; visited keys hold their trimmed values or are gone. */
  ghost predicate RawProgress(paramVals: map<string, Value>, s: Schema, todo: set<string>, r: map<string, Value>)
  {
    && todo <= paramVals.Keys
    && r.Keys == todo + (Kept(paramVals, s) - todo)
    && (forall k :: k in todo ==> r[k] == paramVals[k])
    && (forall k :: k in r && k !in todo ==> r[k] == TrimRaw(paramVals, s)[k])
  }

  /** Deleting an undeclared or disabled key. */
  lemma RawDrop(paramVals: map<string, Value>, s: Schema, todo: set<string>, r: map<string, Value>, k: string)
    requires RawProgress(paramVals, s, todo, r) && k in todo && k !in Kept(paramVals, s)
    ensures RawProgress(paramVals, s, todo - {k}, r - {k})
  {
  }

  /** Leaving a kept key with its trimmed value. */
  lemma RawKeep(paramVals: map<string, Value>, s: Schema, todo: set<string>, r: map<string, Value>, k: string, x: Value)
    requires RawProgress(paramVals, s, todo, r) && k in todo && k in Kept(paramVals, s)
    requires x == TrimRaw(paramVals, s)[k]
    ensures RawProgress(paramVals, s, todo - {k}, r[k := x])
  {
  }

  /** With every key visited, what is left is the trimmed object. */
  lemma RawDone(paramVals: map<string, Value>, s: Schema, r: map<string, Value>)
    requires RawProgress(paramVals, s, {}, r)
    ensures r == TrimRaw(paramVals, s)
  {
    TrimRawMeaning(paramVals, s);
    assert r.Keys == TrimRaw(paramVals, s).Keys;
  }

  /** `processWithInvalidRespProcessStrategyOfReturnRaw`. */
  method ReturnRaw(paramVals: map<string, Value>, s: Schema) returns (r: map<string, Value>)
    ensures r == TrimRaw(paramVals, s)
    decreases Object(paramVals), 1
  {
    r := paramVals;
    var todo := paramVals.Keys;
    while todo != {}
      invariant RawProgress(paramVals, s, todo, r)
      decreases todo
    {
      var k :| k in todo;
      r := RawVisit(paramVals, s, todo, r, k);
      todo := todo - {k};
    }
    RawDone(paramVals, s, r);
  }

  /** One iteration: delete the key, descend into an object-typed object value, or leave it. */
  method RawVisit(paramVals: map<string, Value>, s: Schema, todo: set<string>, r: map<string, Value>, k: string)
    returns (r': map<string, Value>)
    requires RawProgress(paramVals, s, todo, r) && k in todo
    ensures RawProgress(paramVals, s, todo - {k}, r')
    decreases Object(paramVals), 0
  {
    TrimRawMeaning(paramVals, s);
    if k !in s.properties || DisabledParam(s.properties[k]) {
      RawDrop(paramVals, s, todo, r, k);
      r' := r - {k};
    } else if s.properties[k].stype == TObject && paramVals[k].Object? {
      var trimmed := ReturnRaw(paramVals[k].fields, s.properties[k]);
      RawKeep(paramVals, s, todo, r, k, Object(trimmed));
      r' := r[k := Object(trimmed)];
    } else {
      RawKeep(paramVals, s, todo, r, k, r[k]);
      assert r[k := r[k]] == r;
      r' := r;
    }
  }

  // ---------------------------------------------------------------------
  // Return error: new maps and slices, any mismatch an error
  // ---------------------------------------------------------------------

  /** The `processor` closure of `processWithInvalidRespProcessStrategyOfReturnErr`; `None` is its error. */
  method ProcessStrict(v: Value, s: Schema) returns (r: Option<Value>)
    requires WellFormed(s)
    ensures r == Strict(v, s)
    decreases v, 1
  {
    match s.stype
    case TObject =>
      if !v.Object? {
        return None;
      }
      var m := ReturnErr(v.fields, s);
      r := if m.None? then None else Some(Object(m.value));
    case TArray =>
      if !v.Array? {
        return None;
      }
      var xs := ProcessStrictItems(v.items, s.items.value);
      r := if xs.None? then None else Some(Array(xs.value));
    case TString =>
      r := if v.Str? then Some(v) else None;
    case TBoolean =>
      r := if v.Bool? then Some(v) else None;
    case TInteger =>
      if !v.Number? {
        return None;
      }
      var n := NumberInt64(v.text);
      r := if n.None? then None else Some(Int(n.value));
    case TNumber =>
      r := if v.Number? then Some(v) else None;
    case TUnsupported(_) =>
      r := None;
  }

  /**
   * The object loop of the processor, which is also the whole of
   * `processWithInvalidRespProcessStrategyOfReturnErr`: only declared,
   * enabled keys are processed, and the first failure fails the object.
   */
  method ReturnErr(paramVals: map<string, Value>, s: Schema) returns (r: Option<map<string, Value>>)
    requires PropertiesWellFormed(s)
    ensures r == StrictFields(paramVals, s)
    decreases Object(paramVals), 0
  {
    var acc: map<string, Value> := map[];
    var todo := paramVals.Keys;
    while todo != {}
      invariant todo <= paramVals.Keys
      invariant acc.Keys == Kept(paramVals, s) - todo
      invariant forall k :: k in acc ==> Strict(paramVals[k], s.properties[k]) == Some(acc[k])
      decreases todo
    {
      var k :| k in todo;
      todo := todo - {k};
      if k in s.properties && !DisabledParam(s.properties[k]) {
        var x := ProcessStrict(paramVals[k], s.properties[k]);
        if x.None? {
          StrictFieldFails(paramVals, s, k);
          return None;
        }
        acc := acc[k := x.value];
      }
    }
    assert acc == map k | k in Kept(paramVals, s) :: Strict(paramVals[k], s.properties[k]).value;
    r := Some(acc);
  }

  /** Prefixes `acc` to a successful tail and propagates a failed one. */
  function Prefixed(acc: seq<Value>, tail: Option<seq<Value>>): Option<seq<Value>>
  {
    if tail.None? then None else Some(acc + tail.value)
  }

  /** What one element contributes to a processed array: nothing when it came out `nil`. */
  function Kept1(x: Value): seq<Value>
  {
    if x == Null then [] else [x]
  }

  lemma PrefixedEmpty(tail: Option<seq<Value>>)
    ensures Prefixed([], tail) == tail
  {
    if tail.Some? {
      assert [] + tail.value == tail.value;
    }
  }

  /** One step of the strict array loop. */
  lemma StrictItemsStep(items: seq<Value>, i: nat, item: Schema, acc: seq<Value>)
    requires WellFormed(item) && i < |items| && Strict(items[i], item).Some?
    ensures Prefixed(acc, StrictItems(items, i, item))
      == Prefixed(acc + Kept1(Strict(items[i], item).value), StrictItems(items, i + 1, item))
  {
    var x := Strict(items[i], item).value;
    var tail := StrictItems(items, i + 1, item);
    if tail.Some? {
      assert StrictItems(items, i, item) == Some(Kept1(x) + tail.value);
      assert acc + (Kept1(x) + tail.value) == (acc + Kept1(x)) + tail.value;
    }
  }

  /** One step of the default array loop. */
  lemma DefaultItemsStep(items: seq<Value>, i: nat, item: Schema, acc: seq<Value>)
    requires WellFormed(item) && i < |items| && Default(items[i], item).Some?
    ensures Prefixed(acc, DefaultItems(items, i, item))
      == Prefixed(acc + Kept1(Default(items[i], item).value), DefaultItems(items, i + 1, item))
  {
    var x := Default(items[i], item).value;
    var tail := DefaultItems(items, i + 1, item);
    if tail.Some? {
      if x == Null {
        assert Kept1(x) + tail.value == tail.value;
      }
      assert DefaultItems(items, i, item) == Some(Kept1(x) + tail.value);
      assert acc + (Kept1(x) + tail.value) == (acc + Kept1(x)) + tail.value;
    }
  }

  /** The array loop of the processor; elements that come out `nil` are not appended. */
  method ProcessStrictItems(items: seq<Value>, item: Schema) returns (r: Option<seq<Value>>)
    requires WellFormed(item)
    ensures r == StrictItems(items, 0, item)
    decreases Array(items), 0
  {
    var acc: seq<Value> := [];
    var i := 0;
    PrefixedEmpty(StrictItems(items, 0, item));
    while i < |items|
      invariant i <= |items|
      invariant StrictItems(items, 0, item) == Prefixed(acc, StrictItems(items, i, item))
      decreases |items| - i
    {
      var x := ProcessStrict(items[i], item);
      if x.None? {
        return None;
      }
      StrictItemsStep(items, i, item, acc);
      if x.value != Null {
        acc := acc + [x.value];
      } else {
        assert acc + Kept1(x.value) == acc;
      }
      i := i + 1;
    }
    assert acc + [] == acc;
    r := Some(acc);
  }

  // ---------------------------------------------------------------------
  // Return default: mismatches become defaults, unsupported types an error
  // ---------------------------------------------------------------------

  /** The `processor` closure of `processWithInvalidRespProcessStrategyOfReturnDefault`; `None` is its error. */
  method ProcessDefault(v: Value, s: Schema) returns (r: Option<Value>)
    requires WellFormed(s)
    ensures r == Default(v, s)
    decreases v, 1
  {
    match s.stype
    case TObject =>
      if !v.Object? {
        return Some(Null);
      }
      var m := ReturnDefault(v.fields, s);
      r := if m.None? then None else Some(Object(m.value));
    case TArray =>
      if !v.Array? {
        return Some(Null);
      }
      var xs := ProcessDefaultItems(v.items, s.items.value);
      r := if xs.None? then None else Some(Array(xs.value));
    case TString =>
      r := Some(if v.Str? then v else Str(""));
    case TBoolean =>
      r := Some(if v.Bool? then v else Bool(false));
    case TInteger =>
      if !v.Number? {
        return Some(Int(0));
      }
      var n := NumberInt64(v.text);
      r := Some(if n.None? then Int(0) else Int(n.value));
    case TNumber =>
      r := Some(if v.Number? then v else Number("0"));
    case TUnsupported(_) =>
      r := None;
  }

  /** The object loop of the processor, which is also the whole of `processWithInvalidRespProcessStrategyOfReturnDefault`. */
  method ReturnDefault(paramVals: map<string, Value>, s: Schema) returns (r: Option<map<string, Value>>)
    requires PropertiesWellFormed(s)
    ensures r == DefaultFields(paramVals, s)
    decreases Object(paramVals), 0
  {
    var acc: map<string, Value> := map[];
    var todo := paramVals.Keys;
    while todo != {}
      invariant todo <= paramVals.Keys
      invariant acc.Keys == Kept(paramVals, s) - todo
      invariant forall k :: k in acc ==> Default(paramVals[k], s.properties[k]) == Some(acc[k])
      decreases todo
    {
      var k :| k in todo;
      todo := todo - {k};
      if k in s.properties && !DisabledParam(s.properties[k]) {
        var x := ProcessDefault(paramVals[k], s.properties[k]);
        if x.None? {
          return None;
        }
        acc := acc[k := x.value];
      }
    }
    assert acc == map k | k in Kept(paramVals, s) :: Default(paramVals[k], s.properties[k]).value;
    r := Some(acc);
  }

  /** The array loop of the processor; elements that come out `nil` are not appended. */
  method ProcessDefaultItems(items: seq<Value>, item: Schema) returns (r: Option<seq<Value>>)
    requires WellFormed(item)
    ensures r == DefaultItems(items, 0, item)
    decreases Array(items), 0
  {
    var acc: seq<Value> := [];
    var i := 0;
    PrefixedEmpty(DefaultItems(items, 0, item));
    while i < |items|
      invariant i <= |items|
      invariant DefaultItems(items, 0, item) == Prefixed(acc, DefaultItems(items, i, item))
      decreases |items| - i
    {
      var x := ProcessDefault(items[i], item);
      if x.None? {
        return None;
      }
      DefaultItemsStep(items, i, item, acc);
      if x.value != Null {
        acc := acc + [x.value];
      } else {
        assert acc + Kept1(x.value) == acc;
      }
      i := i + 1;
    }
    assert acc + [] == acc;
    r := Some(acc);
  }

  // ---------------------------------------------------------------------
  // processResponse and execute
  // ---------------------------------------------------------------------

  /** A declared response: its schema per media type. */
  datatype ResponseSpec = ResponseSpec(content: map<string, Schema>)

  /** `InvalidResponseProcessStrategy`; `OtherStrategy` is any undefined code. */
  datatype Strategy = StrategyReturnRaw | StrategyReturnDefault | StrategyReturnErr | OtherStrategy(code: int)

  datatype ResponseError =
    | NoStatusOK
    | NoJsonMediaType
    | NotAnObject
    | TrimFailed
    | InvalidStrategy(code: int)
    | MarshalFailed

  /** `strconv.Itoa(http.StatusOK)`. */
  const StatusOK := "200"

  /** The schema a response is trimmed against, when the responses declare one. */
  function OkSchema(responses: map<string, ResponseSpec>): Option<Schema>
  {
    if StatusOK in responses && MediaTypeJson in responses[StatusOK].content
    then Some(responses[StatusOK].content[MediaTypeJson])
    else None
  }

  /** The trimmed object under a strategy; `None` is the strategy's error, `Err` an undefined strategy. */
  function Trim(strategy: Strategy, m: map<string, Value>, s: Schema): (r: Result<Option<map<string, Value>>, ResponseError>)
    requires PropertiesWellFormed(s)
    ensures r.Err? <==> strategy.OtherStrategy?
    ensures strategy == StrategyReturnRaw ==> r == Ok(Some(TrimRaw(m, s)))
    ensures strategy == StrategyReturnErr ==> r == Ok(StrictFields(m, s))
    ensures strategy == StrategyReturnDefault ==> r == Ok(DefaultFields(m, s))
  {
    match strategy
    case StrategyReturnRaw => Ok(Some(TrimRaw(m, s)))
    case StrategyReturnDefault => Ok(DefaultFields(m, s))
    case StrategyReturnErr => Ok(StrictFields(m, s))
    case OtherStrategy(code) => Err(InvalidStrategy(code))
  }

  /** Schemas the strict and default trimmers can walk without dereferencing a missing item schema. */
  ghost predicate ResponsesReady(responses: map<string, ResponseSpec>)
  {
    OkSchema(responses).Some? ==> PropertiesWellFormed(OkSchema(responses).value)
  }

  /** The declared responses have a JSON schema with properties, and the body decodes: the trimmer runs. */
  predicate TrimReached(responses: map<string, ResponseSpec>, rawResp: string, decode: string -> Option<map<string, Value>>)
  {
    |responses| > 0 && OkSchema(responses).Some? && decode(rawResp).Some? && |OkSchema(responses).value.properties| > 0
  }

  /**
   * `processResponse`, with JSON decoding and encoding as the parameters
   * `decode` and `marshal`.
   */
  function ProcessedResponse(
    responses: map<string, ResponseSpec>, rawResp: string, strategy: Strategy,
    decode: string -> Option<map<string, Value>>, marshal: map<string, Value> -> Option<string>): (r: Result<string, ResponseError>)
    requires ResponsesReady(responses)
    ensures |responses| == 0 ==> r == Ok("")
    ensures |responses| > 0 && StatusOK !in responses ==> r == Err(NoStatusOK)
    ensures |responses| > 0 && StatusOK in responses && MediaTypeJson !in responses[StatusOK].content ==> r == Err(NoJsonMediaType)
    ensures |responses| > 0 && OkSchema(responses).Some? && decode(rawResp).None? ==> r == Err(NotAnObject)
    ensures |responses| > 0 && OkSchema(responses).Some? && decode(rawResp).Some? && |OkSchema(responses).value.properties| == 0 ==> r == Ok("")
    ensures r.Err? && r.error.InvalidStrategy? ==> strategy.OtherStrategy?
    ensures TrimReached(responses, rawResp, decode) && strategy.OtherStrategy? ==> r == Err(InvalidStrategy(strategy.code))
    ensures TrimReached(responses, rawResp, decode) && Trim(strategy, decode(rawResp).value, OkSchema(responses).value) == Ok(None) ==>
      r == Err(TrimFailed)
    ensures TrimReached(responses, rawResp, decode) && r == Err(TrimFailed) ==>
      Trim(strategy, decode(rawResp).value, OkSchema(responses).value) == Ok(None)
    ensures (TrimReached(responses, rawResp, decode) && Trim(strategy, decode(rawResp).value, OkSchema(responses).value).Ok? &&
             Trim(strategy, decode(rawResp).value, OkSchema(responses).value).value.Some? &&
             marshal(Trim(strategy, decode(rawResp).value, OkSchema(responses).value).value.value).None?) ==>
      r == Err(MarshalFailed)
    ensures r.Ok? && r.value != "" ==>
      exists m :: Trim(strategy, decode(rawResp).value, OkSchema(responses).value) == Ok(Some(m)) && marshal(m) == Some(r.value)
  {
    if |responses| == 0 then Ok("")
    else if StatusOK !in responses then Err(NoStatusOK)
    else if MediaTypeJson !in responses[StatusOK].content then Err(NoJsonMediaType)
    else
      var schema := responses[StatusOK].content[MediaTypeJson];
      match decode(rawResp)
      case None => Err(NotAnObject)
      case Some(m) =>
        if |schema.properties| == 0 then Ok("")
        else
          match Trim(strategy, m, schema)
          case Err(e) => Err(e)
          case Ok(None) => Err(TrimFailed)
          case Ok(Some(trimmed)) =>
            (match marshal(trimmed)
             case None => Err(MarshalFailed)
             case Some(text) => Ok(text))
  }

  /** Return-default fails only through decoding or encoding when every schema type is supported. */
  lemma ReturnDefaultFailsOnlyOnCodec(
    responses: map<string, ResponseSpec>, rawResp: string,
    decode: string -> Option<map<string, Value>>, marshal: map<string, Value> -> Option<string>)
    requires ResponsesReady(responses)
    requires OkSchema(responses).Some? && Supported(OkSchema(responses).value)
    requires ProcessedResponse(responses, rawResp, StrategyReturnDefault, decode, marshal).Err?
    ensures ProcessedResponse(responses, rawResp, StrategyReturnDefault, decode, marshal).error in {NotAnObject, MarshalFailed}
  {
    var m := decode(rawResp);
    if m.Some? {
      DefaultFieldsTotal(m.value, OkSchema(responses).value);
    }
  }

  /** `processResponse`. */
  method ProcessResponse(
    responses: map<string, ResponseSpec>, rawResp: string, strategy: Strategy,
    decode: string -> Option<map<string, Value>>, marshal: map<string, Value> -> Option<string>)
    returns (r: Result<string, ResponseError>)
    requires ResponsesReady(responses)
    ensures r == ProcessedResponse(responses, rawResp, strategy, decode, marshal)
  {
    if |responses| == 0 {
      return Ok("");
    }
    if StatusOK !in responses {
      return Err(NoStatusOK);
    }
    if MediaTypeJson !in responses[StatusOK].content {
      return Err(NoJsonMediaType);
    }
    var respMap := decode(rawResp);
    if respMap.None? {
      return Err(NotAnObject);
    }
    var schema := responses[StatusOK].content[MediaTypeJson];
    if |schema.properties| == 0 {
      return Ok("");
    }
    var trimmed: Option<map<string, Value>>;
    match strategy {
      case StrategyReturnRaw =>
        var t := ReturnRaw(respMap.value, schema);
        trimmed := Some(t);
      case StrategyReturnDefault =>
        trimmed := ReturnDefault(respMap.value, schema);
      case StrategyReturnErr =>
        trimmed := ReturnErr(respMap.value, schema);
      case OtherStrategy(code) =>
        return Err(InvalidStrategy(code));
    }
    if trimmed.None? {
      return Err(TrimFailed);
    }
    var text := marshal(trimmed.value);
    if text.None? {
      return Err(MarshalFailed);
    }
    r := Ok(text.value);
  }

  /** `ExecuteResponse`. */
  datatype ExecuteResponse = ExecuteResponse(request: string, trimmedResp: string, rawResp: string)

  /** What the invocation returned: the request it sent and the raw response body. */
  datatype Call = Call(request: string, rawResp: string)

  datatype ExecuteError = ArgumentsRequired | CallFailed(reason: string) | ResponseFailed(cause: ResponseError)

  /** `defaultResp`. */
  const DefaultResp := "{}"

  /**
   * `execute`; `call` is the outcome of building the invocation, assembling
   * file URLs and performing the HTTP call, which this model does not see.
   */
  method Execute(
    argumentsInJson: string, call: Result<Call, string>,
    responses: map<string, ResponseSpec>, strategy: Strategy,
    decode: string -> Option<map<string, Value>>, marshal: map<string, Value> -> Option<string>)
    returns (r: Result<ExecuteResponse, ExecuteError>)
    requires ResponsesReady(responses)
    ensures argumentsInJson == "" ==> r == Err(ArgumentsRequired)
    ensures argumentsInJson != "" && call.Err? ==> r == Err(CallFailed(call.error))
    ensures argumentsInJson != "" && call.Ok? && call.value.rawResp == "" ==>
      r == Ok(ExecuteResponse(call.value.request, DefaultResp, DefaultResp))
    ensures argumentsInJson != "" && call.Ok? && call.value.rawResp != "" ==>
      var p := ProcessedResponse(responses, call.value.rawResp, strategy, decode, marshal);
      (p.Err? ==> r == Err(ResponseFailed(p.error)))
      && (p.Ok? ==> r == Ok(ExecuteResponse(call.value.request, if p.value == "" then DefaultResp else p.value, call.value.rawResp)))
    ensures r.Ok? ==> r.value.trimmedResp != "" && r.value.rawResp != ""
  {
    if argumentsInJson == "" {
      return Err(ArgumentsRequired);
    }
    if call.Err? {
      return Err(CallFailed(call.error));
    }
    var requestStr := call.value.request;
    var rawResp := call.value.rawResp;
    if rawResp == "" {
      return Ok(ExecuteResponse(requestStr, DefaultResp, DefaultResp));
    }
    var trimmed := ProcessResponse(responses, rawResp, strategy, decode, marshal);
    if trimmed.Err? {
      return Err(ResponseFailed(trimmed.error));
    }
    var trimmedResp := trimmed.value;
    if trimmedResp == "" {
      trimmedResp := DefaultResp;
    }
    r := Ok(ExecuteResponse(requestStr, trimmedResp, rawResp));
  }

  // ---------------------------------------------------------------------
  // acquireAccessTokenIfNeed
  // ---------------------------------------------------------------------

  /** `ToolAuthMode`, as read from the operation's auth-mode extension. */
  datatype ToolAuthMode = AuthModeRequired | AuthModeDisabled | OtherAuthMode(text: string)

  /**
   * The auth mode in force: the extension's value when it is a string
   * (here `Some`), required otherwise.
   */
  function EffectiveAuthMode(ext: Option<ToolAuthMode>): ToolAuthMode
  {
    if ext.Some? then ext.value else AuthModeRequired
  }

  /** Whether a call fetches an access token (and an authorization URL). */
  predicate NeedsAccessToken(authType: AuthzType, subType: AuthzSubType, authModeExt: Option<ToolAuthMode>)
  {
    authType != AuthzNone && EffectiveAuthMode(authModeExt) != AuthModeDisabled && subType == OAuthAuthorizationCode
  }

  /**
   * `acquireAccessTokenIfNeed`; `token` and `authURL` are the outcomes of
   * `GetAccessToken` and `genAuthURL`, called only when a token is needed.
   */
  function AcquireAccessTokenIfNeed(
    authType: AuthzType, subType: AuthzSubType, authModeExt: Option<ToolAuthMode>,
    token: Result<string, string>, authURL: Result<string, string>): (r: Result<(string, string), string>)
    ensures !NeedsAccessToken(authType, subType, authModeExt) ==> r == Ok(("", ""))
    ensures NeedsAccessToken(authType, subType, authModeExt) ==>
      (r.Ok? <==> token.Ok? && authURL.Ok?)
      && (r.Ok? ==> r.value == (token.value, authURL.value))
      && (token.Err? ==> r == Err(token.error))
  {
    if authType == AuthzNone then Ok(("", ""))
    else
      var mode := EffectiveAuthMode(authModeExt);
      if mode == AuthModeDisabled then Ok(("", ""))
      else if subType == OAuthAuthorizationCode then
        match token
        case Err(e) => Err(e)
        case Ok(t) =>
          (match authURL
           case Err(e) => Err(e)
           case Ok(u) => Ok((t, u)))
      else Ok(("", ""))
  }

  /** No auth, or an explicitly disabled auth mode, never fetches a token, whatever the sub-type. */
  lemma NoTokenWithoutAuth(authType: AuthzType, subType: AuthzSubType, authModeExt: Option<ToolAuthMode>,
    token: Result<string, string>, authURL: Result<string, string>)
    requires authType == AuthzNone || authModeExt == Some(AuthModeDisabled)
    ensures AcquireAccessTokenIfNeed(authType, subType, authModeExt, token, authURL) == Ok(("", ""))
  {
  }
}
