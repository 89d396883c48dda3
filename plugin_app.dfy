/**
 * The plugin application service: the product list's keyword filter, the
 * product extra info (plugin type, tool infos, auth mode), the draft
 * access check and the edit lock.
 */
module PluginApp {
  import opened Wrappers
  import opened Strings
  import opened PluginTypes

  // ---------------------------------------------------------------------
  // Edit lock
  // ---------------------------------------------------------------------

  /** `CheckAndLockPluginEdit`: the lock is always reported seized. */
  function CheckAndLockPluginEdit(): (seized: bool)
    ensures seized
  {
    true
  }

  /** `UnlockPluginEdit`: the lock is always reported released. */
  function UnlockPluginEdit(): (released: bool)
    ensures released
  {
    true
  }

  // ---------------------------------------------------------------------
  // Keyword filter of PublicGetProductList
  // ---------------------------------------------------------------------

  /** The parts of a `ProductInfo` the filter reads or keeps. */
  datatype ProductInfo = ProductInfo(entityID: int, name: string)

  /** A product's lower-cased name contains the lower-cased keyword. */
  predicate MatchesKeyword(p: ProductInfo, keyword: string)
  {
    Contains(ToLower(p.name), ToLower(keyword))
  }

  /** The matching products, in their order. */
  function Filtered(products: seq<ProductInfo>, keyword: string): (r: seq<ProductInfo>)
    ensures |r| <= |products|
    ensures forall p :: p in r ==> p in products && MatchesKeyword(p, keyword)
  {
    if |products| == 0 then []
    else
      var last := products[|products| - 1];
      Filtered(products[..|products| - 1], keyword) + (if MatchesKeyword(last, keyword) then [last] else [])
  }

  /** Every matching product is kept. */
  lemma {:induction false} FilteredKeepsMatches(products: seq<ProductInfo>, keyword: string, p: ProductInfo)
    requires p in products && MatchesKeyword(p, keyword)
    ensures p in Filtered(products, keyword)
  {
    var n := |products|;
    if products[n - 1] != p {
      assert p in products[..n - 1] by {
        var i :| 0 <= i < n && products[i] == p;
        assert i < n - 1;
        assert products[..n - 1][i] == p;
      }
      FilteredKeepsMatches(products[..n - 1], keyword, p);
    }
  }

  /** Filtering distributes over concatenation: the relative order of the kept products is the input order. */
  lemma {:induction false} FilteredAppend(xs: seq<ProductInfo>, ys: seq<ProductInfo>, keyword: string)
    ensures Filtered(xs + ys, keyword) == Filtered(xs, keyword) + Filtered(ys, keyword)
    decreases |ys|
  {
    if |ys| == 0 {
      assert xs + ys == xs;
    } else {
      var n := |ys|;
      assert (xs + ys)[..|xs + ys| - 1] == xs + ys[..n - 1];
      assert (xs + ys)[|xs + ys| - 1] == ys[n - 1];
      FilteredAppend(xs, ys[..n - 1], keyword);
    }
  }

  /** Filtering twice filters no more. */
  lemma {:induction false} FilteredIdempotent(products: seq<ProductInfo>, keyword: string)
    ensures Filtered(Filtered(products, keyword), keyword) == Filtered(products, keyword)
    decreases |products|
  {
    if |products| > 0 {
      var n := |products|;
      var last := products[n - 1];
      FilteredIdempotent(products[..n - 1], keyword);
      var kept := if MatchesKeyword(last, keyword) then [last] else [];
      FilteredAppend(Filtered(products[..n - 1], keyword), kept, keyword);
      if MatchesKeyword(last, keyword) {
        assert Filtered(kept, keyword) == Filtered([], keyword) + [last];
        assert [] + [last] == [last];
      }
    }
  }

  /** The empty keyword matches every product. */
  lemma EmptyKeywordMatches(p: ProductInfo)
    ensures MatchesKeyword(p, "")
  {
    assert IsPrefix(ToLower(""), ToLower(p.name));
  }

  /** The filter loop of `PublicGetProductList`; an empty keyword means no filtering. */
  method FilterProducts(products: seq<ProductInfo>, keyword: string) returns (r: seq<ProductInfo>)
    ensures keyword == "" ==> r == products
    ensures keyword != "" ==> r == Filtered(products, keyword)
  {
    if keyword == "" {
      return products;
    }
    var filterProducts: seq<ProductInfo> := [];
    var i := 0;
    while i < |products|
      invariant i <= |products|
      invariant filterProducts == Filtered(products[..i], keyword)
    {
      if Contains(ToLower(products[i].name), ToLower(keyword)) {
        filterProducts := filterProducts + [products[i]];
      }
      assert products[..i + 1][..i] == products[..i];
      i := i + 1;
    }
    assert products[..i] == products;
    r := filterProducts;
  }

  // ---------------------------------------------------------------------
  // buildPluginProductExtraInfo
  // ---------------------------------------------------------------------

  /** The plugin's `PluginType`; only `LOCAL` is told apart. */
  datatype PluginType = PluginTypeLocal | OtherPluginType(code: int)

  /** The product-side plugin type. */
  datatype ProductPluginType = LocalPlugin | CloudPlugin

  function ProductPluginTypeOf(t: PluginType): (r: ProductPluginType)
    ensures r == LocalPlugin <==> t == PluginTypeLocal
  {
    if t == PluginTypeLocal then LocalPlugin else CloudPlugin
  }

  /** `PluginAuthMode`. */
  datatype PluginAuthMode = NoAuth | Required | Configured

  /**
   * The auth mode of a product: `authInfo` is the plugin's auth type, if it
   * has auth info; `manifestValid` is the outcome of validating the manifest.
   */
  function AuthModeOf(authInfo: Option<AuthzType>, manifestValid: bool): (r: PluginAuthMode)
    ensures r == NoAuth <==> authInfo.None? || authInfo.value !in {AuthzService, AuthzOAuth}
    ensures r == Configured <==> authInfo.Some? && authInfo.value in {AuthzService, AuthzOAuth} && manifestValid
    ensures r == Required <==> authInfo.Some? && authInfo.value in {AuthzService, AuthzOAuth} && !manifestValid
  {
    if authInfo.Some? && (authInfo.value == AuthzService || authInfo.value == AuthzOAuth) then
      if manifestValid then Configured else Required
    else NoAuth
  }

  /** The parts of a `ToolInfo` the builder reads. */
  datatype ToolInfo = ToolInfo(id: int, name: string, desc: string)

  /** A tool's request and response examples. */
  datatype ToolExample = ToolExample(reqExample: string, respExample: string)

  /** `PluginToolInfo`, with the tool's parameters of type `P`. */
  datatype PluginToolInfo<P> = PluginToolInfo(id: int, name: string, description: string, parameters: P, example: Option<ToolExample>)

  /** The tool info of one tool, or its parameter conversion's error. */
  function ToolInfoOf<P>(tl: ToolInfo, params: ToolInfo -> Result<P, string>, example: string -> Option<ToolExample>): Result<PluginToolInfo<P>, string>
  {
    match params(tl)
    case Err(e) => Err(e)
    case Ok(ps) => Ok(PluginToolInfo(tl.id, tl.name, tl.desc, ps, example(tl.name)))
  }

  /** The index of the first tool whose parameters do not convert, if any. */
  function FirstBadTool<P>(tools: seq<ToolInfo>, params: ToolInfo -> Result<P, string>): (r: Option<nat>)
    ensures r.None? <==> forall i :: 0 <= i < |tools| ==> params(tools[i]).Ok?
    ensures r.Some? ==>
      r.value < |tools| && params(tools[r.value]).Err? && forall i :: 0 <= i < r.value ==> params(tools[i]).Ok?
  {
    if |tools| == 0 then None
    else if params(tools[0]).Err? then Some(0)
    else match FirstBadTool(tools[1..], params)
      case None => None
      case Some(i) => Some(i + 1)
  }

  /**
   * The tool-info loop of `buildPluginProductExtraInfo`: one info per tool,
   * in order; the first tool whose parameters fail to convert fails the build.
   */
  method BuildToolInfos<P>(tools: seq<ToolInfo>, params: ToolInfo -> Result<P, string>, example: string -> Option<ToolExample>)
    returns (r: Result<seq<PluginToolInfo<P>>, string>)
    ensures r.Err? <==> FirstBadTool(tools, params).Some?
    ensures r.Err? ==> r.error == params(tools[FirstBadTool(tools, params).value]).error
    ensures r.Ok? ==> |r.value| == |tools|
    ensures r.Ok? ==> forall i :: 0 <= i < |tools| ==> Ok(r.value[i]) == ToolInfoOf(tools[i], params, example)
  {
    var toolInfos: seq<PluginToolInfo<P>> := [];
    var i := 0;
    while i < |tools|
      invariant i <= |tools|
      invariant |toolInfos| == i
      invariant forall j :: 0 <= j < i ==> params(tools[j]).Ok? && Ok(toolInfos[j]) == ToolInfoOf(tools[j], params, example)
    {
      var ps := params(tools[i]);
      if ps.Err? {
        FirstBadToolAt(tools, params, i);
        return Err(ps.error);
      }
      toolInfos := toolInfos + [PluginToolInfo(tools[i].id, tools[i].name, tools[i].desc, ps.value, example(tools[i].name))];
      i := i + 1;
    }
    r := Ok(toolInfos);
  }

  /** A failing tool preceded only by converting ones is the first bad tool. */
  lemma {:induction false} FirstBadToolAt<P>(tools: seq<ToolInfo>, params: ToolInfo -> Result<P, string>, i: nat)
    requires i < |tools| && params(tools[i]).Err?
    requires forall j :: 0 <= j < i ==> params(tools[j]).Ok?
    ensures FirstBadTool(tools, params) == Some(i)
  {
    if i > 0 {
      FirstBadToolAt(tools[1..], params, i - 1);
    }
  }

  // ---------------------------------------------------------------------
  // validateDraftPluginAccess
  // ---------------------------------------------------------------------

  /** The parts of a draft `PluginInfo` the check reads. */
  datatype PluginInfo = PluginInfo(id: int, developerID: int)

  datatype AccessError = SessionRequired | DraftUnavailable(reason: string) | NotOwner

  /**
   * `validateDraftPluginAccess`; `uid` is the session's user ID, if any, and
   * `draft` the outcome of loading the draft plugin.
   */
  function ValidateDraftPluginAccess(uid: Option<int>, draft: Result<PluginInfo, string>): (r: Result<PluginInfo, AccessError>)
    ensures uid.None? ==> r == Err(SessionRequired)
    ensures uid.Some? && draft.Err? ==> r == Err(DraftUnavailable(draft.error))
    ensures r.Ok? <==> uid.Some? && draft.Ok? && draft.value.developerID == uid.value
    ensures r.Ok? ==> r.value == draft.value
  {
    if uid.None? then Err(SessionRequired)
    else match draft
      case Err(e) => Err(DraftUnavailable(e))
      case Ok(plugin) =>
        if plugin.developerID != uid.value then Err(NotOwner) else Ok(plugin)
  }
}
