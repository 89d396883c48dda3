/**
 * Trimming a plugin tool's JSON response against the tool's declared
 * response schema. Three strategies handle a response that does not fit:
 * return it raw (only undeclared and disabled keys go), return an error, or
 * substitute defaults. The module also infers a schema from a sample
 * response, and decides when a tool call needs an access token.
 */
module ToolResponse {
  import opened Wrappers
  import opened Decimal
  import opened PluginTypes

  /**
   * A decoded JSON value. Numbers keep their text (the decoder is asked for
   * `json.Number`); `Int` is an `int64` the trimmer produced.
   */
  datatype Value =
    | Null
    | Str(s: string)
    | Bool(b: bool)
    | Number(text: string)
    | Int(i: int)
    | Object(fields: map<string, Value>)
    | Array(items: seq<Value>)

  datatype SchemaType = TObject | TArray | TString | TBoolean | TInteger | TNumber | TUnsupported(name: string)

  /** A schema extension value; the disable flags are booleans. */
  datatype ExtValue = ExtBool(flag: bool) | ExtOther(text: string)

  /** The parts of an OpenAPI schema the trimmer reads. */
  datatype Schema = Schema(
    stype: SchemaType,
    properties: map<string, Schema>,
    items: Option<Schema>,
    extensions: map<string, ExtValue>)

  /**
   * Stand-ins for `model.APISchemaExtendLocalDisable` and
   * `model.APISchemaExtendGlobalDisable`, whose values are defined outside
   * this model; only their being two distinct keys matters.
   */
  const LocalDisableKey := "local_disable"
  const GlobalDisableKey := "global_disable"

  function Flag(ext: map<string, ExtValue>, key: string): bool
  {
    key in ext && ext[key].ExtBool? && ext[key].flag
  }

  /** `disabledParam`: no extensions means enabled; otherwise either flag disables. */
  function DisabledParam(s: Schema): (r: bool)
    ensures |s.extensions| == 0 ==> !r
    ensures |s.extensions| > 0 ==> (r <==> Flag(s.extensions, LocalDisableKey) || Flag(s.extensions, GlobalDisableKey))
  {
    if |s.extensions| == 0 then false
    else
      var local := Flag(s.extensions, LocalDisableKey);
      var global := Flag(s.extensions, GlobalDisableKey);
      global || local
  }

  /** The empty-extensions guard changes nothing: a schema is disabled iff a flag is set. */
  lemma DisabledParamMeaning(s: Schema)
    ensures DisabledParam(s) <==> Flag(s.extensions, LocalDisableKey) || Flag(s.extensions, GlobalDisableKey)
  {
    if |s.extensions| == 0 {
      assert LocalDisableKey !in s.extensions && GlobalDisableKey !in s.extensions;
    }
  }

  /** A disable flag, when present, holds a boolean (the code asserts the type). */
  predicate FlagsTyped(s: Schema)
  {
    (LocalDisableKey in s.extensions ==> s.extensions[LocalDisableKey].ExtBool?)
    && (GlobalDisableKey in s.extensions ==> s.extensions[GlobalDisableKey].ExtBool?)
  }

  /** What the strict and default trimmers dereference as well: an item schema for every array schema. */
  predicate WellFormed(s: Schema)
    decreases s, 1
  {
    (s.stype == TArray ==> s.items.Some? && WellFormed(s.items.value))
    && PropertiesWellFormed(s)
  }

  /** What the object branch dereferences: its property schemas, whatever the type of `s` itself. */
  predicate PropertiesWellFormed(s: Schema)
    decreases s, 0
  {
    forall k :: k in s.properties ==> FlagsTyped(s.properties[k]) && WellFormed(s.properties[k])
  }

  /** The keys of a response object that survive: declared in the schema and not disabled. */
  function Kept(fields: map<string, Value>, s: Schema): (ks: set<string>)
    ensures forall k :: k in ks <==> k in fields && k in s.properties && !DisabledParam(s.properties[k])
  {
    set k | k in fields && k in s.properties && !DisabledParam(s.properties[k])
  }

  // ---------------------------------------------------------------------
  // Return raw
  // ---------------------------------------------------------------------

  /** The object `processWithInvalidRespProcessStrategyOfReturnRaw` leaves behind. */
  function TrimRaw(fields: map<string, Value>, s: Schema): (r: map<string, Value>)
    decreases Object(fields)
  {
    map k | k in Kept(fields, s) ::
      if s.properties[k].stype == TObject && fields[k].Object?
      then Object(TrimRaw(fields[k].fields, s.properties[k]))
      else fields[k]
  }

  /** Exactly the declared, enabled keys remain; only object-typed object values are descended into. */
  lemma TrimRawMeaning(fields: map<string, Value>, s: Schema)
    ensures TrimRaw(fields, s).Keys == Kept(fields, s)
    ensures forall k :: k in Kept(fields, s) && !(s.properties[k].stype == TObject && fields[k].Object?) ==>
      TrimRaw(fields, s)[k] == fields[k]
    ensures forall k :: k in Kept(fields, s) && s.properties[k].stype == TObject && fields[k].Object? ==>
      TrimRaw(fields, s)[k] == Object(TrimRaw(fields[k].fields, s.properties[k]))
  {
  }

  /** Trimming a trimmed object again removes nothing more. */
  lemma {:induction false} TrimRawIdempotent(fields: map<string, Value>, s: Schema)
    ensures TrimRaw(TrimRaw(fields, s), s) == TrimRaw(fields, s)
    decreases Object(fields)
  {
    var t := TrimRaw(fields, s);
    forall k | k in Kept(t, s)
      ensures TrimRaw(t, s)[k] == t[k]
    {
      if s.properties[k].stype == TObject && fields[k].Object? {
        TrimRawIdempotent(fields[k].fields, s.properties[k]);
      }
    }
    assert Kept(t, s) == Kept(fields, s);
  }

  // ---------------------------------------------------------------------
  // Return error
  // ---------------------------------------------------------------------

  /** `json.Number.Int64`: the number's text as a base-10 64-bit integer. */
  function NumberInt64(text: string): Option<int>
  {
    ParseInt64(text)
  }

  /** The processor of `processWithInvalidRespProcessStrategyOfReturnErr`; `None` is an error. */
  function Strict(v: Value, s: Schema): (r: Option<Value>)
    requires WellFormed(s)
    decreases v, 1
  {
    match s.stype
    case TObject =>
      if !v.Object? then None
      else (match StrictFields(v.fields, s)
        case None => None
        case Some(m) => Some(Object(m)))
    case TArray =>
      if !v.Array? then None
      else (match StrictItems(v.items, 0, s.items.value)
        case None => None
        case Some(xs) => Some(Array(xs)))
    case TString => if v.Str? then Some(v) else None
    case TBoolean => if v.Bool? then Some(v) else None
    case TInteger =>
      if v.Number? && NumberInt64(v.text).Some? then Some(Int(NumberInt64(v.text).value)) else None
    case TNumber => if v.Number? then Some(v) else None
    case TUnsupported(_) => None
  }

  /** The object branch, and the whole of the top-level function. */
  function StrictFields(fields: map<string, Value>, s: Schema): (r: Option<map<string, Value>>)
    requires PropertiesWellFormed(s)
    decreases Object(fields), 0
  {
    if forall k :: k in Kept(fields, s) ==> Strict(fields[k], s.properties[k]).Some?
    then Some(map k | k in Kept(fields, s) :: Strict(fields[k], s.properties[k]).value)
    else None
  }

  /** The array branch from index `i` on; elements that come out as `nil` are dropped. */
  function StrictItems(items: seq<Value>, i: nat, item: Schema): (r: Option<seq<Value>>)
    requires WellFormed(item)
    requires i <= |items|
    decreases Array(items), 0, |items| - i
  {
    if i == |items| then Some([])
    else match Strict(items[i], item)
      case None => None
      case Some(x) =>
        match StrictItems(items, i + 1, item)
        case None => None
        case Some(rest) => Some(if x == Null then rest else [x] + rest)
  }

  /** The runtime type the strict processor accepts for a schema type. */
  predicate Fits(v: Value, t: SchemaType)
  {
    match t
    case TObject => v.Object?
    case TArray => v.Array?
    case TString => v.Str?
    case TBoolean => v.Bool?
    case TInteger => v.Number? && NumberInt64(v.text).Some?
    case TNumber => v.Number?
    case TUnsupported(_) => false
  }

  /**
   * A value of the wrong runtime type is an error; a successful object keeps
   * exactly the declared, enabled keys; nothing comes out as `null`.
   */
  lemma StrictMeaning(v: Value, s: Schema)
    requires WellFormed(s)
    ensures !Fits(v, s.stype) ==> Strict(v, s).None?
    ensures Strict(v, s).Some? ==> Strict(v, s).value != Null
    ensures Strict(v, s).Some? && s.stype == TObject ==> Strict(v, s).value.fields.Keys == Kept(v.fields, s)
    ensures Strict(v, s).Some? && s.stype == TString ==> Strict(v, s).value == v
    ensures Strict(v, s).Some? && s.stype == TInteger ==> Strict(v, s).value == Int(NumberInt64(v.text).value)
  {
  }

  /** A field that fails makes the whole object fail. */
  lemma StrictFieldFails(fields: map<string, Value>, s: Schema, k: string)
    requires PropertiesWellFormed(s)
    requires k in Kept(fields, s) && Strict(fields[k], s.properties[k]).None?
    ensures StrictFields(fields, s).None?
  {
  }

  /** Every element from index `i` on passes the strict processor. */
  ghost predicate AllStrict(items: seq<Value>, i: nat, item: Schema)
    requires WellFormed(item)
  {
    forall j :: i <= j < |items| ==> Strict(items[j], item).Some?
  }

  /** The array branch succeeds exactly when every element does. */
  lemma {:induction false} StrictItemsSucceeds(items: seq<Value>, i: nat, item: Schema)
    requires WellFormed(item) && i <= |items|
    ensures StrictItems(items, i, item).Some? <==> AllStrict(items, i, item)
    decreases |items| - i
  {
    if i < |items| {
      StrictItemsSucceeds(items, i + 1, item);
    }
  }

  /** Since no element comes out `null`, none is dropped: element `j` of the result is element `j` processed. */
  lemma {:induction false} StrictItemsMeaning(items: seq<Value>, i: nat, item: Schema)
    requires WellFormed(item) && i <= |items|
    requires StrictItems(items, i, item).Some?
    ensures |StrictItems(items, i, item).value| == |items| - i
    ensures forall j :: i <= j < |items| ==>
      Strict(items[j], item).Some? && StrictItems(items, i, item).value[j - i] == Strict(items[j], item).value
    decreases |items| - i
  {
    if i < |items| {
      var head := Strict(items[i], item);
      var rest := StrictItems(items, i + 1, item);
      assert head.Some? && rest.Some?;
      StrictItemsMeaning(items, i + 1, item);
      StrictMeaning(items[i], item);
      var tail := rest.value;
      var r := StrictItems(items, i, item).value;
      assert r == [head.value] + tail;
      forall j | i < j < |items|
        ensures Strict(items[j], item).Some? && r[j - i] == Strict(items[j], item).value
      {
        assert r[j - i] == tail[j - (i + 1)];
      }
    }
  }

  // ---------------------------------------------------------------------
  // Return default
  // ---------------------------------------------------------------------

  /** The processor of `processWithInvalidRespProcessStrategyOfReturnDefault`; `None` is an unsupported schema type. */
  function Default(v: Value, s: Schema): (r: Option<Value>)
    requires WellFormed(s)
    decreases v, 1
  {
    match s.stype
    case TObject =>
      if !v.Object? then Some(Null)
      else (match DefaultFields(v.fields, s)
        case None => None
        case Some(m) => Some(Object(m)))
    case TArray =>
      if !v.Array? then Some(Null)
      else (match DefaultItems(v.items, 0, s.items.value)
        case None => None
        case Some(xs) => Some(Array(xs)))
    case TString => Some(if v.Str? then v else Str(""))
    case TBoolean => Some(if v.Bool? then v else Bool(false))
    case TInteger =>
      Some(if v.Number? && NumberInt64(v.text).Some? then Int(NumberInt64(v.text).value) else Int(0))
    case TNumber => Some(if v.Number? then v else Number("0"))
    case TUnsupported(_) => None
  }

  function DefaultFields(fields: map<string, Value>, s: Schema): (r: Option<map<string, Value>>)
    requires PropertiesWellFormed(s)
    decreases Object(fields), 0
  {
    if forall k :: k in Kept(fields, s) ==> Default(fields[k], s.properties[k]).Some?
    then Some(map k | k in Kept(fields, s) :: Default(fields[k], s.properties[k]).value)
    else None
  }

  function DefaultItems(items: seq<Value>, i: nat, item: Schema): (r: Option<seq<Value>>)
    requires WellFormed(item)
    requires i <= |items|
    decreases Array(items), 0, |items| - i
  {
    if i == |items| then Some([])
    else match Default(items[i], item)
      case None => None
      case Some(x) =>
        match DefaultItems(items, i + 1, item)
        case None => None
        case Some(rest) => Some(if x == Null then rest else [x] + rest)
  }

  /** No schema type reachable through properties and items is unsupported. */
  predicate Supported(s: Schema)
    decreases s
  {
    !s.stype.TUnsupported?
    && (s.items.Some? ==> Supported(s.items.value))
    && forall k :: k in s.properties ==> Supported(s.properties[k])
  }

  /** Return-default fails only on an unsupported schema type: under a supported schema it always succeeds. */
  lemma {:induction false} DefaultTotalOnSupported(v: Value, s: Schema)
    requires WellFormed(s) && Supported(s)
    ensures Default(v, s).Some?
    decreases v, 1
  {
    match s.stype
    case TObject =>
      if v.Object? {
        DefaultFieldsTotal(v.fields, s);
      }
    case TArray =>
      if v.Array? {
        DefaultItemsTotal(v.items, 0, s.items.value);
      }
    case _ =>
  }

  lemma {:induction false} DefaultFieldsTotal(fields: map<string, Value>, s: Schema)
    requires PropertiesWellFormed(s) && Supported(s)
    ensures DefaultFields(fields, s).Some?
    decreases Object(fields), 0
  {
    forall k | k in Kept(fields, s)
      ensures Default(fields[k], s.properties[k]).Some?
    {
      DefaultTotalOnSupported(fields[k], s.properties[k]);
    }
  }

  lemma {:induction false} DefaultItemsTotal(items: seq<Value>, i: nat, item: Schema)
    requires WellFormed(item) && Supported(item) && i <= |items|
    ensures DefaultItems(items, i, item).Some?
    decreases Array(items), 0, |items| - i
  {
    if i < |items| {
      DefaultTotalOnSupported(items[i], item);
      DefaultItemsTotal(items, i + 1, item);
    }
  }

  /** An array never holds `null` after return-default: elements that default to `nil` are dropped. */
  lemma {:induction false} DefaultItemsDropNulls(items: seq<Value>, i: nat, item: Schema)
    requires WellFormed(item) && i <= |items|
    ensures DefaultItems(items, i, item).Some? ==> forall j :: 0 <= j < |DefaultItems(items, i, item).value| ==> DefaultItems(items, i, item).value[j] != Null
    ensures DefaultItems(items, i, item).Some? ==> |DefaultItems(items, i, item).value| <= |items| - i
    decreases |items| - i
  {
    if i < |items| {
      DefaultItemsDropNulls(items, i + 1, item);
    }
  }

  /** On a response that fits the schema, return-default agrees with return-error. */
  lemma {:induction false} StrictAgreesWithDefault(v: Value, s: Schema)
    requires WellFormed(s)
    requires Strict(v, s).Some?
    ensures Default(v, s) == Strict(v, s)
    decreases v, 1
  {
    match s.stype
    case TObject =>
      StrictFieldsAgree(v.fields, s);
    case TArray =>
      StrictItemsAgree(v.items, 0, s.items.value);
    case _ =>
  }

  lemma {:induction false} StrictFieldsAgree(fields: map<string, Value>, s: Schema)
    requires PropertiesWellFormed(s)
    requires StrictFields(fields, s).Some?
    ensures DefaultFields(fields, s) == StrictFields(fields, s)
    decreases Object(fields), 0
  {
    var ks := Kept(fields, s);
    forall k | k in ks
      ensures Default(fields[k], s.properties[k]) == Strict(fields[k], s.properties[k])
    {
      StrictAgreesWithDefault(fields[k], s.properties[k]);
    }
    assert (map k | k in ks :: Default(fields[k], s.properties[k]).value)
        == (map k | k in ks :: Strict(fields[k], s.properties[k]).value);
  }

  lemma {:induction false} StrictItemsAgree(items: seq<Value>, i: nat, item: Schema)
    requires WellFormed(item) && i <= |items|
    requires StrictItems(items, i, item).Some?
    ensures DefaultItems(items, i, item) == StrictItems(items, i, item)
    decreases Array(items), 0, |items| - i
  {
    if i < |items| {
      StrictAgreesWithDefault(items[i], item);
      StrictItemsAgree(items, i + 1, item);
    }
  }

  // ---------------------------------------------------------------------
  // Schema inference
  // ---------------------------------------------------------------------

  function Leaf(t: SchemaType): Schema
  {
    Schema(t, map[], None, map[])
  }

  /**
   * `parseResponseToBodySchemaRef` on a value decoded without `UseNumber`
   * (every number is a `float64`, typed as integer); `None` is `nil`.
   */
  function InferSchema(v: Value): (r: Option<Schema>)
    decreases v
  {
    match v
    case Object(fields) =>
      if |fields| == 0 then None
      else
        var props := map k | k in fields && InferSchema(fields[k]).Some? :: InferSchema(fields[k]).value;
        if |props| == 0 then None
        else Some(Schema(TObject, props, None, map[]))
    case Array(items) =>
      if |items| == 0 then None
      else (match InferSchema(items[0])
        case None => None
        case Some(item) => Some(Schema(TArray, map[], Some(item), map[])))
    case Str(_) => Some(Leaf(TString))
    case Number(_) => Some(Leaf(TInteger))
    case Bool(_) => Some(Leaf(TBoolean))
    case Null => None
    case Int(_) => None
  }

  /**
   * An empty object or array, or an object all of whose fields infer to
   * nothing, infers to nothing; an array's item schema is its first
   * element's; scalars infer to their types.
   */
  lemma InferSchemaShape(v: Value)
    ensures v.Object? && (|v.fields| == 0 || forall k :: k in v.fields ==> InferSchema(v.fields[k]).None?) ==> InferSchema(v).None?
    ensures v.Array? && (|v.items| == 0 || InferSchema(v.items[0]).None?) ==> InferSchema(v).None?
    ensures v.Array? && |v.items| > 0 && InferSchema(v.items[0]).Some? ==>
      InferSchema(v) == Some(Schema(TArray, map[], InferSchema(v.items[0]), map[]))
    ensures v.Object? && InferSchema(v).Some? ==>
      InferSchema(v).value.stype == TObject
      && forall k :: k in InferSchema(v).value.properties <==> k in v.fields && InferSchema(v.fields[k]).Some?
    ensures v.Str? ==> InferSchema(v) == Some(Leaf(TString))
    ensures v.Number? ==> InferSchema(v) == Some(Leaf(TInteger))
    ensures v.Bool? ==> InferSchema(v) == Some(Leaf(TBoolean))
  {
    if v.Object? && forall k :: k in v.fields ==> InferSchema(v.fields[k]).None? {
      var props := map k | k in v.fields && InferSchema(v.fields[k]).Some? :: InferSchema(v.fields[k]).value;
      assert props == map[];
    }
  }

  /** Every inferred schema is well formed, so the strict and default trimmers accept it. */
  lemma {:induction false} InferredSchemaWellFormed(v: Value)
    ensures InferSchema(v).Some? ==> WellFormed(InferSchema(v).value)
    decreases v
  {
    match v
    case Object(fields) =>
      if InferSchema(v).Some? {
        var props := InferSchema(v).value.properties;
        forall k | k in props
          ensures FlagsTyped(props[k]) && WellFormed(props[k])
        {
          InferredSchemaWellFormed(fields[k]);
          InferredSchemaHasNoExtensions(fields[k]);
        }
        assert PropertiesWellFormed(InferSchema(v).value);
      }
    case Array(items) =>
      if |items| > 0 {
        InferredSchemaWellFormed(items[0]);
      }
    case _ =>
  }

  lemma InferredSchemaHasNoExtensions(v: Value)
    ensures InferSchema(v).Some? ==> InferSchema(v).value.extensions == map[]
  {
  }

  /** Every inferred schema is supported, so return-default always succeeds under it. */
  lemma {:induction false} InferredSchemaSupported(v: Value)
    ensures InferSchema(v).Some? ==> Supported(InferSchema(v).value)
    decreases v
  {
    match v
    case Object(fields) =>
      forall k | k in fields
        ensures InferSchema(fields[k]).Some? ==> Supported(InferSchema(fields[k]).value)
      {
        InferredSchemaSupported(fields[k]);
      }
    case Array(items) =>
      if |items| > 0 {
        InferredSchemaSupported(items[0]);
      }
    case _ =>
  }
}
