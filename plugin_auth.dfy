/**
 * Validation and conversion of a plugin manifest's authorization fields
 * (`PluginAuthInfo`) into the structured `AuthV2`. JSON decoding and
 * encoding are the parameters of a `Codec`.
 */
module PluginAuth {
  import opened Wrappers
  import opened Strings
  import opened PluginTypes

  /** `PluginAuthInfo`; every field that may be nil is an `Option`. */
  datatype PluginAuthInfo = PluginAuthInfo(
    authzType: Option<AuthzType>,
    location: Option<string>,
    key: Option<string>,
    serviceToken: Option<string>,
    oauthInfo: Option<string>,
    authzSubType: Option<AuthzSubType>,
    authzPayload: Option<string>)

  /** `OAuthClientCredentialsConfig`. */
  datatype ClientCredentials = ClientCredentials(clientID: string, clientSecret: string, tokenURL: string)

  /** `OAuthAuthorizationCodeConfig`. */
  datatype AuthorizationCode = AuthorizationCode(
    clientID: string,
    clientSecret: string,
    clientURL: string,
    scope: string,
    authorizationURL: string,
    authorizationContentType: string)

  /** `AuthOfAPIToken`. */
  datatype APIToken = APIToken(serviceToken: string, location: string, key: string)

  /** `AuthV2`; an unset sub-type is `None`, an unset config `None`, an unset payload `""`. */
  datatype AuthV2 = AuthV2(
    authType: AuthzType,
    subType: Option<AuthzSubType>,
    payload: string,
    clientCredentials: Option<ClientCredentials>,
    authorizationCode: Option<AuthorizationCode>,
    apiToken: Option<APIToken>)

  datatype AuthError =
    | AuthTypeRequired
    | InvalidAuthType(authType: AuthzType)
    | SubTypeRequired
    | OAuthInfoRequired
    | InvalidOAuthInfo
    | InvalidContentType(contentType: string)
    | InvalidSubType(subType: AuthzSubType)
    | LocationRequired
    | ServiceTokenRequired
    | KeyRequired
    | MarshalFailed

  /** Decoding of the OAuth info text into a string map, and encoding of each config into a payload. */
  datatype Codec = Codec(
    decodeOAuthInfo: string -> Option<map<string, string>>,
    encodeClientCredentials: ClientCredentials -> Option<string>,
    encodeAuthorizationCode: AuthorizationCode -> Option<string>,
    encodeAPIToken: APIToken -> Option<string>)

  /** A Go map read: a missing key reads as `""`. */
  function Lookup(m: map<string, string>, k: string): (v: string)
    ensures k !in m ==> v == ""
    ensures k in m ==> v == m[k]
  {
    if k in m then m[k] else ""
  }

  function ClientCredentialsOf(m: map<string, string>): ClientCredentials
  {
    ClientCredentials(Lookup(m, "client_id"), Lookup(m, "client_secret"), Lookup(m, "token_url"))
  }

  function AuthorizationCodeOf(m: map<string, string>): AuthorizationCode
  {
    AuthorizationCode(
      Lookup(m, "client_id"), Lookup(m, "client_secret"), Lookup(m, "client_url"),
      Lookup(m, "scope"), Lookup(m, "authorization_url"), Lookup(m, "authorization_content_type"))
  }

  function APITokenOf(serviceToken: string, location: string, key: string): APIToken
  {
    APIToken(serviceToken, ToLower(location), key)
  }

  /** `authOfOAuthToAuthV2`. */
  function OAuthToAuthV2(p: PluginAuthInfo, codec: Codec): (r: Result<AuthV2, AuthError>)
    ensures p.authzSubType.None? ==> r == Err(SubTypeRequired)
    ensures p.authzSubType.Some? && (p.oauthInfo.None? || p.oauthInfo.value == "") ==> r == Err(OAuthInfoRequired)
    ensures (p.authzSubType.Some? && p.oauthInfo.Some? && p.oauthInfo.value != ""
             && codec.decodeOAuthInfo(p.oauthInfo.value).None?) ==> r == Err(InvalidOAuthInfo)
    ensures (p.authzSubType.Some? && p.authzSubType.value !in {OAuthClientCredentials, OAuthAuthorizationCode}
             && p.oauthInfo.Some? && p.oauthInfo.value != ""
             && codec.decodeOAuthInfo(p.oauthInfo.value).Some?) ==> r == Err(InvalidSubType(p.authzSubType.value))
    ensures r.Ok? ==> r.value.authType == AuthzOAuth && r.value.subType == p.authzSubType
  {
    if p.authzSubType.None? then Err(SubTypeRequired)
    else if p.oauthInfo.None? || p.oauthInfo.value == "" then Err(OAuthInfoRequired)
    else match codec.decodeOAuthInfo(p.oauthInfo.value)
      case None => Err(InvalidOAuthInfo)
      case Some(info) =>
        if p.authzSubType.value == OAuthClientCredentials then
          var config := ClientCredentialsOf(info);
          (match codec.encodeClientCredentials(config)
           case None => Err(MarshalFailed)
           case Some(text) => Ok(AuthV2(AuthzOAuth, Some(OAuthClientCredentials), text, Some(config), None, None)))
        else if p.authzSubType.value == OAuthAuthorizationCode then
          var contentType := Lookup(info, "authorization_content_type");
          if contentType != MediaTypeJson then Err(InvalidContentType(contentType))
          else
            var config := AuthorizationCodeOf(info);
            (match codec.encodeAuthorizationCode(config)
             case None => Err(MarshalFailed)
             case Some(text) => Ok(AuthV2(AuthzOAuth, Some(OAuthAuthorizationCode), text, None, Some(config), None)))
        else Err(InvalidSubType(p.authzSubType.value))
  }

  /** `authOfServiceToAuthV2`. */
  function ServiceToAuthV2(p: PluginAuthInfo, codec: Codec): (r: Result<AuthV2, AuthError>)
    ensures p.authzSubType.None? ==> r == Err(SubTypeRequired)
    ensures p.authzSubType.Some? && p.authzSubType.value != ServiceAPIToken ==> r == Err(InvalidSubType(p.authzSubType.value))
    ensures p.authzSubType == Some(ServiceAPIToken) && p.location.None? ==> r == Err(LocationRequired)
    ensures p.authzSubType == Some(ServiceAPIToken) && p.location.Some? && p.serviceToken.None? ==> r == Err(ServiceTokenRequired)
    ensures p.authzSubType == Some(ServiceAPIToken) && p.location.Some? && p.serviceToken.Some? && p.key.None? ==> r == Err(KeyRequired)
    ensures r.Ok? ==> r.value.authType == AuthzService && r.value.subType == Some(ServiceAPIToken)
  {
    if p.authzSubType.None? then Err(SubTypeRequired)
    else if p.authzSubType.value == ServiceAPIToken then
      if p.location.None? then Err(LocationRequired)
      else if p.serviceToken.None? then Err(ServiceTokenRequired)
      else if p.key.None? then Err(KeyRequired)
      else
        var token := APITokenOf(p.serviceToken.value, p.location.value, p.key.value);
        match codec.encodeAPIToken(token)
        case None => Err(MarshalFailed)
        case Some(text) => Ok(AuthV2(AuthzService, Some(ServiceAPIToken), text, None, None, Some(token)))
    else Err(InvalidSubType(p.authzSubType.value))
  }

  /** `PluginAuthInfo.ToAuthV2`. */
  function ToAuthV2(p: PluginAuthInfo, codec: Codec): (r: Result<AuthV2, AuthError>)
    ensures p.authzType.None? ==> r == Err(AuthTypeRequired)
    ensures p.authzType == Some(AuthzNone) ==> r == Ok(AuthV2(AuthzNone, None, "", None, None, None))
    ensures p.authzType.Some? && p.authzType.value.OtherAuthz? ==> r == Err(InvalidAuthType(p.authzType.value))
    ensures p.authzType == Some(AuthzOAuth) ==> r == OAuthToAuthV2(p, codec)
    ensures p.authzType == Some(AuthzService) ==> r == ServiceToAuthV2(p, codec)
    ensures r.Ok? ==> p.authzType == Some(r.value.authType)
  {
    if p.authzType.None? then Err(AuthTypeRequired)
    else match p.authzType.value
      case AuthzNone => Ok(AuthV2(AuthzNone, None, "", None, None, None))
      case AuthzOAuth => OAuthToAuthV2(p, codec)
      case AuthzService => ServiceToAuthV2(p, codec)
      case OtherAuthz(_) => Err(InvalidAuthType(p.authzType.value))
  }

  /**
   * A coherent `AuthV2`: the config matching its type and sub-type is the
   * only one set, and the payload is that config's encoding.
   */
  ghost predicate Coherent(a: AuthV2, codec: Codec)
  {
    match a.authType
    case AuthzNone =>
      a == AuthV2(AuthzNone, None, "", None, None, None)
    case AuthzOAuth =>
      a.apiToken.None?
      && ((a.subType == Some(OAuthClientCredentials) && a.clientCredentials.Some? && a.authorizationCode.None?
           && codec.encodeClientCredentials(a.clientCredentials.value) == Some(a.payload))
       || (a.subType == Some(OAuthAuthorizationCode) && a.authorizationCode.Some? && a.clientCredentials.None?
           && a.authorizationCode.value.authorizationContentType == MediaTypeJson
           && codec.encodeAuthorizationCode(a.authorizationCode.value) == Some(a.payload)))
    case AuthzService =>
      a.subType == Some(ServiceAPIToken) && a.apiToken.Some? && a.clientCredentials.None? && a.authorizationCode.None?
      && codec.encodeAPIToken(a.apiToken.value) == Some(a.payload)
    case OtherAuthz(_) => false
  }

  /** Every successful conversion is coherent. */
  lemma ToAuthV2Coherent(p: PluginAuthInfo, codec: Codec)
    requires ToAuthV2(p, codec).Ok?
    ensures Coherent(ToAuthV2(p, codec).value, codec)
  {
  }

  /**
   * The conversion succeeds exactly on the manifests this predicate
   * describes field by field (with decoding and encoding succeeding).
   */
  ghost predicate Acceptable(p: PluginAuthInfo, codec: Codec)
  {
    p.authzType.Some?
    && match p.authzType.value
       case AuthzNone => true
       case AuthzOAuth =>
         p.authzSubType.Some? && p.oauthInfo.Some? && p.oauthInfo.value != ""
         && codec.decodeOAuthInfo(p.oauthInfo.value).Some?
         && (var info := codec.decodeOAuthInfo(p.oauthInfo.value).value;
             (p.authzSubType.value == OAuthClientCredentials
              && codec.encodeClientCredentials(ClientCredentialsOf(info)).Some?)
             || (p.authzSubType.value == OAuthAuthorizationCode
                 && Lookup(info, "authorization_content_type") == MediaTypeJson
                 && codec.encodeAuthorizationCode(AuthorizationCodeOf(info)).Some?))
       case AuthzService =>
         p.authzSubType == Some(ServiceAPIToken)
         && p.location.Some? && p.serviceToken.Some? && p.key.Some?
         && codec.encodeAPIToken(APITokenOf(p.serviceToken.value, p.location.value, p.key.value)).Some?
       case OtherAuthz(_) => false
  }

  lemma ToAuthV2Accepts(p: PluginAuthInfo, codec: Codec)
    ensures ToAuthV2(p, codec).Ok? <==> Acceptable(p, codec)
  {
  }

  /** The converted configs carry the manifest's values: OAuth fields from the info map, the API token's location lower-cased. */
  lemma ToAuthV2Carries(p: PluginAuthInfo, codec: Codec)
    requires ToAuthV2(p, codec).Ok?
    ensures var a := ToAuthV2(p, codec).value;
      (a.clientCredentials.Some? ==> a.clientCredentials.value == ClientCredentialsOf(codec.decodeOAuthInfo(p.oauthInfo.value).value))
      && (a.authorizationCode.Some? ==> a.authorizationCode.value == AuthorizationCodeOf(codec.decodeOAuthInfo(p.oauthInfo.value).value))
      && (a.apiToken.Some? ==>
            a.apiToken.value.serviceToken == p.serviceToken.value && a.apiToken.value.key == p.key.value
            && a.apiToken.value.location == ToLower(p.location.value))
  {
  }
}
