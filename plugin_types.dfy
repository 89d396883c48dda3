/** Authorization kinds of a plugin manifest, shared by the plugin modules. */
module PluginTypes {
  /** `AuthzType`; `OtherAuthz` is any value the code does not name. */
  datatype AuthzType = AuthzNone | AuthzOAuth | AuthzService | OtherAuthz(name: string)

  /** `AuthzSubType`. */
  datatype AuthzSubType =
    | OAuthClientCredentials
    | OAuthAuthorizationCode
    | ServiceAPIToken
    | OtherSubType(name: string)

  /** `model.MediaTypeJson`, the only media type responses and OAuth content are read in. */
  const MediaTypeJson := "application/json"
}
