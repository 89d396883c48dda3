/**
 * The format and validation rules of the user service: profile updates,
 * default and unique names derived from an e-mail address, the password
 * hash layout and the session key layout. Hashing, signing, encoding and
 * the clock are parameters.
 */
module UserRules {
  import opened Wrappers
  import opened Strings

  datatype UserError =
    | InvalidUserID(userID: int)
    | MissingParameter
    | LookupFailed(reason: string)
    | IconURLFailed(reason: string)
    | EmailAlreadyExists(email: string)
    | UniqueNameAlreadyExists(uniqueName: string)

  // ---------------------------------------------------------------------
  // GetUserInfo
  // ---------------------------------------------------------------------

  /** A stored user together with the URL its icon object is served at. */
  datatype UserInfo<U> = UserInfo(user: U, iconURL: string)

  /**
   * `GetUserInfo`: the ID is checked before the repository is asked;
   * `lookup` is the repository's answer and `iconURL` the object store's
   * answer for the found user's icon.
   */
  function GetUserInfo<U>(userID: int, lookup: Result<U, string>, iconURL: U -> Result<string, string>): (r: Result<UserInfo<U>, UserError>)
    ensures userID <= 0 ==> r == Err(InvalidUserID(userID))
    ensures userID > 0 && lookup.Err? ==> r == Err(LookupFailed(lookup.error))
    ensures userID > 0 && lookup.Ok? && iconURL(lookup.value).Err? ==> r == Err(IconURLFailed(iconURL(lookup.value).error))
    ensures r.Ok? <==> userID > 0 && lookup.Ok? && iconURL(lookup.value).Ok?
    ensures r.Ok? ==> r.value == UserInfo(lookup.value, iconURL(lookup.value).value)
  {
    if userID <= 0 then Err(InvalidUserID(userID))
    else match lookup
      case Err(e) => Err(LookupFailed(e))
      case Ok(u) =>
        match iconURL(u)
        case Err(e) => Err(IconURLFailed(e))
        case Ok(url) => Ok(UserInfo(u, url))
  }

  // ---------------------------------------------------------------------
  // ValidateProfileUpdate
  // ---------------------------------------------------------------------

  datatype ValidateCode = ValidateSuccess | UniqueNameExist | UniqueNameTooShortOrTooLong

  /** The unique name's length bounds, in runes. */
  const MinUniqueNameRunes := 4
  const MaxUniqueNameRunes := 20

  /**
   * `ValidateProfileUpdate`. A string is a sequence of runes, so its length
   * is its rune count; `nameExists` is the repository's answer for the
   * unique name, asked only once the length is acceptable.
   */
  function ValidateProfileUpdate(uniqueName: Option<string>, email: Option<string>, nameExists: Result<bool, string>): (r: Result<ValidateCode, UserError>)
    ensures uniqueName.None? && email.None? ==> r == Err(MissingParameter)
    ensures uniqueName.None? && email.Some? ==> r == Ok(ValidateSuccess)
    ensures uniqueName.Some? && !(MinUniqueNameRunes <= |uniqueName.value| <= MaxUniqueNameRunes) ==>
      r == Ok(UniqueNameTooShortOrTooLong)
    ensures (uniqueName.Some? && MinUniqueNameRunes <= |uniqueName.value| <= MaxUniqueNameRunes) ==>
      r == (match nameExists
            case Err(e) => Err(LookupFailed(e))
            case Ok(exists_) => Ok(if exists_ then UniqueNameExist else ValidateSuccess))
  {
    if uniqueName.None? && email.None? then Err(MissingParameter)
    else if uniqueName.Some? then
      var charNum := |uniqueName.value|;
      if charNum < MinUniqueNameRunes || charNum > MaxUniqueNameRunes then Ok(UniqueNameTooShortOrTooLong)
      else match nameExists
        case Err(e) => Err(LookupFailed(e))
        case Ok(exists_) => if exists_ then Ok(UniqueNameExist) else Ok(ValidateSuccess)
    else Ok(ValidateSuccess)
  }

  /** Success for a unique name means its length is in bounds and it is free. */
  lemma ValidateSuccessMeaning(uniqueName: string, email: Option<string>, nameExists: Result<bool, string>)
    requires ValidateProfileUpdate(Some(uniqueName), email, nameExists) == Ok(ValidateSuccess)
    ensures MinUniqueNameRunes <= |uniqueName| <= MaxUniqueNameRunes && nameExists == Ok(false)
  {
  }

  // ---------------------------------------------------------------------
  // Names derived from the e-mail address in Create
  // ---------------------------------------------------------------------

  /** The name `Create` stores: the given name, or else the e-mail's part before the first `@`. */
  function DefaultName(name: string, email: string): (r: string)
    ensures name != "" ==> r == name
    ensures name == "" ==> r == Before(email, '@')
  {
    if name == "" then
      SplitShape(email, '@');
      Split(email, '@')[0]
    else name
  }

  /** A derived name is a prefix of the e-mail address and holds no `@`. */
  lemma DefaultNameIsLocalPart(email: string)
    ensures DefaultName("", email) <= email && '@' !in DefaultName("", email)
    ensures '@' !in email ==> DefaultName("", email) == email
  {
    SplitShape(email, '@');
  }

  /**
   * `getUniqueNameFormEmail`; `localExists` is the repository's answer for
   * the local part, asked only when the address has exactly one `@`.
   */
  function UniqueNameFromEmail(email: string, localExists: Result<bool, string>): (r: string)
    ensures |Split(email, '@')| != 2 ==> r == email
    ensures |Split(email, '@')| == 2 ==> (r == if localExists == Ok(false) then Split(email, '@')[0] else email)
  {
    var arr := Split(email, '@');
    if |arr| != 2 then email
    else
      var username := arr[0];
      match localExists
      case Err(_) => email
      case Ok(exists_) => if exists_ then email else username
  }

  /** The unique name is the local part of a one-`@` address exactly when the local part is free. */
  lemma UniqueNameFromEmailMeaning(email: string, localExists: Result<bool, string>)
    ensures Count(email, '@') == 1 && localExists == Ok(false) ==>
      UniqueNameFromEmail(email, localExists) == Before(email, '@')
    ensures Count(email, '@') != 1 || localExists != Ok(false) ==> UniqueNameFromEmail(email, localExists) == email
  {
    SplitShape(email, '@');
  }

  /** The names `Create` stores for a new user. */
  datatype NewUserNames = NewUserNames(name: string, uniqueName: string)

  /**
   * The checks and names of `Create`. `emailExists`, `nameExists` and
   * `localExists` are the repository's answers for the e-mail, the requested
   * unique name and the e-mail's local part; each is read only on the path
   * that asks it. The stored unique name comes from the e-mail, whatever the
   * request asked for.
   */
  function CreateUserNames(email: string, requestedUniqueName: string, requestedName: string,
                           emailExists: Result<bool, string>, nameExists: Result<bool, string>,
                           localExists: Result<bool, string>): (r: Result<NewUserNames, UserError>)
    ensures emailExists.Err? ==> r == Err(LookupFailed(emailExists.error))
    ensures emailExists == Ok(true) ==> r == Err(EmailAlreadyExists(email))
    ensures emailExists == Ok(false) && requestedUniqueName != "" && nameExists == Ok(true) ==>
              r == Err(UniqueNameAlreadyExists(requestedUniqueName))
    ensures r.Ok? <==> emailExists == Ok(false) && (requestedUniqueName == "" || nameExists == Ok(false))
    ensures r.Ok? ==> r.value.name == DefaultName(requestedName, email)
    ensures r.Ok? ==> r.value.uniqueName == UniqueNameFromEmail(email, localExists)
  {
    match emailExists
    case Err(e) => Err(LookupFailed(e))
    case Ok(true) => Err(EmailAlreadyExists(email))
    case Ok(false) =>
      if requestedUniqueName != "" && nameExists.Err? then Err(LookupFailed(nameExists.error))
      else if requestedUniqueName != "" && nameExists.value then Err(UniqueNameAlreadyExists(requestedUniqueName))
      else Ok(NewUserNames(DefaultName(requestedName, email), UniqueNameFromEmail(email, localExists)))
  }

  // ---------------------------------------------------------------------
  // The password hash layout
  // ---------------------------------------------------------------------

  /**
   * The encoded hash `hashPassword` writes: `$argon2id$v=19$<params>$<salt>$<hash>`,
   * with the base64 salt and hash and the formatted parameters as text.
   */
  function EncodedHash(params: string, b64Salt: string, b64Hash: string): string
  {
    Join(["", "argon2id", "v=19", params, b64Salt, b64Hash], '$')
  }

  datatype HashFormatError = InvalidHashFormat

  /** The format check of `verifyPassword`: exactly six `$`-separated parts. */
  function HashParts(encodedHash: string): (r: Result<seq<string>, HashFormatError>)
    ensures r.Ok? ==> |r.value| == 6 && r.value == Split(encodedHash, '$')
    ensures r.Err? <==> |Split(encodedHash, '$')| != 6
  {
    var parts := Split(encodedHash, '$');
    if |parts| != 6 then Err(InvalidHashFormat) else Ok(parts)
  }

  /** The format accepts exactly the strings with five `$`. */
  lemma HashPartsCount(encodedHash: string)
    ensures HashParts(encodedHash).Ok? <==> Count(encodedHash, '$') == 5
  {
    SplitShape(encodedHash, '$');
  }

  /** What `hashPassword` writes passes the format check, and the parts come back in place. */
  lemma EncodedHashRoundTrip(params: string, b64Salt: string, b64Hash: string)
    requires '$' !in params && '$' !in b64Salt && '$' !in b64Hash
    ensures HashParts(EncodedHash(params, b64Salt, b64Hash)) == Ok(["", "argon2id", "v=19", params, b64Salt, b64Hash])
  {
    var parts := ["", "argon2id", "v=19", params, b64Salt, b64Hash];
    assert forall i :: 0 <= i < |parts| ==> '$' !in parts[i];
    SplitJoin(parts, '$');
  }

  // ---------------------------------------------------------------------
  // The session key layout
  // ---------------------------------------------------------------------

  newtype byte = b: int | 0 <= b < 256

  /** The HMAC-SHA256 signature length. */
  const SignatureLength := 32

  /** The session's expiry; the payload is this, serialised. */
  datatype SessionData = SessionData(id: int, createdAt: int, expiresAt: int)

  datatype SessionKeyError = InvalidSessionFormat | SessionDataTooShort | InvalidSignature | InvalidSessionData | SessionExpired

  /** The split of `verifySessionKey`: the payload, and the last 32 bytes as the signature. */
  function SplitSignature(data: seq<byte>): (r: Result<(seq<byte>, seq<byte>), SessionKeyError>)
    ensures |data| < SignatureLength ==> r == Err(SessionDataTooShort)
    ensures |data| >= SignatureLength ==> r.Ok? && r.value.0 + r.value.1 == data && |r.value.1| == SignatureLength
  {
    if |data| < SignatureLength then Err(SessionDataTooShort)
    else
      var sessionData := data[..|data| - SignatureLength];
      var signature := data[|data| - SignatureLength..];
      assert sessionData + signature == data;
      Ok((sessionData, signature))
  }

  /** `generateSessionKey`, before base64: the payload followed by its signature. */
  function SignedSessionData(payload: seq<byte>, sign: seq<byte> -> seq<byte>): seq<byte>
  {
    payload + sign(payload)
  }

  /**
   * `verifySessionKey`; `decoded` is the base64 decoding of the key, `sign`
   * the HMAC, `parse` the JSON decoding of the payload and `now` the clock.
   */
  function VerifySessionKey(
    decoded: Option<seq<byte>>, sign: seq<byte> -> seq<byte>,
    parse: seq<byte> -> Option<SessionData>, now: int): (r: Result<SessionData, SessionKeyError>)
    ensures decoded.None? ==> r == Err(InvalidSessionFormat)
    ensures decoded.Some? && |decoded.value| < SignatureLength ==> r == Err(SessionDataTooShort)
    ensures r.Ok? ==>
      decoded.Some? && |decoded.value| >= SignatureLength
      && var payload := decoded.value[..|decoded.value| - SignatureLength];
        sign(payload) == decoded.value[|decoded.value| - SignatureLength..]
        && parse(payload) == Some(r.value) && now <= r.value.expiresAt
  {
    match decoded
    case None => Err(InvalidSessionFormat)
    case Some(data) =>
      match SplitSignature(data)
      case Err(e) => Err(e)
      case Ok((sessionData, signature)) =>
        if signature != sign(sessionData) then Err(InvalidSignature)
        else match parse(sessionData)
          case None => Err(InvalidSessionData)
          case Some(session) =>
            if now > session.expiresAt then Err(SessionExpired) else Ok(session)
  }

  /** A key `generateSessionKey` made verifies, up to its expiry, to the session it was made from. */
  lemma SessionKeyRoundTrip(payload: seq<byte>, sign: seq<byte> -> seq<byte>, parse: seq<byte> -> Option<SessionData>, s: SessionData, now: int)
    requires |sign(payload)| == SignatureLength
    requires parse(payload) == Some(s) && now <= s.expiresAt
    ensures VerifySessionKey(Some(SignedSessionData(payload, sign)), sign, parse, now) == Ok(s)
  {
    var data := SignedSessionData(payload, sign);
    assert data[..|data| - SignatureLength] == payload;
    assert data[|data| - SignatureLength..] == sign(payload);
  }
}
