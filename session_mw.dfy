/**
 * The decisions of the session and admin middlewares: which requests
 * continue down the handler chain, which are refused, and what session is
 * stored for the handlers.
 */
module SessionMiddleware {
  import opened Wrappers
  import opened Strings

  /** The request's auth type; only the web API type is checked. */
  datatype RequestAuthType = RequestAuthTypeWebAPI | OtherRequestAuthType(code: int)

  /** The parts of the session data the middlewares read. */
  datatype Session = Session(userID: int, userEmail: string)

  /** What a middleware does with a request. */
  datatype Decision =
    | Continue(stored: Option<Session>)
    | Unauthorized(message: string)
    | InternalError(reason: string)

  /** `noNeedSessionCheckPath`. */
  const LoginPath := "/api/passport/web/email/login/"
  const RegisterPath := "/api/passport/web/email/register/v2/"

  predicate NoSessionCheck(path: string)
  {
    path == LoginPath || path == RegisterPath
  }

  /**
   * `SessionAuthMW`; `validated` is the outcome of `ValidateSession` on the
   * cookie, which is asked only when the cookie is not empty.
   */
  function SessionAuth(authType: RequestAuthType, path: string, cookie: string, validated: Result<Option<Session>, string>): (d: Decision)
    ensures authType != RequestAuthTypeWebAPI ==> d == Continue(None)
    ensures authType == RequestAuthTypeWebAPI && NoSessionCheck(path) ==> d == Continue(None)
    ensures authType == RequestAuthTypeWebAPI && !NoSessionCheck(path) && |cookie| == 0 ==>
      d == Unauthorized("missing session_key in cookie")
    ensures authType == RequestAuthTypeWebAPI && !NoSessionCheck(path) && |cookie| > 0 ==>
      (d.InternalError? <==> validated.Err?) && (validated.Ok? ==> d == Continue(validated.value))
  {
    if authType != RequestAuthTypeWebAPI then Continue(None)
    else if NoSessionCheck(path) then Continue(None)
    else if |cookie| == 0 then Unauthorized("missing session_key in cookie")
    else match validated
      case Err(e) => InternalError(e)
      case Ok(session) => Continue(session)
  }

  /** A request continues with a session only when it is a checked web API request whose cookie validated to that session. */
  lemma SessionOnlyFromValidation(authType: RequestAuthType, path: string, cookie: string, validated: Result<Option<Session>, string>, s: Session)
    requires SessionAuth(authType, path, cookie, validated) == Continue(Some(s))
    ensures authType == RequestAuthTypeWebAPI && !NoSessionCheck(path) && |cookie| > 0
    ensures validated == Ok(Some(s))
  {
  }

  /** Whether `email` is one of `emails`, scanning in order and stopping at the first match. */
  function AnyEqual(emails: seq<string>, email: string): (r: bool)
    ensures r <==> email in emails
  {
    if |emails| == 0 then false
    else if emails[0] == email then true
    else AnyEqual(emails[1..], email)
  }

  /**
   * `AdminAuthMW`; `session` is the session stored in the context, if any,
   * and `adminEmails` the outcome of reading the base config's
   * comma-separated admin list.
   */
  function AdminAuth(session: Option<Session>, adminEmails: Result<string, string>): (d: Decision)
    ensures session.None? ==> d == InternalError("session data is nil")
    ensures session.Some? && adminEmails.Err? ==> d == InternalError(adminEmails.error)
    ensures session.Some? && adminEmails == Ok("") ==> d == Continue(None)
    ensures session.Some? && adminEmails.Ok? ==>
      (d.Continue? <==> adminEmails.value == "" || session.value.userEmail in Split(adminEmails.value, ','))
    ensures d.Continue? ==> d.stored.None?
  {
    if session.None? then InternalError("session data is nil")
    else match adminEmails
      case Err(e) => InternalError(e)
      case Ok(emails) =>
        if emails == "" then Continue(None)
        else if AnyEqual(Split(emails, ','), session.value.userEmail) then Continue(None)
        else Unauthorized("the account does not have permission to access")
  }

  /** With a non-empty admin list, an email containing a comma is never an admin: no piece of the split holds one. */
  lemma CommaEmailNeverAdmin(s: Session, adminEmails: string)
    requires adminEmails != "" && ',' in s.userEmail
    ensures AdminAuth(Some(s), Ok(adminEmails)).Unauthorized?
  {
    SplitShape(adminEmails, ',');
  }

  /**
   * The pieces are compared verbatim: in a list written with a space after
   * each comma, only the first admin can match an email that does not
   * itself start with a space.
   */
  lemma AdminEmailsNotTrimmed(s: Session, parts: seq<string>)
    requires |parts| >= 1 && Join(parts, ',') != ""
    requires forall i :: 0 <= i < |parts| ==> ',' !in parts[i]
    requires forall i :: 1 <= i < |parts| ==> |parts[i]| > 0 && parts[i][0] == ' '
    requires s.userEmail != parts[0] && (s.userEmail == "" || s.userEmail[0] != ' ')
    ensures AdminAuth(Some(s), Ok(Join(parts, ','))).Unauthorized?
  {
    SplitJoin(parts, ',');
    forall i | 0 <= i < |parts|
      ensures parts[i] != s.userEmail
    {
      if i > 0 && s.userEmail != "" {
        assert parts[i][0] != s.userEmail[0];
      }
    }
  }
}
