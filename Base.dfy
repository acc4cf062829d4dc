/**
 * The base request handler (app/web/handlers/base.py): the session cookie,
 * identifier normalisation, the JSON envelope / error page contract, and the
 * resolution of the current session from the identity service's answers.
 *
 * The identity service and the local user-info lookup are inputs: the decoded
 * `whoami` and `logout` answers (or a failure to fetch or decode them), and a
 * lookup function that may fail, find nothing, or find a row.
 */
module Base {
  import opened Wrappers
  import opened Records
  import opened Strings

  // ---------------------------------------------------------------------------
  // session_hash

  const SessionCookie: string := "ory_kratos_session"
  const SessionPrefix: string := SessionCookie + "="

  /** The `Cookie` header forwarded to the identity service, if the session cookie is set. */
  function SessionHash(cookie: Option<string>): (r: Option<string>)
    ensures r.None? <==> cookie.None?
    ensures r.Some? ==> SessionPrefix <= r.value && r.value[|SessionPrefix|..] == cookie.value
  {
    if cookie.None? then None else Some(SessionPrefix + cookie.value)
  }

  // ---------------------------------------------------------------------------
  // check_uuid

  /** The dynamic value handed to `check_uuid`. */
  datatype PyValue = PyNone | PyStr(s: string) | PyUuid(u: Uuid) | PyOther(typeName: string)

  /** The warning logged on each rejected value. */
  datatype UuidWarning = UuidIsNone | BadlyFormatted(text: string) | WrongType(typeName: string)

  datatype CheckedUuid = CheckedUuid(uuid: Option<Uuid>, warning: Option<UuidWarning>)

  /** What a call of `check_uuid` does: return (after logging any warning), or raise `TypeError`. */
  datatype UuidCheck = Returns(checked: CheckedUuid) | RaisesTypeError

  /**
   * `check_uuid` as written; `parseUuid` stands for `UUID(str)`, with `None`
   * for the strings it rejects with `ValueError`. For a value of any other
   * type the warning text is built with `type(uuid).__str__()`, an unbound
   * `__str__` called without its argument, which raises `TypeError` before
   * anything is logged or returned.
   */
  function CheckUuid(v: PyValue, parseUuid: string -> Option<Uuid>): (r: UuidCheck)
    ensures r.RaisesTypeError? <==> v.PyOther?
    ensures r.Returns? ==> r.checked == CheckUuidCorrected(v, parseUuid)
  {
    match v
    case PyNone => Returns(CheckedUuid(None, Some(UuidIsNone)))
    case PyStr(s) =>
      (match parseUuid(s)
       case None => Returns(CheckedUuid(None, Some(BadlyFormatted(s))))
       case Some(u) => Returns(CheckedUuid(Some(u), None)))
    case PyUuid(u) => Returns(CheckedUuid(Some(u), None))
    case PyOther(_) => RaisesTypeError
  }

  /**
   * `check_uuid` as evidently intended: a value of another type is rejected
   * with a warning naming its type, like the other rejected values.
   */
  function CheckUuidCorrected(v: PyValue, parseUuid: string -> Option<Uuid>): (r: CheckedUuid)
    ensures r.uuid.None? <==> r.warning.Some?
    ensures forall u: Uuid :: r.uuid == Some(u) <==> v == PyUuid(u) || (v.PyStr? && parseUuid(v.s) == Some(u))
    ensures v.PyNone? ==> r.warning == Some(UuidIsNone)
    ensures v.PyStr? && r.uuid.None? ==> r.warning == Some(BadlyFormatted(v.s))
    ensures v.PyOther? ==> r.warning == Some(WrongType(v.typeName))
  {
    match v
    case PyNone => CheckedUuid(None, Some(UuidIsNone))
    case PyStr(s) =>
      (match parseUuid(s)
       case None => CheckedUuid(None, Some(BadlyFormatted(s)))
       case Some(u) => CheckedUuid(Some(u), None))
    case PyUuid(u) => CheckedUuid(Some(u), None)
    case PyOther(t) => CheckedUuid(None, Some(WrongType(t)))
  }

  /** `check_uuid(5)`: the code as written raises where the intended rejection returns no UUID. */
  lemma CheckUuidWrongTypeRaises(parseUuid: string -> Option<Uuid>)
    ensures CheckUuid(PyOther("int"), parseUuid) == RaisesTypeError
    ensures CheckUuidCorrected(PyOther("int"), parseUuid) == CheckedUuid(None, Some(WrongType("int")))
  {
  }

  /** Normalising is idempotent: an accepted value, passed again as a UUID, is accepted unchanged. */
  lemma CheckUuidIdempotent(v: PyValue, parseUuid: string -> Option<Uuid>)
    requires CheckUuidCorrected(v, parseUuid).uuid.Some?
    ensures CheckUuid(PyUuid(CheckUuidCorrected(v, parseUuid).uuid.value), parseUuid) == CheckUuid(v, parseUuid)
    ensures CheckUuidCorrected(PyUuid(CheckUuidCorrected(v, parseUuid).uuid.value), parseUuid) == CheckUuidCorrected(v, parseUuid)
  {
  }

  // ---------------------------------------------------------------------------
  // respond and write_error

  /** The `json_data` argument: `None` or a dictionary. */
  type Payload = Option<map<string, string>>

  /** The JSON body `{success, reason, data}`. */
  datatype Envelope = Envelope(success: bool, reason: string, data: Payload)

  /** What `respond` does: hand over to `send_error`, write an envelope, or set the status only. */
  datatype Reply =
    | SendError(status: int, message: string)
    | WriteEnvelope(status: int, envelope: Envelope)
    | StatusOnly(status: int, reason: string)

  function RespondReply(message: string, statusCode: int, jsonData: Payload, showErrorPage: bool): (r: Reply)
    ensures r.status == statusCode
    ensures r.SendError? <==> showErrorPage && statusCode >= 400
    ensures r.StatusOnly? <==> statusCode == 204
    ensures r.SendError? ==> r.message == message
    ensures r.StatusOnly? ==> r.reason == message
    ensures r.WriteEnvelope? ==> r.envelope.reason == message && r.envelope.data == jsonData
    ensures r.WriteEnvelope? ==> (r.envelope.success <==> statusCode < 400)
  {
    if showErrorPage && statusCode >= 400 then SendError(statusCode, message)
    else if statusCode >= 400 then WriteEnvelope(statusCode, Envelope(false, message, jsonData))
    else if statusCode != 204 then WriteEnvelope(statusCode, Envelope(true, message, jsonData))
    else StatusOnly(statusCode, message)
  }

  /** The `exc_info` keyword argument of `write_error`: absent, `None`, or given (by its string form). */
  datatype ExcInfo = ExcInfoMissing | ExcInfoNone | ExcInfoGiven(text: string)

  /**
   * The message `write_error` reports; `None` when it raises `KeyError` (an
   * empty `error_message` and no `exc_info` argument at all).
   */
  function ErrorMessage(errorMessage: string, excInfo: ExcInfo): (r: Option<string>)
    ensures errorMessage != "" ==> r == Some(errorMessage)
    ensures r.None? <==> errorMessage == "" && excInfo.ExcInfoMissing?
    ensures errorMessage == "" && excInfo.ExcInfoGiven? ==> r == Some(excInfo.text)
    ensures errorMessage == "" && excInfo.ExcInfoNone? ==> r == Some("")
  {
    if errorMessage != "" then Some(errorMessage)
    else match excInfo
      case ExcInfoMissing => None
      case ExcInfoNone => Some("")
      case ExcInfoGiven(text) => Some(text)
  }

  const ErrorTemplatePrefix: string := "error/"
  const ErrorTemplateSuffix: string := ".html"

  /** Reads the status code back out of an error template name. */
  function TemplateStatus(template: string): Option<int> {
    var n := |template|;
    if n >= |ErrorTemplatePrefix| + |ErrorTemplateSuffix|
       && template[..|ErrorTemplatePrefix|] == ErrorTemplatePrefix
       && template[n - |ErrorTemplateSuffix|..] == ErrorTemplateSuffix
    then DecimalToInt(template[|ErrorTemplatePrefix|..n - |ErrorTemplateSuffix|])
    else None
  }

  /** `"error/" + str(status_code) + ".html"`: one template per status code. */
  function ErrorTemplate(statusCode: int): (t: string)
    ensures ErrorTemplatePrefix <= t
    ensures TemplateStatus(t) == Some(statusCode)
  {
    var digits := IntToDecimal(statusCode);
    var t := ErrorTemplatePrefix + digits + ErrorTemplateSuffix;
    assert t[..|ErrorTemplatePrefix|] == ErrorTemplatePrefix;
    assert t[|t| - |ErrorTemplateSuffix|..] == ErrorTemplateSuffix;
    assert t[|ErrorTemplatePrefix|..|t| - |ErrorTemplateSuffix|] == digits;
    DecimalRoundTrip(statusCode);
    t
  }

  /** `ErrorTemplate(code)` is the only name that reads back to `code`, so `error/0404.html` is not one of them. */
  lemma TemplateStatusUnique(t: string, code: int)
    requires TemplateStatus(t) == Some(code)
    ensures t == ErrorTemplate(code)
  {
    var n := |t|;
    var middle := t[|ErrorTemplatePrefix|..n - |ErrorTemplateSuffix|];
    DecimalCanonical(middle, code);
    assert t == t[..|ErrorTemplatePrefix|] + middle + t[n - |ErrorTemplateSuffix|..];
  }

  lemma ErrorTemplateInjective(a: int, b: int)
    requires ErrorTemplate(a) == ErrorTemplate(b)
    ensures a == b
  {
    assert TemplateStatus(ErrorTemplate(a)) == Some(a);
  }

  // ---------------------------------------------------------------------------
  // get_current_user

  /** The answer of one call to the identity service: a failure of the fetch or of `json.loads`, or the decoded body. */
  datatype Fetch<T> = FetchFailed | Fetched(body: T) {
    function ToOption(): Option<T> {
      if Fetched? then Some(body) else None
    }
  }

  /** The outcome of `UsersDao.get_user_info`: it raised, found no row, or found one. */
  datatype Lookup<T> = LookupFailed | NotFound | Found(value: T)

  /** The decoded `whoami` answer; every field may be missing. */
  datatype WhoamiJson = WhoamiJson(
    id: Option<string>,
    issuedAt: Option<string>,
    expiresAt: Option<string>,
    identity: Option<IdentityJson>)

  datatype IdentityJson = IdentityJson(
    id: Option<string>,
    traits: Option<TraitsJson>,
    verifiableAddresses: Option<seq<VerifiableAddressJson>>)

  datatype TraitsJson = TraitsJson(
    name: Option<NameJson>,
    email: Option<string>,
    phone: Option<string>,
    postalAddress: Option<PostalAddressJson>,
    municipality: Option<string>,
    country: Option<string>)

  datatype NameJson = NameJson(first: Option<string>, last: Option<string>)

  datatype PostalAddressJson = PostalAddressJson(
    street: Option<string>,
    postalCode: Option<string>,
    city: Option<string>)

  datatype VerifiableAddressJson = VerifiableAddressJson(verified: Option<bool>)

  /** The decoded `logout` answer. */
  datatype LogoutJson = LogoutJson(logoutUrl: Option<string>)

  /** The user described by the identity part of the answer, before enrichment. */
  function IdentityUser(identity: Option<IdentityJson>, parseUuid: string -> Option<Uuid>): Option<User> {
    var ident :- identity;
    var idText :- ident.id;
    var id :- parseUuid(idText);
    var traits :- ident.traits;
    var name :- traits.name;
    var first :- name.first;
    var last :- name.last;
    var email :- traits.email;
    var phone :- traits.phone;
    var postal :- traits.postalAddress;
    var street :- postal.street;
    var postalCode :- postal.postalCode;
    var city :- postal.city;
    var municipality :- traits.municipality;
    var country :- traits.country;
    var addresses :- ident.verifiableAddresses;
    if |addresses| == 0 then None
    else
      var verified :- addresses[0].verified;
      Some(User(id, Name(first, last), email, phone, PostalAddress(street, postalCode, city),
                municipality, country, verified, None, None))
  }

  /** Adds the local user-info row, if there is one; a failing lookup aborts. */
  function Enrich(user: User, info: Lookup<UserInfo>): (r: Option<User>)
    ensures r.None? <==> info.LookupFailed?
    ensures r.Some? ==> r.value.(created := user.created, number := user.number) == user
    ensures info.NotFound? ==> r == Some(user.(created := None, number := None))
    ensures info.Found? ==> r.Some? && r.value.created == Some(info.value.created) && r.value.number == Some(info.value.number)
  {
    match info
    case LookupFailed => None
    case NotFound => Some(user.(created := None, number := None))
    case Found(i) => Some(user.(created := Some(i.created), number := Some(i.number)))
  }

  /**
   * The session of the current request, or `None` for "unauthenticated".
   * No fetch is made without the cookie; every failure degrades to `None`.
   */
  function GetCurrentUser(
    cookie: Option<string>,
    whoami: Fetch<WhoamiJson>,
    logout: Fetch<LogoutJson>,
    userInfo: Uuid -> Lookup<UserInfo>,
    parseUuid: string -> Option<Uuid>): (r: Option<Session>)
    ensures cookie.None? ==> r.None?
    ensures whoami.FetchFailed? || logout.FetchFailed? ==> r.None?
    ensures r.Some? ==> Some(r.value.hash) == SessionHash(cookie)
    ensures r.Some? ==> userInfo(r.value.user.id) != LookupFailed
    ensures r.Some? ==> (r.value.user.created.None? <==> userInfo(r.value.user.id) == NotFound)
    ensures r.Some? ==> (r.value.user.number.None? <==> userInfo(r.value.user.id) == NotFound)
    ensures r.Some? && userInfo(r.value.user.id).Found? ==>
      && r.value.user.created == Some(userInfo(r.value.user.id).value.created)
      && r.value.user.number == Some(userInfo(r.value.user.id).value.number)
  {
    var hash :- SessionHash(cookie);
    var response :- whoami.ToOption();
    var logoutResponse :- logout.ToOption();
    var idText :- response.id;
    var id :- parseUuid(idText);
    var issuedAt :- response.issuedAt;
    var expiresAt :- response.expiresAt;
    var user :- IdentityUser(response.identity, parseUuid);
    var enriched :- Enrich(user, userInfo(user.id));
    var logoutUrl :- logoutResponse.logoutUrl;
    Some(Session(id, hash, issuedAt, expiresAt, enriched, logoutUrl))
  }

  // The required fields of the identity answer, stated field by field.

  ghost predicate NameComplete(n: NameJson) {
    n.first.Some? && n.last.Some?
  }

  ghost predicate PostalComplete(p: PostalAddressJson) {
    p.street.Some? && p.postalCode.Some? && p.city.Some?
  }

  ghost predicate TraitsComplete(t: TraitsJson) {
    && t.name.Some? && NameComplete(t.name.value)
    && t.email.Some? && t.phone.Some?
    && t.postalAddress.Some? && PostalComplete(t.postalAddress.value)
    && t.municipality.Some? && t.country.Some?
  }

  ghost predicate IdentityComplete(i: IdentityJson, parseUuid: string -> Option<Uuid>) {
    && i.id.Some? && parseUuid(i.id.value).Some?
    && i.traits.Some? && TraitsComplete(i.traits.value)
    && i.verifiableAddresses.Some? && |i.verifiableAddresses.value| > 0
    && i.verifiableAddresses.value[0].verified.Some?
  }

  ghost predicate WhoamiComplete(w: WhoamiJson, parseUuid: string -> Option<Uuid>) {
    && w.id.Some? && parseUuid(w.id.value).Some?
    && w.issuedAt.Some? && w.expiresAt.Some?
    && w.identity.Some? && IdentityComplete(w.identity.value, parseUuid)
  }

  lemma IdentityUserComplete(identity: Option<IdentityJson>, parseUuid: string -> Option<Uuid>)
    ensures IdentityUser(identity, parseUuid).Some? <==>
            identity.Some? && IdentityComplete(identity.value, parseUuid)
  {
  }

  /**
   * Exactly when a session is built: a cookie, both answers fetched and decoded,
   * every required field present, a logout URL, and a user-info lookup that did
   * not fail.
   */
  lemma GetCurrentUserSucceeds(
    cookie: Option<string>,
    whoami: Fetch<WhoamiJson>,
    logout: Fetch<LogoutJson>,
    userInfo: Uuid -> Lookup<UserInfo>,
    parseUuid: string -> Option<Uuid>)
    ensures GetCurrentUser(cookie, whoami, logout, userInfo, parseUuid).Some? <==>
      && cookie.Some? && whoami.Fetched? && logout.Fetched?
      && WhoamiComplete(whoami.body, parseUuid)
      && logout.body.logoutUrl.Some?
      && userInfo(parseUuid(whoami.body.identity.value.id.value).value) != LookupFailed
  {
    if whoami.Fetched? {
      IdentityUserComplete(whoami.body.identity, parseUuid);
    }
  }

  /** A built session carries the identity's fields unchanged. */
  lemma GetCurrentUserCopiesIdentity(
    cookie: Option<string>,
    whoami: Fetch<WhoamiJson>,
    logout: Fetch<LogoutJson>,
    userInfo: Uuid -> Lookup<UserInfo>,
    parseUuid: string -> Option<Uuid>)
    requires GetCurrentUser(cookie, whoami, logout, userInfo, parseUuid).Some?
    ensures whoami.Fetched? && whoami.body.identity.Some? && whoami.body.identity.value.traits.Some?
    ensures var s := GetCurrentUser(cookie, whoami, logout, userInfo, parseUuid).value;
      var w := whoami.body;
      var traits := w.identity.value.traits.value;
      && Some(s.id) == parseUuid(w.id.value)
      && Some(s.issuedAt) == w.issuedAt && Some(s.expiresAt) == w.expiresAt
      && Some(s.user.id) == parseUuid(w.identity.value.id.value)
      && Some(s.user.email) == traits.email && Some(s.user.phone) == traits.phone
      && Some(s.user.municipality) == traits.municipality && Some(s.user.country) == traits.country
      && Some(s.user.name.first) == traits.name.value.first
      && Some(s.user.name.last) == traits.name.value.last
      && Some(s.user.postalAddress.street) == traits.postalAddress.value.street
      && Some(s.user.postalAddress.postalCode) == traits.postalAddress.value.postalCode
      && Some(s.user.postalAddress.city) == traits.postalAddress.value.city
      && Some(s.user.verified) == w.identity.value.verifiableAddresses.value[0].verified
      && Some(s.logoutUrl) == logout.body.logoutUrl
  {
    GetCurrentUserSucceeds(cookie, whoami, logout, userInfo, parseUuid);
  }

  // ---------------------------------------------------------------------------
  // The handler's response state

  /** The keyword arguments a page is rendered with. */
  datatype PageArgs =
    | NoArgs
    | GeographyArgs(admin: bool, title: string, countries: seq<Country>,
                    municipalities: seq<Municipality>, areas: seq<Area>)

  /** One piece of the response body: a JSON envelope or a rendered template. */
  datatype Chunk = EnvelopeChunk(envelope: Envelope) | PageChunk(template: string, args: PageArgs)

  /**
   * The part of a request handler the core touches: the response status and
   * reason, the body written so far and the session resolved in `prepare`.
   */
  class Handler {
    var status: int
    var reason: string
    var body: seq<Chunk>
    var currentUser: Option<Session>

    constructor ()
      ensures status == 200 && reason == "OK" && body == [] && currentUser == None
    {
      status, reason, body, currentUser := 200, "OK", [], None;
    }

    /** `prepare`: resolves the session once, before any handler-specific code. */
    method Prepare(
      cookie: Option<string>,
      whoami: Fetch<WhoamiJson>,
      logout: Fetch<LogoutJson>,
      userInfo: Uuid -> Lookup<UserInfo>,
      parseUuid: string -> Option<Uuid>)
      modifies this`currentUser
      ensures currentUser == GetCurrentUser(cookie, whoami, logout, userInfo, parseUuid)
      ensures IsAuthenticated() <==> GetCurrentUser(cookie, whoami, logout, userInfo, parseUuid).Some?
      ensures IsAuthenticated() ==> cookie.Some?
    {
      currentUser := GetCurrentUser(cookie, whoami, logout, userInfo, parseUuid);
    }

    predicate IsAuthenticated()
      reads this
    {
      currentUser.Some?
    }

    /**
     * `write_error`: reports `errorMessage`, or else the `exc_info` text, as
     * the status reason and renders `error/<code>.html`. Returns whether it
     * raised `KeyError` instead, leaving the response untouched.
     */
    method WriteError(statusCode: int, errorMessage: string, excInfo: ExcInfo) returns (raised: bool)
      modifies this`status, this`reason, this`body
      ensures raised <==> ErrorMessage(errorMessage, excInfo).None?
      ensures raised ==> status == old(status) && reason == old(reason) && body == old(body)
      ensures !raised ==> && status == statusCode
                          && reason == ErrorMessage(errorMessage, excInfo).value
                          && body == old(body) + [PageChunk(ErrorTemplate(statusCode), NoArgs)]
    {
      var message := "";
      if errorMessage != "" {
        message := errorMessage;
      } else if excInfo.ExcInfoMissing? {
        return true;
      } else if excInfo.ExcInfoGiven? {
        message := excInfo.text;
      }
      status, reason := statusCode, message;
      var template := ErrorTemplatePrefix + IntToDecimal(statusCode) + ErrorTemplateSuffix;
      body := body + [PageChunk(template, NoArgs)];
      return false;
    }

    /**
     * `send_error(statusCode, error_message=message)` before any header is
     * written: the unsent output is cleared, the status is set with the
     * standard phrase for the code (`reasonPhrase`, Tornado's status table),
     * and `write_error` runs without `exc_info`; a `KeyError` it raises is
     * caught, and the response is finished as it stands.
     */
    method SendError(statusCode: int, message: string, reasonPhrase: int -> string)
      modifies this`status, this`reason, this`body
      ensures message == "" ==> status == statusCode && reason == reasonPhrase(statusCode) && body == []
      ensures message != "" ==> status == statusCode && reason == message && body == [PageChunk(ErrorTemplate(statusCode), NoArgs)]
    {
      body := [];
      status, reason := statusCode, reasonPhrase(statusCode);
      var _ := WriteError(statusCode, message, ExcInfoMissing);
    }

    /**
     * `respond`: an error page when asked for one and the status is an error;
     * otherwise the status is set and a failure envelope (status >= 400), no
     * body (204) or a success envelope is written.
     */
    method Respond(message: string, statusCode: int, jsonData: Payload, showErrorPage: bool, reasonPhrase: int -> string)
      modifies this`status, this`reason, this`body
      ensures match RespondReply(message, statusCode, jsonData, showErrorPage)
        case SendError(code, msg) =>
          if msg == "" then status == code && reason == reasonPhrase(code) && body == []
          else status == code && reason == msg && body == [PageChunk(ErrorTemplate(code), NoArgs)]
        case WriteEnvelope(code, envelope) =>
          status == code && reason == message && body == old(body) + [EnvelopeChunk(envelope)]
        case StatusOnly(code, msg) =>
          status == code && reason == msg && body == old(body)
    {
      if showErrorPage && statusCode >= 400 {
        SendError(statusCode, message, reasonPhrase);
        return;
      }
      status, reason := statusCode, message;
      if statusCode >= 400 {
        body := body + [EnvelopeChunk(Envelope(false, message, jsonData))];
      } else if statusCode != 204 {
        body := body + [EnvelopeChunk(Envelope(true, message, jsonData))];
      }
    }
  }
}
