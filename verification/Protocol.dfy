/** The four handlers as step machines. A step is one atomic access to what requests share
    (one SQL statement) together with the local work around it; what the step cannot decide
    by itself comes in a Choice. */
module Protocol {
  import opened Basics
  import opened Database
  import opened Table

  // ---- cookies

  datatype Key = SessionId | State

  /** session.Values: the only two keys the server ever sets. */
  type Values = map<Key, string>

  /** A Set-Cookie header: the authenticated values and Max-Age in seconds. */
  datatype Cookie = Cookie(values: Values, maxAge: int)

  /** What gorilla's store makes of the request's Cookie header. */
  datatype Incoming = NoCookie | Presented(values: Values) | Undecodable

  function Decoded(incoming: Incoming): Values {
    if incoming.Presented? then incoming.values else map[]
  }

  /** Session.getState */
  function GetState(values: Values): string {
    if State in values then values[State] else ""
  }

  function WithState(values: Values, state: string): Values {
    values[State := state]
  }

  /** The values after Session.saveSession. */
  function WithSession(values: Values, id: Id): Values {
    (values - {State})[SessionId := id]
  }

  // ---- the identity provider

  datatype IdToken = IdToken(subject: string, raw: string)

  /** An OAuth2 token response; idToken is None when there is none or it does not verify. */
  datatype Token = Token(accessToken: string, refreshToken: string, expiry: Instant, idToken: Option<IdToken>)

  /** Session.newData */
  function NewData(token: Token): Option<SessionData> {
    if token.idToken.None? then None
    else Some(SessionData(token.idToken.value.subject, token.accessToken, token.refreshToken,
                          token.idToken.value.raw, token.expiry))
  }

  /** A record made of the provider's answer, field by field; the answer has a verified ID token. */
  predicate MadeOf(data: SessionData, answer: Option<Token>) {
    && answer.Some? && answer.value.idToken.Some?
    && data.subject == answer.value.idToken.value.subject
    && data.idToken == answer.value.idToken.value.raw
    && data.accessToken == answer.value.accessToken
    && data.refreshToken == answer.value.refreshToken
    && data.expiresAt == answer.value.expiry
  }

  // ---- requests

  datatype Config = Config(cipher: Option<Cipher>, loginTimeout: int, sessionTimeout: int)

  datatype Error =
    | CannotCreateCookie
    | CannotGetCookie
    | SessionInvalid
    | SessionNotFound
    | CannotRetrieveSessionData(cause: DbError)
    | StateMismatch
    | ExchangeFailed
    | RefreshFailed
    | TokenInvalid
    | StoreFailed(cause: DbError)
    | CookieNotSaved

  datatype Outcome =
    | Next(accessToken: string)      // next.ServeHTTP with this token in the context
    | ToLogin(state: string)         // redirect to the provider
    | ToHome                         // redirect after a login
    | ToLogout(idTokenHint: string)  // redirect to the provider's end-session endpoint
    | Refused(error: Error)

  /** A request between two steps: the handler it is in, how far it got, and its locals. */
  datatype Job =
    | Login(incoming: Incoming)
    | CallbackLoad(incoming: Incoming, response: string)
    | CallbackExchange(incoming: Incoming, response: string)
    | CallbackInsert(values: Values, response: string, data: SessionData)
    | CallbackCookie(values: Values, response: string, id: Id)
    | LogoutLoad(incoming: Incoming)
    | LogoutDelete(values: Values, data: SessionData)
    | LogoutCookie(values: Values, data: SessionData)
    | AuthLoad(incoming: Incoming)
    | AuthCheck(values: Values, data: SessionData)
    | AuthRefresh(values: Values, data: SessionData)
    | AuthCompare(values: Values, id: Id, data: SessionData)
    | AuthOverwrite(values: Values, id: Id, data: SessionData)
    | AuthCookie(values: Values, id: Id, data: SessionData)
    | Finished(values: Values, outcome: Outcome)

  /** Everything a step may depend on besides the table and its own locals: the clock, any
      failure, the nonces, the provider's answer, the id of uuid.New and the random state. */
  datatype Choice = Choice(
    now: Instant,
    fault: bool,
    nonces: Nonces,
    answer: Option<Token>,
    id: Id,
    state: string
  )

  /** What a step means for the history of the system. */
  datatype Note =
    | Silent
    | Generated(state: string)
    | Received(data: SessionData)
    | Inserted(id: Id, data: SessionData, response: string)
    | Updated(id: Id, data: SessionData)
    | Deleted(id: Id)

  datatype Effect = Effect(rows: Rows, job: Job, cookie: Option<Cookie>, note: Note)

  function Go(rows: Rows, job: Job): Effect {
    Effect(rows, job, None, Silent)
  }

  function Refuse(rows: Rows, values: Values, error: Error): Effect {
    Go(rows, Finished(values, Refused(error)))
  }

  /** session.Save: encoding the values can fail, and then no header is written. */
  function Emit(rows: Rows, values: Values, cookie: Cookie, outcome: Outcome, fault: bool): Effect {
    if fault then Refuse(rows, values, CookieNotSaved)
    else Effect(rows, Finished(values, outcome), Some(cookie), Silent)
  }

  /** Manager.GetSession: a cookie holding a state is returned with zero data, unread. */
  function GetSession(cfg: Config, rows: Rows, incoming: Incoming, fault: bool): Result<SessionData, Error> {
    var values := Decoded(incoming);
    if incoming.Undecodable? then Err(CannotGetCookie)
    else if State in values then Ok(ZERO_DATA)
    else if SessionId !in values then Err(SessionInvalid)
    else
      var r := Get(cfg.cipher, rows, values[SessionId], fault);
      if r.Ok? then Ok(r.value)
      else if r.error.NoRows? then Err(SessionNotFound)
      else Err(CannotRetrieveSessionData(r.error))
  }

  // ---- GET /login

  function LoginStep(cfg: Config, rows: Rows, incoming: Incoming, c: Choice): Effect {
    var values := Decoded(incoming);
    if incoming.Undecodable? then Refuse(rows, values, CannotCreateCookie) else
    var cookie := Cookie(WithState(values, c.state), cfg.loginTimeout);
    Emit(rows, values, cookie, ToLogin(c.state), c.fault).(note := Generated(c.state))
  }

  // ---- GET /callback

  function CallbackLoadStep(cfg: Config, rows: Rows, incoming: Incoming, response: string, c: Choice): Effect {
    var values := Decoded(incoming);
    var session := GetSession(cfg, rows, incoming, c.fault);
    if session.Err? then Refuse(rows, values, session.error)
    else if GetState(values) != response then Refuse(rows, values, StateMismatch)
    else Go(rows, CallbackExchange(incoming, response))
  }

  /** config.Exchange, a second decoding of the cookie by NewSession, and newData. */
  function ExchangeStep(rows: Rows, incoming: Incoming, response: string, c: Choice): Effect {
    var values := Decoded(incoming);
    if c.answer.None? then Refuse(rows, values, ExchangeFailed)
    else if incoming.Undecodable? || c.fault then Refuse(rows, values, CannotCreateCookie) else
    var data := NewData(c.answer.value);
    if data.None? then Refuse(rows, values, TokenInvalid)
    else Effect(rows, CallbackInsert(values, response, data.value), None, Received(data.value))
  }

  function InsertStep(cfg: Config, rows: Rows, values: Values, response: string, data: SessionData, c: Choice): Effect {
    var r := Add(cfg.cipher, rows, c.id, data, c.nonces, c.fault);
    if r.Err? then Refuse(rows, values, StoreFailed(r.error))
    else Effect(r.value, CallbackCookie(values, response, c.id), None, Inserted(c.id, data, response))
  }

  // ---- GET /logout

  function LogoutLoadStep(cfg: Config, rows: Rows, incoming: Incoming, c: Choice): Effect {
    var session := GetSession(cfg, rows, incoming, c.fault);
    if session.Err? then Refuse(rows, Decoded(incoming), session.error)
    else Go(rows, LogoutDelete(Decoded(incoming), session.value))
  }

  function DeleteStep(rows: Rows, values: Values, data: SessionData, c: Choice): Effect {
    if SessionId !in values then Refuse(rows, values, SessionInvalid) else
    var r := DeleteWhere(rows, values[SessionId], c.fault);
    if r.Err? then Refuse(rows, values, StoreFailed(r.error))
    else Effect(r.value, LogoutCookie(values, data), None, Deleted(values[SessionId]))
  }

  // ---- authenticated access

  function AuthLoadStep(cfg: Config, rows: Rows, incoming: Incoming, c: Choice): Effect {
    var session := GetSession(cfg, rows, incoming, c.fault);
    if session.Err? then Refuse(rows, Decoded(incoming), session.error)
    else Go(rows, AuthCheck(Decoded(incoming), session.value))
  }

  function CheckStep(rows: Rows, values: Values, data: SessionData, c: Choice): Effect {
    if IsExpired(data, c.now) then Go(rows, AuthRefresh(values, data))
    else Go(rows, Finished(values, Next(data.accessToken)))
  }

  /** TokenSource.Token, which fails without a refresh token, then the first part of Session.Update. */
  function RefreshStep(rows: Rows, values: Values, loaded: SessionData, c: Choice): Effect {
    if loaded.refreshToken == "" || c.answer.None? then Refuse(rows, values, RefreshFailed) else
    var data := NewData(c.answer.value);
    if data.None? then Refuse(rows, values, TokenInvalid)
    else if SessionId !in values then Refuse(rows, values, SessionInvalid)
    else Effect(rows, AuthCompare(values, values[SessionId], data.value), None, Received(data.value))
  }

  function CompareStep(cfg: Config, rows: Rows, values: Values, id: Id, data: SessionData, c: Choice): Effect {
    var refused := Compare(cfg.cipher, rows, id, data, c.fault);
    if refused.Some? then Refuse(rows, values, StoreFailed(refused.value))
    else Go(rows, AuthOverwrite(values, id, data))
  }

  function OverwriteStep(cfg: Config, rows: Rows, values: Values, id: Id, data: SessionData, c: Choice): Effect {
    var r := Overwrite(cfg.cipher, rows, id, data, c.nonces, c.fault);
    if r.Err? then Refuse(rows, values, StoreFailed(r.error))
    else Effect(r.value, AuthCookie(values, id, data), None, Updated(id, data))
  }

  function Step(cfg: Config, rows: Rows, job: Job, c: Choice): Effect {
    match job
    case Login(incoming) => LoginStep(cfg, rows, incoming, c)
    case CallbackLoad(incoming, response) => CallbackLoadStep(cfg, rows, incoming, response, c)
    case CallbackExchange(incoming, response) => ExchangeStep(rows, incoming, response, c)
    case CallbackInsert(values, response, data) => InsertStep(cfg, rows, values, response, data, c)
    case CallbackCookie(values, response, id) =>
      Emit(rows, values, Cookie(WithSession(values, id), cfg.sessionTimeout), ToHome, c.fault)
    case LogoutLoad(incoming) => LogoutLoadStep(cfg, rows, incoming, c)
    case LogoutDelete(values, data) => DeleteStep(rows, values, data, c)
    case LogoutCookie(values, data) =>
      Emit(rows, values, Cookie(values, -1), ToLogout(data.idToken), c.fault)
    case AuthLoad(incoming) => AuthLoadStep(cfg, rows, incoming, c)
    case AuthCheck(values, data) => CheckStep(rows, values, data, c)
    case AuthRefresh(values, data) => RefreshStep(rows, values, data, c)
    case AuthCompare(values, id, data) => CompareStep(cfg, rows, values, id, data, c)
    case AuthOverwrite(values, id, data) => OverwriteStep(cfg, rows, values, id, data, c)
    case AuthCookie(values, id, data) =>
      Emit(rows, values, Cookie(WithSession(values, id), cfg.sessionTimeout), Next(data.accessToken), c.fault)
    case Finished(_, _) => Go(rows, job)
  }

  // ---- one request with nobody else running

  datatype Solo = Solo(rows: Rows, job: Job, cookies: seq<Cookie>)

  function SoloStep(cfg: Config, solo: Solo, c: Choice): Solo {
    var e := Step(cfg, solo.rows, solo.job, c);
    Solo(e.rows, e.job, if e.cookie.Some? then solo.cookies + [e.cookie.value] else solo.cookies)
  }

  /** Runs until the request is finished, with the k-th step taking the k-th choice. */
  function Alone(cfg: Config, solo: Solo, cs: seq<Choice>, k: nat): Solo
    requires k <= |cs|
    decreases |cs| - k
  {
    if solo.job.Finished? || k == |cs| then solo
    else Alone(cfg, SoloStep(cfg, solo, cs[k]), cs, k + 1)
  }
}
