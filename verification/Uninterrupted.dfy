/** Each handler run without interruption, in one view: exactly when it succeeds, and what it
    then does to the map of sessions and to the cookie. */
module Uninterrupted {
  import opened Basics
  import opened Database
  import opened Table
  import opened Protocol

  lemma AloneStep(cfg: Config, solo: Solo, cs: seq<Choice>, k: nat)
    requires k < |cs| && !solo.job.Finished?
    ensures Alone(cfg, solo, cs, k) == Alone(cfg, SoloStep(cfg, solo, cs[k]), cs, k + 1)
  {
  }

  function CookieResult(cfg: Config, rows: Rows, values: Values, id: Id, data: SessionData,
                        headers: seq<Cookie>, c: Choice): Solo
  {
    if c.fault then Solo(rows, Finished(values, Refused(CookieNotSaved)), headers)
    else Solo(rows, Finished(values, Next(data.accessToken)),
              headers + [Cookie(WithSession(values, id), cfg.sessionTimeout)])
  }

  function OverwriteResult(cfg: Config, rows: Rows, values: Values, id: Id, data: SessionData,
                           headers: seq<Cookie>, c: Choice, d: Choice): Solo
  {
    var written := Overwrite(cfg.cipher, rows, id, data, c.nonces, c.fault);
    if written.Err? then Solo(rows, Finished(values, Refused(StoreFailed(written.error))), headers)
    else CookieResult(cfg, written.value, values, id, data, headers, d)
  }

  /** All of Session.Update in one view. */
  function UpdateResult(cfg: Config, rows: Rows, values: Values, id: Id, data: SessionData,
                        headers: seq<Cookie>, cs: seq<Choice>, k: nat): Solo
    requires k + 3 <= |cs|
  {
    var refused := Compare(cfg.cipher, rows, id, data, cs[k].fault);
    if refused.Some? then Solo(rows, Finished(values, Refused(StoreFailed(refused.value))), headers)
    else OverwriteResult(cfg, rows, values, id, data, headers, cs[k + 1], cs[k + 2])
  }

  lemma CookieAlone(cfg: Config, rows: Rows, values: Values, id: Id, data: SessionData,
                    headers: seq<Cookie>, cs: seq<Choice>, k: nat)
    requires k < |cs|
    ensures Alone(cfg, Solo(rows, AuthCookie(values, id, data), headers), cs, k) ==
            CookieResult(cfg, rows, values, id, data, headers, cs[k])
  {
    AloneStep(cfg, Solo(rows, AuthCookie(values, id, data), headers), cs, k);
  }

  lemma OverwriteAlone(cfg: Config, rows: Rows, values: Values, id: Id, data: SessionData,
                       headers: seq<Cookie>, cs: seq<Choice>, k: nat)
    requires k + 2 <= |cs|
    ensures Alone(cfg, Solo(rows, AuthOverwrite(values, id, data), headers), cs, k) ==
            OverwriteResult(cfg, rows, values, id, data, headers, cs[k], cs[k + 1])
  {
    AloneStep(cfg, Solo(rows, AuthOverwrite(values, id, data), headers), cs, k);
    var written := Overwrite(cfg.cipher, rows, id, data, cs[k].nonces, cs[k].fault);
    if written.Ok? { CookieAlone(cfg, written.value, values, id, data, headers, cs, k + 1); }
  }

  /** A refresh that nothing interrupts. */
  lemma UpdateAlone(cfg: Config, rows: Rows, values: Values, id: Id, data: SessionData,
                    headers: seq<Cookie>, cs: seq<Choice>, k: nat)
    requires k + 3 <= |cs|
    ensures Alone(cfg, Solo(rows, AuthCompare(values, id, data), headers), cs, k) ==
            UpdateResult(cfg, rows, values, id, data, headers, cs, k)
  {
    AloneStep(cfg, Solo(rows, AuthCompare(values, id, data), headers), cs, k);
    if Compare(cfg.cipher, rows, id, data, cs[k].fault).None? {
      OverwriteAlone(cfg, rows, values, id, data, headers, cs, k + 1);
    }
  }

  /** From the expiry check on, whatever the table holds by then. */
  lemma CheckAlone(cfg: Config, rows: Rows, values: Values, data: SessionData, headers: seq<Cookie>, cs: seq<Choice>)
    returns (renewed: SessionData)
    requires |cs| >= 6
    ensures cs[2].answer.Some? && cs[2].answer.value.idToken.Some? ==> MadeOf(renewed, cs[2].answer)
    ensures Alone(cfg, Solo(rows, AuthCheck(values, data), headers), cs, 1) ==
            if cs[1].now <= data.expiresAt then Solo(rows, Finished(values, Next(data.accessToken)), headers)
            else if data.refreshToken == "" || cs[2].answer.None?
            then Solo(rows, Finished(values, Refused(RefreshFailed)), headers)
            else if cs[2].answer.value.idToken.None? then Solo(rows, Finished(values, Refused(TokenInvalid)), headers)
            else if SessionId !in values then Solo(rows, Finished(values, Refused(SessionInvalid)), headers)
            else Alone(cfg, Solo(rows, AuthCompare(values, values[SessionId], renewed), headers), cs, 3)
  {
    var second := Solo(rows, AuthCheck(values, data), headers);
    AloneStep(cfg, second, cs, 1);
    var third := SoloStep(cfg, second, cs[1]);
    if third.job.AuthRefresh? { AloneStep(cfg, third, cs, 2); }
    renewed := if cs[2].answer.None? || NewData(cs[2].answer.value).None? then data
               else NewData(cs[2].answer.value).value;
  }

  /** An authenticated request that nothing interrupts, up to its expiry check. */
  lemma AuthAlone(cfg: Config, rows: Rows, incoming: Incoming, headers: seq<Cookie>, cs: seq<Choice>)
    requires |cs| >= 6
    ensures var session := GetSession(cfg, rows, incoming, cs[0].fault);
            Alone(cfg, Solo(rows, AuthLoad(incoming), headers), cs, 0) ==
            if session.Err? then Solo(rows, Finished(Decoded(incoming), Refused(session.error)), headers)
            else Alone(cfg, Solo(rows, AuthCheck(Decoded(incoming), session.value), headers), cs, 1)
  {
  }

  // ---- the handlers on the map of sessions

  /** What GetSession makes of any cookie and any table, each cause by itself. */
  lemma GetSessionCauses(cfg: Config, rows: Rows, incoming: Incoming, fault: bool)
    ensures var r := GetSession(cfg, rows, incoming, fault);
            (r == Err(CannotGetCookie) <==> incoming.Undecodable?)
    ensures var r, v := GetSession(cfg, rows, incoming, fault), Decoded(incoming);
            var read := !incoming.Undecodable? && State !in v && SessionId in v;
            && v == (if incoming.Presented? then incoming.values else map[])
            && (!incoming.Undecodable? && State in v ==> r == Ok(ZERO_DATA))
            && (r == Err(SessionInvalid) <==> !incoming.Undecodable? && State !in v && SessionId !in v)
            && (r == Err(CannotRetrieveSessionData(ExecFailed)) <==> read && fault)
            && (r == Err(SessionNotFound) <==> read && !fault && v[SessionId] !in rows)
            && (r == Err(CannotRetrieveSessionData(CipherFailed)) <==>
                read && !fault && v[SessionId] in rows && Load(cfg.cipher, rows[v[SessionId]]).None?)
            && (read && !fault && v[SessionId] in rows && Load(cfg.cipher, rows[v[SessionId]]).Some? ==>
                r == Ok(Load(cfg.cipher, rows[v[SessionId]]).value))
  {
  }

  /** Why GetSession fails, on the map of sessions. */
  function LoadError(view: map<Id, SessionData>, incoming: Incoming, fault: bool): Option<Error> {
    var v := Decoded(incoming);
    if incoming.Undecodable? then Some(CannotGetCookie)
    else if State in v then None
    else if SessionId !in v then Some(SessionInvalid)
    else if fault then Some(CannotRetrieveSessionData(ExecFailed))
    else if v[SessionId] !in view then Some(SessionNotFound)
    else None
  }

  lemma GetSessionOnView(cfg: Config, rows: Rows, incoming: Incoming, fault: bool)
    requires Readable(cfg.cipher, rows)
    ensures var view := View(cfg.cipher, rows);
            var r, error := GetSession(cfg, rows, incoming, fault), LoadError(view, incoming, fault);
            var v := Decoded(incoming);
            && (r.Err? <==> error.Some?)
            && (r.Err? ==> r.error == error.value)
            && (r.Ok? ==> r.value == if State in v then ZERO_DATA else view[v[SessionId]])
  {
    GetSessionCauses(cfg, rows, incoming, fault);
  }

  predicate Unstorable(cfg: Config, data: SessionData, c: Choice) {
    c.fault || !Admissible(cfg.cipher.Some?, data)
  }

  /** Why Update fails, on the map of sessions. */
  function UpdateError(cfg: Config, view: map<Id, SessionData>, id: Id, data: SessionData, read: Choice, write: Choice)
    : Option<DbError>
  {
    if read.fault then Some(ExecFailed)
    else if id !in view then Some(NoRows)
    else if data.subject != view[id].subject then Some(SessionsMismatch)
    else if !Encrypts(cfg.cipher, data, write.nonces) then Some(CipherFailed)
    else if Unstorable(cfg, data, write) then Some(ExecFailed)
    else None
  }

  /** Session.Update on the map: stored when the subjects match and the record is storable,
      and then served if the cookie can be written. */
  ghost predicate Refreshes(cfg: Config, rows: Rows, v: Values, id: Id, data: SessionData, cs: seq<Choice>, last: Solo)
    requires Readable(cfg.cipher, rows) && |cs| >= 6
  {
    var view := View(cfg.cipher, rows);
    var error := UpdateError(cfg, view, id, data, cs[3], cs[4]);
    && Readable(cfg.cipher, last.rows)
    && View(cfg.cipher, last.rows) == (if error.None? then view[id := Stored(data)] else view)
    && if error.Some? then last.job == Finished(v, Refused(StoreFailed(error.value))) && last.cookies == []
       else if cs[5].fault then last.job == Finished(v, Refused(CookieNotSaved)) && last.cookies == []
       else && last.job == Finished(v, Next(data.accessToken))
            && last.cookies == [Cookie(map[SessionId := id], cfg.sessionTimeout)]
  }

  lemma UpdateRefreshes(cfg: Config, rows: Rows, v: Values, id: Id, data: SessionData, cs: seq<Choice>)
    requires Sound(cfg.cipher) && Readable(cfg.cipher, rows) && |cs| >= 6
    ensures Refreshes(cfg, rows, v, id, data, cs, UpdateResult(cfg, rows, v, id, data, [], cs, 3))
  {
    GetRefines(cfg.cipher, rows, id, cs[3].fault);
    OverwriteRefines(cfg.cipher, rows, id, data, cs[4].nonces, cs[4].fault);
    OnlyTwoKeys(v, id);
  }

  lemma RefreshAlone(cfg: Config, rows: Rows, v: Values, id: Id, data: SessionData, cs: seq<Choice>)
    requires Sound(cfg.cipher) && Readable(cfg.cipher, rows) && |cs| >= 6
    ensures Refreshes(cfg, rows, v, id, data, cs, Alone(cfg, Solo(rows, AuthCompare(v, id, data), []), cs, 3))
  {
    UpdateRefreshes(cfg, rows, v, id, data, cs);
    UpdateAlone(cfg, rows, v, id, data, [], cs, 3);
  }

  /** A request is served exactly when its cookie holds no state and names a stored session
      which is either unexpired, and then served its own token with nothing changed, or is
      renewed: with a refresh token, by an answer with a verified ID token for the same
      subject, stored and put back in the cookie; and then served the new token. Any other
      request is refused with its own cause. */
  lemma AccessAlone(cfg: Config, rows: Rows, incoming: Incoming, cs: seq<Choice>) returns (renewed: SessionData)
    requires Sound(cfg.cipher) && Readable(cfg.cipher, rows) && |cs| >= 6 && cs[1].now >= 0
    ensures cs[2].answer.Some? && cs[2].answer.value.idToken.Some? ==> MadeOf(renewed, cs[2].answer)
    ensures var view, v := View(cfg.cipher, rows), Decoded(incoming);
            var last := Alone(cfg, Solo(rows, AuthLoad(incoming), []), cs, 0);
            var error := LoadError(view, incoming, cs[0].fault);
            if error.Some? then last == Solo(rows, Finished(v, Refused(error.value)), [])
            else if State in v then last == Solo(rows, Finished(v, Refused(RefreshFailed)), [])
            else
              var id, data := v[SessionId], view[v[SessionId]];
              if cs[1].now <= data.expiresAt then last == Solo(rows, Finished(v, Next(data.accessToken)), [])
              else if data.refreshToken == "" || cs[2].answer.None?
              then last == Solo(rows, Finished(v, Refused(RefreshFailed)), [])
              else if cs[2].answer.value.idToken.None? then last == Solo(rows, Finished(v, Refused(TokenInvalid)), [])
              else Refreshes(cfg, rows, v, id, renewed, cs, last)
  {
    var v := Decoded(incoming);
    AuthAlone(cfg, rows, incoming, [], cs);
    GetSessionOnView(cfg, rows, incoming, cs[0].fault);
    var session := GetSession(cfg, rows, incoming, cs[0].fault);
    renewed := CheckAlone(cfg, rows, v, if session.Ok? then session.value else ZERO_DATA, [], cs);
    if session.Ok? && State !in v { RefreshAlone(cfg, rows, v, v[SessionId], renewed, cs); }
  }

  /** The login handler writes the state it redirects with into the cookie, next to what the
      cookie held, for every cookie that decodes; and never touches the table. */
  lemma LoginAlone(cfg: Config, rows: Rows, incoming: Incoming, cs: seq<Choice>)
    requires |cs| >= 1
    ensures var v := if incoming.Presented? then incoming.values else map[];
            var last := Alone(cfg, Solo(rows, Login(incoming), []), cs, 0);
            && last.rows == rows
            && (last.job == Finished(v, ToLogin(cs[0].state)) <==> !incoming.Undecodable? && !cs[0].fault)
            && (last.job == Finished(v, Refused(CannotCreateCookie)) <==> incoming.Undecodable?)
            && (last.job == Finished(v, Refused(CookieNotSaved)) <==> !incoming.Undecodable? && cs[0].fault)
            && last.cookies == if incoming.Undecodable? || cs[0].fault then []
                               else [Cookie(v[State := cs[0].state], cfg.loginTimeout)]
  {
    AloneStep(cfg, Solo(rows, Login(incoming), []), cs, 0);
  }

  /** From the DELETE on, whatever the table holds by then: the row may be gone already. */
  lemma DeleteAlone(cfg: Config, rows: Rows, v: Values, data: SessionData, cs: seq<Choice>)
    requires |cs| == 3
    ensures Alone(cfg, Solo(rows, LogoutDelete(v, data), []), cs, 1) ==
            if SessionId !in v then Solo(rows, Finished(v, Refused(SessionInvalid)), [])
            else if cs[1].fault then Solo(rows, Finished(v, Refused(StoreFailed(ExecFailed))), [])
            else if cs[2].fault then Solo(rows - {v[SessionId]}, Finished(v, Refused(CookieNotSaved)), [])
            else Solo(rows - {v[SessionId]}, Finished(v, ToLogout(data.idToken)), [Cookie(v, -1)])
  {
    var second := Solo(rows, LogoutDelete(v, data), []);
    AloneStep(cfg, second, cs, 1);
    var third := SoloStep(cfg, second, cs[1]);
    if third.job.LogoutCookie? { AloneStep(cfg, third, cs, 2); }
  }

  /** A logout succeeds exactly when its cookie names an id and either holds a state, so that
      the row is never looked at, or names a stored session. It removes that row and no other,
      and sends the cookie back unchanged with a negative Max-Age. */
  lemma LogoutAlone(cfg: Config, rows: Rows, incoming: Incoming, cs: seq<Choice>)
    requires Sound(cfg.cipher) && Readable(cfg.cipher, rows) && |cs| == 3
    ensures var view, v := View(cfg.cipher, rows), Decoded(incoming);
            var last := Alone(cfg, Solo(rows, LogoutLoad(incoming), []), cs, 0);
            var error := LoadError(view, incoming, cs[0].fault);
            if error.Some? then last == Solo(rows, Finished(v, Refused(error.value)), [])
            else if SessionId !in v then last == Solo(rows, Finished(v, Refused(SessionInvalid)), [])
            else if cs[1].fault then last == Solo(rows, Finished(v, Refused(StoreFailed(ExecFailed))), [])
            else
              && Readable(cfg.cipher, last.rows) && View(cfg.cipher, last.rows) == view - {v[SessionId]}
              && if cs[2].fault then last.job == Finished(v, Refused(CookieNotSaved)) && last.cookies == []
                 else && last.job == Finished(v, ToLogout(if State in v then "" else view[v[SessionId]].idToken))
                      && last.cookies == [Cookie(v, -1)]
  {
    var v := Decoded(incoming);
    AloneStep(cfg, Solo(rows, LogoutLoad(incoming), []), cs, 0);
    GetSessionOnView(cfg, rows, incoming, cs[0].fault);
    var session := GetSession(cfg, rows, incoming, cs[0].fault);
    if session.Ok? {
      DeleteAlone(cfg, rows, v, session.value, cs);
      if SessionId in v { DeleteRefines(cfg.cipher, rows, v[SessionId]); }
    }
  }

  /** Why Add fails, on the map of sessions. */
  function AddError(cfg: Config, view: map<Id, SessionData>, data: SessionData, c: Choice): Option<DbError> {
    if !Encrypts(cfg.cipher, data, c.nonces) then Some(CipherFailed)
    else if c.id in view || Unstorable(cfg, data, c) then Some(ExecFailed)
    else None
  }

  /** Session.Save on the map: the record is stored under the new id, and then the cookie holds
      that id and nothing else. */
  ghost predicate Saves(cfg: Config, rows: Rows, v: Values, data: SessionData, cs: seq<Choice>, last: Solo)
    requires Readable(cfg.cipher, rows) && |cs| == 4
  {
    var view := View(cfg.cipher, rows);
    var error := AddError(cfg, view, data, cs[2]);
    && Readable(cfg.cipher, last.rows)
    && View(cfg.cipher, last.rows) == (if error.None? then view[cs[2].id := Stored(data)] else view)
    && if error.Some? then last.job == Finished(v, Refused(StoreFailed(error.value))) && last.cookies == []
       else if cs[3].fault then last.job == Finished(v, Refused(CookieNotSaved)) && last.cookies == []
       else && last.job == Finished(v, ToHome)
            && last.cookies == [Cookie(map[SessionId := cs[2].id], cfg.sessionTimeout)]
  }

  lemma SaveAlone(cfg: Config, rows: Rows, v: Values, response: string, data: SessionData, cs: seq<Choice>)
    requires Sound(cfg.cipher) && Readable(cfg.cipher, rows) && |cs| == 4
    ensures Saves(cfg, rows, v, data, cs, Alone(cfg, Solo(rows, CallbackInsert(v, response, data), []), cs, 2))
  {
    AddRefines(cfg.cipher, rows, cs[2].id, data, cs[2].nonces, cs[2].fault);
    OnlyTwoKeys(v, cs[2].id);
    var first := Solo(rows, CallbackInsert(v, response, data), []);
    AloneStep(cfg, first, cs, 2);
    var second := SoloStep(cfg, first, cs[2]);
    if second.job.CallbackCookie? { AloneStep(cfg, second, cs, 3); }
  }

  /** From the exchange on, whatever the table holds by then. */
  lemma ExchangeAlone(cfg: Config, rows: Rows, incoming: Incoming, response: string, cs: seq<Choice>)
    returns (data: SessionData)
    requires Sound(cfg.cipher) && Readable(cfg.cipher, rows) && |cs| == 4
    ensures cs[1].answer.Some? && cs[1].answer.value.idToken.Some? ==> MadeOf(data, cs[1].answer)
    ensures var v := Decoded(incoming);
            var last := Alone(cfg, Solo(rows, CallbackExchange(incoming, response), []), cs, 1);
            if cs[1].answer.None? then last == Solo(rows, Finished(v, Refused(ExchangeFailed)), [])
            else if incoming.Undecodable? || cs[1].fault
            then last == Solo(rows, Finished(v, Refused(CannotCreateCookie)), [])
            else if cs[1].answer.value.idToken.None? then last == Solo(rows, Finished(v, Refused(TokenInvalid)), [])
            else Saves(cfg, rows, v, data, cs, last)
  {
    AloneStep(cfg, Solo(rows, CallbackExchange(incoming, response), []), cs, 1);
    data := if cs[1].answer.None? || NewData(cs[1].answer.value).None? then ZERO_DATA
            else NewData(cs[1].answer.value).value;
    SaveAlone(cfg, rows, Decoded(incoming), response, data, cs);
  }

  /** A callback stores the provider's record under its new id, leaves every other session
      alone, and issues a cookie with that id and nothing else: exactly when the session loads,
      its state is the response's, the code is exchanged for an answer with a verified ID token,
      and the record can be stored. Otherwise it is refused with its own cause. */
  lemma CallbackAlone(cfg: Config, rows: Rows, incoming: Incoming, response: string, cs: seq<Choice>)
    returns (data: SessionData)
    requires Sound(cfg.cipher) && Readable(cfg.cipher, rows) && |cs| == 4
    ensures cs[1].answer.Some? && cs[1].answer.value.idToken.Some? ==> MadeOf(data, cs[1].answer)
    ensures var view, v := View(cfg.cipher, rows), Decoded(incoming);
            var last := Alone(cfg, Solo(rows, CallbackLoad(incoming, response), []), cs, 0);
            var error := LoadError(view, incoming, cs[0].fault);
            if error.Some? then last == Solo(rows, Finished(v, Refused(error.value)), [])
            else if (if State in v then v[State] else "") != response
            then last == Solo(rows, Finished(v, Refused(StateMismatch)), [])
            else if cs[1].answer.None? then last == Solo(rows, Finished(v, Refused(ExchangeFailed)), [])
            else if cs[1].fault then last == Solo(rows, Finished(v, Refused(CannotCreateCookie)), [])
            else if cs[1].answer.value.idToken.None? then last == Solo(rows, Finished(v, Refused(TokenInvalid)), [])
            else Saves(cfg, rows, v, data, cs, last)
  {
    AloneStep(cfg, Solo(rows, CallbackLoad(incoming, response), []), cs, 0);
    GetSessionOnView(cfg, rows, incoming, cs[0].fault);
    data := ExchangeAlone(cfg, rows, incoming, response, cs);
  }

  // ---- what a step looks at

  /** The one row that a step reads, or whose presence decides how it ends. */
  function LooksAt(job: Job, c: Choice): Option<Id> {
    if job.CallbackLoad? || job.LogoutLoad? || job.AuthLoad? then
      if SessionId in Decoded(job.incoming) then Some(Decoded(job.incoming)[SessionId]) else None
    else if job.CallbackInsert? then Some(c.id)
    else if job.AuthCompare? || job.AuthOverwrite? then Some(job.id)
    else None
  }

  predicate SameRow(rows: Rows, others: Rows, id: Id) {
    (id in rows <==> id in others) && (id in rows ==> rows[id] == others[id])
  }

  lemma LoadLooksAtOneRow(cfg: Config, rows: Rows, others: Rows, incoming: Incoming, fault: bool)
    requires SessionId in Decoded(incoming) ==> SameRow(rows, others, Decoded(incoming)[SessionId])
    ensures GetSession(cfg, rows, incoming, fault) == GetSession(cfg, others, incoming, fault)
  {
  }

  lemma OtherStepsLookAtNoRow(cfg: Config, rows: Rows, others: Rows, job: Job, c: Choice)
    requires LooksAt(job, c).None? && !job.CallbackLoad? && !job.LogoutLoad? && !job.AuthLoad?
    ensures var e, f := Step(cfg, rows, job, c), Step(cfg, others, job, c);
            e.job == f.job && e.cookie == f.cookie && e.note == f.note
  {
  }

  lemma WritesLookAtOneRow(cfg: Config, rows: Rows, others: Rows, job: Job, c: Choice)
    requires job.CallbackInsert? || job.AuthCompare? || job.AuthOverwrite?
    requires SameRow(rows, others, LooksAt(job, c).value)
    ensures var e, f := Step(cfg, rows, job, c), Step(cfg, others, job, c);
            e.job == f.job && e.cookie == f.cookie && e.note == f.note
  {
    match job
    case CallbackInsert(_, _, data) =>
      assert Add(cfg.cipher, rows, c.id, data, c.nonces, c.fault).Ok? <==>
             Add(cfg.cipher, others, c.id, data, c.nonces, c.fault).Ok?;
    case AuthCompare(_, id, data) =>
      assert Compare(cfg.cipher, rows, id, data, c.fault) == Compare(cfg.cipher, others, id, data, c.fault);
    case AuthOverwrite(_, id, data) =>
      assert Overwrite(cfg.cipher, rows, id, data, c.nonces, c.fault).Ok? <==>
             Overwrite(cfg.cipher, others, id, data, c.nonces, c.fault).Ok?;
  }

  /** What a request does, answers and writes into its cookie depends on no other row; a step
      that looks at no row goes the same way on every table. */
  lemma StepLooksAtOneRow(cfg: Config, rows: Rows, others: Rows, job: Job, c: Choice)
    requires LooksAt(job, c).Some? ==> SameRow(rows, others, LooksAt(job, c).value)
    ensures var e, f := Step(cfg, rows, job, c), Step(cfg, others, job, c);
            e.job == f.job && e.cookie == f.cookie && e.note == f.note
  {
    if job.CallbackLoad? || job.LogoutLoad? || job.AuthLoad? {
      LoadLooksAtOneRow(cfg, rows, others, job.incoming, c.fault);
    } else if LooksAt(job, c).Some? {
      WritesLookAtOneRow(cfg, rows, others, job, c);
    } else {
      OtherStepsLookAtNoRow(cfg, rows, others, job, c);
    }
  }

  lemma OnlyTwoKeys(v: Values, id: Id)
    ensures WithSession(v, id) == map[SessionId := id]
  {
    forall key | key in WithSession(v, id) ensures key == SessionId {
      match key
      case SessionId =>
      case State =>
    }
  }
}
