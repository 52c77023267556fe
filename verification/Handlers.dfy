/** sessions/session.go, manager.go, handler.go and middleware.go as sequential code. Every
    handler is shown to be its step machine run without interruption, so what is proved of all
    interleavings of those steps is proved of these handlers. */
module Handlers {
  import opened Basics
  import opened Database
  import opened Table
  import opened Protocol
  import opened SessionStore
  import opened Uninterrupted

  /** http.ResponseWriter, as far as Set-Cookie headers go. */
  class Response {
    var headers: seq<Cookie>

    constructor ()
      ensures headers == []
    {
      headers := [];
    }
  }

  function Ended(err: Option<Error>, outcome: Outcome): Outcome {
    if err.None? then outcome else Refused(err.value)
  }

  class Session {
    const store: Store
    const cfg: Config
    var values: Values
    var maxAge: int
    var data: SessionData

    ghost predicate Valid()
      reads this, store
    {
      store.Valid() && cfg.cipher == store.cipher
    }

    constructor (store: Store, cfg: Config, values: Values)
      ensures this.store == store && this.cfg == cfg && this.values == values
      ensures maxAge == 0 && data == ZERO_DATA
    {
      this.store, this.cfg, this.values, this.maxAge, this.data := store, cfg, values, 0, ZERO_DATA;
    }

    /** gorilla's session.Save: writes the values with the options' Max-Age. */
    method WriteCookie(w: Response, fault: bool) returns (err: Option<Error>)
      modifies w
      ensures err == if fault then Some(CookieNotSaved) else None
      ensures w.headers == old(w.headers) + if fault then [] else [Cookie(values, maxAge)]
    {
      if fault {
        return Some(CookieNotSaved);
      }
      w.headers := w.headers + [Cookie(values, maxAge)];
      return None;
    }

    method DataFromDB(fault: bool) returns (err: Option<Error>)
      requires Valid()
      modifies this`data
      ensures SessionId !in values ==> err == Some(SessionInvalid) && data == old(data)
      ensures SessionId in values ==>
                match Table.Get(cfg.cipher, store.rows, values[SessionId], fault)
                case Ok(found) => err == None && data == found
                case Err(NoRows) => err == Some(SessionNotFound) && data == ZERO_DATA
                case Err(cause) => err == Some(CannotRetrieveSessionData(cause)) && data == ZERO_DATA
    {
      if SessionId !in values {
        return Some(SessionInvalid);
      }
      var r := store.Get(values[SessionId], fault);
      if r.Err? {
        data := ZERO_DATA;
        return if r.error.NoRows? then Some(SessionNotFound) else Some(CannotRetrieveSessionData(r.error));
      }
      data := r.value;
      return None;
    }

    method SaveState(w: Response, state: string, age: int, fault: bool) returns (err: Option<Error>)
      requires w as object != this
      modifies this`values, this`maxAge, w
      ensures err == if fault then Some(CookieNotSaved) else None
      ensures w.headers == old(w.headers) + if fault then [] else [Cookie(WithState(old(values), state), age)]
      ensures values == WithState(old(values), state)
    {
      maxAge := age;
      values := values[State := state];
      err := WriteCookie(w, fault);
    }

    method SaveSession(w: Response, id: Id, fault: bool) returns (err: Option<Error>)
      requires w as object != this
      modifies this`values, this`maxAge, w
      ensures err == if fault then Some(CookieNotSaved) else None
      ensures w.headers == old(w.headers) +
                if fault then [] else [Cookie(WithSession(old(values), id), cfg.sessionTimeout)]
      ensures State !in values && SessionId in values && values[SessionId] == id
    {
      values := values - {State};
      values := values[SessionId := id];
      maxAge := cfg.sessionTimeout;
      err := WriteCookie(w, fault);
    }

    /** Stores a fresh row for the token's subject and names it in the cookie: steps
        CallbackInsert and CallbackCookie. */
    method Save(w: Response, token: Token, ghost response: string, cs: seq<Choice>, k: nat)
      returns (err: Option<Error>)
      requires Valid() && w as object != this && w as object != store && k + 2 <= |cs|
      modifies this`data, this`values, this`maxAge, store`rows, w
      ensures Valid()
      ensures token.idToken.None? ==>
                && err == Some(TokenInvalid) && data == ZERO_DATA
                && store.rows == old(store.rows) && w.headers == old(w.headers)
      ensures token.idToken.Some? ==> MadeOf(data, Some(token))
      ensures token.idToken.Some? ==>
                var first := CallbackInsert(old(values), response, data);
                Alone(cfg, Solo(old(store.rows), first, old(w.headers)), cs, k) ==
                Solo(store.rows, Finished(old(values), Ended(err, ToHome)), w.headers)
    {
      var made := NewData(token);
      if made.None? {
        data := ZERO_DATA;
        return Some(TokenInvalid);
      }
      data := made.value;
      ghost var solo := Solo(store.rows, CallbackInsert(values, response, data), w.headers);
      AloneStep(cfg, solo, cs, k);
      var added := store.Add(data, cs[k].id, cs[k].nonces, cs[k].fault);
      if added.Err? {
        return Some(StoreFailed(added.error));
      }
      AloneStep(cfg, SoloStep(cfg, solo, cs[k]), cs, k + 1);
      err := SaveSession(w, added.value, cs[k + 1].fault);
    }

    /** Overwrites the row of the session with the refreshed record: steps AuthCompare,
        AuthOverwrite and AuthCookie. */
    method Update(w: Response, token: Token, cs: seq<Choice>, k: nat)
      returns (err: Option<Error>)
      requires Valid() && w as object != this && w as object != store && k + 3 <= |cs|
      modifies this`data, this`values, this`maxAge, store`rows, w
      ensures Valid()
      ensures token.idToken.None? ==> err == Some(TokenInvalid) && data == ZERO_DATA
      ensures token.idToken.Some? ==> MadeOf(data, Some(token))
      ensures token.idToken.Some? && SessionId !in old(values) ==> err == Some(SessionInvalid)
      ensures token.idToken.None? || SessionId !in old(values) ==>
                store.rows == old(store.rows) && w.headers == old(w.headers)
      ensures token.idToken.Some? && SessionId in old(values) ==>
                var first := AuthCompare(old(values), old(values)[SessionId], data);
                Alone(cfg, Solo(old(store.rows), first, old(w.headers)), cs, k) ==
                Solo(store.rows, Finished(old(values), Ended(err, Next(data.accessToken))), w.headers)
    {
      var made := NewData(token);
      if made.None? {
        data := ZERO_DATA;
        return Some(TokenInvalid);
      }
      data := made.value;
      if SessionId !in values {
        return Some(SessionInvalid);
      }
      var id := values[SessionId];
      UpdateAlone(cfg, store.rows, values, id, data, w.headers, cs, k);
      var failed := store.Update(id, data, cs[k].fault, cs[k + 1].nonces, cs[k + 1].fault);
      if failed.Some? {
        return Some(StoreFailed(failed.value));
      }
      err := SaveSession(w, id, cs[k + 2].fault);
    }

    /** Deletes the row and expires the cookie, which keeps its values: steps LogoutDelete and
        LogoutCookie. */
    method Delete(w: Response, cs: seq<Choice>, k: nat) returns (err: Option<Error>)
      requires Valid() && w as object != this && w as object != store && k + 2 <= |cs|
      modifies this`maxAge, store`rows, w
      ensures Valid()
      ensures Alone(cfg, Solo(old(store.rows), LogoutDelete(values, data), old(w.headers)), cs, k)
              == Solo(store.rows, Finished(values, Ended(err, ToLogout(data.idToken))), w.headers)
    {
      ghost var solo := Solo(store.rows, LogoutDelete(values, data), w.headers);
      AloneStep(cfg, solo, cs, k);
      if SessionId !in values {
        return Some(SessionInvalid);
      }
      var failed := store.Delete(values[SessionId], cs[k].fault);
      if failed.Some? {
        return Some(StoreFailed(failed.value));
      }
      AloneStep(cfg, SoloStep(cfg, solo, cs[k]), cs, k + 1);
      maxAge := -1;
      err := WriteCookie(w, cs[k + 1].fault);
    }
  }

  class Manager {
    const store: Store
    const cfg: Config

    ghost predicate Valid()
      reads this, store
    {
      store.Valid() && cfg.cipher == store.cipher
    }

    constructor (store: Store, loginTimeout: int, sessionTimeout: int)
      requires store.Valid()
      ensures Valid() && this.store == store && cfg == Config(store.cipher, loginTimeout, sessionTimeout)
    {
      this.store, this.cfg := store, Config(store.cipher, loginTimeout, sessionTimeout);
    }

    method NewSession(incoming: Incoming) returns (session: Session?)
      requires Valid()
      ensures session == null <==> incoming.Undecodable?
      ensures session != null ==>
                && fresh(session) && session.store == store && session.cfg == cfg
                && session.values == Decoded(incoming) && session.data == ZERO_DATA
    {
      if incoming.Undecodable? {
        return null;
      }
      session := new Session(store, cfg, Decoded(incoming));
    }

    method GetSession(incoming: Incoming, fault: bool) returns (session: Session?, err: Option<Error>)
      requires Valid()
      ensures err.None? ==>
                && session != null && fresh(session) && session.store == store && session.cfg == cfg
                && session.values == Decoded(incoming)
                && Protocol.GetSession(cfg, store.rows, incoming, fault) == Ok(session.data)
      ensures err.Some? ==> Protocol.GetSession(cfg, store.rows, incoming, fault) == Err(err.value)
      ensures err == Some(CannotGetCookie) <==> incoming.Undecodable?
      ensures err == LoadError(store.Contents(), incoming, fault)
      ensures err.None? ==>
                var v := Decoded(incoming);
                session.data == if State in v then ZERO_DATA else store.Contents()[v[SessionId]]
    {
      GetSessionOnView(cfg, store.rows, incoming, fault);
      session := NewSession(incoming);
      if session == null {
        return null, Some(CannotGetCookie);
      }
      if State in session.values {
        return session, None;
      }
      err := session.DataFromDB(fault);
    }

    method Login(w: Response, incoming: Incoming, cs: seq<Choice>) returns (outcome: Outcome)
      requires Valid() && w as object != store && |cs| >= 1
      modifies w
      ensures Alone(cfg, Solo(store.rows, Protocol.Login(incoming), old(w.headers)), cs, 0)
              == Solo(store.rows, Finished(Decoded(incoming), outcome), w.headers)
      ensures outcome == if incoming.Undecodable? then Refused(CannotCreateCookie)
                         else if cs[0].fault then Refused(CookieNotSaved)
                         else ToLogin(cs[0].state)
      ensures w.headers == old(w.headers) +
                if outcome.Refused? then []
                else [Cookie(Decoded(incoming)[State := cs[0].state], cfg.loginTimeout)]
    {
      AloneStep(cfg, Solo(store.rows, Protocol.Login(incoming), w.headers), cs, 0);
      var session := NewSession(incoming);
      if session == null {
        return Refused(CannotCreateCookie);
      }
      var state := cs[0].state;
      var err := session.SaveState(w, state, cfg.loginTimeout, cs[0].fault);
      return Ended(err, ToLogin(state));
    }

    method Callback(w: Response, incoming: Incoming, response: string, cs: seq<Choice>) returns (outcome: Outcome)
      requires Valid() && w as object != store && |cs| >= 4
      modifies store`rows, w
      ensures Valid()
      ensures Alone(cfg, Solo(old(store.rows), CallbackLoad(incoming, response), old(w.headers)), cs, 0)
              == Solo(store.rows, Finished(Decoded(incoming), outcome), w.headers)
    {
      ghost var first := Solo(store.rows, CallbackLoad(incoming, response), w.headers);
      AloneStep(cfg, first, cs, 0);
      var session, err := GetSession(incoming, cs[0].fault);
      if err.Some? {
        return Refused(err.value);
      }
      if GetState(session.values) != response {
        return Refused(StateMismatch);
      }
      AloneStep(cfg, SoloStep(cfg, first, cs[0]), cs, 1);
      if cs[1].answer.None? {
        return Refused(ExchangeFailed);
      }
      var renewed := NewSession(incoming);
      if renewed == null || cs[1].fault {
        return Refused(CannotCreateCookie);
      }
      err := renewed.Save(w, cs[1].answer.value, response, cs, 2);
      return Ended(err, ToHome);
    }

    method Logout(w: Response, incoming: Incoming, cs: seq<Choice>) returns (outcome: Outcome)
      requires Valid() && w as object != store && |cs| >= 3
      modifies store`rows, w
      ensures Valid()
      ensures Alone(cfg, Solo(old(store.rows), LogoutLoad(incoming), old(w.headers)), cs, 0)
              == Solo(store.rows, Finished(Decoded(incoming), outcome), w.headers)
    {
      AloneStep(cfg, Solo(store.rows, LogoutLoad(incoming), w.headers), cs, 0);
      var session, err := GetSession(incoming, cs[0].fault);
      if err.Some? {
        return Refused(err.value);
      }
      err := session.Delete(w, cs, 1);
      return Ended(err, ToLogout(session.data.idToken));
    }

    /** AuthenticationMiddleware. Its case for ErrCannotGetCookie does not return, but GetSession
        wraps that error, so it always falls to the default case, which does. */
    method Authenticate(w: Response, incoming: Incoming, cs: seq<Choice>) returns (outcome: Outcome)
      requires Valid() && w as object != store && |cs| >= 6
      modifies store`rows, w
      ensures Valid()
      ensures Alone(cfg, Solo(old(store.rows), AuthLoad(incoming), old(w.headers)), cs, 0)
              == Solo(store.rows, Finished(Decoded(incoming), outcome), w.headers)
    {
      AuthAlone(cfg, store.rows, incoming, w.headers, cs);
      var session, err := GetSession(incoming, cs[0].fault);
      if err.Some? {
        return Refused(err.value);
      }
      ghost var renewed := CheckAlone(cfg, store.rows, session.values, session.data, w.headers, cs);
      if IsExpired(session.data, cs[1].now) {
        if session.data.refreshToken == "" || cs[2].answer.None? {
          return Refused(RefreshFailed);
        }
        err := session.Update(w, cs[2].answer.value, cs, 3);
        if err.Some? {
          return Refused(err.value);
        }
      }
      return Next(session.data.accessToken);
    }
  }
}
