/** The inductive invariant of the interleaved system. */
module Invariant {
  import opened Basics
  import opened Database
  import opened Table
  import opened Protocol
  import opened System

  // ---- what is true of every state

  /** The ids ever inserted are split between the table, the logouts and the purges. */
  ghost predicate Conserved(s: System) {
    && s.rows.Keys !! s.loggedOut !! s.purged
    && s.born.Keys == s.rows.Keys + s.loggedOut + s.purged
  }

  /** Each row reads back as one received record, of the subject the row was born with. */
  ghost predicate Coherent(cfg: Config, s: System) {
    && s.born.Keys == s.written.Keys
    && (forall id :: id in s.born ==>
          s.written[id] in s.received && s.written[id].subject == s.born[id].subject)
    && (forall id :: id in s.rows ==> id in s.born && Load(cfg.cipher, s.rows[id]) == Some(Stored(s.written[id])))
  }

  ghost predicate RowsOk(cfg: Config, s: System) {
    Conserved(s) && Coherent(cfg, s)
  }

  /** Every cookie holds a state or an id; the ids were inserted and the states generated. */
  ghost predicate CookiesOk(s: System) {
    && "" !in s.states
    && (forall id :: id in s.born ==> s.born[id].response == "" || s.born[id].response in s.states)
    && (forall v :: v in s.cookies ==> CookieOk(s, v))
  }

  ghost predicate CookieOk(s: System, v: Values) {
    && (SessionId in v || State in v)
    && (SessionId in v ==> v[SessionId] in s.born)
    && (State in v ==> v[State] in s.states)
  }

  /** A purge never runs ahead of the clock, and what is below the last one is backdated. */
  ghost predicate PurgesOk(s: System) {
    && s.now >= 0
    && (s.cleaner.Purging? ==> s.cleaner.instant <= s.now)
    && (s.lastPurge.Some? ==> s.lastPurge.value <= s.now)
    && (forall id :: id in s.rows ==>
          (id in s.backdated <==> s.lastPurge.Some? && s.rows[id].expiresAt < UnixSecond(s.lastPurge.value)))
  }

  /** `data` is, up to its fraction of a second, a received record of the subject of row `id`. */
  ghost predicate Genuine(s: System, id: Id, data: SessionData) {
    id in s.born && exists b :: b in s.received && Stored(b) == Stored(data) && b.subject == s.born[id].subject
  }

  ghost predicate GenuineToken(s: System, id: Id, token: string) {
    id in s.born && exists b :: b in s.received && b.accessToken == token && b.subject == s.born[id].subject
  }

  ghost predicate IncomingOk(s: System, incoming: Incoming) {
    incoming.Presented? ==> incoming.values in s.cookies
  }

  ghost predicate ValuesOk(s: System, v: Values) {
    v == map[] || v in s.cookies
  }

  /** The data GetSession returned for these values. */
  ghost predicate LoadedOk(s: System, v: Values, data: SessionData) {
    && v in s.cookies
    && if State in v then data == ZERO_DATA
       else SessionId in v && data == Stored(data) && Genuine(s, v[SessionId], data)
  }

  ghost predicate NamesOnly(v: Values, id: Id) {
    SessionId in v && v[SessionId] == id && State !in v
  }

  ghost predicate JobOk(s: System, job: Job) {
    match job
    case Login(incoming) => IncomingOk(s, incoming)
    case CallbackLoad(incoming, _) => IncomingOk(s, incoming)
    case CallbackExchange(incoming, response) =>
      IncomingOk(s, incoming) && response == GetState(Decoded(incoming))
    case CallbackInsert(values, response, data) =>
      ValuesOk(s, values) && response == GetState(values) && data in s.received
    case CallbackCookie(values, response, id) =>
      ValuesOk(s, values) && response == GetState(values) && id in s.born && s.born[id].response == response
    case LogoutLoad(incoming) => IncomingOk(s, incoming)
    case LogoutDelete(values, data) => LoadedOk(s, values, data)
    case LogoutCookie(values, data) => LoadedOk(s, values, data)
    case AuthLoad(incoming) => IncomingOk(s, incoming)
    case AuthCheck(values, data) => LoadedOk(s, values, data)
    case AuthRefresh(values, data) => LoadedOk(s, values, data)
    case AuthCompare(values, id, data) =>
      values in s.cookies && NamesOnly(values, id) && data in s.received && id in s.born
    case AuthOverwrite(values, id, data) =>
      values in s.cookies && NamesOnly(values, id) && data in s.received && Genuine(s, id, data)
    case AuthCookie(values, id, data) =>
      values in s.cookies && NamesOnly(values, id) && data in s.received && Genuine(s, id, data)
    case Finished(values, outcome) =>
      outcome.Next? ==>
        && values in s.cookies && State !in values && SessionId in values
        && GenuineToken(s, values[SessionId], outcome.accessToken)
  }

  ghost predicate JobsOk(s: System) {
    forall j :: j in s.jobs ==> JobOk(s, s.jobs[j])
  }

  ghost predicate Announced(s: System, id: Id) {
    exists v :: v in s.cookies && SessionId in v && v[SessionId] == id
  }

  /** The id a callback has inserted but not yet put in a cookie is its own secret. */
  ghost predicate PendingOk(s: System) {
    forall j :: j in s.jobs && s.jobs[j].CallbackCookie? ==>
      && !Announced(s, s.jobs[j].id)
      && (forall k :: k in s.jobs && k != j && s.jobs[k].CallbackCookie? ==> s.jobs[k].id != s.jobs[j].id)
  }

  ghost predicate Inv(cfg: Config, s: System) {
    RowsOk(cfg, s) && CookiesOk(s) && PurgesOk(s) && JobsOk(s) && PendingOk(s)
  }

  // ---- history only grows

  ghost predicate Grows(s: System, t: System) {
    && s.cookies <= t.cookies && s.states <= t.states && s.received <= t.received
    && forall id :: id in s.born ==> id in t.born && t.born[id] == s.born[id]
  }

  lemma JobOkGrows(s: System, t: System, job: Job)
    requires Grows(s, t) && JobOk(s, job)
    ensures JobOk(t, job)
  {
  }

  lemma RecordGrows(s: System, j: nat, e: Effect)
    requires e.note.Inserted? ==> e.note.id !in s.born
    ensures Grows(s, Record(s, j, e))
  {
  }

  // ---- the table

  ghost predicate TableOk(cfg: Config, s: System) {
    RowsOk(cfg, s) && CookiesOk(s) && PurgesOk(s)
  }

  /** What an effect must satisfy, besides its table, for the shared invariants to survive. */
  ghost predicate EffectOk(s: System, e: Effect) {
    match e.note
    case Silent => e.rows == s.rows && (e.cookie.Some? ==> CookieOk(s, e.cookie.value.values))
    case Received(_) => e.rows == s.rows && e.cookie.None?
    case Generated(state) =>
      e.rows == s.rows && state != "" &&
      (e.cookie.Some? ==> CookieOk(s.(states := s.states + {state}), e.cookie.value.values))
    case Inserted(id, data, response) =>
      && e.cookie.None? && id !in s.born && data in s.received && (response == "" || response in s.states)
      && id in e.rows && e.rows == s.rows[id := e.rows[id]]
    case Updated(id, data) =>
      && e.cookie.None? && id in s.born && data in s.received && data.subject == s.born[id].subject
      && if id in s.rows then id in e.rows && e.rows == s.rows[id := e.rows[id]] else e.rows == s.rows
    case Deleted(id) => e.cookie.None? && id in s.born && e.rows == s.rows - {id}
  }

  /** The row just written reads back as the record in the note. */
  ghost predicate WriteOk(cfg: Config, e: Effect) {
    (e.note.Inserted? || e.note.Updated?) && e.note.id in e.rows ==>
      && Load(cfg.cipher, e.rows[e.note.id]) == Some(Stored(e.note.data))
      && e.rows[e.note.id].expiresAt == UnixSecond(e.note.data.expiresAt)
  }

  lemma EffectConserves(s: System, j: nat, e: Effect)
    requires Conserved(s) && EffectOk(s, e)
    ensures Conserved(Record(s, j, e))
  {
  }

  lemma EffectKeepsCoherent(cfg: Config, s: System, j: nat, e: Effect)
    requires Coherent(cfg, s) && EffectOk(s, e) && WriteOk(cfg, e)
    ensures Coherent(cfg, Record(s, j, e))
  {
  }

  lemma EffectKeepsCookies(s: System, j: nat, e: Effect)
    requires CookiesOk(s) && EffectOk(s, e)
    ensures CookiesOk(Record(s, j, e))
  {
  }

  lemma EffectKeepsPurges(cfg: Config, s: System, j: nat, e: Effect)
    requires PurgesOk(s) && EffectOk(s, e) && WriteOk(cfg, e)
    ensures PurgesOk(Record(s, j, e))
  {
  }

  lemma PurgeKeepsRows(cfg: Config, s: System, fault: bool)
    requires Inv(cfg, s) && Legal(s, Purge(fault))
    ensures var t := Do(cfg, s, Purge(fault)); RowsOk(cfg, t) && CookiesOk(t) && PurgesOk(t)
  {
  }

  lemma InsertEffect(cfg: Config, s: System, values: Values, response: string, data: SessionData, c: Choice)
    requires Sound(cfg.cipher) && TableOk(cfg, s) && JobOk(s, CallbackInsert(values, response, data)) && c.id !in s.born
    ensures var e := InsertStep(cfg, s.rows, values, response, data, c); EffectOk(s, e) && WriteOk(cfg, e)
  {
    RowRoundTrip(cfg.cipher, data, c.nonces);
    assert values in s.cookies ==> CookieOk(s, values);
  }

  lemma OverwriteEffect(cfg: Config, s: System, values: Values, id: Id, data: SessionData, c: Choice)
    requires Sound(cfg.cipher) && TableOk(cfg, s) && JobOk(s, AuthOverwrite(values, id, data))
    ensures var e := OverwriteStep(cfg, s.rows, values, id, data, c); EffectOk(s, e) && WriteOk(cfg, e)
  {
    RowRoundTrip(cfg.cipher, data, c.nonces);
  }

  lemma LoginEffect(cfg: Config, s: System, incoming: Incoming, c: Choice)
    requires TableOk(cfg, s) && IncomingOk(s, incoming) && c.state != ""
    ensures var e := LoginStep(cfg, s.rows, incoming, c); EffectOk(s, e) && WriteOk(cfg, e)
  {
  }

  lemma EmitEffect(cfg: Config, s: System, values: Values, cookie: Cookie, outcome: Outcome, fault: bool)
    requires CookieOk(s, cookie.values)
    ensures var e := Emit(s.rows, values, cookie, outcome, fault); EffectOk(s, e) && WriteOk(cfg, e)
  {
  }

  lemma DeleteEffect(cfg: Config, s: System, values: Values, data: SessionData, c: Choice)
    requires TableOk(cfg, s) && values in s.cookies
    ensures var e := DeleteStep(s.rows, values, data, c); EffectOk(s, e) && WriteOk(cfg, e)
  {
  }

  /** The steps that only read the table. */
  predicate Reads(job: Job) {
    || job.CallbackLoad? || job.CallbackExchange? || job.LogoutLoad?
    || job.AuthLoad? || job.AuthCheck? || job.AuthRefresh? || job.AuthCompare? || job.Finished?
  }

  lemma ReadEffect(cfg: Config, s: System, job: Job, c: Choice)
    requires Reads(job)
    ensures var e := Step(cfg, s.rows, job, c);
            && EffectOk(s, e) && WriteOk(cfg, e)
            && e.rows == s.rows && e.cookie.None? && (e.note.Silent? || e.note.Received?) && !e.job.CallbackCookie?
  {
  }

  /** Every step of every handler has such an effect. */
  lemma StepEffect(cfg: Config, s: System, job: Job, c: Choice)
    requires Sound(cfg.cipher) && TableOk(cfg, s) && JobOk(s, job) && c.id !in s.born && c.state != ""
    ensures var e := Step(cfg, s.rows, job, c); EffectOk(s, e) && WriteOk(cfg, e)
  {
    match job
    case Login(incoming) => LoginEffect(cfg, s, incoming, c);
    case CallbackInsert(values, response, data) => InsertEffect(cfg, s, values, response, data, c);
    case CallbackCookie(values, response, id) =>
      EmitEffect(cfg, s, values, Cookie(WithSession(values, id), cfg.sessionTimeout), ToHome, c.fault);
    case LogoutDelete(values, data) => DeleteEffect(cfg, s, values, data, c);
    case LogoutCookie(values, data) => EmitEffect(cfg, s, values, Cookie(values, -1), ToLogout(data.idToken), c.fault);
    case AuthOverwrite(values, id, data) => OverwriteEffect(cfg, s, values, id, data, c);
    case AuthCookie(values, id, data) =>
      EmitEffect(cfg, s, values, Cookie(WithSession(values, id), cfg.sessionTimeout), Next(data.accessToken), c.fault);
    case _ => ReadEffect(cfg, s, job, c);
  }

  // ---- the requests

  /** What GetSession returns, when the cookie is one that was issued. */
  lemma GetSessionLoads(cfg: Config, s: System, incoming: Incoming, fault: bool)
    requires TableOk(cfg, s) && IncomingOk(s, incoming)
    ensures var r := GetSession(cfg, s.rows, incoming, fault);
            r.Ok? ==> incoming.Presented? && LoadedOk(s, incoming.values, r.value)
  {
  }

  /** The history in `t` has caught up with the effect. */
  ghost predicate Learns(t: System, e: Effect) {
    && (e.note.Received? ==> e.note.data in t.received)
    && (e.note.Inserted? ==> e.note.id in t.born && t.born[e.note.id].response == e.note.response)
  }

  lemma CallbackLoadKeepsJob(cfg: Config, s: System, t: System, incoming: Incoming, response: string, c: Choice)
    requires IncomingOk(s, incoming) && Grows(s, t)
    ensures JobOk(t, CallbackLoadStep(cfg, s.rows, incoming, response, c).job)
  {
  }

  lemma ExchangeKeepsJob(s: System, t: System, incoming: Incoming, response: string, c: Choice)
    requires JobOk(s, CallbackExchange(incoming, response)) && Grows(s, t)
    requires Learns(t, ExchangeStep(s.rows, incoming, response, c))
    ensures JobOk(t, ExchangeStep(s.rows, incoming, response, c).job)
  {
  }

  lemma InsertKeepsJob(cfg: Config, s: System, t: System, values: Values, response: string, data: SessionData,
                       c: Choice)
    requires JobOk(s, CallbackInsert(values, response, data)) && Grows(s, t)
    requires Learns(t, InsertStep(cfg, s.rows, values, response, data, c))
    ensures JobOk(t, InsertStep(cfg, s.rows, values, response, data, c).job)
  {
  }

  lemma LogoutLoadKeepsJob(cfg: Config, s: System, t: System, incoming: Incoming, c: Choice)
    requires TableOk(cfg, s) && IncomingOk(s, incoming) && Grows(s, t)
    ensures JobOk(t, LogoutLoadStep(cfg, s.rows, incoming, c).job)
  {
    GetSessionLoads(cfg, s, incoming, c.fault);
    JobOkGrows(s, t, LogoutLoadStep(cfg, s.rows, incoming, c).job);
  }

  lemma AuthLoadKeepsJob(cfg: Config, s: System, t: System, incoming: Incoming, c: Choice)
    requires TableOk(cfg, s) && IncomingOk(s, incoming) && Grows(s, t)
    ensures JobOk(t, AuthLoadStep(cfg, s.rows, incoming, c).job)
  {
    GetSessionLoads(cfg, s, incoming, c.fault);
    JobOkGrows(s, t, AuthLoadStep(cfg, s.rows, incoming, c).job);
  }

  lemma DeleteKeepsJob(s: System, t: System, values: Values, data: SessionData, c: Choice)
    requires LoadedOk(s, values, data) && Grows(s, t)
    ensures JobOk(t, DeleteStep(s.rows, values, data, c).job)
  {
  }

  /** The zero data of a pending login counts as expired, so the branch that serves loaded data
      has a genuine record. */
  lemma CheckKeepsJob(s: System, t: System, values: Values, data: SessionData, c: Choice)
    requires LoadedOk(s, values, data) && Grows(s, t) && c.now >= 0
    ensures JobOk(t, CheckStep(s.rows, values, data, c).job)
  {
  }

  /** The zero data of a pending login has no refresh token. */
  lemma RefreshKeepsJob(s: System, t: System, values: Values, data: SessionData, c: Choice)
    requires LoadedOk(s, values, data) && Grows(s, t)
    requires Learns(t, RefreshStep(s.rows, values, data, c))
    ensures JobOk(t, RefreshStep(s.rows, values, data, c).job)
  {
  }

  lemma CompareKeepsJob(cfg: Config, s: System, t: System, values: Values, id: Id, data: SessionData, c: Choice)
    requires TableOk(cfg, s) && JobOk(s, AuthCompare(values, id, data)) && Grows(s, t)
    ensures JobOk(t, CompareStep(cfg, s.rows, values, id, data, c).job)
  {
  }

  lemma OverwriteKeepsJob(cfg: Config, s: System, t: System, values: Values, id: Id, data: SessionData, c: Choice)
    requires JobOk(s, AuthOverwrite(values, id, data)) && Grows(s, t)
    ensures JobOk(t, OverwriteStep(cfg, s.rows, values, id, data, c).job)
  {
  }

  lemma CookieKeepsJob(s: System, t: System, values: Values, id: Id, data: SessionData, cookie: Cookie, fault: bool)
    requires JobOk(s, AuthCookie(values, id, data)) && Grows(s, t)
    ensures JobOk(t, Emit(s.rows, values, cookie, Next(data.accessToken), fault).job)
  {
  }

  predicate Authenticates(job: Job) {
    job.AuthLoad? || job.AuthCheck? || job.AuthRefresh? || job.AuthCompare? || job.AuthOverwrite? || job.AuthCookie?
  }

  lemma AuthStepKeepsJob(cfg: Config, s: System, t: System, job: Job, c: Choice)
    requires TableOk(cfg, s) && JobOk(s, job) && Grows(s, t) && c.now == s.now
    requires Learns(t, Step(cfg, s.rows, job, c)) && Authenticates(job)
    ensures JobOk(t, Step(cfg, s.rows, job, c).job)
  {
    match job
    case AuthLoad(incoming) => AuthLoadKeepsJob(cfg, s, t, incoming, c);
    case AuthCheck(values, data) => CheckKeepsJob(s, t, values, data, c);
    case AuthRefresh(values, data) => RefreshKeepsJob(s, t, values, data, c);
    case AuthCompare(values, id, data) => CompareKeepsJob(cfg, s, t, values, id, data, c);
    case AuthOverwrite(values, id, data) => OverwriteKeepsJob(cfg, s, t, values, id, data, c);
    case AuthCookie(values, id, data) =>
      CookieKeepsJob(s, t, values, id, data, Cookie(WithSession(values, id), cfg.sessionTimeout), c.fault);
  }

  /** No claim is made of a finished request unless it was served. */
  lemma EmitKeepsJob(t: System, rows: Rows, values: Values, cookie: Cookie, outcome: Outcome, fault: bool)
    requires !outcome.Next?
    ensures JobOk(t, Emit(rows, values, cookie, outcome, fault).job)
  {
  }

  lemma LogoutStepKeepsJob(cfg: Config, s: System, t: System, job: Job, c: Choice)
    requires TableOk(cfg, s) && JobOk(s, job) && Grows(s, t)
    requires job.LogoutLoad? || job.LogoutDelete? || job.LogoutCookie?
    ensures JobOk(t, Step(cfg, s.rows, job, c).job)
  {
    match job
    case LogoutLoad(incoming) => LogoutLoadKeepsJob(cfg, s, t, incoming, c);
    case LogoutDelete(values, data) => DeleteKeepsJob(s, t, values, data, c);
    case LogoutCookie(values, data) =>
      EmitKeepsJob(t, s.rows, values, Cookie(values, -1), ToLogout(data.idToken), c.fault);
  }

  lemma LoginStepKeepsJob(cfg: Config, s: System, t: System, job: Job, c: Choice)
    requires JobOk(s, job) && Grows(s, t) && Learns(t, Step(cfg, s.rows, job, c))
    requires job.Login? || job.CallbackLoad? || job.CallbackExchange? || job.CallbackInsert? || job.CallbackCookie?
    ensures JobOk(t, Step(cfg, s.rows, job, c).job)
  {
    match job
    case Login(_) =>
    case CallbackLoad(incoming, response) => CallbackLoadKeepsJob(cfg, s, t, incoming, response, c);
    case CallbackExchange(incoming, response) => ExchangeKeepsJob(s, t, incoming, response, c);
    case CallbackInsert(values, response, data) => InsertKeepsJob(cfg, s, t, values, response, data, c);
    case CallbackCookie(values, _, id) =>
      EmitKeepsJob(t, s.rows, values, Cookie(WithSession(values, id), cfg.sessionTimeout), ToHome, c.fault);
  }

  lemma StepKeepsJob(cfg: Config, s: System, t: System, job: Job, c: Choice)
    requires TableOk(cfg, s) && JobOk(s, job) && Grows(s, t) && c.now == s.now
    requires Learns(t, Step(cfg, s.rows, job, c))
    ensures JobOk(t, Step(cfg, s.rows, job, c).job)
  {
    if Authenticates(job) {
      AuthStepKeepsJob(cfg, s, t, job, c);
    } else if job.Finished? {
      JobOkGrows(s, t, job);
    } else if job.LogoutLoad? || job.LogoutDelete? || job.LogoutCookie? {
      LogoutStepKeepsJob(cfg, s, t, job, c);
    } else {
      LoginStepKeepsJob(cfg, s, t, job, c);
    }
  }

  /** The id in a cookie is that of an earlier cookie, or the one this callback inserted. */
  ghost predicate NamesOk(s: System, job: Job, e: Effect) {
    e.cookie.Some? && SessionId in e.cookie.value.values ==>
      var id := e.cookie.value.values[SessionId];
      Announced(s, id) || (job.CallbackCookie? && job.id == id && !e.job.CallbackCookie?)
  }

  lemma StepNames(cfg: Config, s: System, job: Job, c: Choice)
    requires JobOk(s, job)
    ensures var e := Step(cfg, s.rows, job, c);
            NamesOk(s, job, e) && (e.job.CallbackCookie? ==> e.job.id == c.id && e.cookie.None?)
  {
  }

  lemma RecordKeepsPending(s: System, j: nat, e: Effect, id: Id)
    requires PendingOk(s) && CookiesOk(s) && JobsOk(s) && j in s.jobs && id !in s.born
    requires NamesOk(s, s.jobs[j], e)
    requires e.job.CallbackCookie? ==> e.job.id == id && e.cookie.None?
    ensures PendingOk(Record(s, j, e))
  {
  }

  // ---- the invariant

  lemma InitInv(cfg: Config, s: System)
    requires Init(s)
    ensures Inv(cfg, s)
  {
  }

  lemma PerformEffect(cfg: Config, s: System, j: nat, c: Choice)
    requires Sound(cfg.cipher) && Inv(cfg, s) && Legal(s, Perform(j, c))
    ensures var e := Step(cfg, s.rows, s.jobs[j], c); EffectOk(s, e) && WriteOk(cfg, e)
  {
    assert JobOk(s, s.jobs[j]);
    StepEffect(cfg, s, s.jobs[j], c);
  }

  lemma PerformKeepsInv(cfg: Config, s: System, j: nat, c: Choice)
    requires Sound(cfg.cipher) && Inv(cfg, s) && Legal(s, Perform(j, c))
    ensures Inv(cfg, Do(cfg, s, Perform(j, c)))
  {
    PerformEffect(cfg, s, j, c);
    assert JobOk(s, s.jobs[j]);
    StepNames(cfg, s, s.jobs[j], c);
    EffectKeepsInv(cfg, s, j, c, Step(cfg, s.rows, s.jobs[j], c));
  }

  lemma EffectKeepsInv(cfg: Config, s: System, j: nat, c: Choice, e: Effect)
    requires Inv(cfg, s) && Legal(s, Perform(j, c)) && e == Step(cfg, s.rows, s.jobs[j], c)
    requires EffectOk(s, e) && WriteOk(cfg, e) && NamesOk(s, s.jobs[j], e)
    requires e.job.CallbackCookie? ==> e.job.id == c.id && e.cookie.None?
    ensures Inv(cfg, Record(s, j, e))
  {
    var t := Record(s, j, e);
    EffectConserves(s, j, e);
    EffectKeepsCoherent(cfg, s, j, e);
    EffectKeepsCookies(s, j, e);
    EffectKeepsPurges(cfg, s, j, e);
    RecordGrows(s, j, e);
    RecordKeepsPending(s, j, e, c.id);
    assert JobOk(s, s.jobs[j]);
    StepKeepsJob(cfg, s, t, s.jobs[j], c);
    forall k | k in t.jobs ensures JobOk(t, t.jobs[k]) {
      if k != j { JobOkGrows(s, t, s.jobs[k]); }
    }
  }

  lemma OtherKeepsInv(cfg: Config, s: System, a: Action)
    requires Inv(cfg, s) && Legal(s, a) && !a.Perform? && !a.Purge?
    ensures Inv(cfg, Do(cfg, s, a))
  {
    var t := Do(cfg, s, a);
    forall k | k in t.jobs ensures JobOk(t, t.jobs[k]) {
      if k in s.jobs { JobOkGrows(s, t, s.jobs[k]); }
    }
  }

  lemma PurgeKeepsInv(cfg: Config, s: System, fault: bool)
    requires Inv(cfg, s) && Legal(s, Purge(fault))
    ensures Inv(cfg, Do(cfg, s, Purge(fault)))
  {
    var t := Do(cfg, s, Purge(fault));
    PurgeKeepsRows(cfg, s, fault);
    forall k | k in t.jobs ensures JobOk(t, t.jobs[k]) {
      JobOkGrows(s, t, s.jobs[k]);
    }
  }

  lemma ActionKeepsInv(cfg: Config, s: System, a: Action)
    requires Sound(cfg.cipher) && Inv(cfg, s) && Legal(s, a)
    ensures Inv(cfg, Do(cfg, s, a))
  {
    match a
    case Perform(j, c) => PerformKeepsInv(cfg, s, j, c);
    case Purge(fault) => PurgeKeepsInv(cfg, s, fault);
    case _ => OtherKeepsInv(cfg, s, a);
  }

  lemma {:induction false} RunInv(cfg: Config, run: Run, i: nat)
    requires Sound(cfg.cipher) && IsRun(cfg, run) && i < |run.states|
    ensures Inv(cfg, run.states[i])
    decreases i
  {
    if i == 0 {
      InitInv(cfg, run.states[0]);
    } else {
      RunInv(cfg, run, i - 1);
      assert StepAt(cfg, run, i - 1);
      ActionKeepsInv(cfg, run.states[i - 1], run.actions[i - 1]);
    }
  }
}
