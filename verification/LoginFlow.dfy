/** Cookies and the login protocol over whole runs. */
module LoginFlow {
  import opened Basics
  import opened Database
  import opened Table
  import opened Protocol
  import opened System
  import opened Invariant
  import opened Histories
  import opened Uninterrupted

  /** Every cookie ever issued holds a state some login generated or the id of a row some
      callback inserted. */
  lemma IssuedCookies(cfg: Config, run: Run, i: nat, v: Values)
    requires Sound(cfg.cipher) && IsRun(cfg, run) && i < |run.states| && v in run.states[i].cookies
    ensures SessionId in v || State in v
    ensures State in v ==> v[State] != "" && GeneratedBefore(cfg, run, i, v[State])
    ensures SessionId in v ==>
              exists data, response :: InsertedBefore(cfg, run, i, v[SessionId], data, response)
  {
    RunInv(cfg, run, i);
    assert CookieOk(run.states[i], v);
    if State in v { StateExplained(cfg, run, i, v[State]); }
    if SessionId in v { var _ := BirthExplained(cfg, run, i, v[SessionId]); }
  }

  /** GetSession finds no session id only in a request that brought no session cookie. */
  lemma SessionInvalidMeansNoCookie(cfg: Config, run: Run, i: nat, incoming: Incoming, fault: bool)
    requires Sound(cfg.cipher) && IsRun(cfg, run) && i < |run.states| && IncomingOk(run.states[i], incoming)
    ensures GetSession(cfg, run.states[i].rows, incoming, fault) == Err(SessionInvalid) <==> incoming.NoCookie?
  {
    RunInv(cfg, run, i);
    if incoming.Presented? { assert CookieOk(run.states[i], incoming.values); }
  }

  /** When a callback's state check lets it go on, for any cookie that was issued. With an empty
      response value the check proves nothing: any readable session without a state passes. */
  lemma StateCheck(cfg: Config, run: Run, i: nat, incoming: Incoming, response: string, c: Choice)
    requires Sound(cfg.cipher) && IsRun(cfg, run) && i < |run.states| && IncomingOk(run.states[i], incoming)
    ensures CallbackLoadStep(cfg, run.states[i].rows, incoming, response, c).job.CallbackExchange? <==>
              && incoming.Presented?
              && if response != "" then State in incoming.values && incoming.values[State] == response
                 else && State !in incoming.values && SessionId in incoming.values
                      && incoming.values[SessionId] in run.states[i].rows && !c.fault
  {
    RunInv(cfg, run, i);
    var s := run.states[i];
    if incoming.Presented? {
      var v := incoming.values;
      assert CookieOk(s, v);
      if SessionId in v && v[SessionId] in s.rows {
        assert Load(cfg.cipher, s.rows[v[SessionId]]).Some?;
      }
    }
  }

  /** A row inserted by a callback goes back to an earlier login that generated the state the
      callback was answered with: exactly when that answer was not empty. */
  lemma InsertTracesToLogin(cfg: Config, run: Run, k: nat)
    requires Sound(cfg.cipher) && IsRun(cfg, run) && k < |run.actions| && NoteAt(cfg, run, k).Inserted?
    ensures GeneratedBefore(cfg, run, k, NoteAt(cfg, run, k).response) <==> NoteAt(cfg, run, k).response != ""
    ensures ReceivedBefore(cfg, run, k, NoteAt(cfg, run, k).data)
  {
    StepOfRun(cfg, run, k);
    var note := NoteAt(cfg, run, k);
    ReceivedExplained(cfg, run, k, note.data);
    if note.response != "" {
      StateExplained(cfg, run, k, note.response);
    } else if GeneratedBefore(cfg, run, k, "") {
      var m :| 0 <= m < k && NoteAt(cfg, run, m) == Generated("");
      GeneratedIsNotEmpty(cfg, run, m);
    }
  }

  lemma GeneratedIsNotEmpty(cfg: Config, run: Run, m: nat)
    requires Sound(cfg.cipher) && IsRun(cfg, run) && m < |run.actions| && NoteAt(cfg, run, m).Generated?
    ensures NoteAt(cfg, run, m).state != ""
  {
    StepOfRun(cfg, run, m);
  }

  /** What each kind of answer does to the cookie. A login keeps the id and adds the state it
      redirects with; a logout keeps everything but expires the cookie; a callback and a
      refresh leave the id alone in it; a refusal writes none. Nothing but a request served
      straight from its loaded data succeeds without one. */
  ghost predicate CookieFits(cfg: Config, s: System, job: Job, e: Effect) {
    && var v := Carried(job);
    && (!job.Finished? && !job.AuthCheck? && e.job.Finished? && !e.job.outcome.Refused? ==> e.cookie.Some?)
    && (e.cookie.Some? ==>
        && e.job.Finished?
        && var c := e.cookie.value;
           match e.job.outcome
           case ToLogin(state) => c.maxAge == cfg.loginTimeout && c.values == v[State := state] && state != ""
           case ToLogout(_) => c.maxAge == -1 && c.values == v && v in s.cookies
           case Next(_) => c.maxAge == cfg.sessionTimeout && c.values == v && v in s.cookies && v.Keys == {SessionId}
           case ToHome => c.maxAge == cfg.sessionTimeout && c.values.Keys == {SessionId}
           case Refused(_) => false)
  }

  lemma StepCookieFits(cfg: Config, s: System, job: Job, c: Choice)
    requires JobOk(s, job) && c.state != ""
    ensures CookieFits(cfg, s, job, Step(cfg, s.rows, job, c))
  {
    match job
    case Login(_) =>
    case CallbackCookie(values, _, id) => OnlyTwoKeys(values, id);
    case LogoutCookie(_, _) =>
    case AuthCookie(values, id, _) =>
      OnlyTwoKeys(values, id);
      SingleValue(values, id);
    case _ =>
  }

  lemma CookieByOutcome(cfg: Config, run: Run, k: nat)
    requires Sound(cfg.cipher) && IsRun(cfg, run) && k < |run.actions| && run.actions[k].Perform?
    requires run.actions[k].j in run.states[k].jobs
    ensures var s, a := run.states[k], run.actions[k];
            CookieFits(cfg, s, s.jobs[a.j], Step(cfg, s.rows, s.jobs[a.j], a.choice))
  {
    RunInv(cfg, run, k);
    assert StepAt(cfg, run, k);
    assert JobOk(run.states[k], run.states[k].jobs[run.actions[k].j]);
    StepCookieFits(cfg, run.states[k], run.states[k].jobs[run.actions[k].j], run.actions[k].choice);
  }

  lemma SingleValue(v: Values, id: Id)
    requires SessionId in v && v[SessionId] == id && State !in v
    ensures v == map[SessionId := id]
  {
    OnlyTwoKeys(v, id);
    assert WithSession(v, id) == v;
  }

  /** The cookie a callback issues names the row it inserted, an id no cookie issued before
      names, and holds no state, whatever the incoming cookie held. */
  lemma CallbackRenewsId(cfg: Config, run: Run, k: nat)
    requires Sound(cfg.cipher) && IsRun(cfg, run) && k < |run.actions| && run.actions[k].Perform?
    requires run.actions[k].j in run.states[k].jobs && run.states[k].jobs[run.actions[k].j].CallbackCookie?
    ensures var s, a := run.states[k], run.actions[k];
            var e := Step(cfg, s.rows, s.jobs[a.j], a.choice);
            e.cookie.Some? ==>
              && e.cookie.value.maxAge == cfg.sessionTimeout
              && e.cookie.value.values == map[SessionId := s.jobs[a.j].id]
              && s.jobs[a.j].id in s.born
              && forall v :: v in s.cookies && SessionId in v ==> v[SessionId] != s.jobs[a.j].id
  {
    RunInv(cfg, run, k);
    var s, a := run.states[k], run.actions[k];
    assert JobOk(s, s.jobs[a.j]);
    assert !Announced(s, s.jobs[a.j].id);
    OnlyTwoKeys(s.jobs[a.j].values, s.jobs[a.j].id);
  }
}
