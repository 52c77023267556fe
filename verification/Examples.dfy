/** Concrete runs: the exceptions that the theorems leave open do happen. */
module Examples {
  import opened Basics
  import opened Database
  import opened Table
  import opened Protocol
  import opened System
  import opened Histories
  import opened Lifecycle
  import opened Provenance

  const CONFIG: Config := Config(None, 300, 1800)

  const DATA: SessionData := SessionData("alice", "access", "refresh", "id", SECOND)

  const TOKEN: Token := Token("access", "refresh", SECOND, Some(IdToken("alice", "id")))

  /** A step without failures. */
  function Pick(now: Instant, id: Id, answer: Token): Choice {
    Choice(now, false, Nonces(0, 0, 0), Some(answer), id, "s")
  }

  function Last(run: Run): System
    requires run.states != []
  {
    run.states[|run.states| - 1]
  }

  lemma Extend(run: Run, a: Action) returns (next: Run)
    requires IsRun(CONFIG, run) && Legal(Last(run), a)
    ensures IsRun(CONFIG, next) && next.actions == run.actions + [a]
    ensures next.states == run.states + [Do(CONFIG, Last(run), a)]
  {
    next := Run(run.states + [Do(CONFIG, Last(run), a)], run.actions + [a]);
    forall i | 0 <= i < |next.actions| ensures StepAt(CONFIG, next, i) {
      if i < |run.actions| { assert StepAt(CONFIG, run, i); }
    }
  }

  lemma Arrives(run: Run, j: nat, job: Job) returns (next: Run)
    requires IsRun(CONFIG, run) && Legal(Last(run), Arrive(j, job))
    ensures IsRun(CONFIG, next) && Last(next) == Last(run).(jobs := Last(run).jobs[j := job])
  {
    next := Extend(run, Arrive(j, job));
  }

  lemma Steps(run: Run, j: nat, id: Id, answer: Token) returns (next: Run, e: Effect)
    requires IsRun(CONFIG, run) && Legal(Last(run), Perform(j, Pick(Last(run).now, id, answer)))
    ensures e == Step(CONFIG, Last(run).rows, Last(run).jobs[j], Pick(Last(run).now, id, answer))
    ensures IsRun(CONFIG, next) && Last(next) == Record(Last(run), j, e)
    ensures NoteAt(CONFIG, next, |next.actions| - 1) == e.note
    ensures next.states == run.states + [Last(next)]
    ensures next.actions == run.actions + [Perform(j, Pick(Last(run).now, id, answer))]
  {
    e := Step(CONFIG, Last(run).rows, Last(run).jobs[j], Pick(Last(run).now, id, answer));
    next := Extend(run, Perform(j, Pick(Last(run).now, id, answer)));
  }

  /** The clock advances and the cleaner purges. */
  lemma Purges(run: Run, now: Instant) returns (next: Run)
    requires IsRun(CONFIG, run) && now >= Last(run).now && Last(run).cleaner.Idle?
    ensures IsRun(CONFIG, next) && |next.actions| > 0 && next.actions[|next.actions| - 1] == Purge(false)
    ensures next.states[|next.actions| - 1] == Last(run).(now := now, cleaner := Purging(now))
    ensures Last(next) == Sweep(Last(run).(now := now, cleaner := Purging(now)), now, false)
  {
    next := Extend(run, Advance(now));
    next := Extend(next, ReadClock);
    next := Extend(next, Purge(false));
  }

  /** A state of which only these parts matter. */
  ghost predicate Shape(s: System, now: Instant, rows: Rows, jobs: map<nat, Job>, cookies: set<Values>) {
    && s.now == now && s.rows == rows && s.jobs == jobs && s.cookies == cookies
    && s.born.Keys == rows.Keys && s.loggedOut == {}
  }

  predicate SameCleaner(s: System, t: System) {
    s.cleaner == t.cleaner && s.lastPurge == t.lastPurge
  }

  lemma Begin() returns (run: Run)
    ensures IsRun(CONFIG, run) && Shape(Last(run), 0, map[], map[], {}) && Last(run).cleaner.Idle?
  {
    run := Run([System(map[], 0, map[], Idle, {}, map[], {}, {}, {}, {}, map[], None, {})], []);
  }

  lemma LoggingIn(run: Run, now: Instant) returns (next: Run, job: Job)
    requires IsRun(CONFIG, run) && Shape(Last(run), now, map[], map[], {})
    ensures IsRun(CONFIG, next) && job.Finished? && SameCleaner(Last(run), Last(next))
    ensures Shape(Last(next), now, map[], map[0 := job], {STATE_COOKIE})
  {
    next := Arrives(run, 0, Login(NoCookie));
    var e;
    next, e := Steps(next, 0, "", TOKEN);
    job := e.job;
  }

  /** A callback whose state check passes goes on to insert its row. */
  lemma CallbackInserts(run: Run, now: Instant, j: nat, v: Values, response: string, id: Id,
                        jobs: map<nat, Job>, rows: Rows, cookies: set<Values>)
    returns (next: Run)
    requires IsRun(CONFIG, run) && Shape(Last(run), now, rows, jobs, cookies)
    requires j in jobs && jobs[j] == CallbackLoad(Presented(v), response) && id !in rows
    requires GetSession(CONFIG, rows, Presented(v), false).Ok? && GetState(v) == response
    ensures IsRun(CONFIG, next) && |next.actions| > 0
    ensures NoteAt(CONFIG, next, |next.actions| - 1) == Inserted(id, DATA, response)
    ensures next.states[|next.actions| - 1].now == now
    ensures SameCleaner(Last(run), next.states[|next.actions| - 1]) && SameCleaner(Last(run), Last(next))
    ensures Shape(Last(next), now, rows[id := ToRow(DATA)], jobs[j := CallbackCookie(v, response, id)], cookies)
  {
    var e;
    next, e := Steps(run, j, id, TOKEN);
    assert Shape(Last(next), now, rows, jobs[j := CallbackExchange(Presented(v), response)], cookies);
    next, e := Steps(next, j, id, TOKEN);
    assert NewData(TOKEN) == Some(DATA);
    assert Shape(Last(next), now, rows, jobs[j := CallbackInsert(v, response, DATA)], cookies);
    next, e := Steps(next, j, id, TOKEN);
  }

  const STATE_COOKIE: Values := map[State := "s"]

  const SESSION_COOKIE: Values := map[SessionId := "a"]

  const COOKIES: set<Values> := {STATE_COOKIE, SESSION_COOKIE}

  const ROWS: Rows := map["a" := ToRow(DATA)]

  /** The callback that follows the login inserts row "a". */
  lemma Inserting(run: Run, now: Instant) returns (next: Run, jobs: map<nat, Job>)
    requires IsRun(CONFIG, run) && Shape(Last(run), now, map[], map[], {})
    ensures IsRun(CONFIG, next) && |next.actions| > 0
    ensures NoteAt(CONFIG, next, |next.actions| - 1) == Inserted("a", DATA, "s")
    ensures next.states[|next.actions| - 1].now == now
    ensures SameCleaner(Last(run), next.states[|next.actions| - 1]) && SameCleaner(Last(run), Last(next))
    ensures Shape(Last(next), now, ROWS, jobs, {STATE_COOKIE})
    ensures jobs.Keys == {0, 1} && jobs[1] == CallbackCookie(STATE_COOKIE, "s", "a")
  {
    var job;
    next, job := LoggingIn(run, now);
    jobs := map[0 := job, 1 := CallbackLoad(Presented(STATE_COOKIE), "s")];
    next := Arrives(next, 1, jobs[1]);
    next := CallbackInserts(next, now, 1, STATE_COOKIE, "s", "a", jobs, map[], {STATE_COOKIE});
    jobs := jobs[1 := CallbackCookie(STATE_COOKIE, "s", "a")];
  }

  /** Logged in: row "a" is live, and its cookie has been issued. */
  lemma LoggedIn() returns (run: Run, jobs: map<nat, Job>)
    ensures IsRun(CONFIG, run) && Shape(Last(run), 0, ROWS, jobs, COOKIES)
    ensures jobs.Keys == {0, 1} && Last(run).cleaner.Idle?
  {
    run := Begin();
    run, jobs := Inserting(run, 0);
    var e;
    run, e := Steps(run, 1, "b", TOKEN);
    assert WithSession(STATE_COOKIE, "a") == SESSION_COOKIE;
    jobs := jobs[1 := e.job];
  }

  /** A row inserted with no login behind it: with an empty response value, a session cookie
      without a state passes the callback's check. */
  lemma InsertionWithoutLogin() returns (run: Run, k: nat)
    ensures IsRun(CONFIG, run) && k < |run.actions| && NoteAt(CONFIG, run, k) == Inserted("b", DATA, "")
  {
    var jobs;
    run, jobs := LoggedIn();
    var job := CallbackLoad(Presented(SESSION_COOKIE), "");
    run := Arrives(run, 2, job);
    run := CallbackInserts(run, 0, 2, SESSION_COOKIE, "", "b", jobs[2 := job], ROWS, COOKIES);
    k := |run.actions| - 1;
  }

  /** A request served after the logout of its session: it had loaded the row before. */
  lemma ServedAfterLogout() returns (run: Run)
    ensures IsRun(CONFIG, run)
    ensures var s := Last(run);
            && "a" !in s.rows && s.loggedOut == {"a"}
            && 2 in s.jobs && s.jobs[2] == Finished(SESSION_COOKIE, Next("access"))
  {
    var jobs, e;
    run, jobs := LoggedIn();
    run := Arrives(run, 2, AuthLoad(Presented(SESSION_COOKIE)));
    run, e := Steps(run, 2, "b", TOKEN);
    assert e == Go(ROWS, AuthCheck(SESSION_COOKIE, DATA));
    run := LogsOut(run, jobs[2 := e.job]);
    run, e := Steps(run, 2, "b", TOKEN);
  }

  lemma LogsOut(run: Run, jobs: map<nat, Job>) returns (next: Run)
    requires IsRun(CONFIG, run) && Shape(Last(run), 0, ROWS, jobs, COOKIES) && 3 !in jobs
    ensures IsRun(CONFIG, next) && Last(next).loggedOut == {"a"} && Last(next).now == 0
    ensures Last(next).rows == map[] && Last(next).born == Last(run).born
    ensures forall j | j in jobs :: j in Last(next).jobs && Last(next).jobs[j] == jobs[j]
  {
    var e;
    next := Arrives(run, 3, LogoutLoad(Presented(SESSION_COOKIE)));
    next, e := Steps(next, 3, "b", TOKEN);
    assert e == Go(ROWS, LogoutDelete(SESSION_COOKIE, DATA));
    next := Deletes(next, jobs[3 := e.job]);
  }

  lemma Deletes(run: Run, jobs: map<nat, Job>) returns (next: Run)
    requires IsRun(CONFIG, run) && Shape(Last(run), 0, ROWS, jobs, COOKIES)
    requires 3 in jobs && jobs[3] == LogoutDelete(SESSION_COOKIE, DATA)
    ensures IsRun(CONFIG, next) && Last(next).loggedOut == {"a"} && Last(next).now == 0
    ensures Last(next).rows == map[] && Last(next).born == Last(run).born
    ensures Last(next).jobs == jobs[3 := LogoutCookie(SESSION_COOKIE, DATA)]
  {
    var e;
    next, e := Steps(run, 3, "b", TOKEN);
    assert e.rows == map[];
  }

  // ---- purges

  /** Three seconds after the login a purge removes a row that has a refresh token and whose
      cookie was issued to last half an hour. */
  lemma PurgedDespiteRefreshToken() returns (run: Run, k: nat)
    ensures IsRun(CONFIG, run) && k < |run.actions| && run.actions[k] == Purge(false)
    ensures var s, t := run.states[k], run.states[k + 1];
            && "a" in s.rows && s.rows["a"].refreshToken == "refresh" && s.now == 3 * SECOND
            && SESSION_COOKIE in s.cookies && CONFIG.sessionTimeout == 1800
            && "a" !in t.rows && "a" in t.purged
  {
    var jobs;
    run, jobs := LoggedIn();
    run := Purges(run, 3 * SECOND);
    k := |run.actions| - 1;
  }

  /** A row that is below the last purge from its insertion on: the provider's answer had
      already expired then. */
  lemma LateRow() returns (run: Run, k: nat)
    ensures IsRun(CONFIG, run) && "a" in Last(run).rows && Last(run).lastPurge == Some(5 * SECOND)
    ensures LastWrite(CONFIG, run, |run.actions|, "a", k) && !PurgedSince(run, k, |run.actions|)
    ensures Below(NoteAt(CONFIG, run, k).data.expiresAt, run.states[k].lastPurge)
    ensures Load(None, Last(run).rows["a"]) == Some(DATA) && Last(run).now - DATA.expiresAt == 4 * SECOND
  {
    var jobs;
    run := Begin();
    run := Purges(run, 5 * SECOND);
    run, jobs := Inserting(run, 5 * SECOND);
    k := |run.actions| - 1;
    assert WritesAt(CONFIG, run, k, "a");
    assert StepAt(CONFIG, run, k);
  }

  /** Between the cleaner's reading of the clock and its DELETE time goes on and a row is
      inserted, and the DELETE removes that row by the instant read before. */
  lemma PurgeOfLaterRow() returns (run: Run, w: nat)
    ensures IsRun(CONFIG, run) && |run.actions| == w + 2 && run.actions[w + 1] == Purge(false)
    ensures NoteAt(CONFIG, run, w) == Inserted("a", DATA, "s")
    ensures run.states[w].cleaner == Purging(5 * SECOND) && run.states[w].now == 6 * SECOND
    ensures "a" in run.states[w + 1].rows && "a" !in Last(run).rows && Last(run).lastPurge == Some(5 * SECOND)
  {
    var jobs;
    run := Begin();
    run := Extend(run, Advance(5 * SECOND));
    run := Extend(run, ReadClock);
    run := Extend(run, Advance(6 * SECOND));
    run, jobs := Inserting(run, 6 * SECOND);
    w := |run.actions| - 1;
    run := Extend(run, Purge(false));
  }

  // ---- two refreshes

  const OLDER: SessionData := SessionData("alice", "older", "refresh", "id", 60 * SECOND)

  const NEWER: SessionData := SessionData("alice", "newer", "refresh", "id", 60 * SECOND)

  function Answer(data: SessionData): (token: Token)
    ensures NewData(token) == Some(data)
  {
    Token(data.accessToken, data.refreshToken, data.expiresAt, Some(IdToken(data.subject, data.idToken)))
  }

  /** A request loads row "a" and finds it expired. */
  lemma FindsExpired(run: Run, j: nat, jobs: map<nat, Job>) returns (next: Run)
    requires IsRun(CONFIG, run) && Shape(Last(run), 2 * SECOND, ROWS, jobs, COOKIES) && j !in jobs
    ensures IsRun(CONFIG, next)
    ensures Shape(Last(next), 2 * SECOND, ROWS, jobs[j := AuthRefresh(SESSION_COOKIE, DATA)], COOKIES)
  {
    var e;
    next := Arrives(run, j, AuthLoad(Presented(SESSION_COOKIE)));
    next, e := Steps(next, j, "b", TOKEN);
    assert e == Go(ROWS, AuthCheck(SESSION_COOKIE, DATA));
    next, e := Steps(next, j, "b", TOKEN);
    assert e == Go(ROWS, AuthRefresh(SESSION_COOKIE, DATA));
    assert Last(next).jobs == jobs[j := e.job];
  }

  /** It goes on to get the provider's answer. */
  lemma Refreshes(run: Run, j: nat, data: SessionData, jobs: map<nat, Job>) returns (next: Run, after: map<nat, Job>)
    requires IsRun(CONFIG, run) && Shape(Last(run), 2 * SECOND, ROWS, jobs, COOKIES) && j !in jobs
    ensures IsRun(CONFIG, next) && after == jobs[j := AuthCompare(SESSION_COOKIE, "a", data)]
    ensures Shape(Last(next), 2 * SECOND, ROWS, after, COOKIES)
    ensures var m := |next.actions| - 1;
            m >= 0 && LatestAnswer(CONFIG, next, m + 1, "a", m) && NoteAt(CONFIG, next, m) == Received(data)
  {
    var e;
    next := FindsExpired(run, j, jobs);
    next, e := Steps(next, j, "b", Answer(data));
    assert e == Effect(ROWS, AuthCompare(SESSION_COOKIE, "a", data), None, Received(data));
    after := jobs[j := e.job];
    assert Last(next).jobs == after;
    assert AnswersAt(CONFIG, next, |next.actions| - 1, "a");
  }

  /** A step in which no answer arrives leaves the latest answer the latest. */
  lemma StepsOn(run: Run, j: nat, m: nat) returns (next: Run, e: Effect)
    requires IsRun(CONFIG, run) && Legal(Last(run), Perform(j, Pick(Last(run).now, "b", TOKEN)))
    requires LatestAnswer(CONFIG, run, |run.actions|, "a", m)
    ensures e == Step(CONFIG, Last(run).rows, Last(run).jobs[j], Pick(Last(run).now, "b", TOKEN))
    ensures IsRun(CONFIG, next) && Last(next) == Record(Last(run), j, e)
    ensures next.actions == run.actions + [Perform(j, Pick(Last(run).now, "b", TOKEN))]
    ensures next.states == run.states + [Last(next)]
    ensures NoteAt(CONFIG, next, |run.actions|) == e.note && NoteAt(CONFIG, next, m) == NoteAt(CONFIG, run, m)
    ensures !e.note.Received? ==> LatestAnswer(CONFIG, next, |next.actions|, "a", m)
  {
    next, e := Steps(run, j, "b", TOKEN);
    forall n | 0 <= n < |run.actions|
      ensures NoteAt(CONFIG, next, n) == NoteAt(CONFIG, run, n)
      ensures AnswersAt(CONFIG, next, n, "a") <==> AnswersAt(CONFIG, run, n, "a")
    {
    }
  }

  lemma Compares(run: Run, j: nat, m: nat, data: SessionData, rows: Rows, jobs: map<nat, Job>) returns (next: Run)
    requires IsRun(CONFIG, run) && LatestAnswer(CONFIG, run, |run.actions|, "a", m)
    requires Shape(Last(run), 2 * SECOND, rows, jobs, COOKIES) && rows.Keys == {"a"}
    requires j in jobs && jobs[j] == AuthCompare(SESSION_COOKIE, "a", data) && rows["a"].subject == data.subject
    ensures IsRun(CONFIG, next) && LatestAnswer(CONFIG, next, |next.actions|, "a", m)
    ensures NoteAt(CONFIG, next, m) == NoteAt(CONFIG, run, m)
    ensures Shape(Last(next), 2 * SECOND, rows, jobs[j := AuthOverwrite(SESSION_COOKIE, "a", data)], COOKIES)
  {
    var e;
    next, e := StepsOn(run, j, m);
    assert e == Go(rows, AuthOverwrite(SESSION_COOKIE, "a", data));
  }

  lemma Overwrites(run: Run, j: nat, m: nat, data: SessionData, rows: Rows, jobs: map<nat, Job>) returns (next: Run)
    requires IsRun(CONFIG, run) && LatestAnswer(CONFIG, run, |run.actions|, "a", m)
    requires Shape(Last(run), 2 * SECOND, rows, jobs, COOKIES) && rows.Keys == {"a"} && Checks(ToRow(data))
    requires j in jobs && jobs[j] == AuthOverwrite(SESSION_COOKIE, "a", data)
    ensures IsRun(CONFIG, next) && LatestAnswer(CONFIG, next, |next.actions|, "a", m)
    ensures NoteAt(CONFIG, next, m) == NoteAt(CONFIG, run, m)
    ensures Shape(Last(next), 2 * SECOND, map["a" := ToRow(data)],
                  jobs[j := AuthCookie(SESSION_COOKIE, "a", data)], COOKIES)
    ensures |next.actions| == |run.actions| + 1 && NoteAt(CONFIG, next, |run.actions|) == Updated("a", data)
    ensures WritesAt(CONFIG, next, |run.actions|, "a")
  {
    var e;
    next, e := StepsOn(run, j, m);
    assert e.rows == map["a" := ToRow(data)];
    assert e == Effect(e.rows, AuthCookie(SESSION_COOKIE, "a", data), None, Updated("a", data));
  }

  /** The comparison and the overwrite of a refresh. */
  lemma UpdatesRow(run: Run, j: nat, m: nat, before: SessionData, data: SessionData, jobs: map<nat, Job>)
    returns (next: Run, after: map<nat, Job>)
    requires IsRun(CONFIG, run) && LatestAnswer(CONFIG, run, |run.actions|, "a", m)
    requires Shape(Last(run), 2 * SECOND, map["a" := ToRow(before)], jobs, COOKIES)
    requires j in jobs && jobs[j] == AuthCompare(SESSION_COOKIE, "a", data)
    requires before.subject == data.subject && Checks(ToRow(data))
    ensures IsRun(CONFIG, next) && LatestAnswer(CONFIG, next, |next.actions|, "a", m)
    ensures NoteAt(CONFIG, next, m) == NoteAt(CONFIG, run, m)
    ensures after == jobs[j := AuthCookie(SESSION_COOKIE, "a", data)]
    ensures Shape(Last(next), 2 * SECOND, map["a" := ToRow(data)], after, COOKIES)
    ensures LastWrite(CONFIG, next, |next.actions|, "a", |next.actions| - 1)
    ensures NoteAt(CONFIG, next, |next.actions| - 1) == Updated("a", data)
  {
    var rows := map["a" := ToRow(before)];
    next := Compares(run, j, m, data, rows, jobs);
    next := Overwrites(next, j, m, data, rows, jobs[j := AuthOverwrite(SESSION_COOKIE, "a", data)]);
    after := jobs[j := AuthCookie(SESSION_COOKIE, "a", data)];
    assert after == jobs[j := AuthOverwrite(SESSION_COOKIE, "a", data)][j := AuthCookie(SESSION_COOKIE, "a", data)];
  }

  /** Two requests refresh the session, and request 3 gets its answer last. */
  lemma BothAnswered() returns (run: Run, jobs: map<nat, Job>, m: nat)
    ensures IsRun(CONFIG, run) && Shape(Last(run), 2 * SECOND, ROWS, jobs, COOKIES)
    ensures 2 in jobs && jobs[2] == AuthCompare(SESSION_COOKIE, "a", OLDER)
    ensures 3 in jobs && jobs[3] == AuthCompare(SESSION_COOKIE, "a", NEWER)
    ensures LatestAnswer(CONFIG, run, |run.actions|, "a", m) && NoteAt(CONFIG, run, m) == Received(NEWER)
  {
    run, jobs := LoggedIn();
    run := Extend(run, Advance(2 * SECOND));
    run, jobs := Refreshes(run, 2, OLDER, jobs);
    run, jobs := Refreshes(run, 3, NEWER, jobs);
    m := |run.actions| - 1;
  }

  /** A lost update: the request whose answer came first writes last, and the row keeps its
      record, although the other's was written and is about to be served. */
  lemma LostUpdate() returns (run: Run, w: nat, m: nat)
    ensures IsRun(CONFIG, run) && Last(run).rows == map["a" := ToRow(OLDER)]
    ensures LastWrite(CONFIG, run, |run.actions|, "a", w) && NoteAt(CONFIG, run, w).data == OLDER
    ensures LatestAnswer(CONFIG, run, |run.actions|, "a", m) && NoteAt(CONFIG, run, m) == Received(NEWER)
    ensures 3 in Last(run).jobs && Last(run).jobs[3] == AuthCookie(SESSION_COOKIE, "a", NEWER)
  {
    var jobs;
    run, jobs, m := BothAnswered();
    run, jobs := UpdatesRow(run, 3, m, DATA, NEWER, jobs);
    run, jobs := UpdatesRow(run, 2, m, NEWER, OLDER, jobs);
    w := |run.actions| - 1;
  }

  /** The assumptions on a cipher can be met. */
  lemma SoundCipherExists() returns (cipher: Cipher)
    ensures Sound(Some(cipher))
    ensures forall data, nonces :: Encrypts(Some(cipher), data, nonces)
  {
    cipher := Cipher(
      (nonce, plain) => Some(['#'] + plain),
      sealed => if sealed == "" then None else Some(sealed[1..])
    );
    forall nonce: Nonce, plain: string
      ensures cipher.encrypt(nonce, plain).Some? && cipher.encrypt(nonce, plain).value != ""
      ensures cipher.decrypt(cipher.encrypt(nonce, plain).value) == Some(plain)
    {
      assert (['#'] + plain)[1..] == plain;
    }
  }
}
