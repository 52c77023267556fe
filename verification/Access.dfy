/** Who is served, with which token, and until when. */
module Access {
  import opened Basics
  import opened Database
  import opened Table
  import opened Protocol
  import opened System
  import opened Invariant
  import opened Histories
  import opened Lifecycle

  ghost predicate Served(s: System, j: nat) {
    j in s.jobs && s.jobs[j].Finished? && s.jobs[j].outcome.Next?
  }

  lemma ServedIsGenuine(cfg: Config, run: Run, i: nat, j: nat)
    requires Sound(cfg.cipher) && IsRun(cfg, run) && i < |run.states| && Served(run.states[i], j)
    ensures var s := run.states[i]; var v := s.jobs[j].values;
            && v in s.cookies && State !in v && SessionId in v
            && GenuineToken(s, v[SessionId], s.jobs[j].outcome.accessToken)
  {
    RunInv(cfg, run, i);
    assert JobOk(run.states[i], run.states[i].jobs[j]);
  }

  /** A request whose cookie holds a login state is never served, not even when the cookie also
      names a live session. */
  lemma PendingLoginNeverServed(cfg: Config, run: Run, i: nat, k: nat, j: nat)
    requires Sound(cfg.cipher) && IsRun(cfg, run) && i <= k < |run.states|
    requires j in run.states[i].jobs && State in Carried(run.states[i].jobs[j])
    ensures !Served(run.states[k], j)
  {
    CarriedStays(cfg, run, i, k, j);
    if Served(run.states[k], j) { ServedIsGenuine(cfg, run, k, j); }
  }

  /** A token served without a refresh had not expired for the provider either: the rounding of
      the stored expiry only ever shortens a token's life. */
  lemma UnrefreshedIsUnexpired(cfg: Config, run: Run, k: nat) returns (bundle: SessionData)
    requires Sound(cfg.cipher) && IsRun(cfg, run) && k < |run.actions| && run.actions[k].Perform?
    requires var s, j := run.states[k], run.actions[k].j; j in s.jobs && s.jobs[j].AuthCheck?
    requires Served(run.states[k + 1], run.actions[k].j)
    ensures ReceivedBefore(cfg, run, k, bundle)
    ensures bundle.accessToken == run.states[k + 1].jobs[run.actions[k].j].outcome.accessToken
    ensures run.states[k].now <= bundle.expiresAt
  {
    RunInv(cfg, run, k);
    assert StepAt(cfg, run, k);
    var s := run.states[k];
    var job := s.jobs[run.actions[k].j];
    assert JobOk(s, job);
    bundle := LoadedBundle(s, job.values, job.data);
    ReceivedExplained(cfg, run, k, bundle);
  }

  lemma LoadedBundle(s: System, v: Values, data: SessionData) returns (bundle: SessionData)
    requires LoadedOk(s, v, data) && s.now >= 0 && !IsExpired(data, s.now)
    ensures bundle in s.received && bundle.accessToken == data.accessToken && !IsExpired(bundle, s.now)
  {
    bundle :| bundle in s.received && Stored(bundle) == Stored(data) && bundle.subject == s.born[v[SessionId]].subject;
    assert Stored(bundle).accessToken == bundle.accessToken;
    UnixSecondFloors(bundle.expiresAt);
  }

  // ---- after the row is gone

  /** What is left, with row `id` gone, of the ways to `next`: an expiry check of loaded data
      that has not expired, a refresh past its comparison whose record can be encrypted, or a
      refresh that only has its cookie to write. */
  ghost predicate StillOpen(cfg: Config, job: Job, id: Id, now: Instant) {
    match job
    case AuthCheck(values, data) => NamesOnly(values, id) && !IsExpired(data, now)
    case AuthOverwrite(values, _, data) =>
      NamesOnly(values, id) && exists nonces :: Encrypts(cfg.cipher, data, nonces)
    case AuthCookie(values, _, _) => NamesOnly(values, id)
    case Finished(values, outcome) => outcome.Next? && SessionId in values && values[SessionId] == id
    case _ => false
  }

  ghost predicate Gone(s: System, id: Id) {
    id in s.born && id !in s.rows
  }

  /** Some continuation gets the request served. */
  ghost predicate CanBeServed(cfg: Config, s: System, j: nat) {
    exists actions, t :: Leads(cfg, s, actions, t) && Served(t, j)
  }

  /** With the row gone no step opens a way that was closed. */
  lemma StepOpensNothing(cfg: Config, rows: Rows, job: Job, c: Choice, id: Id)
    requires id !in rows
    requires job.AuthCheck? && State in job.values ==> IsExpired(job.data, c.now)
    requires job.AuthCompare? || job.AuthOverwrite? || job.AuthCookie? ==> NamesOnly(job.values, job.id)
    ensures StillOpen(cfg, Step(cfg, rows, job, c).job, id, c.now) ==> StillOpen(cfg, job, id, c.now)
  {
    if job.AuthOverwrite? { EncryptsEachToken(cfg.cipher, job.data, c.nonces); }
  }

  lemma OwnStepOpensNothing(cfg: Config, s: System, j: nat, c: Choice, id: Id)
    requires JobsOk(s) && s.now >= 0 && id !in s.rows && Legal(s, Perform(j, c))
    requires StillOpen(cfg, Step(cfg, s.rows, s.jobs[j], c).job, id, s.now)
    ensures StillOpen(cfg, s.jobs[j], id, s.now)
  {
    assert JobOk(s, s.jobs[j]);
    StepOpensNothing(cfg, s.rows, s.jobs[j], c, id);
  }

  /** Time can only close a way, and a request that arrives has none open. */
  lemma OtherActionsOpenNothing(cfg: Config, s: System, a: Action, id: Id, j: nat)
    requires Legal(s, a) && !(a.Perform? && a.j == j)
    requires j in Do(cfg, s, a).jobs && StillOpen(cfg, Do(cfg, s, a).jobs[j], id, Do(cfg, s, a).now)
    ensures j in s.jobs && StillOpen(cfg, s.jobs[j], id, s.now)
  {
  }

  lemma ActionOpensNothing(cfg: Config, s: System, a: Action, id: Id, j: nat)
    requires JobsOk(s) && s.now >= 0 && id !in s.rows && Legal(s, a)
    requires j in Do(cfg, s, a).jobs && StillOpen(cfg, Do(cfg, s, a).jobs[j], id, Do(cfg, s, a).now)
    ensures j in s.jobs && StillOpen(cfg, s.jobs[j], id, s.now)
  {
    if a.Perform? && a.j == j {
      OwnStepOpensNothing(cfg, s, j, a.choice, id);
    } else {
      OtherActionsOpenNothing(cfg, s, a, id, j);
    }
  }

  lemma ActionKeepsGone(cfg: Config, s: System, a: Action, id: Id)
    requires Sound(cfg.cipher) && Inv(cfg, s) && Legal(s, a) && Gone(s, id)
    ensures Gone(Do(cfg, s, a), id)
  {
    if a.Perform? { PerformEffect(cfg, s, a.j, a.choice); }
  }

  lemma {:induction false} ServedWasOpen(cfg: Config, s: System, actions: seq<Action>, t: System, id: Id, j: nat)
    requires Sound(cfg.cipher) && Inv(cfg, s) && Leads(cfg, s, actions, t) && Gone(s, id)
    requires j in t.jobs && StillOpen(cfg, t.jobs[j], id, t.now)
    ensures j in s.jobs && StillOpen(cfg, s.jobs[j], id, s.now)
    decreases |actions|
  {
    if actions != [] {
      ActionKeepsInv(cfg, s, actions[0]);
      ActionKeepsGone(cfg, s, actions[0], id);
      ServedWasOpen(cfg, Do(cfg, s, actions[0]), actions[1..], t, id, j);
      ActionOpensNothing(cfg, s, actions[0], id, j);
    }
  }

  /** A step that nothing spoils. */
  lemma CleanStep(cfg: Config, s: System, j: nat, nonces: Nonces) returns (c: Choice)
    requires j in s.jobs && !s.jobs[j].Finished?
    ensures Legal(s, Perform(j, c)) && c.nonces == nonces && !c.fault && c.now == s.now
  {
    var id := UnusedId(s.born.Keys);
    c := Choice(s.now, false, nonces, None, id, "s");
  }

  lemma StepThenServed(cfg: Config, s: System, a: Action, j: nat)
    requires Legal(s, a) && CanBeServed(cfg, Do(cfg, s, a), j)
    ensures CanBeServed(cfg, s, j)
  {
    var actions, t :| Leads(cfg, Do(cfg, s, a), actions, t) && Served(t, j);
    assert ([a] + actions)[1..] == actions;
    assert Leads(cfg, s, [a] + actions, t);
  }

  lemma ServedNow(cfg: Config, s: System, j: nat)
    requires Served(s, j)
    ensures CanBeServed(cfg, s, j)
  {
    assert Leads(cfg, s, [], s);
  }

  lemma CheckOrCookieServes(cfg: Config, s: System, j: nat, id: Id)
    requires j in s.jobs && StillOpen(cfg, s.jobs[j], id, s.now)
    requires s.jobs[j].AuthCheck? || s.jobs[j].AuthCookie?
    ensures CanBeServed(cfg, s, j)
  {
    var c := CleanStep(cfg, s, j, Nonces(0, 0, 0));
    ServedNow(cfg, Do(cfg, s, Perform(j, c)), j);
    StepThenServed(cfg, s, Perform(j, c), j);
  }

  lemma OverwriteServes(cfg: Config, s: System, j: nat, id: Id)
    requires j in s.jobs && StillOpen(cfg, s.jobs[j], id, s.now) && s.jobs[j].AuthOverwrite?
    requires s.jobs[j].id !in s.rows
    ensures CanBeServed(cfg, s, j)
  {
    var nonces :| Encrypts(cfg.cipher, s.jobs[j].data, nonces);
    var c := CleanStep(cfg, s, j, nonces);
    CheckOrCookieServes(cfg, Do(cfg, s, Perform(j, c)), j, id);
    StepThenServed(cfg, s, Perform(j, c), j);
  }

  lemma OpenCanBeServed(cfg: Config, s: System, j: nat, id: Id)
    requires JobsOk(s) && id !in s.rows && j in s.jobs && StillOpen(cfg, s.jobs[j], id, s.now)
    ensures CanBeServed(cfg, s, j)
  {
    assert JobOk(s, s.jobs[j]);
    match s.jobs[j]
    case AuthOverwrite(_, _, _) => OverwriteServes(cfg, s, j, id);
    case Finished(_, _) => ServedNow(cfg, s, j);
    case _ => CheckOrCookieServes(cfg, s, j, id);
  }

  /** Once a row is gone, a request naming it can still get to `next` exactly when it stands at
      one of the three places that look at the row no more. A request at a refresh or a
      comparison, or with expired data, is refused however the run goes on. */
  lemma ServedAfterGone(cfg: Config, run: Run, i: nat, j: nat)
    requires Sound(cfg.cipher) && IsRun(cfg, run) && i < |run.states| && j in run.states[i].jobs
    requires SessionId in Carried(run.states[i].jobs[j])
    requires Gone(run.states[i], Carried(run.states[i].jobs[j])[SessionId])
    ensures var s := run.states[i];
            CanBeServed(cfg, s, j) <==> StillOpen(cfg, s.jobs[j], Carried(s.jobs[j])[SessionId], s.now)
  {
    RunInv(cfg, run, i);
    var s := run.states[i];
    var id := Carried(s.jobs[j])[SessionId];
    if StillOpen(cfg, s.jobs[j], id, s.now) { OpenCanBeServed(cfg, s, j, id); }
    if CanBeServed(cfg, s, j) {
      var actions, t :| Leads(cfg, s, actions, t) && Served(t, j);
      LeadsKeepsCarried(cfg, s, actions, t, j);
      ServedWasOpen(cfg, s, actions, t, id, j);
    }
  }

  /** The same over a run, for requests that arrive later too: whoever is served for a gone row,
      with whichever cookie, stood at one of those places in the state where it was gone. */
  lemma GoneMeansRefused(cfg: Config, run: Run, i: nat, k: nat, j: nat)
    requires Sound(cfg.cipher) && IsRun(cfg, run) && i <= k < |run.states| && Served(run.states[k], j)
    requires SessionId in run.states[k].jobs[j].values
    requires Gone(run.states[i], run.states[k].jobs[j].values[SessionId])
    ensures var s, id := run.states[i], run.states[k].jobs[j].values[SessionId];
            j in s.jobs && StillOpen(cfg, s.jobs[j], id, s.now)
  {
    RunInv(cfg, run, i);
    RunLeads(cfg, run, i, k);
    ServedWasOpen(cfg, run.states[i], run.actions[i..k], run.states[k], run.states[k].jobs[j].values[SessionId], j);
  }

  /** Logout is final: once its DELETE has committed, no request that loads its session later,
      whatever issued cookie naming the id it replays, ever reaches `next`. */
  lemma LogoutFinality(cfg: Config, run: Run, i: nat, k: nat, j: nat)
    requires Sound(cfg.cipher) && IsRun(cfg, run) && i < k < |run.states| && NoteAt(cfg, run, i).Deleted?
    requires j in run.states[i].jobs ==> run.states[i].jobs[j].AuthLoad?
    requires j in run.states[k].jobs
    requires var v := Carried(run.states[k].jobs[j]); SessionId in v && v[SessionId] == NoteAt(cfg, run, i).id
    ensures !Served(run.states[k], j)
  {
    LogoutRemoves(cfg, run, i);
    if Served(run.states[k], j) {
      GoneMeansRefused(cfg, run, i + 1, k, j);
      LogoutTouchesOne(cfg, run, i, j);
    }
  }

  lemma LogoutRemoves(cfg: Config, run: Run, i: nat)
    requires Sound(cfg.cipher) && IsRun(cfg, run) && i < |run.actions| && NoteAt(cfg, run, i).Deleted?
    ensures Gone(run.states[i + 1], NoteAt(cfg, run, i).id)
  {
    StepOfRun(cfg, run, i);
  }

  lemma LogoutTouchesOne(cfg: Config, run: Run, i: nat, j: nat)
    requires Sound(cfg.cipher) && IsRun(cfg, run) && i < |run.actions| && NoteAt(cfg, run, i).Deleted?
    requires j in run.states[i].jobs ==> run.states[i].jobs[j].AuthLoad?
    ensures j in run.states[i + 1].jobs ==> run.states[i + 1].jobs[j].AuthLoad?
  {
    StepOfRun(cfg, run, i);
  }
}
