/** Where a request's data comes from: which token is served, and whose answer a row ends with. */
module Provenance {
  import opened Basics
  import opened Database
  import opened Table
  import opened Protocol
  import opened System
  import opened Invariant
  import opened Histories
  import opened Lifecycle
  import opened Access

  /** The k-th action is a step of request `j`. */
  ghost predicate StepBy(run: Run, k: int, j: nat) {
    && 0 <= k < |run.actions| && k < |run.states|
    && run.actions[k].Perform? && run.actions[k].j == j && j in run.states[k].jobs
  }

  /** Step `k` is the one in which request `j` loads row `id`, and `data` is what it finds. */
  ghost predicate LoadedAt(cfg: Config, run: Run, k: int, j: nat, id: Id, data: SessionData) {
    && StepBy(run, k, j) && run.states[k].jobs[j].AuthLoad?
    && id in run.states[k].rows && Load(cfg.cipher, run.states[k].rows[id]) == Some(data)
  }

  /** Step `k` is the one in which request `j` gets the provider's answer `data`. */
  ghost predicate ReceivedAt(cfg: Config, run: Run, k: int, j: nat, data: SessionData) {
    StepBy(run, k, j) && NoteAt(cfg, run, k) == Received(data)
  }

  ghost predicate LoadedBy(cfg: Config, run: Run, i: int, j: nat, id: Id, data: SessionData) {
    exists k :: 0 <= k < i && LoadedAt(cfg, run, k, j, id, data)
  }

  ghost predicate ReceivedBy(cfg: Config, run: Run, i: int, j: nat, data: SessionData) {
    exists k :: 0 <= k < i && ReceivedAt(cfg, run, k, j, data)
  }

  /** The token is from what the request itself loaded, or from an answer it got itself. */
  ghost predicate TokenBy(cfg: Config, run: Run, i: int, j: nat, id: Id, token: string)
    requires 0 <= i < |run.states|
  {
    || (exists data :: LoadedBy(cfg, run, i, j, id, data) && data.accessToken == token)
    || (exists data ::
          ReceivedBy(cfg, run, i, j, data) && data.accessToken == token && Genuine(run.states[i], id, data))
  }

  /** The data a request holds before state `i` was loaded or received by itself. */
  ghost predicate Sourced(cfg: Config, run: Run, i: int, j: nat, job: Job)
    requires 0 <= i < |run.states|
  {
    match job
    case AuthCheck(v, data) => State in v || (SessionId in v && LoadedBy(cfg, run, i, j, v[SessionId], data))
    case AuthRefresh(_, _) => true
    case AuthCompare(_, _, data) => ReceivedBy(cfg, run, i, j, data)
    case AuthOverwrite(_, _, data) => ReceivedBy(cfg, run, i, j, data)
    case AuthCookie(_, _, data) => ReceivedBy(cfg, run, i, j, data)
    case CallbackInsert(_, _, data) => ReceivedBy(cfg, run, i, j, data)
    case Finished(v, outcome) =>
      outcome.Next? ==> SessionId in v && TokenBy(cfg, run, i, j, v[SessionId], outcome.accessToken)
    case _ => true
  }

  lemma LoadedByGrows(cfg: Config, run: Run, i: nat, j: nat, id: Id, data: SessionData)
    requires LoadedBy(cfg, run, i, j, id, data)
    ensures LoadedBy(cfg, run, i + 1, j, id, data)
  {
  }

  lemma ReceivedByGrows(cfg: Config, run: Run, i: nat, j: nat, data: SessionData)
    requires ReceivedBy(cfg, run, i, j, data)
    ensures ReceivedBy(cfg, run, i + 1, j, data)
  {
  }

  lemma TokenByGrows(cfg: Config, run: Run, i: nat, j: nat, id: Id, token: string)
    requires i + 1 < |run.states| && Grows(run.states[i], run.states[i + 1])
    requires TokenBy(cfg, run, i, j, id, token)
    ensures TokenBy(cfg, run, i + 1, j, id, token)
  {
    if data :| LoadedBy(cfg, run, i, j, id, data) && data.accessToken == token {
      LoadedByGrows(cfg, run, i, j, id, data);
    } else {
      var data :| ReceivedBy(cfg, run, i, j, data) && data.accessToken == token && Genuine(run.states[i], id, data);
      ReceivedByGrows(cfg, run, i, j, data);
      var b :| b in run.states[i].received && Stored(b) == Stored(data) && b.subject == run.states[i].born[id].subject;
      assert b in run.states[i + 1].received;
    }
  }

  lemma StepGrows(cfg: Config, run: Run, i: nat)
    requires Sound(cfg.cipher) && IsRun(cfg, run) && i < |run.actions|
    ensures Grows(run.states[i], run.states[i + 1])
  {
    StepOfRun(cfg, run, i);
    var s, a := run.states[i], run.actions[i];
    if a.Perform? { RecordGrows(s, a.j, Step(cfg, s.rows, s.jobs[a.j], a.choice)); }
  }

  lemma SourcedGrows(cfg: Config, run: Run, i: nat, j: nat, job: Job)
    requires i + 1 < |run.states| && Grows(run.states[i], run.states[i + 1]) && Sourced(cfg, run, i, j, job)
    ensures Sourced(cfg, run, i + 1, j, job)
  {
    match job
    case AuthCheck(v, data) => if State !in v { LoadedByGrows(cfg, run, i, j, v[SessionId], data); }
    case AuthCompare(_, _, data) => ReceivedByGrows(cfg, run, i, j, data);
    case AuthOverwrite(_, _, data) => ReceivedByGrows(cfg, run, i, j, data);
    case AuthCookie(_, _, data) => ReceivedByGrows(cfg, run, i, j, data);
    case CallbackInsert(_, _, data) => ReceivedByGrows(cfg, run, i, j, data);
    case Finished(v, outcome) =>
      if outcome.Next? { TokenByGrows(cfg, run, i, j, v[SessionId], outcome.accessToken); }
    case _ =>
  }

  /** What a step hands on was loaded or received in it, or is what the request already held. */
  ghost predicate HandsOn(cfg: Config, s: System, job: Job, e: Effect) {
    match e.job
    case AuthCheck(v, data) =>
      && job.AuthLoad?
      && (State !in v ==>
          SessionId in v && v[SessionId] in s.rows && Load(cfg.cipher, s.rows[v[SessionId]]) == Some(data))
    case AuthCompare(_, _, data) => e.note == Received(data)
    case CallbackInsert(_, _, data) => e.note == Received(data)
    case AuthOverwrite(v, id, data) => job == AuthCompare(v, id, data)
    case AuthCookie(v, id, data) => job == AuthOverwrite(v, id, data)
    case Finished(v, Next(token)) =>
      || (job.AuthCheck? && job.values == v && State !in v && SessionId in v && job.data.accessToken == token)
      || (job.AuthCookie? && job.values == v && NamesOnly(v, job.id) && job.data.accessToken == token)
      || job == e.job
    case _ => true
  }

  lemma AuthStepHandsOn(cfg: Config, s: System, job: Job, c: Choice)
    requires JobOk(s, job) && s.now >= 0 && c.now == s.now && Authenticates(job)
    ensures HandsOn(cfg, s, job, Step(cfg, s.rows, job, c))
  {
  }

  lemma OtherStepHandsOn(cfg: Config, s: System, job: Job, c: Choice)
    requires !Authenticates(job)
    ensures HandsOn(cfg, s, job, Step(cfg, s.rows, job, c))
  {
  }

  lemma StepHandsOn(cfg: Config, s: System, job: Job, c: Choice)
    requires JobOk(s, job) && s.now >= 0 && c.now == s.now
    ensures HandsOn(cfg, s, job, Step(cfg, s.rows, job, c))
  {
    if Authenticates(job) { AuthStepHandsOn(cfg, s, job, c); } else { OtherStepHandsOn(cfg, s, job, c); }
  }

  lemma NextSourced(cfg: Config, run: Run, i: nat, j: nat, e: Effect)
    requires i + 1 < |run.states| && Grows(run.states[i], run.states[i + 1])
    requires StepBy(run, i, j) && NoteAt(cfg, run, i) == e.note
    requires JobOk(run.states[i], run.states[i].jobs[j]) && HandsOn(cfg, run.states[i], run.states[i].jobs[j], e)
    requires Sourced(cfg, run, i, j, run.states[i].jobs[j])
    ensures Sourced(cfg, run, i + 1, j, e.job)
  {
    var job := run.states[i].jobs[j];
    match e.job
    case AuthCheck(v, data) =>
      if State !in v { assert LoadedAt(cfg, run, i, j, v[SessionId], data); }
    case AuthCompare(_, _, data) => assert ReceivedAt(cfg, run, i, j, data);
    case CallbackInsert(_, _, data) => assert ReceivedAt(cfg, run, i, j, data);
    case AuthOverwrite(_, _, data) => ReceivedByGrows(cfg, run, i, j, data);
    case AuthCookie(_, _, data) => ReceivedByGrows(cfg, run, i, j, data);
    case Finished(v, outcome) =>
      if outcome.Next? {
        assert TokenBy(cfg, run, i, j, v[SessionId], outcome.accessToken);
        TokenByGrows(cfg, run, i, j, v[SessionId], outcome.accessToken);
      }
    case _ =>
  }

  lemma OwnStepSourced(cfg: Config, run: Run, i: nat, j: nat)
    requires Sound(cfg.cipher) && IsRun(cfg, run) && i < |run.actions| && StepBy(run, i, j)
    requires Sourced(cfg, run, i, j, run.states[i].jobs[j])
    ensures j in run.states[i + 1].jobs && Sourced(cfg, run, i + 1, j, run.states[i + 1].jobs[j])
  {
    RunInv(cfg, run, i);
    assert StepAt(cfg, run, i);
    var s, c := run.states[i], run.actions[i].choice;
    assert JobOk(s, s.jobs[j]);
    StepHandsOn(cfg, s, s.jobs[j], c);
    StepGrows(cfg, run, i);
    NextSourced(cfg, run, i, j, Step(cfg, s.rows, s.jobs[j], c));
  }

  lemma OthersLeaveJob(cfg: Config, s: System, a: Action, j: nat)
    requires Legal(s, a) && j in s.jobs && !(a.Perform? && a.j == j)
    ensures j in Do(cfg, s, a).jobs && Do(cfg, s, a).jobs[j] == s.jobs[j]
  {
  }

  lemma NewJobIsInitial(cfg: Config, s: System, a: Action, j: nat)
    requires Legal(s, a) && j !in s.jobs && j in Do(cfg, s, a).jobs
    ensures Initial(Do(cfg, s, a).jobs[j])
  {
  }

  lemma {:induction false} RunSourced(cfg: Config, run: Run, i: nat, j: nat)
    requires Sound(cfg.cipher) && IsRun(cfg, run) && i < |run.states| && j in run.states[i].jobs
    ensures Sourced(cfg, run, i, j, run.states[i].jobs[j])
    decreases i
  {
    if i > 0 {
      assert StepAt(cfg, run, i - 1);
      if StepBy(run, i - 1, j) {
        RunSourced(cfg, run, i - 1, j);
        OwnStepSourced(cfg, run, i - 1, j);
      } else if j in run.states[i - 1].jobs {
        RunSourced(cfg, run, i - 1, j);
        StepGrows(cfg, run, i - 1);
        OthersLeaveJob(cfg, run.states[i - 1], run.actions[i - 1], j);
        SourcedGrows(cfg, run, i - 1, j, run.states[i].jobs[j]);
      } else {
        NewJobIsInitial(cfg, run.states[i - 1], run.actions[i - 1], j);
      }
    }
  }

  // ---- the served token

  /** The record a request was served from: what the last writer of its row had put there when
      this very request loaded it, or the answer this very request got. */
  ghost predicate ServedFrom(cfg: Config, run: Run, i: int, j: nat, id: Id, bundle: SessionData) {
    || (exists k, w :: 0 <= k < i && StepBy(run, k, j) && run.states[k].jobs[j].AuthLoad?
                       && LastWrite(cfg, run, k, id, w) && NoteAt(cfg, run, w).data == bundle)
    || ReceivedBy(cfg, run, i, j, bundle)
  }

  lemma LoadedBundle(cfg: Config, run: Run, i: nat, j: nat, id: Id, data: SessionData) returns (bundle: SessionData)
    requires Sound(cfg.cipher) && IsRun(cfg, run) && i < |run.states| && LoadedBy(cfg, run, i, j, id, data)
    ensures ServedFrom(cfg, run, i, j, id, bundle) && ReceivedBefore(cfg, run, i, bundle)
    ensures bundle.accessToken == data.accessToken
    ensures id in run.states[i].born && bundle.subject == run.states[i].born[id].subject
  {
    var k :| 0 <= k < i && LoadedAt(cfg, run, k, j, id, data);
    var w := RowIsLastWrite(cfg, run, k, id);
    bundle := NoteAt(cfg, run, w).data;
    assert data == Stored(bundle);
    CoherentAt(cfg, run, k);
    BornStays(cfg, run, k, i, id);
  }

  lemma ReceivedBundle(cfg: Config, run: Run, i: nat, j: nat, id: Id, data: SessionData)
    requires i < |run.states| && ReceivedBy(cfg, run, i, j, data) && Genuine(run.states[i], id, data)
    ensures ServedFrom(cfg, run, i, j, id, data) && ReceivedBefore(cfg, run, i, data)
    ensures data.subject == run.states[i].born[id].subject
  {
    var b :| b in run.states[i].received && Stored(b) == Stored(data) && b.subject == run.states[i].born[id].subject;
    assert Stored(b).subject == b.subject && Stored(data).subject == data.subject;
    var k :| 0 <= k < i && ReceivedAt(cfg, run, k, j, data);
    ReceivedIsAnswered(cfg, run, k);
  }

  /** Whatever else runs meanwhile, a served request carries the id of a row inserted by an
      earlier callback, and its token is that of the record its own load found last written to
      that row, or of the answer it received itself: never a token of another session, nor an
      older one of this session. Either way the record was made of an answer of the provider
      whose ID token verified, for the subject the callback inserted. */
  lemma ServedTokenSafety(cfg: Config, run: Run, i: nat, j: nat) returns (bundle: SessionData, birth: SessionData)
    requires Sound(cfg.cipher) && IsRun(cfg, run) && i < |run.states| && Served(run.states[i], j)
    ensures var s := run.states[i]; var v := s.jobs[j].values;
            && SessionId in v && v[SessionId] in s.born
            && InsertedBefore(cfg, run, i, v[SessionId], birth, s.born[v[SessionId]].response)
            && ServedFrom(cfg, run, i, j, v[SessionId], bundle)
            && ReceivedBefore(cfg, run, i, bundle)
            && bundle.accessToken == s.jobs[j].outcome.accessToken
            && bundle.subject == birth.subject
  {
    ServedIsGenuine(cfg, run, i, j);
    RunSourced(cfg, run, i, j);
    var s := run.states[i];
    var id, token := s.jobs[j].values[SessionId], s.jobs[j].outcome.accessToken;
    birth := BirthExplained(cfg, run, i, id);
    if data :| LoadedBy(cfg, run, i, j, id, data) && data.accessToken == token {
      bundle := LoadedBundle(cfg, run, i, j, id, data);
    } else {
      bundle :| ReceivedBy(cfg, run, i, j, bundle) && bundle.accessToken == token && Genuine(s, id, bundle);
      ReceivedBundle(cfg, run, i, j, id, bundle);
    }
  }

  // ---- whose answer a row ends with

  /** How far a request is; the callback's stages come after those of authenticated access. */
  function Stage(job: Job): nat {
    match job
    case AuthCheck(_, _) => 1
    case AuthRefresh(_, _) => 2
    case AuthCompare(_, _, _) => 3
    case AuthOverwrite(_, _, _) => 4
    case AuthCookie(_, _, _) => 5
    case LogoutDelete(_, _) => 6
    case LogoutCookie(_, _) => 7
    case CallbackExchange(_, _) => 8
    case CallbackInsert(_, _, _) => 9
    case CallbackCookie(_, _, _) => 10
    case Finished(_, _) => 11
    case _ => 0
  }

  lemma StepAdvances(cfg: Config, rows: Rows, job: Job, c: Choice)
    requires !job.Finished?
    ensures Stage(job) < Stage(Step(cfg, rows, job, c).job)
  {
  }

  /** Between two states a request only gets further, and each of its steps takes it further. */
  lemma {:induction false} StagesAdvance(cfg: Config, run: Run, i: nat, k: nat, j: nat)
    requires IsRun(cfg, run) && i <= k < |run.states| && j in run.states[i].jobs
    ensures j in run.states[k].jobs && Stage(run.states[i].jobs[j]) <= Stage(run.states[k].jobs[j])
    ensures i < k && StepBy(run, i, j) ==> Stage(run.states[i].jobs[j]) < Stage(run.states[k].jobs[j])
    decreases k - i
  {
    if i < k {
      assert StepAt(cfg, run, i);
      OneStage(cfg, run.states[i], run.actions[i], j);
      StagesAdvance(cfg, run, i + 1, k, j);
    }
  }

  lemma OneStage(cfg: Config, s: System, a: Action, j: nat)
    requires Legal(s, a) && j in s.jobs
    ensures j in Do(cfg, s, a).jobs
    ensures if a.Perform? && a.j == j then Stage(s.jobs[j]) < Stage(Do(cfg, s, a).jobs[j])
            else Do(cfg, s, a).jobs[j] == s.jobs[j]
  {
    if a.Perform? && a.j == j {
      StepAdvances(cfg, s.rows, s.jobs[j], a.choice);
    } else {
      OthersLeaveJob(cfg, s, a, j);
    }
  }

  /** A refresh for row `id` gets the provider's answer in step `m`. */
  ghost predicate AnswersAt(cfg: Config, run: Run, m: int, id: Id) {
    && 0 <= m < |run.actions| && run.actions[m].Perform? && StepBy(run, m, run.actions[m].j)
    && NoteAt(cfg, run, m).Received?
    && var job := run.states[m].jobs[run.actions[m].j];
       job.AuthRefresh? && SessionId in job.values && job.values[SessionId] == id
  }

  /** Step `m` is the last before state `i` in which a refresh for row `id` gets an answer. */
  ghost predicate LatestAnswer(cfg: Config, run: Run, i: int, id: Id, m: int) {
    && 0 <= m < i && AnswersAt(cfg, run, m, id)
    && forall n :: m < n < i ==> !AnswersAt(cfg, run, n, id)
  }

  lemma NoteOfStage(cfg: Config, run: Run, k: nat, j: nat)
    requires StepBy(run, k, j)
    ensures NoteAt(cfg, run, k).Received? ==>
              run.states[k].jobs[j].AuthRefresh? || run.states[k].jobs[j].CallbackExchange?
    ensures NoteAt(cfg, run, k).Inserted? ==> run.states[k].jobs[j].CallbackInsert?
    ensures NoteAt(cfg, run, k).Updated? ==>
              run.states[k].jobs[j].AuthOverwrite? && run.states[k].jobs[j].id == NoteAt(cfg, run, k).id
    ensures NoteAt(cfg, run, k).Inserted? || NoteAt(cfg, run, k).Updated? ==>
              NoteAt(cfg, run, k).data == run.states[k].jobs[j].data
  {
  }

  /** The request behind a write received the record in a step of its own before. */
  lemma WriteWasReceived(cfg: Config, run: Run, w: nat, id: Id) returns (r: nat)
    requires Sound(cfg.cipher) && IsRun(cfg, run) && WritesAt(cfg, run, w, id)
    ensures StepBy(run, w, run.actions[w].j)
    ensures r < w && ReceivedAt(cfg, run, r, run.actions[w].j, NoteAt(cfg, run, w).data)
  {
    var j := run.actions[w].j;
    NoteOfStage(cfg, run, w, j);
    RunSourced(cfg, run, w, j);
    assert ReceivedBy(cfg, run, w, j, NoteAt(cfg, run, w).data);
    r :| r < w && ReceivedAt(cfg, run, r, j, NoteAt(cfg, run, w).data);
  }

  /** A refresh that writes a row got its answer for that row. */
  lemma UpdateWasAnswered(cfg: Config, run: Run, w: nat, id: Id, r: nat)
    requires Sound(cfg.cipher) && IsRun(cfg, run) && WritesAt(cfg, run, w, id) && NoteAt(cfg, run, w).Updated?
    requires r < w && StepBy(run, w, run.actions[w].j)
    requires ReceivedAt(cfg, run, r, run.actions[w].j, NoteAt(cfg, run, w).data)
    ensures AnswersAt(cfg, run, r, id)
  {
    var j := run.actions[w].j;
    NoteOfStage(cfg, run, w, j);
    NoteOfStage(cfg, run, r, j);
    StagesAdvance(cfg, run, r, w, j);
    CarriedStays(cfg, run, r, w, j);
    RunInv(cfg, run, w);
    assert JobOk(run.states[w], run.states[w].jobs[j]);
  }

  /** A row is inserted before any refresh gets an answer for it. */
  lemma InsertedBeforeAnswers(cfg: Config, run: Run, w: nat, m: nat, id: Id)
    requires Sound(cfg.cipher) && IsRun(cfg, run) && AnswersAt(cfg, run, m, id) && w < |run.actions|
    requires NoteAt(cfg, run, w).Inserted? && NoteAt(cfg, run, w).id == id
    ensures w < m && run.actions[w].j != run.actions[m].j
  {
    var j := run.actions[m].j;
    RunInv(cfg, run, m);
    assert JobOk(run.states[m], run.states[m].jobs[j]);
    if m <= w {
      BornStays(cfg, run, m, w, id);
      StepHistory(cfg, run, w);
    } else if run.actions[w].j == j {
      NoteOfStage(cfg, run, w, j);
      StagesAdvance(cfg, run, w, m, j);
    }
  }

  /** Two refreshes of a row can both get an answer and write in the other order. A live row
      holds the record of the request that wrote last, received in one of that request's own
      steps; it is the latest answer for the row exactly when that request also received last.
      Otherwise the later answer, although it may have been served, is lost from the row. */
  lemma RowHoldsLatestAnswer(cfg: Config, run: Run, i: nat, id: Id, w: nat, m: nat) returns (r: nat)
    requires Sound(cfg.cipher) && IsRun(cfg, run) && i < |run.states| && id in run.states[i].rows
    requires LastWrite(cfg, run, i, id, w) && LatestAnswer(cfg, run, i, id, m)
    ensures r <= m && ReceivedAt(cfg, run, r, run.actions[w].j, NoteAt(cfg, run, w).data)
    ensures Load(cfg.cipher, run.states[i].rows[id]) == Some(Stored(NoteAt(cfg, run, w).data))
    ensures r == m <==> run.actions[w].j == run.actions[m].j
  {
    r := WriteWasReceived(cfg, run, w, id);
    LastWriteIsHeld(cfg, run, i, id, w);
    var j := run.actions[w].j;
    if NoteAt(cfg, run, w).Inserted? {
      InsertedBeforeAnswers(cfg, run, w, m, id);
    } else {
      UpdateWasAnswered(cfg, run, w, id, r);
      if r < m && run.actions[m].j == j { StagesAdvance(cfg, run, r, m, j); }
    }
  }

  lemma LastWriteIsHeld(cfg: Config, run: Run, i: nat, id: Id, w: nat)
    requires Sound(cfg.cipher) && IsRun(cfg, run) && i < |run.states| && id in run.states[i].rows
    requires LastWrite(cfg, run, i, id, w)
    ensures Load(cfg.cipher, run.states[i].rows[id]) == Some(Stored(NoteAt(cfg, run, w).data))
  {
    var k := RowIsLastWrite(cfg, run, i, id);
  }
}
