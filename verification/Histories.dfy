/** Runs of the interleaved system: what each step did, and what the history variables of a
    state say about the steps before it. */
module Histories {
  import opened Basics
  import opened Database
  import opened Table
  import opened Protocol
  import opened System
  import opened Invariant

  /** What the k-th step of a run did. */
  function NoteAt(cfg: Config, run: Run, k: int): Note {
    if 0 <= k < |run.actions| && k < |run.states| && run.actions[k].Perform? && run.actions[k].j in run.states[k].jobs
    then Step(cfg, run.states[k].rows, run.states[k].jobs[run.actions[k].j], run.actions[k].choice).note
    else Silent
  }

  /** The provider's answer in step `k` has a verified ID token, and `data` is made of it. */
  predicate AnsweredAt(run: Run, k: int, data: SessionData) {
    0 <= k < |run.actions| && run.actions[k].Perform? && MadeOf(data, run.actions[k].choice.answer)
  }

  /** The record `data` was made from a verified answer of the provider before state `i`. */
  ghost predicate ReceivedBefore(cfg: Config, run: Run, i: int, data: SessionData) {
    exists k :: 0 <= k < i && NoteAt(cfg, run, k) == Received(data) && AnsweredAt(run, k, data)
  }

  ghost predicate GeneratedBefore(cfg: Config, run: Run, i: int, state: string) {
    exists k :: 0 <= k < i && NoteAt(cfg, run, k) == Generated(state)
  }

  ghost predicate InsertedBefore(cfg: Config, run: Run, i: int, id: Id, data: SessionData, response: string) {
    exists k :: 0 <= k < i && NoteAt(cfg, run, k) == Inserted(id, data, response)
  }

  /** One step of a run and, for a request, its effect. */
  lemma StepOfRun(cfg: Config, run: Run, k: nat)
    requires Sound(cfg.cipher) && IsRun(cfg, run) && k < |run.actions|
    ensures var s, t, a := run.states[k], run.states[k + 1], run.actions[k];
            && Legal(s, a) && t == Do(cfg, s, a)
            && (a.Perform? ==> var e := Step(cfg, s.rows, s.jobs[a.j], a.choice); EffectOk(s, e) && WriteOk(cfg, e))
  {
    RunInv(cfg, run, k);
    assert StepAt(cfg, run, k);
    if run.actions[k].Perform? { PerformEffect(cfg, run.states[k], run.actions[k].j, run.actions[k].choice); }
  }

  /** How one step changes the history variables. */
  lemma StepHistory(cfg: Config, run: Run, k: nat)
    requires Sound(cfg.cipher) && IsRun(cfg, run) && k < |run.actions|
    ensures var s, t, note := run.states[k], run.states[k + 1], NoteAt(cfg, run, k);
            && t.received == (if note.Received? then s.received + {note.data} else s.received)
            && t.states == (if note.Generated? then s.states + {note.state} else s.states)
            && t.born == (if note.Inserted? then s.born[note.id := Birth(note.data.subject, note.response)] else s.born)
            && (note.Inserted? ==> note.id !in s.born)
  {
    StepOfRun(cfg, run, k);
  }

  /** A step receives a record exactly when it asks the provider, is not refused for another
      reason, and gets an answer with a verified ID token; the record is made of that answer. */
  lemma StepReceives(cfg: Config, rows: Rows, job: Job, c: Choice)
    ensures var note := Step(cfg, rows, job, c).note;
            && (note.Received? <==>
                && (|| (job.AuthRefresh? && job.data.refreshToken != "" && SessionId in job.values)
                    || (job.CallbackExchange? && !job.incoming.Undecodable? && !c.fault))
                && c.answer.Some? && c.answer.value.idToken.Some?)
            && (note.Received? ==> MadeOf(note.data, c.answer))
  {
  }

  lemma ReceivedIsAnswered(cfg: Config, run: Run, k: nat)
    requires NoteAt(cfg, run, k).Received?
    ensures AnsweredAt(run, k, NoteAt(cfg, run, k).data)
  {
    StepReceives(cfg, run.states[k].rows, run.states[k].jobs[run.actions[k].j], run.actions[k].choice);
  }

  /** No record without a verified ID token: a callback or a refresh that gets no answer, or one
      whose ID token does not verify, is refused, and table, cookies and records stay the same. */
  lemma UnverifiedIsRefused(cfg: Config, run: Run, k: nat)
    requires IsRun(cfg, run) && k < |run.actions| && run.actions[k].Perform?
    requires var s, a := run.states[k], run.actions[k];
             && a.j in s.jobs && (s.jobs[a.j].CallbackExchange? || s.jobs[a.j].AuthRefresh?)
             && (a.choice.answer.None? || a.choice.answer.value.idToken.None?)
    ensures var s, t, a := run.states[k], run.states[k + 1], run.actions[k];
            && t.rows == s.rows && t.cookies == s.cookies && t.received == s.received && t.born == s.born
            && t.jobs == s.jobs[a.j := Finished(Carried(s.jobs[a.j]), Refused(
                 match s.jobs[a.j]
                 case AuthRefresh(_, data) =>
                   if data.refreshToken == "" || a.choice.answer.None? then RefreshFailed else TokenInvalid
                 case CallbackExchange(incoming, _) =>
                   if a.choice.answer.None? then ExchangeFailed
                   else if incoming.Undecodable? || a.choice.fault then CannotCreateCookie
                   else TokenInvalid))]
  {
    assert StepAt(cfg, run, k);
  }

  lemma {:induction false} ReceivedExplained(cfg: Config, run: Run, i: nat, data: SessionData)
    requires Sound(cfg.cipher) && IsRun(cfg, run) && i < |run.states| && data in run.states[i].received
    ensures ReceivedBefore(cfg, run, i, data)
    decreases i
  {
    if i > 0 {
      StepHistory(cfg, run, i - 1);
      if data in run.states[i - 1].received {
        ReceivedExplained(cfg, run, i - 1, data);
      } else {
        ReceivedIsAnswered(cfg, run, i - 1);
      }
    }
  }

  lemma {:induction false} StateExplained(cfg: Config, run: Run, i: nat, state: string)
    requires Sound(cfg.cipher) && IsRun(cfg, run) && i < |run.states| && state in run.states[i].states
    ensures GeneratedBefore(cfg, run, i, state)
    decreases i
  {
    if i > 0 {
      StepHistory(cfg, run, i - 1);
      if state in run.states[i - 1].states { StateExplained(cfg, run, i - 1, state); }
    }
  }

  lemma {:induction false} BirthExplained(cfg: Config, run: Run, i: nat, id: Id) returns (data: SessionData)
    requires Sound(cfg.cipher) && IsRun(cfg, run) && i < |run.states| && id in run.states[i].born
    ensures data.subject == run.states[i].born[id].subject
    ensures InsertedBefore(cfg, run, i, id, data, run.states[i].born[id].response)
    decreases i
  {
    if i == 0 {
      data := ZERO_DATA;
    } else {
      StepHistory(cfg, run, i - 1);
      var note := NoteAt(cfg, run, i - 1);
      if note.Inserted? && note.id == id {
        data := note.data;
      } else {
        data := BirthExplained(cfg, run, i - 1, id);
        assert InsertedBefore(cfg, run, i - 1, id, data, run.states[i].born[id].response);
      }
    }
  }

  lemma {:induction false} BornStays(cfg: Config, run: Run, i: nat, k: nat, id: Id)
    requires Sound(cfg.cipher) && IsRun(cfg, run) && i <= k < |run.states| && id in run.states[i].born
    ensures id in run.states[k].born && run.states[k].born[id] == run.states[i].born[id]
    decreases k
  {
    if i < k {
      BornStays(cfg, run, i, k - 1, id);
      StepHistory(cfg, run, k - 1);
      assert NoteAt(cfg, run, k - 1).Inserted? ==> NoteAt(cfg, run, k - 1).id != id;
    }
  }

  /** An insertion is in the history of every later state. */
  lemma InsertionRecorded(cfg: Config, run: Run, k: nat, i: nat)
    requires Sound(cfg.cipher) && IsRun(cfg, run) && k < i < |run.states| && NoteAt(cfg, run, k).Inserted?
    ensures var note := NoteAt(cfg, run, k);
            note.id in run.states[i].born && run.states[i].born[note.id] == Birth(note.data.subject, note.response)
  {
    StepHistory(cfg, run, k);
    BornStays(cfg, run, k + 1, i, NoteAt(cfg, run, k).id);
  }

  /** No id is inserted twice. */
  lemma InsertedOnce(cfg: Config, run: Run, k: nat, m: nat)
    requires Sound(cfg.cipher) && IsRun(cfg, run) && k < m < |run.actions|
    requires NoteAt(cfg, run, k).Inserted? && NoteAt(cfg, run, m).Inserted?
    ensures NoteAt(cfg, run, k).id != NoteAt(cfg, run, m).id
  {
    InsertionRecorded(cfg, run, k, m);
    StepHistory(cfg, run, m);
  }

  /** The values of the request's cookie, which a request keeps from arrival to end. */
  function Carried(job: Job): Values {
    match job
    case Login(incoming) => Decoded(incoming)
    case CallbackLoad(incoming, _) => Decoded(incoming)
    case CallbackExchange(incoming, _) => Decoded(incoming)
    case LogoutLoad(incoming) => Decoded(incoming)
    case AuthLoad(incoming) => Decoded(incoming)
    case _ => job.values
  }

  lemma StepKeepsCarried(cfg: Config, rows: Rows, job: Job, c: Choice)
    ensures Carried(Step(cfg, rows, job, c).job) == Carried(job)
  {
  }

  lemma RecordKeepsCarried(s: System, j: nat, e: Effect, k: nat)
    requires j in s.jobs && k in s.jobs && Carried(e.job) == Carried(s.jobs[j])
    ensures k in Record(s, j, e).jobs && Carried(Record(s, j, e).jobs[k]) == Carried(s.jobs[k])
  {
  }

  lemma ActionKeepsCarried(cfg: Config, s: System, a: Action, k: nat)
    requires Legal(s, a) && k in s.jobs
    ensures k in Do(cfg, s, a).jobs && Carried(Do(cfg, s, a).jobs[k]) == Carried(s.jobs[k])
  {
    match a
    case Perform(j, c) =>
      StepKeepsCarried(cfg, s.rows, s.jobs[j], c);
      RecordKeepsCarried(s, j, Step(cfg, s.rows, s.jobs[j], c), k);
    case _ =>
  }

  lemma {:induction false} CarriedStays(cfg: Config, run: Run, i: nat, k: nat, j: nat)
    requires IsRun(cfg, run) && i <= k < |run.states| && j in run.states[i].jobs
    ensures j in run.states[k].jobs && Carried(run.states[k].jobs[j]) == Carried(run.states[i].jobs[j])
    decreases k
  {
    if i < k {
      CarriedStays(cfg, run, i, k - 1, j);
      assert StepAt(cfg, run, k - 1);
      ActionKeepsCarried(cfg, run.states[k - 1], run.actions[k - 1], j);
    }
  }

  // ---- continuations

  lemma {:induction false} LeadsKeepsCarried(cfg: Config, s: System, actions: seq<Action>, t: System, j: nat)
    requires Leads(cfg, s, actions, t) && j in s.jobs
    ensures j in t.jobs && Carried(t.jobs[j]) == Carried(s.jobs[j])
    decreases |actions|
  {
    if actions != [] {
      ActionKeepsCarried(cfg, s, actions[0], j);
      LeadsKeepsCarried(cfg, Do(cfg, s, actions[0]), actions[1..], t, j);
    }
  }

  /** Every later state of a run is reached from the earlier ones. */
  lemma {:induction false} RunLeads(cfg: Config, run: Run, i: nat, k: nat)
    requires IsRun(cfg, run) && i <= k < |run.states|
    ensures Leads(cfg, run.states[i], run.actions[i..k], run.states[k])
    decreases k - i
  {
    if i < k {
      assert StepAt(cfg, run, i);
      RunLeads(cfg, run, i + 1, k);
      assert run.actions[i..k][1..] == run.actions[i + 1..k];
    }
  }
}
