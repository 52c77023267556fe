/** A handler run on its own is one of the runs of the interleaved system: the bridge from the
    sequential handlers to the theorems about all interleavings. */
module Sequential {
  import opened Basics
  import opened Table
  import opened Protocol
  import opened System

  /** Choices from `k` on that the system allows: time goes on, ids and states are fresh. */
  ghost predicate Ready(s: System, cs: seq<Choice>, k: int) {
    && (forall i :: k <= i < |cs| && 0 <= i ==> cs[i].now >= s.now && cs[i].id !in s.born && cs[i].state != "")
    && (forall i, m :: 0 <= i < m < |cs| ==> cs[i].now <= cs[m].now && cs[i].id != cs[m].id)
  }

  function Issued(cookies: seq<Cookie>): set<Values> {
    set c | c in cookies :: c.values
  }

  /** The clock moves to the choice's instant and the request takes its step. */
  function Turn(cfg: Config, s: System, j: nat, c: Choice): System
    requires j in s.jobs
  {
    Record(s.(now := c.now), j, Step(cfg, s.rows, s.jobs[j], c))
  }

  lemma TurnIsSoloStep(cfg: Config, s: System, j: nat, c: Choice, headers: seq<Cookie>)
    requires j in s.jobs
    ensures var solo, t := SoloStep(cfg, Solo(s.rows, s.jobs[j], headers), c), Turn(cfg, s, j, c);
            && t.rows == solo.rows && t.jobs == s.jobs[j := solo.job]
            && (Issued(headers) <= s.cookies ==>
                Issued(solo.cookies) <= t.cookies && t.cookies == s.cookies + Issued(solo.cookies))
  {
  }

  lemma TurnLeads(cfg: Config, s: System, j: nat, c: Choice, rest: seq<Action>, t: System)
    requires j in s.jobs && !s.jobs[j].Finished? && c.now >= s.now && c.id !in s.born && c.state != ""
    requires Leads(cfg, Turn(cfg, s, j, c), rest, t)
    ensures Leads(cfg, s, [Advance(c.now)] + ([Perform(j, c)] + rest), t)
  {
  }

  lemma StepInsertsChosen(cfg: Config, rows: Rows, job: Job, c: Choice)
    ensures var note := Step(cfg, rows, job, c).note; note.Inserted? ==> note.id == c.id
  {
  }

  lemma RecordInserts(s: System, j: nat, e: Effect)
    ensures Record(s, j, e).now == s.now
    ensures Record(s, j, e).born.Keys == s.born.Keys + if e.note.Inserted? then {e.note.id} else {}
  {
  }

  lemma TurnInsertsAtMost(cfg: Config, s: System, j: nat, c: Choice)
    requires j in s.jobs
    ensures Turn(cfg, s, j, c).born.Keys <= s.born.Keys + {c.id}
    ensures Turn(cfg, s, j, c).now == c.now
  {
    StepInsertsChosen(cfg, s.rows, s.jobs[j], c);
    RecordInserts(s.(now := c.now), j, Step(cfg, s.rows, s.jobs[j], c));
  }

  lemma TurnKeepsReady(cfg: Config, s: System, j: nat, cs: seq<Choice>, k: nat)
    requires j in s.jobs && k < |cs| && Ready(s, cs, k)
    ensures Ready(Turn(cfg, s, j, cs[k]), cs, k + 1)
  {
    TurnInsertsAtMost(cfg, s, j, cs[k]);
  }

  /** `last` is where the handler of request `j` ends, left alone from state `s`. */
  ghost predicate EndsIn(cfg: Config, s: System, j: nat, cs: seq<Choice>, k: nat, headers: seq<Cookie>, last: Solo)
    requires j in s.jobs && k <= |cs|
  {
    last == Alone(cfg, Solo(s.rows, s.jobs[j], headers), cs, k) && Issued(headers) <= Issued(last.cookies)
  }

  lemma OneTurn(cfg: Config, s: System, j: nat, cs: seq<Choice>, k: nat, headers: seq<Cookie>, last: Solo)
    returns (u: System, solo: Solo)
    requires j in s.jobs && !s.jobs[j].Finished? && k < |cs| && Ready(s, cs, k) && Issued(headers) <= s.cookies
    requires EndsIn(cfg, s, j, cs, k, headers, last)
    ensures u.rows == solo.rows && u.jobs == s.jobs[j := solo.job]
    ensures Issued(solo.cookies) <= u.cookies == s.cookies + Issued(solo.cookies)
    ensures Ready(u, cs, k + 1) && EndsIn(cfg, u, j, cs, k + 1, solo.cookies, last)
    ensures forall rest, t :: Leads(cfg, u, rest, t) ==>
              Leads(cfg, s, [Advance(cs[k].now)] + ([Perform(j, cs[k])] + rest), t)
  {
    u := Turn(cfg, s, j, cs[k]);
    solo := SoloStep(cfg, Solo(s.rows, s.jobs[j], headers), cs[k]);
    TurnKeepsReady(cfg, s, j, cs, k);
    TurnIsSoloStep(cfg, s, j, cs[k], headers);
    AloneKeepsHeaders(cfg, solo, cs, k + 1);
    forall rest, t | Leads(cfg, u, rest, t)
      ensures Leads(cfg, s, [Advance(cs[k].now)] + ([Perform(j, cs[k])] + rest), t)
    {
      TurnLeads(cfg, s, j, cs[k], rest, t);
    }
  }

  lemma {:induction false} AloneKeepsHeaders(cfg: Config, solo: Solo, cs: seq<Choice>, k: nat)
    requires k <= |cs|
    ensures Issued(solo.cookies) <= Issued(Alone(cfg, solo, cs, k).cookies)
    decreases |cs| - k
  {
    if !solo.job.Finished? && k < |cs| {
      AloneKeepsHeaders(cfg, SoloStep(cfg, solo, cs[k]), cs, k + 1);
    }
  }

  lemma Stopped(cfg: Config, s: System, j: nat, cs: seq<Choice>, k: nat, headers: seq<Cookie>, last: Solo)
    requires j in s.jobs && k <= |cs| && EndsIn(cfg, s, j, cs, k, headers, last)
    requires s.jobs[j].Finished? || k == |cs|
    ensures last == Solo(s.rows, s.jobs[j], headers)
  {
  }

  lemma {:induction false} RunsTo(cfg: Config, s: System, j: nat, cs: seq<Choice>, k: nat,
                                  headers: seq<Cookie>, last: Solo)
    returns (actions: seq<Action>, t: System)
    requires j in s.jobs && k <= |cs| && Ready(s, cs, k) && Issued(headers) <= s.cookies
    requires EndsIn(cfg, s, j, cs, k, headers, last)
    ensures Leads(cfg, s, actions, t)
    ensures t.rows == last.rows && t.jobs == s.jobs[j := last.job] && t.cookies == s.cookies + Issued(last.cookies)
    decreases |cs| - k
  {
    if s.jobs[j].Finished? || k == |cs| {
      Stopped(cfg, s, j, cs, k, headers, last);
      actions, t := [], s;
    } else {
      var u, solo := OneTurn(cfg, s, j, cs, k, headers, last);
      var rest;
      rest, t := RunsTo(cfg, u, j, cs, k + 1, solo.cookies, last);
      actions := [Advance(cs[k].now)] + ([Perform(j, cs[k])] + rest);
    }
  }

  /** Started in any state of the system and left alone, a request goes exactly as its handler
      does: by legal actions, to the handler's table, outcome and cookies. */
  lemma AloneIsARun(cfg: Config, s: System, j: nat, cs: seq<Choice>) returns (actions: seq<Action>, t: System)
    requires j in s.jobs && Ready(s, cs, 0)
    ensures Leads(cfg, s, actions, t)
    ensures var last := Alone(cfg, Solo(s.rows, s.jobs[j], []), cs, 0);
            && t.rows == last.rows
            && t.jobs == s.jobs[j := last.job]
            && t.cookies == s.cookies + Issued(last.cookies)
  {
    actions, t := RunsTo(cfg, s, j, cs, 0, [], Alone(cfg, Solo(s.rows, s.jobs[j], []), cs, 0));
  }

  /** Any request can arrive in any state, with no cookie, one that does not decode or one that
      was issued, and then goes as its handler does. */
  lemma ArrivalIsARun(cfg: Config, s: System, j: nat, job: Job, cs: seq<Choice>)
    returns (actions: seq<Action>, t: System)
    requires j !in s.jobs && Ready(s, cs, 0) && Initial(job)
    requires job.incoming.Presented? ==> job.incoming.values in s.cookies
    ensures Leads(cfg, s, actions, t)
    ensures var last := Alone(cfg, Solo(s.rows, job, []), cs, 0);
            && t.rows == last.rows
            && t.jobs == s.jobs[j := last.job]
            && t.cookies == s.cookies + Issued(last.cookies)
  {
    var u := Do(cfg, s, Arrive(j, job));
    var rest;
    rest, t := AloneIsARun(cfg, u, j, cs);
    actions := [Arrive(j, job)] + rest;
    assert actions[1..] == rest;
  }

  // ---- what one client does stops no other

  datatype Actor = Clock | Client(j: nat) | Background

  function ActorOf(a: Action): Actor {
    match a
    case Advance(_) => Clock
    case Arrive(j, _) => Client(j)
    case Perform(j, _) => Client(j)
    case ReadClock => Background
    case Purge(_) => Background
  }

  /** The same action at another time. */
  function At(a: Action, now: Instant): Action {
    if a.Perform? then a.(choice := a.choice.(now := now)) else a
  }

  /** Nobody waits for anybody: whatever a request, the cleaner or the clock can do, it can
      still do after a step of another one. So statements of different requests interleave in
      every order, and time and writes can come between the cleaner's two steps. */
  lemma NothingBlocks(cfg: Config, s: System, a: Action, b: Action)
    requires Legal(s, a) && Legal(s, b) && ActorOf(a) != ActorOf(b)
    requires a.Perform? && b.Perform? ==> a.choice.id != b.choice.id
    ensures var t := Do(cfg, s, a); Legal(t, At(b, t.now))
  {
    if a.Perform? { TurnInsertsAtMost(cfg, s, a.j, a.choice); }
  }
}
