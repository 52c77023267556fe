/** Many clients, the cleaner and the clock, interleaved statement by statement. */
module System {
  import opened Basics
  import opened Database
  import opened Table
  import opened Protocol

  datatype Cleaner = Idle | Purging(instant: Instant)

  /** How a row came to be: the subject it was inserted with, and the state value in the
      response its callback accepted. */
  datatype Birth = Birth(subject: string, response: string)

  datatype System = System(
    rows: Rows,
    now: Instant,
    jobs: map<nat, Job>,           // every request so far; the finished ones stay
    cleaner: Cleaner,
    cookies: set<Values>,          // the values of every cookie issued so far
    // history
    born: map<Id, Birth>,          // every id inserted so far
    loggedOut: set<Id>,            // ids whose row a logout deleted
    purged: set<Id>,               // ids whose row the cleaner deleted
    states: set<string>,           // states generated by login
    received: set<SessionData>,    // records made from the provider's token bundles
    written: map<Id, SessionData>, // the last record written to each row
    lastPurge: Option<Instant>,    // the instant read by the last successful purge
    backdated: set<Id>             // rows whose last write was already below that purge
  )

  datatype Action =
    | Advance(now: Instant)
    | Arrive(j: nat, job: Job)
    | Perform(j: nat, choice: Choice)
    | ReadClock
    | Purge(fault: bool)

  predicate Initial(job: Job) {
    job.Login? || job.CallbackLoad? || job.LogoutLoad? || job.AuthLoad?
  }

  predicate Init(s: System) {
    && s.rows == map[] && s.jobs == map[] && s.cleaner == Idle && s.cookies == {}
    && s.born == map[] && s.loggedOut == {} && s.purged == {} && s.states == {} && s.received == {}
    && s.written == map[] && s.lastPurge == None && s.backdated == {}
    && s.now >= 0
  }

  /** Clients replay issued cookies but forge none; time does not go back; uuid.New returns
      no id twice; a generated state is never empty. */
  predicate Legal(s: System, a: Action) {
    match a
    case Advance(now) => now >= s.now
    case Arrive(j, job) =>
      j !in s.jobs && Initial(job) && (job.incoming.Presented? ==> job.incoming.values in s.cookies)
    case Perform(j, c) =>
      j in s.jobs && !s.jobs[j].Finished? && c.now == s.now && c.id !in s.born && c.state != ""
    case ReadClock => s.cleaner.Idle?
    case Purge(fault) => s.cleaner.Purging?
  }

  function Do(cfg: Config, s: System, a: Action): System
    requires Legal(s, a)
  {
    match a
    case Advance(now) => s.(now := now)
    case Arrive(j, job) => s.(jobs := s.jobs[j := job])
    case Perform(j, c) => Record(s, j, Step(cfg, s.rows, s.jobs[j], c))
    case ReadClock => s.(cleaner := Purging(s.now))
    case Purge(fault) => Sweep(s, s.cleaner.instant, fault)
  }

  function Record(s: System, j: nat, e: Effect): System {
    Remember(s, e.note).(
      rows := e.rows,
      jobs := s.jobs[j := e.job],
      cookies := s.cookies + if e.cookie.Some? then {e.cookie.value.values} else {}
    )
  }

  function Remember(s: System, note: Note): System {
    match note
    case Silent => s
    case Generated(state) => s.(states := s.states + {state})
    case Received(data) => s.(received := s.received + {data})
    case Inserted(id, data, response) =>
      s.(born := s.born[id := Birth(data.subject, response)],
         written := s.written[id := data],
         backdated := Backdate(s, id, data))
    case Updated(id, data) =>
      if id !in s.rows then s
      else s.(written := s.written[id := data], backdated := Backdate(s, id, data))
    case Deleted(id) => if id !in s.rows then s else s.(loggedOut := s.loggedOut + {id})
  }

  function Backdate(s: System, id: Id, data: SessionData): set<Id> {
    if Below(data.expiresAt, s.lastPurge) then s.backdated + {id} else s.backdated - {id}
  }

  predicate Below(t: Instant, purge: Option<Instant>) {
    purge.Some? && UnixSecond(t) < UnixSecond(purge.value)
  }

  function Sweep(s: System, instant: Instant, fault: bool): System {
    var r := DeleteBelow(s.rows, UnixSecond(instant), fault);
    if r.Err? then s.(cleaner := Idle)
    else s.(rows := r.value, cleaner := Idle, lastPurge := Some(instant), backdated := {},
            purged := s.purged + (s.rows.Keys - r.value.Keys))
  }

  // ---- runs

  datatype Run = Run(states: seq<System>, actions: seq<Action>)

  /** The i-th action is legal and leads to the next state. */
  ghost predicate StepAt(cfg: Config, run: Run, i: int)
    requires 0 <= i < |run.actions| < |run.states|
  {
    Legal(run.states[i], run.actions[i]) && run.states[i + 1] == Do(cfg, run.states[i], run.actions[i])
  }

  ghost predicate IsRun(cfg: Config, run: Run) {
    && |run.states| == |run.actions| + 1
    && Init(run.states[0])
    && forall i {:trigger StepAt(cfg, run, i)} :: 0 <= i < |run.actions| ==> StepAt(cfg, run, i)
  }

  /** The actions are legal one after the other and lead from `s` to `t`. */
  ghost predicate Leads(cfg: Config, s: System, actions: seq<Action>, t: System)
    decreases |actions|
  {
    if actions == [] then s == t
    else Legal(s, actions[0]) && Leads(cfg, Do(cfg, s, actions[0]), actions[1..], t)
  }
}
