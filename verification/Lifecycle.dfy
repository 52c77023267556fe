/** One row of the interleaved system, seen alone: its life, its last writer, how overdue it
    can get; and the number of rows. */
module Lifecycle {
  import opened Basics
  import opened Database
  import opened Table
  import opened Protocol
  import opened System
  import opened Invariant
  import opened Histories

  // ---- the single-row machine

  datatype Life = Absent | Live(data: SessionData) | Gone

  datatype RowOp =
    | Stutter
    | Create(data: SessionData)
    | Rewrite(data: SessionData)
    | Remove
    | Expire(second: int)

  /** Once gone, nothing brings a row back. */
  function LifeStep(life: Life, op: RowOp): Life {
    match op
    case Stutter => life
    case Create(data) => if life.Absent? then Live(Stored(data)) else life
    case Rewrite(data) => if life.Live? && life.data.subject == data.subject then Live(Stored(data)) else life
    case Remove => if life.Live? then Gone else life
    case Expire(second) => if life.Live? && life.data.expiresAt < UnixTime(second) then Gone else life
  }

  /** The life of row `id` in a state of the system. */
  ghost function LifeOf(cfg: Config, s: System, id: Id): Life
    requires Coherent(cfg, s)
  {
    if id in s.rows then Live(Load(cfg.cipher, s.rows[id]).value) else if id in s.born then Gone else Absent
  }

  /** What a note means for row `id`. */
  function ProjectedNote(note: Note, id: Id): RowOp {
    if note.Inserted? && note.id == id then Create(note.data)
    else if note.Updated? && note.id == id then Rewrite(note.data)
    else if note.Deleted? && note.id == id then Remove
    else Stutter
  }

  /** What the k-th step does to row `id`: nothing, unless it is a statement that names `id`
      or a purge. */
  function Projected(cfg: Config, run: Run, k: int, id: Id): RowOp {
    if 0 <= k < |run.actions| && k < |run.states| && run.actions[k] == Purge(false) && run.states[k].cleaner.Purging?
    then Expire(UnixSecond(run.states[k].cleaner.instant))
    else ProjectedNote(NoteAt(cfg, run, k), id)
  }

  lemma CoherentAt(cfg: Config, run: Run, i: nat)
    requires Sound(cfg.cipher) && IsRun(cfg, run) && i < |run.states|
    ensures Coherent(cfg, run.states[i])
  {
    RunInv(cfg, run, i);
  }

  lemma StutterProjects(cfg: Config, s: System, id: Id, j: nat, e: Effect)
    requires Coherent(cfg, s) && EffectOk(s, e) && Coherent(cfg, Record(s, j, e))
    requires ProjectedNote(e.note, id).Stutter?
    ensures LifeOf(cfg, Record(s, j, e), id) == LifeOf(cfg, s, id)
  {
  }

  lemma EffectProjects(cfg: Config, s: System, id: Id, j: nat, e: Effect)
    requires Coherent(cfg, s) && EffectOk(s, e) && WriteOk(cfg, e) && Coherent(cfg, Record(s, j, e))
    ensures LifeOf(cfg, Record(s, j, e), id) == LifeStep(LifeOf(cfg, s, id), ProjectedNote(e.note, id))
  {
    if ProjectedNote(e.note, id).Stutter? {
      StutterProjects(cfg, s, id, j, e);
    } else if id in s.rows {
      assert Load(cfg.cipher, s.rows[id]) == Some(Stored(s.written[id]));
    }
  }

  lemma PurgeProjects(cfg: Config, s: System, t: System, id: Id)
    requires Coherent(cfg, s) && s.cleaner.Purging? && t == Sweep(s, s.cleaner.instant, false) && Coherent(cfg, t)
    ensures LifeOf(cfg, t, id) == LifeStep(LifeOf(cfg, s, id), Expire(UnixSecond(s.cleaner.instant)))
  {
  }

  lemma RequestProjects(cfg: Config, run: Run, k: nat, id: Id)
    requires Sound(cfg.cipher) && IsRun(cfg, run) && k < |run.actions| && run.actions[k].Perform?
    requires Coherent(cfg, run.states[k]) && Coherent(cfg, run.states[k + 1])
    ensures LifeOf(cfg, run.states[k + 1], id) ==
            LifeStep(LifeOf(cfg, run.states[k], id), ProjectedNote(NoteAt(cfg, run, k), id))
  {
    StepOfRun(cfg, run, k);
    var s, a := run.states[k], run.actions[k];
    EffectProjects(cfg, s, id, a.j, Step(cfg, s.rows, s.jobs[a.j], a.choice));
  }

  /** Every run of the whole system, projected onto one id, is a run of the single-row machine. */
  lemma Projection(cfg: Config, run: Run, k: nat, id: Id)
    requires Sound(cfg.cipher) && IsRun(cfg, run) && k < |run.actions|
    ensures Coherent(cfg, run.states[k]) && Coherent(cfg, run.states[k + 1])
    ensures LifeOf(cfg, run.states[k + 1], id) ==
            LifeStep(LifeOf(cfg, run.states[k], id), Projected(cfg, run, k, id))
  {
    CoherentAt(cfg, run, k);
    CoherentAt(cfg, run, k + 1);
    if run.actions[k].Perform? {
      RequestProjects(cfg, run, k, id);
    } else {
      assert StepAt(cfg, run, k);
      if run.actions[k] == Purge(false) { PurgeProjects(cfg, run.states[k], run.states[k + 1], id); }
    }
  }

  /** The request carries `id`, or is about to insert it. */
  predicate WorksOn(job: Job, c: Choice, id: Id) {
    || (SessionId in Carried(job) && Carried(job)[SessionId] == id)
    || (job.CallbackInsert? && c.id == id)
  }

  lemma StepWorksOn(cfg: Config, rows: Rows, job: Job, c: Choice)
    requires job.AuthOverwrite? ==> NamesOnly(job.values, job.id)
    ensures var note := Step(cfg, rows, job, c).note;
            note.Inserted? || note.Updated? || note.Deleted? ==> WorksOn(job, c, note.id)
  {
  }

  /** A request whose cookie names another session, and whose insertion has another id, is a
      stutter for this row: it leaves the row as it is, or absent. */
  lemma OthersStutter(cfg: Config, run: Run, k: nat, id: Id)
    requires Sound(cfg.cipher) && IsRun(cfg, run) && k < |run.actions| && run.actions[k].Perform?
    requires var s, a := run.states[k], run.actions[k]; a.j in s.jobs && !WorksOn(s.jobs[a.j], a.choice, id)
    ensures Projected(cfg, run, k, id) == Stutter
    ensures var s, t := run.states[k], run.states[k + 1];
            (id in t.rows <==> id in s.rows) && (id in s.rows ==> t.rows[id] == s.rows[id])
  {
    RunInv(cfg, run, k);
    StepOfRun(cfg, run, k);
    var s, a := run.states[k], run.actions[k];
    assert JobOk(s, s.jobs[a.j]);
    StepWorksOn(cfg, s.rows, s.jobs[a.j], a.choice);
  }

  ghost predicate Reaches(a: Life, b: Life) {
    || a == b
    || a.Absent?
    || (a.Live? && b.Live? && a.data.subject == b.data.subject)
    || (a.Live? && b.Gone?)
  }

  lemma ReachesStep(a: Life, b: Life, op: RowOp)
    requires Reaches(a, b)
    ensures Reaches(a, LifeStep(b, op))
  {
  }

  /** From absent to live with one subject to gone, and never back. */
  lemma {:induction false} LifeGoesForward(cfg: Config, run: Run, i: nat, k: nat, id: Id)
    requires Sound(cfg.cipher) && IsRun(cfg, run) && i <= k < |run.states|
    ensures Coherent(cfg, run.states[i]) && Coherent(cfg, run.states[k])
    ensures Reaches(LifeOf(cfg, run.states[i], id), LifeOf(cfg, run.states[k], id))
    decreases k
  {
    if i == k {
      CoherentAt(cfg, run, i);
    } else {
      LifeGoesForward(cfg, run, i, k - 1, id);
      Projection(cfg, run, k - 1, id);
      ReachesStep(LifeOf(cfg, run.states[i], id), LifeOf(cfg, run.states[k - 1], id), Projected(cfg, run, k - 1, id));
    }
  }

  /** A removed row stays removed: no later read finds it, and the write half of an Update
      whose read half found it changes no row. */
  lemma DeadStaysDead(cfg: Config, run: Run, i: nat, k: nat, id: Id)
    requires Sound(cfg.cipher) && IsRun(cfg, run) && i <= k < |run.states|
    requires id in run.states[i].born && id !in run.states[i].rows
    ensures var s := run.states[k];
            && id in s.born && id !in s.rows
            && (forall fault :: Get(cfg.cipher, s.rows, id, fault).Err?)
            && (forall data, nonces, fault ::
                  var r := Overwrite(cfg.cipher, s.rows, id, data, nonces, fault); r.Ok? ==> r.value == s.rows)
  {
    LifeGoesForward(cfg, run, i, k, id);
  }

  lemma LoadKeepsSubject(cipher: Option<Cipher>, row: Row)
    ensures Load(cipher, row).Some? ==> Load(cipher, row).value.subject == row.subject
  {
  }

  lemma InsertIsFresh(cfg: Config, run: Run, k: nat)
    requires Sound(cfg.cipher) && IsRun(cfg, run) && k < |run.actions| && NoteAt(cfg, run, k).Inserted?
    ensures Coherent(cfg, run.states[k]) && LifeOf(cfg, run.states[k], NoteAt(cfg, run, k).id) == Absent
  {
    StepOfRun(cfg, run, k);
    CoherentAt(cfg, run, k);
  }

  lemma InsertMakesLive(cfg: Config, run: Run, k: nat)
    requires Sound(cfg.cipher) && IsRun(cfg, run) && k < |run.actions| && NoteAt(cfg, run, k).Inserted?
    ensures Coherent(cfg, run.states[k + 1])
    ensures LifeOf(cfg, run.states[k + 1], NoteAt(cfg, run, k).id) == Live(Stored(NoteAt(cfg, run, k).data))
  {
    InsertIsFresh(cfg, run, k);
    Projection(cfg, run, k, NoteAt(cfg, run, k).id);
  }

  /** However Updates, Deletes and Purges interleave, a live row keeps the subject of its insertion. */
  lemma SubjectImmutable(cfg: Config, run: Run, k: nat, i: nat)
    requires Sound(cfg.cipher) && IsRun(cfg, run) && k < i < |run.states| && NoteAt(cfg, run, k).Inserted?
    ensures var id := NoteAt(cfg, run, k).id;
            id in run.states[i].rows ==> run.states[i].rows[id].subject == NoteAt(cfg, run, k).data.subject
  {
    var id := NoteAt(cfg, run, k).id;
    InsertMakesLive(cfg, run, k);
    LifeGoesForward(cfg, run, k + 1, i, id);
    if id in run.states[i].rows { LoadKeepsSubject(cfg.cipher, run.states[i].rows[id]); }
  }

  /** The cleaner removes exactly the sessions whose stored expiry is below the second in which
      it read the clock, with or without a refresh token: all of them had expired, and all that
      were overdue by a second go. */
  lemma CleanerRemovesExpired(cfg: Config, run: Run, k: nat, id: Id)
    requires Sound(cfg.cipher) && IsRun(cfg, run) && k < |run.actions| && run.actions[k] == Purge(false)
    requires id in run.states[k].rows
    ensures Coherent(cfg, run.states[k]) && run.states[k].cleaner.Purging?
    ensures var s, t := run.states[k], run.states[k + 1];
            var data := LifeOf(cfg, s, id).data;
            && (id !in t.rows <==> data.expiresAt < UnixTime(UnixSecond(s.cleaner.instant)))
            && (id !in t.rows ==> IsExpired(data, s.now))
            && (data.expiresAt + SECOND <= s.cleaner.instant ==> id !in t.rows)
  {
    RunInv(cfg, run, k);
    assert StepAt(cfg, run, k);
    Projection(cfg, run, k, id);
    UnixSecondFloors(run.states[k].cleaner.instant);
  }

  // ---- the last writer

  ghost predicate WritesAt(cfg: Config, run: Run, k: int, id: Id) {
    && 0 <= k < |run.states|
    && var note := NoteAt(cfg, run, k);
    && (note.Inserted? || (note.Updated? && note.id in run.states[k].rows))
    && note.id == id
  }

  /** Step `k` is the last one before state `i` that wrote row `id`. */
  ghost predicate LastWrite(cfg: Config, run: Run, i: int, id: Id, k: int) {
    && 0 <= k < i && WritesAt(cfg, run, k, id)
    && forall m :: k < m < i ==> !WritesAt(cfg, run, m, id)
  }

  lemma StepWrites(cfg: Config, run: Run, k: nat, id: Id)
    requires Sound(cfg.cipher) && IsRun(cfg, run) && k < |run.actions|
    ensures var s, t, note := run.states[k], run.states[k + 1], NoteAt(cfg, run, k);
            if WritesAt(cfg, run, k, id)
            then id in t.rows ==> Load(cfg.cipher, t.rows[id]) == Some(Stored(note.data)) && note.data in s.received
            else id in t.rows ==> id in s.rows && t.rows[id] == s.rows[id]
  {
    StepOfRun(cfg, run, k);
  }

  lemma LastWriteStays(cfg: Config, run: Run, i: nat, id: Id, k: int)
    requires LastWrite(cfg, run, i, id, k) && !WritesAt(cfg, run, i, id)
    ensures LastWrite(cfg, run, i + 1, id, k)
  {
  }

  lemma WriteIsLast(cfg: Config, run: Run, i: nat, id: Id)
    requires Sound(cfg.cipher) && IsRun(cfg, run) && i < |run.actions|
    requires WritesAt(cfg, run, i, id) && id in run.states[i + 1].rows
    ensures LastWrite(cfg, run, i + 1, id, i)
    ensures Load(cfg.cipher, run.states[i + 1].rows[id]) == Some(Stored(NoteAt(cfg, run, i).data))
    ensures ReceivedBefore(cfg, run, i, NoteAt(cfg, run, i).data)
  {
    StepWrites(cfg, run, i, id);
    ReceivedExplained(cfg, run, i, NoteAt(cfg, run, i).data);
  }

  /** Racing refreshes never mix: a live row is, in all five columns, the record of its last
      writer, and that record was made from a single answer of the provider. */
  lemma {:induction false} RowIsLastWrite(cfg: Config, run: Run, i: nat, id: Id) returns (k: int)
    requires Sound(cfg.cipher) && IsRun(cfg, run) && i < |run.states| && id in run.states[i].rows
    ensures LastWrite(cfg, run, i, id, k)
    ensures Load(cfg.cipher, run.states[i].rows[id]) == Some(Stored(NoteAt(cfg, run, k).data))
    ensures ReceivedBefore(cfg, run, k, NoteAt(cfg, run, k).data)
    decreases i
  {
    if i == 0 {
      k := 0;
    } else if WritesAt(cfg, run, i - 1, id) {
      k := i - 1;
      WriteIsLast(cfg, run, i - 1, id);
    } else {
      StepWrites(cfg, run, i - 1, id);
      k := RowIsLastWrite(cfg, run, i - 1, id);
      LastWriteStays(cfg, run, i - 1, id, k);
    }
  }

  // ---- staleness

  /** A purge succeeded after step `k` and before state `i`. */
  ghost predicate PurgedSince(run: Run, k: int, i: int) {
    exists m :: k < m < i && 0 <= m < |run.actions| && run.actions[m] == Purge(false)
  }

  lemma StepBackdated(cfg: Config, run: Run, k: nat, id: Id)
    requires Sound(cfg.cipher) && IsRun(cfg, run) && k < |run.actions|
    ensures var s, t := run.states[k], run.states[k + 1];
            id in t.backdated <==>
              if WritesAt(cfg, run, k, id) then Below(NoteAt(cfg, run, k).data.expiresAt, s.lastPurge)
              else id in s.backdated && run.actions[k] != Purge(false)
  {
    StepOfRun(cfg, run, k);
  }

  lemma {:induction false} BackdatedExplained(cfg: Config, run: Run, i: nat, id: Id, k: nat)
    requires Sound(cfg.cipher) && IsRun(cfg, run) && i < |run.states| && LastWrite(cfg, run, i, id, k)
    ensures id in run.states[i].backdated <==>
            Below(NoteAt(cfg, run, k).data.expiresAt, run.states[k].lastPurge) && !PurgedSince(run, k, i)
    decreases i
  {
    StepBackdated(cfg, run, i - 1, id);
    if k < i - 1 {
      BackdatedExplained(cfg, run, i - 1, id, k);
      assert PurgedSince(run, k, i) <==> PurgedSince(run, k, i - 1) || run.actions[i - 1] == Purge(false);
    }
  }

  lemma RecordKeepsLastPurge(s: System, j: nat, e: Effect)
    ensures Record(s, j, e).lastPurge == s.lastPurge
  {
  }

  lemma StepKeepsLastPurge(cfg: Config, s: System, a: Action)
    requires Legal(s, a) && a != Purge(false)
    ensures Do(cfg, s, a).lastPurge == s.lastPurge
  {
    if a.Perform? { RecordKeepsLastPurge(s, a.j, Step(cfg, s.rows, s.jobs[a.j], a.choice)); }
  }

  /** Only a purge moves the instant of the last purge. */
  lemma {:induction false} LastPurgeStays(cfg: Config, run: Run, k: nat, i: nat)
    requires IsRun(cfg, run) && k < i < |run.states| && run.actions[k] != Purge(false) && !PurgedSince(run, k, i)
    ensures run.states[i].lastPurge == run.states[k].lastPurge
    decreases i
  {
    assert StepAt(cfg, run, i - 1);
    if k < i - 1 {
      assert PurgedSince(run, k, i) <==> PurgedSince(run, k, i - 1) || run.actions[i - 1] == Purge(false);
      LastPurgeStays(cfg, run, k, i - 1);
    }
    StepKeepsLastPurge(cfg, run.states[i - 1], run.actions[i - 1]);
  }

  /** A live row is below the last purge exactly when its last write already was and nothing
      has been purged since. With the last purge at most `period` ago, a row is overdue by less
      than `period` and one second; a late one by as much more as its last write was behind the
      second of the purge before it. */
  lemma StalenessBound(cfg: Config, run: Run, i: nat, id: Id, k: nat, period: int)
    requires Sound(cfg.cipher) && IsRun(cfg, run) && i < |run.states| && id in run.states[i].rows
    requires LastWrite(cfg, run, i, id, k)
    requires run.states[i].lastPurge.Some? && run.states[i].now - run.states[i].lastPurge.value <= period
    ensures Load(cfg.cipher, run.states[i].rows[id]).Some?
    ensures var s := run.states[i];
            var expiry := Load(cfg.cipher, s.rows[id]).value.expiresAt;
            var late := Below(NoteAt(cfg, run, k).data.expiresAt, run.states[k].lastPurge) && !PurgedSince(run, k, i);
            && (late <==> expiry < UnixTime(UnixSecond(s.lastPurge.value)))
            && (s.now - expiry < period + SECOND +
                if late then UnixTime(UnixSecond(run.states[k].lastPurge.value)) - expiry else 0)
  {
    RunInv(cfg, run, i);
    BackdatedExplained(cfg, run, i, id, k);
    if !PurgedSince(run, k, i) { LastPurgeStays(cfg, run, k, i); }
    var s := run.states[i];
    assert Load(cfg.cipher, s.rows[id]).value.expiresAt == UnixTime(s.rows[id].expiresAt);
    UnixSecondFloors(s.lastPurge.value);
  }

  // ---- conservation

  function Inserts(cfg: Config, run: Run, i: nat): nat {
    if i == 0 then 0 else
    Inserts(cfg, run, i - 1) + if NoteAt(cfg, run, i - 1).Inserted? then 1 else 0
  }

  /** Logouts whose DELETE found its row. */
  function Logouts(cfg: Config, run: Run, i: nat): nat
    requires i <= |run.states|
  {
    if i == 0 then 0 else
    var note := NoteAt(cfg, run, i - 1);
    Logouts(cfg, run, i - 1) + if note.Deleted? && note.id in run.states[i - 1].rows then 1 else 0
  }

  /** The rows that the purge under way is to delete. */
  function Doomed(s: System): set<Id> {
    if s.cleaner.Idle? then {} else
    set id | id in s.rows && s.rows[id].expiresAt < UnixSecond(s.cleaner.instant)
  }

  /** Rows the cleaner removed. */
  function Purged(run: Run, i: nat): nat
    requires i <= |run.states| && i <= |run.actions|
  {
    if i == 0 then 0 else
    Purged(run, i - 1) + if run.actions[i - 1] == Purge(false) then |Doomed(run.states[i - 1])| else 0
  }

  lemma EffectKeys(s: System, e: Effect)
    requires EffectOk(s, e) && s.rows.Keys <= s.born.Keys
    ensures e.note.Inserted? ==> e.rows.Keys == s.rows.Keys + {e.note.id} && e.note.id !in s.rows.Keys
    ensures e.note.Deleted? ==> e.rows.Keys == s.rows.Keys - {e.note.id}
    ensures !e.note.Inserted? && !e.note.Deleted? ==> e.rows.Keys == s.rows.Keys
  {
  }

  lemma {:induction false} InsertsCounted(cfg: Config, run: Run, i: nat)
    requires Sound(cfg.cipher) && IsRun(cfg, run) && i < |run.states|
    ensures |run.states[i].born| == Inserts(cfg, run, i)
    decreases i
  {
    if i > 0 {
      InsertsCounted(cfg, run, i - 1);
      StepHistory(cfg, run, i - 1);
    }
  }

  lemma NoteLogsOut(s: System, j: nat, e: Effect)
    ensures Record(s, j, e).loggedOut ==
            s.loggedOut + if e.note.Deleted? && e.note.id in s.rows then {e.note.id} else {}
  {
  }

  lemma LogoutsStep(cfg: Config, run: Run, k: nat)
    requires Sound(cfg.cipher) && IsRun(cfg, run) && k < |run.actions|
    ensures var s, t, note := run.states[k], run.states[k + 1], NoteAt(cfg, run, k);
            && t.loggedOut == s.loggedOut + (if note.Deleted? && note.id in s.rows then {note.id} else {})
            && (note.Deleted? && note.id in s.rows ==> note.id !in s.loggedOut)
  {
    RunInv(cfg, run, k);
    assert StepAt(cfg, run, k);
    var s, a := run.states[k], run.actions[k];
    if a.Perform? { NoteLogsOut(s, a.j, Step(cfg, s.rows, s.jobs[a.j], a.choice)); }
  }

  lemma {:induction false} LogoutsCounted(cfg: Config, run: Run, i: nat)
    requires Sound(cfg.cipher) && IsRun(cfg, run) && i < |run.states|
    ensures |run.states[i].loggedOut| == Logouts(cfg, run, i)
    decreases i
  {
    if i > 0 {
      LogoutsCounted(cfg, run, i - 1);
      LogoutsStep(cfg, run, i - 1);
    }
  }

  lemma SweepPurges(s: System, fault: bool)
    requires s.cleaner.Purging? && s.rows.Keys !! s.purged
    ensures Sweep(s, s.cleaner.instant, fault).purged == s.purged + (if fault then {} else Doomed(s))
    ensures s.purged !! Doomed(s)
  {
  }

  lemma RecordPurgesNone(s: System, j: nat, e: Effect)
    ensures Record(s, j, e).purged == s.purged
  {
  }

  lemma PurgedStep(cfg: Config, s: System, a: Action)
    requires Conserved(s) && Legal(s, a)
    ensures Do(cfg, s, a).purged == s.purged + (if a == Purge(false) then Doomed(s) else {})
    ensures s.purged !! Doomed(s)
  {
    match a
    case Perform(j, c) => RecordPurgesNone(s, j, Step(cfg, s.rows, s.jobs[j], c));
    case Purge(fault) => SweepPurges(s, fault);
    case _ =>
  }

  lemma ConservedAt(cfg: Config, run: Run, i: nat)
    requires Sound(cfg.cipher) && IsRun(cfg, run) && i < |run.states|
    ensures Conserved(run.states[i])
  {
    RunInv(cfg, run, i);
  }

  lemma PurgedGrows(cfg: Config, run: Run, k: nat)
    requires Sound(cfg.cipher) && IsRun(cfg, run) && k < |run.actions|
    ensures |run.states[k + 1].purged| ==
            |run.states[k].purged| + if run.actions[k] == Purge(false) then |Doomed(run.states[k])| else 0
  {
    ConservedAt(cfg, run, k);
    assert StepAt(cfg, run, k);
    PurgedStep(cfg, run.states[k], run.actions[k]);
  }

  lemma {:induction false} PurgedCounted(cfg: Config, run: Run, i: nat)
    requires Sound(cfg.cipher) && IsRun(cfg, run) && i < |run.states|
    ensures |run.states[i].purged| == Purged(run, i)
    decreases i
  {
    if i > 0 {
      PurgedCounted(cfg, run, i - 1);
      PurgedGrows(cfg, run, i - 1);
    }
  }

  /** The ids in each history set are as many as the run's steps put there: insertions, logouts
      that found their row, rows that purges found below their second. So the live rows are the
      insertions less both kinds of removal. */
  lemma RowsCounted(cfg: Config, run: Run, i: nat)
    requires Sound(cfg.cipher) && IsRun(cfg, run) && i < |run.states|
    ensures var s := run.states[i];
            && |s.born| == Inserts(cfg, run, i)
            && |s.loggedOut| == Logouts(cfg, run, i)
            && |s.purged| == Purged(run, i)
            && |s.rows| == Inserts(cfg, run, i) - Logouts(cfg, run, i) - Purged(run, i)
  {
    InsertsCounted(cfg, run, i);
    LogoutsCounted(cfg, run, i);
    PurgedCounted(cfg, run, i);
    ConservedAt(cfg, run, i);
    SplitCounts(run.states[i]);
  }

  lemma SplitCounts(s: System)
    requires Conserved(s)
    ensures |s.born| == |s.rows| + |s.loggedOut| + |s.purged|
  {
    assert |s.born| == |s.born.Keys| && |s.rows| == |s.rows.Keys|;
    assert |s.rows.Keys + s.loggedOut| == |s.rows.Keys| + |s.loggedOut|;
  }

  /** In every state the ids ever inserted are the live, the logged-out and the purged ones,
      each in one of the three, and the live rows are the insertions less the removals. */
  lemma Conservation(cfg: Config, run: Run, i: nat)
    requires Sound(cfg.cipher) && IsRun(cfg, run) && i < |run.states|
    ensures var s := run.states[i];
            && s.rows.Keys !! s.loggedOut !! s.purged
            && s.born.Keys == s.rows.Keys + s.loggedOut + s.purged
            && |s.rows| == Inserts(cfg, run, i) - Logouts(cfg, run, i) - Purged(run, i)
  {
    RunInv(cfg, run, i);
    RowsCounted(cfg, run, i);
  }

  /** A callback, also one that logs in again over an existing session, adds its own row and
      removes none; the only requests that remove rows are logouts. */
  lemma OnlyLogoutRemoves(cfg: Config, run: Run, k: nat)
    requires Sound(cfg.cipher) && IsRun(cfg, run) && k < |run.actions| && run.actions[k].Perform?
    ensures var s, t, note := run.states[k], run.states[k + 1], NoteAt(cfg, run, k);
            && (note.Inserted? ==> t.rows.Keys == s.rows.Keys + {note.id} && note.id !in s.rows)
            && (!note.Deleted? ==> s.rows.Keys <= t.rows.Keys)
  {
    StepOfRun(cfg, run, k);
    CoherentAt(cfg, run, k);
    var s, a := run.states[k], run.actions[k];
    EffectKeys(s, Step(cfg, s.rows, s.jobs[a.j], a.choice));
  }
}
