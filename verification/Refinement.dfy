/** Whole sequences of SessionImpl calls: the encrypted table with whole-second expiries
    behaves as a plain map from id to SessionData. */
module Refinement {
  import opened Basics
  import opened Database
  import opened Table

  /** One call with everything its environment decides: the id uuid returns, the nonces,
      the instant Purge reads and the failures of the engine. */
  datatype Op =
    | OpAdd(id: Id, data: SessionData, nonces: Nonces, fault: bool)
    | OpGet(id: Id, fault: bool)
    | OpUpdate(id: Id, data: SessionData, nonces: Nonces, readFault: bool, writeFault: bool)
    | OpDelete(id: Id, fault: bool)
    | OpPurge(now: Instant, fault: bool)

  datatype Reply = Added(id: Id) | Got(data: SessionData) | Accepted | Failed(error: DbError)

  function Answer(rows: Rows, r: Result<Rows, DbError>, ok: Reply): (Rows, Reply) {
    if r.Err? then (rows, Failed(r.error)) else (r.value, ok)
  }

  function Apply(cipher: Option<Cipher>, rows: Rows, op: Op): (Rows, Reply) {
    match op
    case OpAdd(id, data, nonces, fault) => Answer(rows, Add(cipher, rows, id, data, nonces, fault), Added(id))
    case OpGet(id, fault) =>
      var r := Get(cipher, rows, id, fault);
      (rows, if r.Err? then Failed(r.error) else Got(r.value))
    case OpUpdate(id, data, nonces, readFault, writeFault) =>
      var refused := Compare(cipher, rows, id, data, readFault);
      if refused.Some? then (rows, Failed(refused.value))
      else Answer(rows, Overwrite(cipher, rows, id, data, nonces, writeFault), Accepted)
    case OpDelete(id, fault) => Answer(rows, DeleteWhere(rows, id, fault), Accepted)
    case OpPurge(now, fault) => Answer(rows, DeleteBelow(rows, UnixSecond(now), fault), Accepted)
  }

  /** The same calls on the plain map: no cipher, no nonces, no columns. What remains of the
      environment is which part of the call broke. */
  datatype MapOp =
    | MapAdd(id: Id, data: SessionData, unsealed: bool, broken: bool)
    | MapGet(id: Id, broken: bool)
    | MapUpdate(id: Id, data: SessionData, unread: bool, unsealed: bool, broken: bool)
    | MapDelete(id: Id, broken: bool)
    | MapPurge(now: Instant, broken: bool)

  type SessionMap = map<Id, SessionData>

  function ApplyMap(encrypted: bool, m: SessionMap, op: MapOp): (SessionMap, Reply) {
    match op
    case MapAdd(id, data, unsealed, broken) =>
      if unsealed then (m, Failed(CipherFailed))
      else if broken || id in m || !Admissible(encrypted, data) then (m, Failed(ExecFailed))
      else (m[id := Stored(data)], Added(id))
    case MapGet(id, broken) =>
      (m, if broken then Failed(ExecFailed) else if id in m then Got(m[id]) else Failed(NoRows))
    case MapUpdate(id, data, unread, unsealed, broken) =>
      if unread then (m, Failed(ExecFailed))
      else if id !in m then (m, Failed(NoRows))
      else if data.subject != m[id].subject then (m, Failed(SessionsMismatch))
      else if unsealed then (m, Failed(CipherFailed))
      else if broken || !Admissible(encrypted, data) then (m, Failed(ExecFailed))
      else (m[id := Stored(data)], Accepted)
    case MapDelete(id, broken) => if broken then (m, Failed(ExecFailed)) else (m - {id}, Accepted)
    case MapPurge(now, broken) =>
      if broken then (m, Failed(ExecFailed))
      else (map id | id in m && !(m[id].expiresAt < UnixTime(UnixSecond(now))) :: m[id], Accepted)
  }

  function Erase(cipher: Option<Cipher>, op: Op): MapOp {
    match op
    case OpAdd(id, data, nonces, fault) => MapAdd(id, data, !Encrypts(cipher, data, nonces), fault)
    case OpGet(id, fault) => MapGet(id, fault)
    case OpUpdate(id, data, nonces, readFault, writeFault) =>
      MapUpdate(id, data, readFault, !Encrypts(cipher, data, nonces), writeFault)
    case OpDelete(id, fault) => MapDelete(id, fault)
    case OpPurge(now, fault) => MapPurge(now, fault)
  }

  ghost predicate Agrees(cipher: Option<Cipher>, rows: Rows, op: Op)
    requires Readable(cipher, rows)
  {
    var (rows', reply) := Apply(cipher, rows, op);
    && Readable(cipher, rows')
    && (View(cipher, rows'), reply) == ApplyMap(cipher.Some?, View(cipher, rows), Erase(cipher, op))
    && (reply.Failed? ==> rows' == rows)
  }

  lemma UpdateAgrees(cipher: Option<Cipher>, rows: Rows, op: Op)
    requires Sound(cipher) && Readable(cipher, rows) && op.OpUpdate?
    ensures Agrees(cipher, rows, op)
  {
    GetRefines(cipher, rows, op.id, op.readFault);
    OverwriteRefines(cipher, rows, op.id, op.data, op.nonces, op.writeFault);
  }

  lemma PurgeAgrees(cipher: Option<Cipher>, rows: Rows, op: Op)
    requires Readable(cipher, rows) && op.OpPurge?
    ensures Agrees(cipher, rows, op)
  {
    PurgeRefines(cipher, rows, UnixSecond(op.now));
  }

  /** One call: same reply, corresponding maps, and nothing changes when the call fails. */
  lemma CallRefines(cipher: Option<Cipher>, rows: Rows, op: Op)
    requires Sound(cipher) && Readable(cipher, rows)
    ensures Agrees(cipher, rows, op)
  {
    match op
    case OpAdd(id, data, nonces, fault) => AddRefines(cipher, rows, id, data, nonces, fault);
    case OpGet(id, fault) => GetRefines(cipher, rows, id, fault);
    case OpUpdate(_, _, _, _, _) => UpdateAgrees(cipher, rows, op);
    case OpDelete(id, fault) => DeleteRefines(cipher, rows, id);
    case OpPurge(_, _) => PurgeAgrees(cipher, rows, op);
  }

  function Run(cipher: Option<Cipher>, rows: Rows, ops: seq<Op>): (Rows, seq<Reply>)
    decreases |ops|
  {
    if ops == [] then (rows, []) else
    var (next, reply) := Apply(cipher, rows, ops[0]);
    var (last, replies) := Run(cipher, next, ops[1..]);
    (last, [reply] + replies)
  }

  function RunMap(encrypted: bool, m: SessionMap, ops: seq<MapOp>): (SessionMap, seq<Reply>)
    decreases |ops|
  {
    if ops == [] then (m, []) else
    var (next, reply) := ApplyMap(encrypted, m, ops[0]);
    var (last, replies) := RunMap(encrypted, next, ops[1..]);
    (last, [reply] + replies)
  }

  function EraseAll(cipher: Option<Cipher>, ops: seq<Op>): seq<MapOp> {
    seq(|ops|, i requires 0 <= i < |ops| => Erase(cipher, ops[i]))
  }

  lemma {:induction false} SequenceRefines(cipher: Option<Cipher>, rows: Rows, ops: seq<Op>)
    requires Sound(cipher) && Readable(cipher, rows)
    ensures var (rows', replies) := Run(cipher, rows, ops);
            && Readable(cipher, rows')
            && (View(cipher, rows'), replies) ==
               RunMap(cipher.Some?, View(cipher, rows), EraseAll(cipher, ops))
    decreases |ops|
  {
    if ops == [] {
    } else {
      CallRefines(cipher, rows, ops[0]);
      assert EraseAll(cipher, ops)[1..] == EraseAll(cipher, ops[1..]);
      SequenceRefines(cipher, Apply(cipher, rows, ops[0]).0, ops[1..]);
    }
  }

  /** Neither the nonces nor the choice of cipher shows in any reply. */
  lemma RepliesIgnoreNonces(c1: Option<Cipher>, c2: Option<Cipher>, ops1: seq<Op>, ops2: seq<Op>)
    requires Sound(c1) && Sound(c2) && c1.Some? == c2.Some?
    requires EraseAll(c1, ops1) == EraseAll(c2, ops2)
    ensures Run(c1, map[], ops1).1 == Run(c2, map[], ops2).1
  {
    SequenceRefines(c1, map[], ops1);
    SequenceRefines(c2, map[], ops2);
  }

  lemma WriteStores(cipher: Option<Cipher>, rows: Rows, op: Op)
    requires Sound(cipher) && Readable(cipher, rows)
    requires op.OpAdd? || op.OpUpdate?
    requires !Apply(cipher, rows, op).1.Failed?
    ensures var rows' := Apply(cipher, rows, op).0;
            && Readable(cipher, rows')
            && View(cipher, rows') == View(cipher, rows)[op.id := Stored(op.data)]
            && Admissible(cipher.Some?, op.data)
  {
    CallRefines(cipher, rows, op);
  }

  lemma StoredReadsBack(cipher: Option<Cipher>, rows: Rows, id: Id, data: SessionData, nonces: Nonces)
    requires Sound(cipher) && Readable(cipher, rows) && Admissible(cipher.Some?, data)
    requires id in rows && View(cipher, rows)[id] == Stored(data)
    ensures Apply(cipher, rows, OpGet(id, false)).1 == Got(Stored(data))
    ensures var (again, reply) := Apply(cipher, rows, OpUpdate(id, Stored(data), nonces, false, false));
            && (reply == Accepted <==> Encrypts(cipher, Stored(data), nonces))
            && Readable(cipher, again)
            && View(cipher, again) == View(cipher, rows)
  {
  }

  /** Reading straight after a successful write gives the written record with its expiry
      floored, and writing that record back changes nothing that can be read. */
  lemma WriteThenRead(cipher: Option<Cipher>, rows: Rows, op: Op, nonces: Nonces)
    requires Sound(cipher) && Readable(cipher, rows)
    requires op.OpAdd? || op.OpUpdate?
    requires !Apply(cipher, rows, op).1.Failed?
    ensures var rows' := Apply(cipher, rows, op).0;
            && Apply(cipher, rows', OpGet(op.id, false)).1 == Got(Stored(op.data))
            && var (again, reply) := Apply(cipher, rows', OpUpdate(op.id, Stored(op.data), nonces, false, false));
            && (reply == Accepted <==> Encrypts(cipher, Stored(op.data), nonces))
            && Readable(cipher, again) && Readable(cipher, rows')
            && View(cipher, again) == View(cipher, rows')
  {
    WriteStores(cipher, rows, op);
    StoredReadsBack(cipher, Apply(cipher, rows, op).0, op.id, op.data, nonces);
  }

  /** Reloading can only make a session look older, for less than a second: the record and
      its reloaded copy disagree at `now` exactly in the rounded-off fraction. */
  lemma ReloadNeverRevives(data: SessionData, now: Instant)
    ensures IsExpired(data, now) ==> IsExpired(Stored(data), now)
    ensures IsExpired(Stored(data), now) != IsExpired(data, now) <==> Stored(data).expiresAt < now <= data.expiresAt
    ensures data.expiresAt - SECOND < Stored(data).expiresAt <= data.expiresAt
  {
  }

  /** Purge at an instant against IsExpired at that instant. A removed record was expired; a
      kept record is untouched, and if expired then for less than a second; and of the records
      expired for a second or more none is kept. */
  lemma PurgeAgainstExpiry(cipher: Option<Cipher>, rows: Rows, now: Instant)
    requires Readable(cipher, rows)
    ensures var left := Apply(cipher, rows, OpPurge(now, false)).0;
            && Readable(cipher, left)
            && var before, after := View(cipher, rows), View(cipher, left);
            && after.Keys <= before.Keys
            && (forall id | id in after :: after[id] == before[id])
            && (forall id | id in before :: id !in after <==> before[id].expiresAt < UnixTime(UnixSecond(now)))
            && (forall id | id in before && id !in after :: IsExpired(before[id], now))
            && (forall id | id in after && IsExpired(after[id], now) :: now - after[id].expiresAt < SECOND)
  {
  }
}
