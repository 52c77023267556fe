/** database/sqlite.go and database/postgresql.go: the store behind SessionImpl, as an object
    whose rows change in place, and the cleaner that purges it. */
module SessionStore {
  import opened Basics
  import opened Database
  import opened Table

  class Store {
    const cipher: Option<Cipher>
    var rows: Rows

    ghost predicate Valid()
      reads this
    {
      Sound(cipher) && Readable(cipher, rows)
    }

    /** The map from id to SessionData that a caller sees. */
    ghost function Contents(): map<Id, SessionData>
      requires Valid()
      reads this
    {
      View(cipher, rows)
    }

    constructor (cipher: Option<Cipher>)
      requires Sound(cipher)
      ensures Valid() && Contents() == map[] && this.cipher == cipher
    {
      this.cipher := cipher;
      this.rows := map[];
    }

    /** `id` is what uuid.New returns. */
    method Add(data: SessionData, id: Id, nonces: Nonces, fault: bool) returns (r: Result<Id, DbError>)
      requires Valid()
      modifies this`rows
      ensures Valid()
      ensures r.Ok? <==>
                && !fault && id !in old(Contents())
                && Encrypts(cipher, data, nonces) && Admissible(cipher.Some?, data)
      ensures r.Ok? ==> r.value == id && Contents() == old(Contents())[id := Stored(data)]
      ensures r.Err? ==> rows == old(rows)
      ensures Table.Add(cipher, old(rows), id, data, nonces, fault) == if r.Ok? then Ok(rows) else Err(r.error)
    {
      AddRefines(cipher, rows, id, data, nonces, fault);
      var sealed := EncryptArgs(cipher, data, nonces);
      if sealed.None? {
        return Err(CipherFailed);
      }
      var inserted := Insert(rows, id, ToRow(sealed.value), fault);
      if inserted.Err? {
        return Err(inserted.error);
      }
      rows := inserted.value;
      return Ok(id);
    }

    method Delete(id: Id, fault: bool) returns (err: Option<DbError>)
      requires Valid()
      modifies this`rows
      ensures Valid()
      ensures err == if fault then Some(ExecFailed) else None
      ensures Contents() == if fault then old(Contents()) else old(Contents()) - {id}
      ensures fault ==> rows == old(rows)
      ensures DeleteWhere(old(rows), id, fault) == if err.None? then Ok(rows) else Err(err.value)
    {
      DeleteRefines(cipher, rows, id);
      var left := DeleteWhere(rows, id, fault);
      if left.Err? {
        return Some(left.error);
      }
      rows := left.value;
      return None;
    }

    method Get(id: Id, fault: bool) returns (r: Result<SessionData, DbError>)
      requires Valid()
      ensures r == if fault then Err(ExecFailed) else if id in Contents() then Ok(Contents()[id]) else Err(NoRows)
      ensures r == Table.Get(cipher, rows, id, fault)
    {
      GetRefines(cipher, rows, id, fault);
      var selected := Select(rows, id, fault);
      if selected.Err? {
        return Err(selected.error);
      }
      var data := DecryptArgs(cipher, FromRow(selected.value));
      if data.None? {
        return Err(CipherFailed);
      }
      return Ok(data.value);
    }

    /** Reads, compares subjects, then writes in a second statement. */
    method Update(id: Id, data: SessionData, readFault: bool, nonces: Nonces, writeFault: bool)
      returns (err: Option<DbError>)
      requires Valid()
      modifies this`rows
      ensures Valid()
      ensures err.None? <==>
                && !readFault && !writeFault
                && id in old(Contents()) && old(Contents())[id].subject == data.subject
                && Encrypts(cipher, data, nonces) && Admissible(cipher.Some?, data)
      ensures err.None? ==> Contents() == old(Contents())[id := Stored(data)]
      ensures err.Some? ==> rows == old(rows)
      ensures var refused := Compare(cipher, old(rows), id, data, readFault);
              if refused.Some? then err == refused
              else Overwrite(cipher, old(rows), id, data, nonces, writeFault) ==
                   if err.None? then Ok(rows) else Err(err.value)
    {
      var before := Get(id, readFault);
      if before.Err? {
        return Some(before.error);
      }
      if data.subject != before.value.subject {
        return Some(SessionsMismatch);
      }
      OverwriteRefines(cipher, rows, id, data, nonces, writeFault);
      var sealed := EncryptArgs(cipher, data, nonces);
      if sealed.None? {
        return Some(CipherFailed);
      }
      var updated := UpdateWhere(rows, id, ToRow(sealed.value), writeFault);
      if updated.Err? {
        return Some(updated.error);
      }
      rows := updated.value;
      return None;
    }

    method Purge(now: Instant, fault: bool) returns (err: Option<DbError>)
      requires Valid()
      modifies this`rows
      ensures Valid()
      ensures err == if fault then Some(ExecFailed) else None
      ensures fault ==> rows == old(rows)
      ensures !fault ==>
                var before := old(Contents());
                Contents() == map id | id in before && !(before[id].expiresAt < UnixTime(UnixSecond(now))) :: before[id]
      ensures forall id | id in old(Contents()) && id !in Contents() :: IsExpired(old(Contents())[id], now)
      ensures !fault ==>
                forall id | id in Contents() && IsExpired(Contents()[id], now) ::
                  now - Contents()[id].expiresAt < SECOND
      ensures DeleteBelow(old(rows), UnixSecond(now), fault) == if err.None? then Ok(rows) else Err(err.value)
    {
      PurgeRefines(cipher, rows, UnixSecond(now));
      UnixSecondFloors(now);
      var second := UnixSecond(now);
      var left := DeleteBelow(rows, second, fault);
      if left.Err? {
        return Some(left.error);
      }
      rows := left.value;
      return None;
    }
  }

  // ---- expiredSessionsCleaner

  /** What the select of the cleaner's loop picks: a tick, with the instant Purge reads and
      whether the DELETE fails, or the cancelled context. */
  datatype Event = Tick(now: Instant, fault: bool) | Cancelled

  /** The highest second any successful purge of these events deletes below. */
  function Horizon(events: seq<Event>): Option<int> {
    if events == [] then None else
    var before := Horizon(events[..|events| - 1]);
    var last := events[|events| - 1];
    if last.Cancelled? || last.fault then before
    else if before.Some? && before.value >= UnixSecond(last.now) then before
    else Some(UnixSecond(last.now))
  }

  predicate BelowHorizon(row: Row, horizon: Option<int>) {
    horizon.Some? && row.expiresAt < horizon.value
  }

  /** The events before the first cancellation. */
  function UntilCancelled(events: seq<Event>): seq<Event> {
    if events == [] || events[0].Cancelled? then [] else [events[0]] + UntilCancelled(events[1..])
  }

  lemma {:induction false} UntilCancelledIsPrefix(events: seq<Event>, k: nat)
    requires k <= |events| && (forall i | 0 <= i < k :: events[i].Tick?)
    ensures k < |events| && events[k].Cancelled? ==> UntilCancelled(events) == events[..k]
    ensures k == |events| ==> UntilCancelled(events) == events
  {
    if events != [] && k > 0 {
      UntilCancelledIsPrefix(events[1..], k - 1);
      assert [events[0]] + events[1..] == events;
      if k < |events| { assert events[..k] == [events[0]] + events[1..][..k - 1]; }
    }
  }

  /** The loop gets to event `i`, and it is a purge that succeeds. */
  ghost predicate PurgesAt(events: seq<Event>, i: int) {
    0 <= i < |events| && Cancelled !in events[..i] && events[i].Tick? && !events[i].fault
  }

  /** The horizon is the latest second among the successful purges. */
  lemma {:induction false} HorizonIsLatest(events: seq<Event>, k: nat)
    requires k <= |events| && (forall i | 0 <= i < k :: events[i].Tick?)
    ensures var horizon := Horizon(events[..k]);
            && (forall i :: PurgesAt(events, i) && i < k ==>
                  horizon.Some? && UnixSecond(events[i].now) <= horizon.value)
            && (horizon.Some? ==>
                exists i :: PurgesAt(events, i) && i < k && UnixSecond(events[i].now) == horizon.value)
    decreases k
  {
    if k > 0 {
      assert events[..k][..k - 1] == events[..k - 1];
      HorizonIsLatest(events, k - 1);
      var before := Horizon(events[..k - 1]);
      if before.Some? {
        var i :| PurgesAt(events, i) && i < k - 1 && UnixSecond(events[i].now) == before.value;
      }
      assert !events[k - 1].fault ==> PurgesAt(events, k - 1);
    }
  }

  /** What the purges of the events before the first cancellation leave of a table. */
  ghost predicate LeftByPurges(before: Rows, events: seq<Event>, after: Rows) {
    && after.Keys <= before.Keys
    && (forall id | id in after :: after[id] == before[id])
    && (forall id | id in before ::
          id !in after <==> exists i :: PurgesAt(events, i) && before[id].expiresAt < UnixSecond(events[i].now))
  }

  lemma PurgedUntil(before: Rows, events: seq<Event>, k: nat, after: Rows)
    requires k <= |events| && (forall i | 0 <= i < k :: events[i].Tick?)
    requires k == |events| || events[k].Cancelled?
    requires var horizon := Horizon(events[..k]);
             after == map id | id in before && !BelowHorizon(before[id], horizon) :: before[id]
    ensures LeftByPurges(before, events, after)
  {
    HorizonIsLatest(events, k);
    if k < |events| {
      forall i | k < i <= |events| ensures Cancelled in events[..i] { assert events[..i][k] == Cancelled; }
    }
  }

  /** However many times the cleaner purged, and whichever purges failed, a row is gone exactly
      when it was below the second of some successful tick before the first cancellation, and
      the others are as they were: as after one purge at the latest such second. The loop ends, closing `done`, exactly
      when it has picked the cancellation. */
  method ExpiredSessionsCleaner(db: Store, events: seq<Event>) returns (closed: bool)
    requires db.Valid()
    modifies db`rows
    ensures db.Valid()
    ensures closed <==> Cancelled in events
    ensures var horizon := Horizon(UntilCancelled(events));
            db.rows == map id | id in old(db.rows) && !BelowHorizon(old(db.rows)[id], horizon) :: old(db.rows)[id]
    ensures LeftByPurges(old(db.rows), events, db.rows)
  {
    closed := false;
    var k := 0;
    while k < |events|
      invariant 0 <= k <= |events|
      invariant db.Valid()
      invariant forall i | 0 <= i < k :: events[i].Tick?
      invariant var horizon := Horizon(events[..k]);
                db.rows == map id | id in old(db.rows) && !BelowHorizon(old(db.rows)[id], horizon) :: old(db.rows)[id]
    {
      match events[k]
      case Cancelled =>
        UntilCancelledIsPrefix(events, k);
        PurgedUntil(old(db.rows), events, k, db.rows);
        return true;
      case Tick(now, fault) =>
        assert events[..k + 1][..k] == events[..k];
        var _ := db.Purge(now, fault);
        k := k + 1;
    }
    UntilCancelledIsPrefix(events, k);
    assert events[..k] == events;
    PurgedUntil(old(db.rows), events, k, db.rows);
  }
}
