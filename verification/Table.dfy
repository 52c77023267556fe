/** The sessions table: its constraints, its five statements, the operations of SessionImpl
    built on them, and the plain map from id to SessionData that they refine. */
module Table {
  import opened Basics
  import opened Database

  datatype Row = Row(
    subject: string,
    accessToken: string,
    refreshToken: string,
    idToken: string,
    expiresAt: int
  )

  type Rows = map<Id, Row>

  datatype DbError = NoRows | SessionsMismatch | CipherFailed | ExecFailed

  // ---- columns

  function ToRow(data: SessionData): Row {
    Row(data.subject, data.accessToken, data.refreshToken, data.idToken, UnixSecond(data.expiresAt))
  }

  function FromRow(row: Row): SessionData {
    SessionData(row.subject, row.accessToken, row.refreshToken, row.idToken, UnixTime(row.expiresAt))
  }

  predicate Checks(row: Row) {
    row.subject != "" && row.accessToken != "" && row.refreshToken != "" && row.idToken != ""
  }

  // ---- statements; `fault` is any failure of the SQL engine, its driver or its connection

  function Insert(rows: Rows, id: Id, row: Row, fault: bool): Result<Rows, DbError> {
    if fault || id in rows || !Checks(row) then Err(ExecFailed) else Ok(rows[id := row])
  }

  function Select(rows: Rows, id: Id, fault: bool): Result<Row, DbError> {
    if fault then Err(ExecFailed) else if id !in rows then Err(NoRows) else Ok(rows[id])
  }

  /** Matching no row is a success, and then no constraint is evaluated. */
  function UpdateWhere(rows: Rows, id: Id, row: Row, fault: bool): Result<Rows, DbError> {
    if fault then Err(ExecFailed)
    else if id !in rows then Ok(rows)
    else if !Checks(row) then Err(ExecFailed)
    else Ok(rows[id := row])
  }

  function DeleteWhere(rows: Rows, id: Id, fault: bool): Result<Rows, DbError> {
    if fault then Err(ExecFailed) else Ok(rows - {id})
  }

  function DeleteBelow(rows: Rows, second: int, fault: bool): Result<Rows, DbError> {
    if fault then Err(ExecFailed)
    else Ok(map id | id in rows && rows[id].expiresAt >= second :: rows[id])
  }

  // ---- operations, up to and including one statement

  function Add(cipher: Option<Cipher>, rows: Rows, id: Id, data: SessionData, nonces: Nonces, fault: bool)
    : Result<Rows, DbError>
  {
    var sealed := EncryptArgs(cipher, data, nonces);
    if sealed.None? then Err(CipherFailed) else Insert(rows, id, ToRow(sealed.value), fault)
  }

  function Get(cipher: Option<Cipher>, rows: Rows, id: Id, fault: bool): Result<SessionData, DbError> {
    var selected := Select(rows, id, fault);
    if selected.Err? then Err(selected.error) else
    var data := DecryptArgs(cipher, FromRow(selected.value));
    if data.None? then Err(CipherFailed) else Ok(data.value)
  }

  /** The first half of Update: read the old row and compare subjects. */
  function Compare(cipher: Option<Cipher>, rows: Rows, id: Id, data: SessionData, fault: bool): Option<DbError> {
    var before := Get(cipher, rows, id, fault);
    if before.Err? then Some(before.error)
    else if data.subject != before.value.subject then Some(SessionsMismatch)
    else None
  }

  /** The second half of Update: encrypt and write, with no look at the table. */
  function Overwrite(cipher: Option<Cipher>, rows: Rows, id: Id, data: SessionData, nonces: Nonces, fault: bool)
    : Result<Rows, DbError>
  {
    var sealed := EncryptArgs(cipher, data, nonces);
    if sealed.None? then Err(CipherFailed) else UpdateWhere(rows, id, ToRow(sealed.value), fault)
  }

  // ---- the plain map

  /** What the table keeps of a record: everything but the fraction of its expiry second. */
  function Stored(data: SessionData): SessionData {
    data.(expiresAt := UnixTime(UnixSecond(data.expiresAt)))
  }

  /** The records the constraints let in. With a cipher the token columns hold ciphertext,
      which is never empty, so only the subject is really constrained. */
  predicate Admissible(encrypted: bool, data: SessionData) {
    && data.subject != ""
    && (encrypted || (data.accessToken != "" && data.refreshToken != "" && data.idToken != ""))
  }

  function Load(cipher: Option<Cipher>, row: Row): Option<SessionData> {
    DecryptArgs(cipher, FromRow(row))
  }

  /** Every row can be read back. */
  ghost predicate Readable(cipher: Option<Cipher>, rows: Rows) {
    forall id :: id in rows ==> Load(cipher, rows[id]).Some?
  }

  ghost function View(cipher: Option<Cipher>, rows: Rows): map<Id, SessionData>
    requires Readable(cipher, rows)
  {
    map id | id in rows :: Load(cipher, rows[id]).value
  }

  /** A written row reads back as the record with its expiry floored, whatever the nonces. */
  lemma RowRoundTrip(cipher: Option<Cipher>, data: SessionData, nonces: Nonces)
    requires Sound(cipher)
    ensures var sealed := EncryptArgs(cipher, data, nonces);
            sealed.Some? ==>
              && Load(cipher, ToRow(sealed.value)) == Some(Stored(data))
              && (Checks(ToRow(sealed.value)) <==> Admissible(cipher.Some?, data))
              && (Checks(ToRow(sealed.value)) <==>
                  && data.subject != ""
                  && (cipher.None? ==> data.accessToken != "" && data.refreshToken != "" && data.idToken != ""))
  {
  }

  /** The columns of a row that was just written, by name: the subject in plain, the expiry as
      whole seconds, and the tokens in plain or as the cipher's ciphertexts. */
  ghost predicate Holds(cipher: Option<Cipher>, row: Row, data: SessionData, nonces: Nonces) {
    && row.subject == data.subject
    && row.expiresAt * SECOND <= data.expiresAt < (row.expiresAt + 1) * SECOND
    && match cipher
       case None =>
         && row.accessToken == data.accessToken
         && row.refreshToken == data.refreshToken
         && row.idToken == data.idToken
       case Some(c) =>
         && Some(row.accessToken) == c.encrypt(nonces.access, data.accessToken)
         && Some(row.refreshToken) == c.encrypt(nonces.refresh, data.refreshToken)
         && Some(row.idToken) == c.encrypt(nonces.id, data.idToken)
  }

  /** What a successful write leaves in the columns. */
  lemma WriteFillsColumns(cipher: Option<Cipher>, rows: Rows, id: Id, data: SessionData, nonces: Nonces, fault: bool)
    ensures var r := Add(cipher, rows, id, data, nonces, fault);
            r.Ok? ==> id in r.value && Holds(cipher, r.value[id], data, nonces) && r.value - {id} == rows
    ensures var r := Overwrite(cipher, rows, id, data, nonces, fault);
            r.Ok? ==>
              && (id in rows <==> id in r.value)
              && (id in rows ==> Holds(cipher, r.value[id], data, nonces))
              && r.value - {id} == rows - {id}
  {
    EncryptsEachToken(cipher, data, nonces);
    UnixSecondFloors(data.expiresAt);
  }

  /** Reading any table, also one with rows that the cipher cannot decrypt. */
  lemma GetExactly(cipher: Option<Cipher>, rows: Rows, id: Id, fault: bool)
    ensures var r := Get(cipher, rows, id, fault);
            && (r == Err(ExecFailed) <==> fault)
            && (r == Err(NoRows) <==> !fault && id !in rows)
            && (r == Err(CipherFailed) <==>
                && !fault && id in rows && cipher.Some?
                && (|| cipher.value.decrypt(rows[id].accessToken).None?
                    || cipher.value.decrypt(rows[id].refreshToken).None?
                    || cipher.value.decrypt(rows[id].idToken).None?))
            && r != Err(SessionsMismatch)
    ensures var r := Get(cipher, rows, id, fault);
            r.Ok? ==>
              && r.value.subject == rows[id].subject
              && r.value.expiresAt == rows[id].expiresAt * SECOND
              && match cipher
                 case None =>
                   && r.value.accessToken == rows[id].accessToken
                   && r.value.refreshToken == rows[id].refreshToken
                   && r.value.idToken == rows[id].idToken
                 case Some(c) =>
                   && Some(r.value.accessToken) == c.decrypt(rows[id].accessToken)
                   && Some(r.value.refreshToken) == c.decrypt(rows[id].refreshToken)
                   && Some(r.value.idToken) == c.decrypt(rows[id].idToken)
  {
    if id in rows { DecryptsEachToken(cipher, FromRow(rows[id])); }
  }

  lemma AddRefines(cipher: Option<Cipher>, rows: Rows, id: Id, data: SessionData, nonces: Nonces, fault: bool)
    requires Sound(cipher) && Readable(cipher, rows)
    ensures var r := Add(cipher, rows, id, data, nonces, fault);
            && (r.Ok? <==>
                !fault && id !in rows && Encrypts(cipher, data, nonces) && Admissible(cipher.Some?, data))
            && (r == Err(CipherFailed) <==> !Encrypts(cipher, data, nonces))
            && (r.Err? ==> r.error.CipherFailed? || r.error.ExecFailed?)
            && (r.Ok? ==>
                && Readable(cipher, r.value)
                && View(cipher, r.value) == View(cipher, rows)[id := Stored(data)])
  {
    EncryptsEachToken(cipher, data, nonces);
  }

  lemma GetRefines(cipher: Option<Cipher>, rows: Rows, id: Id, fault: bool)
    requires Readable(cipher, rows)
    ensures var view := View(cipher, rows);
            Get(cipher, rows, id, fault) ==
            if fault then Err(ExecFailed) else if id in view then Ok(view[id]) else Err(NoRows)
  {
  }

  lemma OverwriteRefines(cipher: Option<Cipher>, rows: Rows, id: Id, data: SessionData, nonces: Nonces, fault: bool)
    requires Sound(cipher) && Readable(cipher, rows)
    ensures var r := Overwrite(cipher, rows, id, data, nonces, fault);
            && (r.Ok? <==>
                && !fault && Encrypts(cipher, data, nonces)
                && (id in rows ==> Admissible(cipher.Some?, data)))
            && (r == Err(CipherFailed) <==> !Encrypts(cipher, data, nonces))
            && (r.Err? ==> r.error.CipherFailed? || r.error.ExecFailed?)
            && (r.Ok? ==>
                && Readable(cipher, r.value)
                && View(cipher, r.value) ==
                   if id in rows then View(cipher, rows)[id := Stored(data)] else View(cipher, rows))
  {
    EncryptsEachToken(cipher, data, nonces);
  }

  lemma DeleteRefines(cipher: Option<Cipher>, rows: Rows, id: Id)
    requires Readable(cipher, rows)
    ensures Readable(cipher, rows - {id})
    ensures View(cipher, rows - {id}) == View(cipher, rows) - {id}
  {
  }

  lemma PurgeRefines(cipher: Option<Cipher>, rows: Rows, second: int)
    requires Readable(cipher, rows)
    ensures var view := View(cipher, rows);
            var left := DeleteBelow(rows, second, false).value;
            && Readable(cipher, left)
            && View(cipher, left) == map i | i in view && !(view[i].expiresAt < UnixTime(second)) :: view[i]
  {
  }
}
