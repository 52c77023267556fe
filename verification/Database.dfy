/** database/database.go: the session record and its encryption. */
module Database {
  import opened Basics

  datatype SessionData = SessionData(
    subject: string,
    accessToken: string,
    refreshToken: string,
    idToken: string,
    expiresAt: Instant
  )

  /** The zero SessionData that Go leaves in an unassigned field. */
  const ZERO_DATA: SessionData := SessionData("", "", "", "", ZERO_TIME)

  predicate IsExpired(data: SessionData, now: Instant) {
    now > data.expiresAt
  }

  type Nonce = int

  /** One nonce for each of the three encrypted columns. */
  datatype Nonces = Nonces(access: Nonce, refresh: Nonce, id: Nonce)

  /** The cipher of the encryption library. Encryption is randomised by a nonce and may fail. */
  datatype Cipher = Cipher(
    encrypt: (Nonce, string) -> Option<string>,
    decrypt: string -> Option<string>
  )

  /** What is assumed of a cipher: ciphertext is never empty and decrypts to its plaintext. */
  ghost predicate Sound(cipher: Option<Cipher>) {
    cipher.Some? ==>
      forall nonce: Nonce, plain: string ::
        var sealed := cipher.value.encrypt(nonce, plain);
        sealed.Some? ==> sealed.value != "" && cipher.value.decrypt(sealed.value) == Some(plain)
  }

  function EncryptArgs(cipher: Option<Cipher>, data: SessionData, nonces: Nonces): Option<SessionData> {
    if cipher.None? then Some(data) else
    var access := cipher.value.encrypt(nonces.access, data.accessToken);
    var refresh := cipher.value.encrypt(nonces.refresh, data.refreshToken);
    var id := cipher.value.encrypt(nonces.id, data.idToken);
    if access.None? || refresh.None? || id.None? then None
    else Some(SessionData(data.subject, access.value, refresh.value, id.value, data.expiresAt))
  }

  /** The cipher succeeds on each of the three tokens. */
  predicate Encrypts(cipher: Option<Cipher>, data: SessionData, nonces: Nonces) {
    cipher.Some? ==>
      && cipher.value.encrypt(nonces.access, data.accessToken).Some?
      && cipher.value.encrypt(nonces.refresh, data.refreshToken).Some?
      && cipher.value.encrypt(nonces.id, data.idToken).Some?
  }

  function DecryptArgs(cipher: Option<Cipher>, data: SessionData): Option<SessionData> {
    if cipher.None? then Some(data) else
    var access := cipher.value.decrypt(data.accessToken);
    var refresh := cipher.value.decrypt(data.refreshToken);
    var id := cipher.value.decrypt(data.idToken);
    if access.None? || refresh.None? || id.None? then None
    else Some(SessionData(data.subject, access.value, refresh.value, id.value, data.expiresAt))
  }

  /** Encryption fails only when the cipher fails on one of the three tokens, and gives those
      three ciphertexts; without a cipher it changes nothing. */
  lemma EncryptsEachToken(cipher: Option<Cipher>, data: SessionData, nonces: Nonces)
    ensures cipher.None? ==> EncryptArgs(cipher, data, nonces) == Some(data)
    ensures cipher.Some? ==>
              var access := cipher.value.encrypt(nonces.access, data.accessToken);
              var refresh := cipher.value.encrypt(nonces.refresh, data.refreshToken);
              var id := cipher.value.encrypt(nonces.id, data.idToken);
              var sealed := EncryptArgs(cipher, data, nonces);
              && (sealed.Some? <==> access.Some? && refresh.Some? && id.Some?)
              && (sealed.Some? ==>
                  sealed.value == SessionData(data.subject, access.value, refresh.value, id.value, data.expiresAt))
    ensures EncryptArgs(cipher, data, nonces).Some? <==> Encrypts(cipher, data, nonces)
  {
  }

  /** The same of decryption, for whatever the columns hold. */
  lemma DecryptsEachToken(cipher: Option<Cipher>, sealed: SessionData)
    ensures cipher.None? ==> DecryptArgs(cipher, sealed) == Some(sealed)
    ensures cipher.Some? ==>
              var access := cipher.value.decrypt(sealed.accessToken);
              var refresh := cipher.value.decrypt(sealed.refreshToken);
              var id := cipher.value.decrypt(sealed.idToken);
              var data := DecryptArgs(cipher, sealed);
              && (data.Some? <==> access.Some? && refresh.Some? && id.Some?)
              && (data.Some? ==>
                  data.value == SessionData(sealed.subject, access.value, refresh.value, id.value, sealed.expiresAt))
  {
  }

  /** Decryption undoes encryption under any nonces, whenever the cipher encrypts each token;
      subject and expiry are never encrypted. */
  lemma DecryptUndoesEncrypt(cipher: Option<Cipher>, data: SessionData, nonces: Nonces)
    requires Sound(cipher)
    ensures EncryptArgs(cipher, data, nonces).Some? <==> Encrypts(cipher, data, nonces)
    ensures var sealed := EncryptArgs(cipher, data, nonces);
            sealed.Some? ==>
              && DecryptArgs(cipher, sealed.value) == Some(data)
              && sealed.value.subject == data.subject
              && sealed.value.expiresAt == data.expiresAt
              && (cipher.Some? ==>
                  sealed.value.accessToken != "" && sealed.value.refreshToken != "" && sealed.value.idToken != "")
  {
  }
}
