# Sessions of go-token-handler, modelled and proved

go-token-handler keeps a user's OpenID Connect tokens in a database row and gives the browser
only a cookie with the row's id. Login, callback, authenticated access with token refresh,
logout and a background cleaner all work on that one table and on the cookies the server has
issued. Requests run concurrently and a refresh is not atomic: `Update` reads the old row in
one statement and overwrites it in another. This project models those pieces and proves what
holds over every interleaving of them.

## How the project is laid out

| file | models |
|---|---|
| `Basics.dfy`, `Database.dfy` | instants and whole seconds; the session record, its expiry test and its encryption |
| `Table.dfy` | columns, constraints, the five SQL statements, the operations built on them, and the plain map they refine |
| `Refinement.dfy` | whole sequences of store calls against the plain map |
| `SessionStore.dfy` | the store as an object with rows that change in place, and the cleaner's loop |
| `Protocol.dfy` | every handler as a machine whose steps each hold at most one SQL statement |
| `Uninterrupted.dfy` | each handler run alone: exactly when it succeeds and what it changes |
| `Handlers.dfy` | `Session` and `Manager` as mutable objects, each method proved to be its step machine run alone |
| `System.dfy` | many requests, the cleaner and the clock, interleaved step by step |
| `Sequential.dfy` | a handler run alone is one of the runs of the interleaved system; no client blocks another |
| `Invariant.dfy` | the inductive invariant |
| `Histories.dfy`, `Lifecycle.dfy`, `Access.dfy`, `Provenance.dfy`, `LoginFlow.dfy` | the theorems about runs |
| `Examples.dfy` | concrete runs that show the stated exceptions happen |
| `Shutdown.dfy` | the cleaner's goroutine, the `done` channels and main's deferred calls |

A run is a sequence of states and actions: the clock advances, a request arrives with any
cookie issued before (or none, or one that does not decode), some request performs its next
step, the cleaner reads the clock, the cleaner's DELETE runs. Everything a step cannot decide
itself (failures, nonces, the provider's answer, the new id, the random state) is chosen
freely. The theorems hold for all runs. The fields of `System` under "history" only record
what happened; no step reads them.

## Assumptions

- `uuid.New` never returns an id that was inserted before.
- Decrypting a ciphertext gives its plaintext whatever the nonce, and ciphertext is never empty
  (`Database.Sound`; `Examples.SoundCipherExists` shows this can be met). Encryption may fail.
- A client can send any cookie the server has issued, also one that was meant to be dropped,
  but cannot make one. Decoding gives back the encoded values or fails.
- The provider may answer anything, including another subject. Refreshing without a refresh
  token fails, as in `golang.org/x/oauth2`.
- A generated state is not empty. It need not be unique.
- Each SQL statement is atomic, and one that reports an error has changed nothing.
- The clock does not go back and stands after 1970.

## Where the code differs from the obvious claim

- The login diagram (`docs/puml/login-workflow.puml`) always verifies the state. In the code a
  missing state reads as the empty string, so a callback with an empty `state` parameter passes
  with any readable session cookie that has no state. `LoginFlow.StateCheck` gives the exact
  condition, `LoginFlow.InsertTracesToLogin` says which rows trace back to a login (those with a
  non-empty response, and only those), and `Examples.InsertionWithoutLogin` is a run with one
  that does not.
- Logout does not stop a request that has already loaded its session. Once the row is gone, a
  request can still be served exactly when it stands at the expiry check with data that has not
  expired, past the comparison of a refresh whose record can be encrypted, or before writing
  the cookie of a refresh (`Access.ServedAfterGone`); over a run nobody else is
  (`Access.GoneMeansRefused`), and nobody who loads after the DELETE is
  (`Access.LogoutFinality`). `Examples.ServedAfterLogout` is such a run. The UPDATE of a refresh
  then matches no row and counts as a success; it never brings the row back
  (`Lifecycle.DeadStaysDead`).
- The purge goes by the access token's expiry, so a session with a valid refresh token and a
  valid cookie is lost when no request renews it before the next purge.
  `Lifecycle.CleanerRemovesExpired` says exactly which rows go, and
  `Examples.PurgedDespiteRefreshToken` is a run in which one does that could have been renewed.
- Two refreshes of one session can both get an answer and write in the other order, and then
  the row keeps the older answer, while the later one is served and lost.
  `Provenance.RowHoldsLatestAnswer` says exactly when the row holds the latest answer, and
  `Examples.LostUpdate` is a run in which it does not. Columns of two answers never mix
  (`Lifecycle.RowIsLastWrite`).
- Visiting the login page while logged in makes the new cookie useless for access until the
  login is completed, although it still names a live session (`Access.PendingLoginNeverServed`).
  Logout with such a cookie deletes the row without reading it (`Uninterrupted.LogoutAlone`).
- The provider can answer with a token that has expired long ago, so a live row can be older
  than the last purge allows: exactly when its last write already was and no purge has come
  since. `Lifecycle.StalenessBound` states this and bounds how overdue any row can be, for such
  a row by how far that write was behind; `Examples.LateRow` is a run with one.
- The cleaner deletes by an instant it has read before, so a row can be written in between and
  go at once (`Examples.PurgeOfLaterRow`), and it may purge once more after its context was
  cancelled (`Shutdown.PurgeAfterCancel`).
- The case for `ErrCannotGetCookie` in the middleware does not return, but it is never taken,
  because `GetSession` wraps that error; the model refuses as the default case does.
- Only the first manager whose goroutine gets into `once.Do` ever closes its channel. With more
  managers in the process main may wait forever; `Shutdown.ShutdownCompletes` says exactly when
  it does not, `Shutdown.StrandedByAnyOther` that any other manager can bring it about, and
  `Shutdown.MainWaitsForever` is a run in which it does, with every context cancelled.

## Model

| member | source | states |
|---|---|---|
| `Database.EncryptsEachToken` | database/database.go:38-64 | Encryption fails exactly when the cipher fails on one of the three tokens, and otherwise gives those three ciphertexts; without a cipher it changes nothing. |
| `Database.DecryptsEachToken` | database/database.go:66-97 | The same of decryption, for any column contents. |
| `Database.DecryptUndoesEncrypt` | database/database.go:38-97 | Whenever the cipher encrypts each token, decryption gives back exactly the record, under any three nonces; subject and expiry are stored in plain, and with a cipher no encrypted column is empty. |
| `Table.RowRoundTrip` | database/sqlite.go:90-159 | A written row reads back as the record with its expiry floored to the second; the CHECK constraints accept it exactly when the subject is non-empty and, without a cipher, the tokens are too. |
| `Table.WriteFillsColumns` | database/sqlite.go:90-202 | A successful Add or Update leaves in each named column the subject, the whole second of the expiry, and the token or the cipher's ciphertext of it, and changes no other row. |
| `Table.GetExactly` | database/sqlite.go:135-160 | On any table, rows that do not decrypt included: which error Get returns when, and each field of the record it returns. |
| `Table.AddRefines` | database/sqlite.go:74-110 | Add succeeds exactly when the engine does not fail, the id is fresh, the cipher encrypts each token and the record is admissible; it then adds one entry to the map of sessions. |
| `Table.GetRefines` | database/sqlite.go:135-160 | Get is a lookup in the map of sessions; columns and cipher do not show. |
| `Table.OverwriteRefines` | database/sqlite.go:192-213 | The write half of Update replaces an existing entry, under the conditions of Add, and succeeds changing nothing, constraints unchecked, when the row is gone. |
| `Table.DeleteRefines` | database/sqlite.go:112-133 | Deleting removes that entry of the map and no other, and is no error for a missing one. |
| `Table.PurgeRefines` | database/sqlite.go:215-223 | A purge keeps exactly the entries whose reloaded expiry is not below the cutoff second. |
| `Refinement.CallRefines` | database/sqlite.go:74-223 | Every store call, on the encrypted table and on the plain map, gives the same reply and corresponding contents; a failing call changes nothing. |
| `Refinement.SequenceRefines` | database/database.go:16-23 | Any sequence of store calls with any nonces and failures replies as the plain map does, and leaves the corresponding map. |
| `Refinement.RepliesIgnoreNonces` | database/database.go:38-97 | Two runs of the same calls under different sound ciphers and nonces give the same replies. |
| `Refinement.WriteThenRead` | database/postgresql.go:77-160 | Get after a successful Add or Update returns the same subject and tokens with the expiry floored, and storing the reloaded record again is the identity. |
| `Refinement.ReloadNeverRevives` | database/sqlite.go:157 | Reloading never makes an expired session valid; the stored and the original expiry disagree exactly within a fraction shorter than a second. |
| `Refinement.PurgeAgainstExpiry` | database/sqlite.go:215-223 | A purge at an instant removes exactly the rows below its second; all of them count as expired, every expired survivor has been so for under a second, and survivors are unchanged. |
| `SessionStore.Store.Add` | database/sqlite.go:74-110 | In-place insert: exactly when it succeeds, the whole new contents, and no change on failure. |
| `SessionStore.Store.Delete` | database/sqlite.go:112-133 | In-place delete of one row, a success also when there is none. |
| `SessionStore.Store.Get` | database/sqlite.go:135-160 | Returns the stored record, the missing-row error, or the engine's failure. |
| `SessionStore.Store.Update` | database/sqlite.go:162-213 | Read, compare subjects, write: succeeds exactly when the row exists with the same subject and the record can be stored; then only that row changes. |
| `SessionStore.Store.Purge` | database/sqlite.go:215-223 | Removes exactly the rows below the floored second; every one was expired and no row expired for a second or more stays. |
| `SessionStore.ExpiredSessionsCleaner` | sessions/manager.go:79-97 | A row is gone exactly when its expiry was below the second of some successful tick before the first cancellation, and all others are unchanged, as after one purge at the latest such second; the loop ends, closing done, exactly when it picks the cancellation. |
| `SessionStore.HorizonIsLatest` | sessions/manager.go:79-97 | The second that stands for all purges is the latest among the successful ticks. |
| `Handlers.Session.WriteCookie` | sessions/session.go:65 | Writes one header with the values and Max-Age, or fails and writes none. |
| `Handlers.Session.DataFromDB` | sessions/session.go:36-56 | Loads the named row into the session, with the missing id, the missing row and any other failure told apart. |
| `Handlers.Session.SaveState` | sessions/session.go:58-66 | Adds the state to the cookie's values and issues it with the login timeout. |
| `Handlers.Session.SaveSession` | sessions/session.go:100-109 | Drops any state, names the row and issues the cookie with the session timeout. |
| `Handlers.Session.Save` | sessions/session.go:111-126 | Refuses a token without a verified ID token with nothing changed; otherwise makes the record of it field by field and is the last two steps of a callback run alone. |
| `Handlers.Session.Update` | sessions/session.go:128-148 | Refuses a token without a verified ID token, or a missing id, with nothing changed; otherwise makes the record field by field and is the comparison, overwrite and cookie steps of a refresh run alone. |
| `Handlers.Session.Delete` | sessions/session.go:150-167 | Is the delete and cookie steps of a logout run alone. |
| `Handlers.Manager.NewSession` | sessions/manager.go:104-114 | A session with the incoming cookie's values and no data, or none when the cookie does not decode. |
| `Handlers.Manager.GetSession` | sessions/manager.go:116-137 | The session with its row's data, or zero data when the cookie holds a state; each failure with its own cause. |
| `Handlers.Manager.Login` | sessions/handler.go:25-45 | Redirects with the new state, and writes it into the cookie, whenever the cookie decodes and can be written; it is its step machine run alone. |
| `Handlers.Manager.Callback` | sessions/handler.go:47-88 | The callback handler is its step machine run alone: same table, outcome and headers, on every path. |
| `Handlers.Manager.Logout` | sessions/handler.go:90-112 | The logout handler is its step machine run alone. |
| `Handlers.Manager.Authenticate` | sessions/middleware.go:13-61 | The middleware is its step machine run alone, on every path through load, expiry check, refresh, update and serve. |
| `Uninterrupted.GetSessionCauses` | sessions/manager.go:116-137 | For any cookie and table, exactly which error GetSession returns: undecodable cookie, no id, missing row, engine failure, undecryptable row; and what it loads otherwise. |
| `Uninterrupted.RefreshAlone` | sessions/session.go:128-148 | A refresh is stored exactly when the subjects match and the record is storable, and served exactly when its cookie is then written; each failure has its cause, and an unwritten cookie leaves the new record in the table. |
| `Uninterrupted.CheckAlone` | sessions/middleware.go:36-57 | From the expiry check on, on any table: served as loaded while the clock has not passed the expiry, refused with the cause, or refreshing with a record made field by field of an answer with a verified ID token. |
| `Uninterrupted.AccessAlone` | sessions/middleware.go:18-59 | Exactly when a request alone is served, with which token, what it leaves in the map of sessions and the cookie, and the cause of every refusal. |
| `Uninterrupted.LoginAlone` | sessions/handler.go:25-45 | A login redirects with its state and writes it next to what the cookie held, exactly when the cookie decodes and its write does not fail; otherwise it is refused without a cookie; the table stays. |
| `Uninterrupted.DeleteAlone` | sessions/session.go:150-167 | From the DELETE on, on any table: a row that is already gone changes nothing in the outcome. |
| `Uninterrupted.LogoutAlone` | sessions/handler.go:90-112 | Exactly when a logout succeeds, that it removes one row, which ID token it hands to the provider, the expiring cookie it sends, and the cause of every refusal. |
| `Uninterrupted.SaveAlone` | sessions/session.go:111-126 | Save adds the record under the new id exactly when it can be stored, and issues a cookie only then, each failure with its cause. |
| `Uninterrupted.ExchangeAlone` | sessions/handler.go:65-83 | From the exchange on, on any table: refused without a verified ID token, otherwise a record made of the answer field by field is saved. |
| `Uninterrupted.CallbackAlone` | sessions/handler.go:47-88 | Exactly when a callback stores the provider's record under a new id and issues a cookie holding that id and nothing else, and the cause of every refusal; it touches no other session. |
| `Uninterrupted.StepLooksAtOneRow` | sessions/handler.go:25-112 | What a request does next, answers and writes into its cookie depends on at most the row it names, and where it reads no row on none. |
| `Sequential.AloneIsARun` | sessions/middleware.go:13-61 | From any system state a request left alone goes, by legal actions, to the table, outcome and cookies of its handler. |
| `Sequential.ArrivalIsARun` | sessions/handler.go:25-112 | The same of a request that has yet to arrive, with any cookie a client can send. |
| `Sequential.NothingBlocks` | database/sqlite.go:74-223 | Whatever a request, the cleaner or the clock can do it can still do after a step of another, so their statements interleave in every order. |
| `Invariant.StepEffect` | database/sqlite.go:100-202 | Each step of each handler changes at most one row, by one of the allowed writes, and issues only cookies over known ids and states. |
| `Invariant.GetSessionLoads` | sessions/manager.go:116-137 | Loaded data is zero for a pending login, and otherwise a received record of the subject the row was born with. |
| `Invariant.PerformKeepsInv` | sessions/handler.go:25-112 | A step of any request, whatever the others are in the middle of, keeps the invariant. |
| `Invariant.RunInv` | sessions/session.go:111-167 | The invariant holds in every state of every run. |
| `Histories.StepReceives` | sessions/session.go:80-98 | A step makes a record exactly when it gets an answer with a verified ID token and is not refused for another reason, and of that answer field by field. |
| `Histories.UnverifiedIsRefused` | sessions/session.go:86-89 | In every run a callback or a refresh without a verified ID token is refused, with its cause, and leaves table and cookies as they are. |
| `Histories.ReceivedExplained` | sessions/session.go:80-98 | Every record in the system was made, field by field, of an answer with a verified ID token that the provider gave in an earlier step of the run. |
| `Histories.StateExplained` | sessions/handler.go:35-36 | Every known state was generated by an earlier login step. |
| `Histories.BirthExplained` | sessions/session.go:120 | Every known id was inserted, with its subject and response, by an earlier callback step. |
| `Histories.InsertedOnce` | database/sqlite.go:80 | No id is inserted twice in a run. |
| `Histories.CarriedStays` | sessions/handler.go:47-88 | A request keeps the cookie values it arrived with to its end. |
| `Lifecycle.Projection` | sessions/session.go:111-167 | Every multi-client run, seen at one id, is step for step a run of the machine absent, live, gone. |
| `Lifecycle.OthersStutter` | sessions/session.go:111-167 | A step of a request whose cookie does not name this id, and which does not insert it, is a stutter of that machine and leaves the row as it is. |
| `Lifecycle.LifeGoesForward` | sessions/session.go:111-167 | Over any stretch of a run a row goes from absent to live with one subject to gone, and never back. |
| `Lifecycle.DeadStaysDead` | database/sqlite.go:112-213 | A removed id is never found again, and a late write to it changes no row. |
| `Lifecycle.SubjectImmutable` | database/sqlite.go:174-202 | No interleaving of updates, deletes and purges changes the subject of a live row, although it is checked in one statement and written in another. |
| `Lifecycle.CleanerRemovesExpired` | database/sqlite.go:215-223 | The cleaner removes exactly the rows whose expiry is below the second in which it read the clock; all of them have expired, and all that were overdue by a second go. |
| `Lifecycle.RowIsLastWrite` | database/postgresql.go:162-213 | A live row is, in all its columns, the record of its last writer, made from a single answer of the provider: racing refreshes never mix. |
| `Lifecycle.BackdatedExplained` | sessions/manager.go:79-97 | The rows below the last purge are those whose last write was below it already, with no purge since. |
| `Lifecycle.StalenessBound` | sessions/manager.go:79-97 | Exactly when a live row is below the last purge, and how overdue any live row can be: less than the time between purges and a second, and for a row that is below, as much more as its last write was behind. |
| `Lifecycle.RowsCounted` | database/sqlite.go:29-33 | The ids born, logged out and purged are as many as the insertions, the logouts that found their row and the rows purges found too old, and the live rows are their difference. |
| `Lifecycle.Conservation` | sessions/session.go:111-167 | The ids ever inserted are the disjoint union of the live, the logged-out and the purged, and the count agrees with the steps of the run. |
| `Lifecycle.OnlyLogoutRemoves` | sessions/handler.go:72-83 | A callback, also one over an existing session, adds one row and removes none; among requests only a logout removes rows. |
| `Access.UnrefreshedIsUnexpired` | sessions/middleware.go:36-59 | A token served without a refresh had not passed the provider's own expiry at the check. |
| `Access.PendingLoginNeverServed` | sessions/manager.go:126-130 | A request whose cookie holds a state is never served, also when the cookie names a live session. |
| `Access.ServedAfterGone` | sessions/middleware.go:18-59 | Once its row is gone, a request can still be served if and only if it stands at one of the three places that look at the row no more: unexpired at the check, past the comparison with an encryptable record, or about to write its cookie. |
| `Access.GoneMeansRefused` | sessions/middleware.go:18-59 | In every run, whoever is served for a row that was gone stood at one of those places in that very state, requests that arrive later included. |
| `Access.LogoutFinality` | sessions/handler.go:90-112 | After a logout's DELETE has committed, no request that loads its session later reaches next, whichever issued cookie naming the id it replays. |
| `Provenance.ServedTokenSafety` | sessions/middleware.go:18-59 | In every run a served token is that of the last write its request found in the session's row, or of the answer that request got itself; either way it was the access token of an answer whose ID token verified for the subject the row was inserted with, even if the row was removed meanwhile. |
| `Provenance.WriteWasReceived` | sessions/session.go:80-148 | Every write of a row stores a record that the writing request got from the provider in an earlier step of its own. |
| `Provenance.RowHoldsLatestAnswer` | sessions/session.go:128-148 | A live row holds the answer of the request that wrote last, and this is the latest answer for that row if and only if the same request got the latest one. |
| `LoginFlow.IssuedCookies` | sessions/session.go:58-109 | Every issued cookie holds a state generated by a login or an id inserted by a callback earlier in the run. |
| `LoginFlow.SessionInvalidMeansNoCookie` | sessions/session.go:40-43 | GetSession reports a missing session id exactly for a request without a session cookie. |
| `LoginFlow.StateCheck` | sessions/handler.go:52-63 | Exactly which callbacks pass the state check (sections 4.1.2 and 10.12 of RFC 6749), and what an empty response value lets through. |
| `LoginFlow.InsertTracesToLogin` | sessions/handler.go:58-83 | An inserted row traces back to an earlier login that generated the accepted state if and only if the response was not empty; its record came from an earlier answer. |
| `LoginFlow.CallbackRenewsId` | sessions/handler.go:72-83 | The id in a callback's cookie is in no cookie issued before, and no state or old id survives in it. |
| `LoginFlow.StepCookieFits` | sessions/session.go:58-167 | What each outcome does to cookie values and Max-Age (section 5.2.2 of RFC 6265): no state survives a callback or a refresh, a logout expires the cookie, a refusal writes none, and only a request served from loaded data succeeds without one. |
| `LoginFlow.CookieByOutcome` | sessions/session.go:58-167 | The same for every step of every run. |
| `Examples.InsertionWithoutLogin` | sessions/session.go:72-75 | A concrete run in which a callback with an empty response value inserts a row no login stands behind. |
| `Examples.ServedAfterLogout` | sessions/middleware.go:18-59 | A concrete run in which a request that had loaded its row is served after the logout. |
| `Examples.PurgedDespiteRefreshToken` | database/sqlite.go:215-223 | A concrete run in which a purge removes a row with a refresh token and an issued cookie. |
| `Examples.LateRow` | database/sqlite.go:74-110 | A concrete run with a live row that was below the last purge when it was written. |
| `Examples.PurgeOfLaterRow` | database/sqlite.go:215-218 | A concrete run in which a row is inserted, and time goes on, between the cleaner's reading of the clock and its DELETE. |
| `Examples.LostUpdate` | sessions/session.go:128-148 | A concrete run in which the older of two answers ends up in the row. |
| `Examples.SoundCipherExists` | database/database.go:38-97 | A cipher satisfying the assumptions exists. |
| `Shutdown.ActionKeeps` | main.go:72-103 | A channel is closed only by the returned cleaner, and the wait is deferred after, so runs before, the closing of the database. |
| `Shutdown.ClosedOnceThenQuiet` | sessions/manager.go:64-97 | Over all interleavings at most one close happens, and from then on no purge runs or starts. |
| `Shutdown.NoPurgeAfterClose` | main.go:72-103 | No purge runs or starts once the database connection is closed, whichever managers exist. |
| `Shutdown.WaitEndsForWinnerOnly` | sessions/manager.go:99-102 | Main gets past the wait only if its own manager's goroutine was the cleaner and has returned. |
| `Shutdown.ShutdownCompletes` | sessions/manager.go:64-67 | A stopping process can close its database exactly when main's manager is, or can still become, the one running the cleaner. |
| `Shutdown.NobodyBlocks` | sessions/manager.go:64-97 | No party of the shutdown takes a step away from another: a cancellation does not stop even the start of another purge. |
| `Shutdown.StrandedByAnyOther` | sessions/manager.go:64-102 | Until the cleaner has started every other manager can still be the one that leaves main waiting forever; from then on main can be stranded if and only if it is not main's manager that runs it. |
| `Shutdown.PurgeAfterCancel` | sessions/manager.go:86-95 | A concrete run in which the cleaner picks a tick after its context was cancelled and main is waiting. |
| `Shutdown.MainWaitsForever` | sessions/manager.go:64-102 | A concrete run in which main waits for a channel that nobody will close, although every context has been cancelled. |

## Left out

- OpenTelemetry spans, logging and the status recorder: no effect on session state.
- HTTP status codes, redirect URLs, error bodies and the reverse proxy: only the outcome of a
  request (served, redirected or refused) and its cookie are modelled; every error is a refusal
  with its cause.
- The provider, ID-token verification and endpoint discovery: an oracle with any answer.
- The insides of gorilla/sessions, securecookie, the cipher and the SQL engines, key rotation
  included: the assumptions above.
- A statement that takes effect and still reports an error, and two connections seeing each
  other's statements half done: excluded by the assumption on statements.
- PostgreSQL's 32-bit expiry column and concurrent use of its single connection: an expiry out
  of range is one of the failing writes.
- Cookie key assembly in `sessions/configuration.go` and flag parsing in `config/config.go`:
  branch-by-branch code with no effect on the protocol.
- The user-info handler behind the middleware, which only forwards the access token it is given.
- Requests still running at process exit: the server is not drained, so only the cleaner is
  ordered against closing the database.
- Aliasing of one `Session` by concurrent requests: each request builds its own, so the
  interleaved system keeps the locals of a request in a value.
- SessionStore.ExpiredSessionsCleaner: takes the choices of its select as a finite sequence, so
  a loop that is never cancelled appears as all its finite beginnings. The ticker that makes the
  ticks, and its stopping, are left out: a tick may come at any time.
