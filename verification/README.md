# WhatsVault: a verified model

WhatsVault keeps a private archive of WhatsApp conversations. It stores its state in small SQL tables
that short transactions change, and what it promises is about whole runs of those transactions: a
message delivered twice is stored once, an approval is spent once, a stolen refresh token ends its
family, an import can be undone without a trace. This project models those components in Dafny and
proves the promises over every run, with a crash or an exception wherever the code can meet one.

Each component that changes state is a class whose methods follow the code step by step and are proved
equal to a function on values. The functions make up a state machine, and the theorems are about every
run of it, or every input. What a step accepts, answers and writes is also stated a second time, without those
functions: in the columns of the rows and the values of the input. The conventions are the same everywhere:

- A table is a map keyed by its primary key. Names that the code draws at random (row ids, secrets, codes)
  come from a counter that is never reused, so they are fresh against the whole history.
- Hashes and signatures are ideal. A digest is kept as the bytes it was computed from, and `Encoding.dfy`
  proves that those bytes determine the fields. A signature verifies when that key signed those bytes.
- Time, randomness, the answers of the provider, the rows a SELECT returns in no particular order, and the
  place where a crash or an exception strikes are parameters, and the theorems hold for all of them.

| file | models |
|---|---|
| `Prelude.dfy`, `Schema.dfy`, `Tables.dfy` | shared values, rows and queries |
| `ImportVault.dfy`, `Writers.dfy`, `Imported.dfy` | import and undo of chat exports, whose stamp a stored message carries, and what its row says |
| `OAuth.dfy`, `OAuthCalls.dfy`, `OAuthRaces.dfy` | authorization requests, codes, token families, garbage collection; what each call accepts; the same with calls that interleave |
| `Queue.dfy`, `Ingest.dfy` | the pull queue, the ingest loop, the dead letters, the breaker, the window |
| `KeyHealth.dfy`, `WindowLag.dfy`, `Filing.dfy`, `Draining.dfy` | which keys count as healthy, when the window is up to date, where a message is filed, and what an undisturbed drain gets done |
| `Encoding.dfy`, `Layout.dfy` | every canonical encoding: decisions, grants, enrolments, dedupe keys, fingerprints; and what a reader finds in them |
| `Policy.dfy`, `Devices.dfy`, `Send.dfy`, `Outcomes.dfy` | the send policy, device keys, the sender, and what it answers and records |
| `Drafts.dfy`, `DraftRaces.dfy` | `prepare` in runs of the sender: which draft an ask is handed, and what becomes of it; the same with calls that interleave |
| `Window.dfy` | ingest, imports and sender as one machine: the 24-hour window end to end |
| `Capabilities.dfy`, `GrantRaces.dfy` | action budgets with interleaved callers, and `mark_read` |
| `SearchText.dfy`, `Folding.dfy`, `SearchIndex.dfy`, `SearchQuery.dfy` | normaliser and snippets, what is the same to search, index, query compiler |
| `Reads.dfy`, `Answers.dfy` | the fenced reads, and what each answers |
| `Transcript.dfy`, `Lines.dfy` | transcript assembly; lines and records in terms of the text |

## What the code does not promise

Some properties one would expect are false of the code. Each has a lemma that says exactly when it holds.

- `execute_write` checks the draft's nonce in the signed payload and consumes the envelope's. Nothing
  equates them, so a draft can be sent twice (`Send.DoubleSend`); `Send.SecondNonceAdmits` says exactly when, and
  `Send.AtMostOncePerDraft` holds when every envelope carries its draft's nonce.
- A crash between the vault commit and `advance_window` leaves the window behind its evidence, and redelivery
  does not catch it up (`Ingest.CrashStrandsWindow`, `Ingest.RedeliveryChangesNothing`).
  `WindowLag.WindowCurrentIff` says when a window is up to date, in every run, and
  `WindowLag.PayloadKeepsCurrentIff` when a payload keeps it so.
- Garbage collection uses `<=` where the calls use `>`: at the very instant of expiry it turns an accepted
  call into a refusal (`OAuth.CollectExact`, `OAuth.CollectBitesAtTheSameInstant`). It also deletes rotated
  tokens, after which their reuse goes unnoticed (`OAuth.ReuseNoticedIffStored`).
- `revoke_all` revokes tokens only: codes and approved requests survive it (`OAuth.RevokeAllSparesCodes`).
- Undo keeps the account, direction and time zone that the first importer of a message stamped on it, even when
  it is that import which is undone (`ImportVault.TwoImportsIff`); `Writers.UndoExactIffStampsAgree` says, after any
  history, when an undo is exact, stamps included.
- A recovery that runs while a send is in flight lets the attempt leave SUBMITTED, or change its wamid.
  `Send.RecoverySafeIff`: a recovery is safe if and only if nothing is in flight.
- Search applies its limit before its fence, so a fenced match can displace a visible one (`Reads.SearchInterferes`);
  `Reads.SearchFenceExact` says when it does not.
- A negative search limit is not a limit: it drops hits from the end (`SearchQuery.NegativeLimitDropsFromTheEnd`).
- `_append_body` drops line breaks while a body is empty, so a body does not always give back the text
  (`Transcript.BodyKeepsTextIff`).
- A rebuild stores the latest evidence exactly when its timestamp is not negative (`WindowLag.RebuildIsCurrent`).
- A capability's account is signed and never compared with the account of the message marked as read, so another
  account's grant can pay (`Capabilities.ForeignAccountPays`); `Capabilities.AccountKeptIff` says when none can in one
  call, and `GrantRaces.AccountKeptInRunsIff` in every run that follows.
- `verify_and_consume` reads the device's key, and only later updates the counter. A revocation in between comes too
  late (`Capabilities.RevocationTooLate`, and `GrantRaces.RevokedGrantIsConsumed` from empty tables);
  `Capabilities.ConsumeIsVouched` says when the grant is still vouched for.
- `prepare` looks for a draft to reuse by conversation and body only. In every run of whole calls there is at most one
  draft for the same words (`Drafts.OneDraftPerWords`), the one the first answered ask for them created. A later ask is handed it whoever
  it is addressed to now (`Send.ReuseIgnoresRecipient`); `Drafts.ReusedAsFirstAsked` says when it is addressed as asked.
- For the same reason an expired draft is handed back for ever (`Drafts.ExpiredHandedBack`), so no ask moves the
  expiry the first one set (`Drafts.SentBeforeFirstExpiry`); `Drafts.HandedBackSendableIff` says when the draft handed
  back can still be sent.
- `prepare` selects and then inserts, with nothing to keep another call out, so two calls for the same words can make
  two drafts (`DraftRaces.TwoDrafts`). There is still one if calls for the same words do not overlap
  (`DraftRaces.OneDraftIfSerial`); `DraftRaces.StaysOneIff` and `DraftRaces.NoSecondDraftIff` say exactly when.
- `poll` reads a request and later writes its code without a guard, so two polls can get a code each
  (`OAuthRaces.TwoCodes`); `OAuthRaces.NoSecondCodeIff` says when a second code is impossible. `exchange_code` has the
  guard, and a code yields one pair however the calls interleave (`OAuthRaces.NoSecondExchangeStill`).
- A `revoke_all` between `refresh`'s read and its write is undone by that write (`OAuthRaces.RevokedFamilyRevives`);
  `OAuthRaces.RevokeAllSilencesIff` says when it silences every family.

## Model

| member | source | states |
|---|---|---|
| `ImportVault.ImportIsJoin` | src/whatsvault/importers/whatsapp_export.py:160-227 | after any history of imports and undos, a fingerprint is stored exactly when its occurrence index is below the largest count of its bucket in any batch not undone; it has one row, with the bucket's content |
| `ImportVault.OrderIrrelevant` | src/whatsvault/importers/whatsapp_export.py:160-227 | two histories with the same live transcripts store the same messages, whatever order, repetition or undone batches they had |
| `ImportVault.UndoLeavesNoTrace` | src/whatsvault/importers/whatsapp_export.py:277-307 | undoing a batch at any later time leaves the messages, up to id and stamp, of every history that never had it |
| `ImportVault.UndoInvertsImport` | src/whatsvault/importers/whatsapp_export.py:277-307 | undo straight after import restores messages, fingerprint index, observations, participants and sources exactly |
| `ImportVault.ReimportAddsNothing` | src/whatsvault/importers/whatsapp_export.py:169-210 | a transcript covered by a live batch changes neither the messages nor the index |
| `ImportVault.NotYetObserved` | src/whatsvault/importers/whatsapp_export.py:161-226 | the occurrence index makes every observation insert legal: its primary key is new |
| `ImportVault.OrphanIffUnsupported` | src/whatsvault/importers/whatsapp_export.py:290-297 | undo deletes a message exactly when no other live batch supports it |
| `ImportVault.ProviderRowsUntouched` | src/whatsvault/importers/whatsapp_export.py:182-201 | import and undo leave every row without a fingerprint as it was, and add no window-eligible row |
| `ImportVault.SupportGrows` | src/whatsvault/importers/whatsapp_export.py:168-173 | one more message of a bucket adds exactly one supported fingerprint |
| `ImportVault.TwoImportsIff` | src/whatsvault/importers/whatsapp_export.py:181-201 | the smallest case: import a transcript twice, undo the first; the rows are those of the second import alone exactly when both settings give every sender the same account, direction and time zone |
| `Writers.RowIsItsWriters` | src/whatsvault/importers/whatsapp_export.py:177-201 | after every history each stored imported message is exactly the row given by the settings of its writer: the import that made it supported after it last was not |
| `Writers.SameRowsIff` | src/whatsvault/importers/whatsapp_export.py:160-227 | two histories with the same live transcripts hold the same rows, stamps included, exactly when the writers of every stored fingerprint stamp its sender alike |
| `Writers.UndoExactIffStampsAgree` | src/whatsvault/importers/whatsapp_export.py:277-307 | after any history, undoing a batch gives the rows of a history without it, stamps included, exactly when every message that stays was written under the same stamp in both |
| `ImportVault.RunKeeps` | src/whatsvault/importers/whatsapp_export.py:89-307 | every reachable state satisfies the invariant relating messages, index, observations, participants and live batches |
| `Imported.AcceptedIff` | src/whatsvault/importers/whatsapp_export.py:102-123 | an import is accepted exactly when label, format and time zone are given, the format is among the text's families and every ambiguous instant is resolved; otherwise the refusal names the first of these that fails |
| `Imported.RowFrom` | src/whatsvault/importers/whatsapp_export.py:161-201 | after every history each stored row was written by one accepted import from one record of its transcript and has stayed as it is: text, kind, conversation and minute are the record's, upper bound a minute later, manual export, not eligible; account and time zone are the importer's, and it is outgoing exactly when the stripped sender is the stripped self label |
| `Imported.RecordIsStored` | src/whatsvault/importers/whatsapp_export.py:161-226 | every record of a transcript that was not undone has a row that tells what it says, staged for search under its body, and observed for the batch by a participant with its sender's name |
| `Imported.RowsShared` | src/whatsvault/importers/whatsapp_export.py:168-178 | two records share a row exactly when conversation, minute, sender, kind and body agree and both have as many earlier like in their own transcripts; two records of one transcript never do |
| `Imported.RowIsRecords` | src/whatsvault/importers/whatsapp_export.py:160-307 | nothing else is stored: every row is that of a record of some transcript that was not undone |
| `Imported.BatchIsLogged` | src/whatsvault/importers/whatsapp_export.py:131-148 | the log row of every import holds its settings and its number of messages, and says it is undone exactly when it was; it has a source row, with its conversation and account, exactly while it was not |
| `ImportVault.ImportStore.CheckGate` | src/whatsvault/importers/whatsapp_export.py:102-123 | the refusals, in order, before any write |
| `ImportVault.ImportStore.ImportBatch` | src/whatsvault/importers/whatsapp_export.py:89-244 | the new tables are those of the specification, a refusal changes nothing, and the counts reported are right |
| `ImportVault.ImportStore.AddSenders` | src/whatsvault/importers/whatsapp_export.py:149-159 | one participant for each distinct sender |
| `ImportVault.ImportStore.AddRecords` | src/whatsvault/importers/whatsapp_export.py:161-227 | the loop with its occurrence dictionary numbers each message by the earlier ones of its bucket |
| `ImportVault.ImportStore.AddRecord` | src/whatsvault/importers/whatsapp_export.py:174-226 | one turn: find or insert, then observe |
| `ImportVault.ImportStore.WriteMessage` | src/whatsvault/importers/whatsapp_export.py:180-210 | the new row, its index entry and its search document, under a fresh id |
| `ImportVault.ImportStore.UndoBatch` | src/whatsvault/importers/whatsapp_export.py:277-307 | the new tables are those of the specification, with the numbers of observations and messages deleted |
| `ImportVault.ImportStore.DropUnobserved` | src/whatsvault/importers/whatsapp_export.py:290-297 | the loop deletes exactly the messages left unobserved and without wamid |
| `OAuth.OneLivePair` | src/whatsvault/mcp/oauth.py:334-441 | in every run from empty tables a family has at most one unrevoked token of each kind |
| `OAuth.DeadForever` | src/whatsvault/mcp/oauth.py:409-459 | a family without an unrevoked token never validates or issues again |
| `OAuth.ReuseFinishesFamily` | src/whatsvault/mcp/oauth.py:416-429 | a rotated refresh token whose row is stored is refused and ends its family for the rest of the run |
| `OAuth.RotationRetiresOldPair` | src/whatsvault/mcp/oauth.py:434-441 | after a rotation the family's live tokens are exactly the two returned |
| `OAuth.TokenFrom` | src/whatsvault/mcp/oauth.py:154-406 | every stored token descends from one begin, approve, poll and exchange with one client, a registered redirect and the S256 verifier, its first pair issued within 660000 ms of the begin, for any clock |
| `OAuth.EveryFamilyHasAChain` | src/whatsvault/mcp/oauth.py:375-459 | so does everything a run issues or vouches for, even after the rows are gone |
| `OAuth.CredentialsExpire` | src/whatsvault/mcp/oauth.py:334-459 | for any clock, a validated access token was issued, in the same family, at most an hour before, and a rotated refresh token at most thirty days before |
| `OAuth.ChainsAreDisjoint` | src/whatsvault/mcp/oauth.py:291-406 | two families share no event of their chains |
| `OAuth.NoSecondCode` | src/whatsvault/mcp/oauth.py:300-323 | an approval yields one code, ever |
| `OAuth.NoSecondExchange` | src/whatsvault/mcp/oauth.py:381-406 | a code yields one family, ever |
| `OAuth.PendingCap` | src/whatsvault/mcp/oauth.py:185-191 | for any clock sequence the whole table holds at most 25 unapproved requests |
| `OAuth.CollectExact` | src/whatsvault/mcp/oauth.py:233-248 | after a collection at any time a call is accepted exactly when it was before and its row outlives the collection |
| `OAuth.CollectHarmlessLater` | src/whatsvault/mcp/oauth.py:233-248 | a collection changes no call made strictly later |
| `OAuth.CollectBitesAtTheSameInstant` | src/whatsvault/mcp/oauth.py:241-274 | at the same instant it does: an approval accepted without it is refused after it |
| `OAuth.ReuseNoticedIffStored` | src/whatsvault/mcp/oauth.py:244-420 | reuse of a rotated token ends its family exactly when its row outlived the collection |
| `OAuth.RevokeAllSilences` | src/whatsvault/mcp/oauth.py:462-468 | after `revoke_all` nothing validates or rotates until a code is exchanged |
| `OAuth.RevokeAllSparesCodes` | src/whatsvault/mcp/oauth.py:462-468 | polls and exchanges answer as if it had not run |
| `OAuth.StepPending` | src/whatsvault/mcp/oauth.py:208-322 | where a request row comes from and which of its columns an event may change |
| `OAuth.Server.Register` | src/whatsvault/mcp/oauth.py:113-141 | the redirect checks in order, and the new client row |
| `OAuth.Server.Collect` | src/whatsvault/mcp/oauth.py:233-248 | exactly the expired rows of three tables go, and their number is returned |
| `OAuth.Server.Begin` | src/whatsvault/mcp/oauth.py:169-230 | collection, cap, checks and the new row, on every path |
| `OAuth.Server.Approve` | src/whatsvault/mcp/oauth.py:262-288 | the row marked approved, or the refusal and no change |
| `OAuth.Server.Poll` | src/whatsvault/mcp/oauth.py:291-330 | the code row and the collected mark, or nothing |
| `OAuth.Server.IssuePair` | src/whatsvault/mcp/oauth.py:334-363 | two tokens of one family with their lifetimes |
| `OAuth.Server.Exchange` | src/whatsvault/mcp/oauth.py:375-406 | the code consumed and a new family, or the refusal |
| `OAuth.Server.Rotate` | src/whatsvault/mcp/oauth.py:409-441 | reuse response, refusals and rotation |
| `OAuth.Server.Validate` | src/whatsvault/mcp/oauth.py:444-459 | claims of a live access token, or none |
| `OAuth.Server.RevokeEverything` | src/whatsvault/mcp/oauth.py:462-468 | every unrevoked token is stamped and nothing else changes |
| `OAuthCalls.RegisterIff` | src/whatsvault/mcp/oauth.py:113-141 | a client is registered exactly when it gives one to ten redirects, each https, without a fragment and of at most 512 characters; otherwise nothing changes and the refusal is that of the first bad one |
| `OAuthCalls.BeginIff` | src/whatsvault/mcp/oauth.py:185-230 | a request begins exactly when fewer than 25 wait, the client is registered with that redirect, the state has at most 512 characters, the challenge 43 to 128, and the method is S256; expired codes and tokens go in any case |
| `OAuthCalls.BeginWrites` | src/whatsvault/mcp/oauth.py:185-230 | the new row's columns, ten minutes to live, and which other requests stay |
| `OAuthCalls.ApproveIff` | src/whatsvault/mcp/oauth.py:262-288 | accepted exactly when the request is stored, unapproved and not past its expiry, with the refusal for each other case |
| `OAuthCalls.PollIff` | src/whatsvault/mcp/oauth.py:291-330 | a code exactly when the request is stored, approved, uncollected and not past its expiry; the code's columns are the request's, for one minute |
| `OAuthCalls.ExchangeIff` | src/whatsvault/mcp/oauth.py:375-406 | a pair exactly when the code is stored, unconsumed, not past its expiry, and its client, redirect and challenge fit; the two tokens' columns |
| `OAuthCalls.RotateIff` | src/whatsvault/mcp/oauth.py:409-441 | a new pair exactly when the token is a stored refresh token, not revoked, not past its expiry, and presented by its own client; which tokens are revoked, and by whom |
| `OAuthCalls.ValidateIff` | src/whatsvault/mcp/oauth.py:444-459 | claims exactly for a stored access token, not revoked and not past its expiry, and they name its family and client |
| `OAuthCalls.CollectKeeps` | src/whatsvault/mcp/oauth.py:233-248 | exactly the rows that expire later stay, as they are |
| `OAuthCalls.RevokeAllStamps` | src/whatsvault/mcp/oauth.py:462-468 | tokens without a stamp get one, and nothing else changes |
| `OAuthCalls.S256Is` | src/whatsvault/mcp/oauth.py:390 | a verifier is read piece by piece |
| `OAuthCalls.S256Character` | src/whatsvault/mcp/oauth.py:390 | of a character it keeps itself if it is ASCII, and nothing otherwise |
| `OAuthCalls.RedirectsAreSafe` | src/whatsvault/mcp/oauth.py:113-141 | in every run every registered redirect is https, without a fragment, of at most 512 characters, and no client has more than ten |
| `OAuthCalls.BegunIsWellAsked` | src/whatsvault/mcp/oauth.py:195-207 | in every run every request that begins used S256 with a challenge of 43 to 128 characters and a safe redirect of its client |
| `OAuthCalls.RotatesForItsBeginner` | src/whatsvault/mcp/oauth.py:409-441 | in every run a refresh token rotates exactly when it is stored, not revoked, not past its expiry, and presented by the client that began the chain its family comes from |
| `OAuthCalls.VouchesForItsBeginner` | src/whatsvault/mcp/oauth.py:444-459 | in every run an access token is vouched for, in the name of the client that began its chain, exactly when it is stored, not revoked and not past its expiry |
| `OAuthRaces.UninterruptedIsWhole` | src/whatsvault/mcp/oauth.py:291-441 | a read followed at once by its write is the whole call, answer and tables alike |
| `OAuthRaces.OneLivePairStill` | src/whatsvault/mcp/oauth.py:334-441 | however the calls interleave, a family has at most one unrevoked token of each kind |
| `OAuthRaces.NoSecondExchangeStill` | src/whatsvault/mcp/oauth.py:381-406 | however they interleave, of the exchanges of a code one at most issues a pair: the update's row count guards it |
| `OAuthRaces.CollectSpends` | src/whatsvault/mcp/oauth.py:306-330 | in every run the write of a poll yields a code and spends the request |
| `OAuthRaces.NoSecondCodeIff` | src/whatsvault/mcp/oauth.py:300-323 | after a request is collected no continuation yields another code for it exactly when no other poll that read it is still to write |
| `OAuthRaces.TwoCodes` | src/whatsvault/mcp/oauth.py:300-323 | two polls that read a request before either writes get two different codes |
| `OAuthRaces.FamilySilentIff` | src/whatsvault/mcp/oauth.py:409-441 | a family without a live token stays silent in every continuation exactly when no rotation that read one of its tokens is still to write |
| `OAuthRaces.RevokedFamilyRevives` | src/whatsvault/mcp/oauth.py:416-468 | any live refresh token read before `revoke_all` brings its family back after it, and the new access token validates |
| `OAuthRaces.RevokeAllSilencesIff` | src/whatsvault/mcp/oauth.py:462-468 | after `revoke_all`, in any run, every family so far stays silent in every continuation exactly when no rotation was between its read and its write |
| `OAuthRaces.CallerFrom` | src/whatsvault/mcp/oauth.py:291-441 | a call between its read and its write holds a row that was stored, and passed every check, when it read it |
| `OAuthRaces.TokenOrigin` | src/whatsvault/mcp/oauth.py:154-406 | however the calls interleave, every stored token descends from one begin, one approval, the write of one poll and the read and write of one exchange, for one client, redirect and verifier, within 660000 ms |
| `OAuthRaces.RotationPassesIff` | src/whatsvault/mcp/oauth.py:416-433 | however they interleave, a rotation passes its checks exactly when its token is stored, not revoked, not past its expiry, and presented by the client that began its chain |
| `OAuthRaces.IssuedToItsBeginner` | src/whatsvault/mcp/oauth.py:334-441 | whatever any write issues belongs to the client that began the chain of its family and asked for it, for an hour and for thirty days |
| `OAuthRaces.WriteAnswers` | src/whatsvault/mcp/oauth.py:307-441 | polls and rotations always go through, an exchange exactly when its code is still stored and unconsumed |
| `Queue.LeaseConserves` | apps/ingest/queue_client.py:23-31 | leasing conserves the number of copies of every body |
| `Queue.LeaseEntries` | apps/ingest/queue_client.py:23-31 | fresh lease ids name the first pending bodies, in order |
| `Queue.ReturnConserves` | apps/ingest/queue_client.py:33-43 | so do ack and nack, for any lease ids |
| `Queue.ReturnMoves` | apps/ingest/queue_client.py:33-43 | an acknowledged body is the last acknowledged, a returned one the last pending, and an unknown lease changes nothing |
| `Queue.AckAllMoves` | apps/ingest/queue_client.py:33-37 | a list of leases moves exactly the known ones, in the list's order |
| `Queue.FakeQueue.Add` | apps/ingest/queue_client.py:20-21 | the body joins the pending ones at the end |
| `Queue.FakeQueue.Lease` | apps/ingest/queue_client.py:23-31 | at most `max` leases, for the first pending bodies |
| `Queue.FakeQueue.Ack` | apps/ingest/queue_client.py:33-37 | known leases become acknowledged bodies, unknown ones are ignored |
| `Queue.FakeQueue.Nack` | apps/ingest/queue_client.py:39-43 | known leases go back to pending |
| `Ingest.ExactlyOnceEffect` | apps/ingest/consumer.py:105-143 | under any redelivery, reordering, crash and exception, ledger rows of the message families are in bijection with live message rows and status ledger rows with status events |
| `Ingest.QueueConserves` | apps/ingest/consumer.py:146-209 | pending, leased and acknowledged are, as a multiset, what was delivered |
| `Ingest.AckMeansAccounted` | apps/ingest/consumer.py:154-206 | an acknowledged body is quarantined or has every key in the ledger; a genuine body is never quarantined; a forgery is acknowledged only if a genuine body under its key was delivered |
| `Ingest.LedgerExactWhenDrained` | apps/ingest/consumer.py:105-206 | once all bodies are acknowledged the ledger's keys are exactly those of the delivered payloads |
| `Draining.QuietDrainAcks` | apps/ingest/consumer.py:146-209 | a drain that nothing disturbs, over bodies that can all be read, acknowledges exactly the first `max` pending ones, in their order, and leaves the rest |
| `KeyHealth.HealthIsHistory` | apps/ingest/consumer.py:156-157 | in every run a key is healthy exactly when an envelope was opened under it since the process started |
| `KeyHealth.HealthAtLease` | apps/ingest/consumer.py:175-181 | the same at every lease inside a drain |
| `KeyHealth.UnprovenForgeryTrips` | apps/ingest/consumer.py:175-197 | a drain that reaches a body failing authentication, under an available key that has opened nothing since the process started, ends with the breaker open and the body still leased |
| `KeyHealth.AckedForgeryWasProven` | apps/ingest/consumer.py:180-194 | an acknowledged forgery was reached where its key had opened an envelope earlier in the same process |
| `Ingest.BreakerHolds` | apps/ingest/consumer.py:149-150 | an open breaker stays open, and drains change nothing, until it is reset |
| `Ingest.ProcessKeeps` | apps/ingest/consumer.py:105-143 | whatever strikes, and wherever, one payload keeps the invariant and loses nothing committed; if it finishes, all its keys are in the ledger |
| `Ingest.CommitKeeps` | apps/ingest/consumer.py:110-134 | one transaction keeps ledger and rows in step |
| `Ingest.UniqueWamidNeverFires` | apps/ingest/consumer.py:59-79 | a live row with the same wamid belongs to another account, so the unique index cannot fire |
| `Ingest.CommitEnds` | apps/ingest/consumer.py:110-134 | when an event is written, passed over or fails |
| `Ingest.LeaseLeadsTo` | apps/ingest/consumer.py:154-205 | for each kind of body: what is quarantined, returned, acknowledged or trips the breaker, and that nothing else changes |
| `Filing.SameKeyIff` | src/whatsvault/ingest/normalise.py:98-114 | two events have one key exactly when they are of one family and agree in the columns that identify it |
| `Filing.CommitOpens` | apps/ingest/consumer.py:52-85 | a committed message adds one row that tells what the event says, under the ids of its own number and sender |
| `Filing.RowsAreFiled` | apps/ingest/consumer.py:20-85 | in every run each live row was written for an event in a delivered body with its key and tells what that event says; two rows share an account exactly when the numbers agree, a contact exactly when both have the same sender, and a conversation exactly when both agree |
| `Filing.StatusesAreTold` | apps/ingest/consumer.py:86-93 | in every run each status event tells what a delivered event with its key says |
| `Ingest.RedeliveryChangesNothing` | apps/ingest/consumer.py:127-129 | a body whose keys are all in the ledger changes neither vault nor window |
| `Ingest.CrashStrandsWindow` | apps/ingest/consumer.py:131-136 | a crash between commit and window leaves the window where it was, redelivery too, while an undisturbed run advances it |
| `Ingest.WindowHasEvidence` | src/whatsvault/doctor.py:9-22 | in every reachable state a stored window is 0 or the timestamp of a stored window-eligible inbound message of its conversation |
| `WindowLag.WindowCurrentIff` | apps/ingest/consumer.py:130-136 | in every run a window equals its latest evidence, or 0, exactly when it has reached every message whose update a fault swallowed since its last rebuild |
| `WindowLag.NothingLostIsCurrent` | apps/ingest/consumer.py:130-136 | so with nothing lost since its last rebuild it is up to date |
| `WindowLag.PayloadKeepsCurrentIff` | apps/ingest/consumer.py:105-143 | processing a payload keeps an up-to-date window so exactly when no fault strikes between the commit of a newer inbound message and its window |
| `WindowLag.LostMeans` | apps/ingest/consumer.py:131-136 | what is lost is the time of a received message whose processing was struck right after its commit |
| `WindowLag.CurrentIsLatest` | src/whatsvault/doctor.py:25-33 | up to date means equal to the latest evidence where that is positive, and 0 otherwise |
| `WindowLag.RebuildIsCurrent` | src/whatsvault/doctor.py:25-46 | a rebuild brings its window up to date, touches no other, and stores the latest evidence exactly when that is not negative |
| `Ingest.HandleKeeps` | apps/ingest/consumer.py:154-205 | one lease keeps the invariant; only an accounted body is put up for acknowledgement; only a transient failure returns the lease |
| `Ingest.Consumer.CommitEvent` | apps/ingest/consumer.py:110-134 | ledger row, account, contact, conversation and domain row, or a rollback |
| `Ingest.Consumer.AdvanceWindow` | src/whatsvault/doctor.py:9-22 | the running maximum |
| `Ingest.Consumer.ProcessPayload` | apps/ingest/consumer.py:105-143 | the loop over the atoms with a fault where the oracle puts one |
| `Ingest.Consumer.HandleLease` | apps/ingest/consumer.py:154-205 | each outcome of opening, and what it does to queue, dead letters, breaker and key health |
| `Ingest.Consumer.DrainOnce` | apps/ingest/consumer.py:146-209 | a whole drain, cut short where the process dies |
| `Ingest.Consumer.Acknowledge` | apps/ingest/consumer.py:206 | the acknowledgements at the end of a drain, or a prefix of them if the process dies among them |
| `Ingest.Consumer.Rebuild` | src/whatsvault/doctor.py:25-46 | the maximum over the evidence, stored where it differs |
| `Encoding.LpRoundTrip` | src/whatsvault/importers/fingerprint.py:13-17 | an independent reader gets the parts back |
| `Encoding.Encode` | src/whatsvault/approval/canonical.py:46-53 | the growing buffer is the tagged, length-prefixed encoding, refused when a length does not fit |
| `Encoding.DecisionInjective` | src/whatsvault/approval/canonical.py:16-53 | equal bytes mean equal slots, all sixteen, up to absent against empty |
| `Encoding.GrantInjective` | src/whatsvault/approval/capabilities.py:38-45 | equal grant bytes mean equal slots |
| `Encoding.PurposesDisjoint` | src/whatsvault/approval/devices.py:13-18 | no bytes are two of decision, grant and enrolment |
| `Encoding.AttachmentsInjective` | src/whatsvault/approval/canonical.py:56-64 | the hashed bytes determine the attachments and their order |
| `Encoding.KeyBytesInjective` | src/whatsvault/ingest/dedupe.py:9-27 | two dedupe keys agree exactly when family and parts agree |
| `Encoding.ContentInjective` | src/whatsvault/importers/fingerprint.py:20-23 | the content fingerprint's bytes determine type and text |
| `Encoding.FingerprintInjective` | src/whatsvault/importers/fingerprint.py:26-44 | the import fingerprint's bytes determine conversation, minute, sender, type, content and occurrence |
| `Layout.DecisionLayout` | src/whatsvault/approval/canonical.py:11-53 | what a reader finds in the signed bytes: the domain, the version in two bytes, and the sixteen fields in their order, an absent one empty and a time in eight bytes, most significant first |
| `Layout.GrantLayout` | src/whatsvault/approval/capabilities.py:38-45 | the domains of grant and enrolment, and their parts in order |
| `Layout.KeyLayout` | src/whatsvault/ingest/dedupe.py:6-28 | the domain and the parts of a dedupe key, by family |
| `Layout.DecimalReads` | src/whatsvault/ingest/dedupe.py:28 | a time is written in decimal digits that stand for it |
| `Layout.NegativeReads` | src/whatsvault/ingest/dedupe.py:28 | with a sign where it is negative |
| `Layout.FingerprintLayout` | src/whatsvault/importers/fingerprint.py:26-44 | the domain and the seven parts of an import fingerprint, numbers most significant byte first |
| `Layout.ContentLayout` | src/whatsvault/importers/fingerprint.py:20-23 | the domain, the kind and the body |
| `Layout.AttachmentLayout` | src/whatsvault/approval/canonical.py:56-64 | position, hash, type and size of each attachment, in order |
| `Policy.FailedExact` | src/whatsvault/approval/policy.py:17-34 | the list names exactly the failing checks, and is empty exactly when none fails |
| `Policy.FailsIs` | src/whatsvault/approval/policy.py:17-34 | what each of the seven checks looks at |
| `Policy.Evaluate` | src/whatsvault/approval/policy.py:17-34 | the list grown check by check is that list |
| `Policy.ClockGuard.TrustedNow` | src/whatsvault/approval/clockguard.py:15-20 | a reading below the last is refused and forgotten, any other is remembered |
| `Send.AtMostOncePerNonce` | src/whatsvault/approval/sender.py:96-148 | over any run with crashes anywhere, each consumed nonce has at most one provider call |
| `Send.CallFollowsCommit` | src/whatsvault/approval/sender.py:104-129 | a call is made only from a state that holds its committed attempt and nonce, and is that attempt's first |
| `Send.AtMostOncePerDraft` | src/whatsvault/approval/sender.py:96-148 | if every envelope carries its draft's nonce, each draft has at most one call |
| `Send.SecondNonceAdmits` | src/whatsvault/approval/sender.py:97-103 | a signed envelope with another nonce is authorised again exactly when that nonce has 32 bytes and is not consumed |
| `Send.IdempotencyKeyUnique` | src/whatsvault/approval/sender.py:105-110 | two attempts never share the pre-image of the idempotency key |
| `Send.SentIsSigned` | src/whatsvault/approval/sender.py:60-129 | every call carries the phone number, recipient and, for a prepared draft, the body of an APPROVE decision signed by a device active when it was authorised; the same bytes are no grant and no enrolment |
| `Send.BytesBind` | src/whatsvault/approval/sender.py:24-45 | the signed bytes determine the decision and its purpose |
| `Send.Sender.PrepareDraft` | src/whatsvault/approval/drafts.py:21-77 | refused exactly when a policy check fails, answered with a matching pending draft, or written; a new draft's hash is that of its own body |
| `Send.ReuseIgnoresRecipient` | src/whatsvault/approval/drafts.py:50-55 | once a draft is prepared, every call with the same conversation and body, for any recipient, is answered with it |
| `Send.AskAnswered` | src/whatsvault/approval/drafts.py:34-77 | an ask is refused exactly when it names no recipient, or is a text while the window is closed; otherwise it is handed the draft found, or a new one |
| `Send.AnsweredNamesRecipient` | src/whatsvault/approval/drafts.py:45-47 | an ask that is not refused names a recipient |
| `Drafts.OneDraftPerWords` | src/whatsvault/approval/drafts.py:50-75 | in every run of asks and sends there is at most one draft for a conversation and body hash |
| `Drafts.SelectIsSettled` | src/whatsvault/approval/drafts.py:50-53 | so the SELECT has one possible answer |
| `Drafts.DraftForIs` | src/whatsvault/approval/drafts.py:56-75 | the columns of a new draft: words, address and times of the ask, a nonce, no attachments |
| `Drafts.DraftFrom` | src/whatsvault/approval/drafts.py:56-75 | every draft with a body was created by one ask, and still is what that ask asked for |
| `Drafts.WordsTaken` | src/whatsvault/approval/drafts.py:50-55 | once a draft holds some words, every later ask for them finds that draft, expired, sent or otherwise addressed |
| `Drafts.OnlyFirstCreates` | src/whatsvault/approval/drafts.py:45-77 | of the asks for the same words, those before the creating one are refused, and those after it refused or handed its draft |
| `Drafts.ReusedAsFirstAsked` | src/whatsvault/approval/drafts.py:50-55 | a draft handed back is the one the first answered ask for the words created, and it is addressed as asked exactly when this ask names that one's recipient, phone number, account and kind |
| `Drafts.HandedBackSendableIff` | src/whatsvault/approval/sender.py:60-111 | in every run, some approval of a draft with its own nonce starts a send exactly when the sender is free, the clock trusted, the nonce unconsumed, the draft unexpired, a text's window open, and an active device can approve it |
| `Drafts.SentBeforeFirstExpiry` | src/whatsvault/approval/drafts.py:50-73 | whatever is sent is sent before the expiry set by the ask that created its draft, and no later ask for those words gets another draft |
| `Drafts.ExpiredHandedBack` | src/whatsvault/approval/drafts.py:50-55 | two asks for the same words, the second after the first's expiry: it is handed a draft that no approval can send any more |
| `Drafts.CallHasWords` | src/whatsvault/approval/sender.py:113-129 | every provider call is for a draft an ask created, and carries its body |
| `Drafts.OneCallPerWords` | src/whatsvault/approval/sender.py:96-129 | if every envelope carries its draft's nonce, the provider is called at most once over a whole run with one body for one conversation, however often it is asked for |
| `DraftRaces.UninterruptedIsAsk` | src/whatsvault/approval/drafts.py:45-77 | a SELECT followed at once by its INSERT is the whole ask |
| `DraftRaces.OneDraftIfSerial` | src/whatsvault/approval/drafts.py:50-75 | in every run in which no call selects while another that found nothing for the same words is still to insert, drafts stored and about to be stored all hold different words |
| `DraftRaces.StaysOneIff` | src/whatsvault/approval/drafts.py:50-75 | where there is one draft for the same words, it stays so however the calls that have selected go on exactly when none of them has the words of a stored draft or of another call |
| `DraftRaces.NoSecondDraftIff` | src/whatsvault/approval/drafts.py:50-75 | once a draft holds some words, no continuation inserts another for them exactly when no call that selected before is still to insert one |
| `DraftRaces.TwoDrafts` | src/whatsvault/approval/drafts.py:50-75 | two calls for the same words that both select before either inserts leave two drafts |
| `Send.StartedIff` | src/whatsvault/approval/sender.py:60-111 | a send starts exactly when a trusted clock, an approved stored draft, a genuine signature over it by an active device, an unchanged body, every policy check and a fresh 32-byte nonce come together |
| `Send.SendsTwice` | src/whatsvault/approval/sender.py:41-129 | whatever envelope a state accepts it accepts twice with another nonce: two calls for one draft |
| `Send.DoubleSend` | src/whatsvault/approval/sender.py:41-129 | a run from empty tables in which a prepared draft, approved once, goes out twice |
| `Send.CallFrom` | src/whatsvault/approval/sender.py:104-129 | every call goes back to one authorisation of its draft, unchanged since |
| `Send.TextNeedsOpenWindow` | src/whatsvault/approval/sender.py:48-94 | a text is authorised only while the stored window is open |
| `Send.ExpiredNeverAuthorised` | src/whatsvault/approval/clockguard.py:15-20 | under one clock guard a draft refused as expired is never authorised later |
| `Send.ExpiredNeverSent` | src/whatsvault/approval/sender.py:81-129 | and, if no send of it was waiting to be posted, every later provider call is for another draft |
| `Send.AttemptLifecycle` | src/whatsvault/approval/sender.py:113-148 | with recovery only when nothing is in flight, attempts make only the allowed moves and a submitted one keeps its wamid |
| `Send.RecoverySafeIff` | src/whatsvault/approval/sender.py:143-148 | after any run with quiet recoveries, one more recovery leaves every continuation lawful exactly when no send is in flight |
| `Send.BreakingEvents` | src/whatsvault/approval/sender.py:113-148 | for any flight, posted or not and whatever its answer, the events after a recovery that make a forbidden move |
| `Send.RunWamids` | src/whatsvault/approval/sender.py:113-148 | in runs with quiet recoveries an attempt with a wamid is submitted |
| `Send.StatusResolvesOrAsks` | src/whatsvault/approval/reconcile.py:11-44 | in runs with quiet recoveries a status event submits the attempt it names if that one's outcome is unknown; any other changes no attempt, and is resolved exactly when its wamid is that of a submitted attempt, else leaves one candidate |
| `Send.Sender.CheckEnvelope` | src/whatsvault/approval/sender.py:66-94 | the checks, in the code's order |
| `Send.Sender.Begin` | src/whatsvault/approval/sender.py:60-111 | checks, nonce and attempt in one commit |
| `Send.Sender.Transmit` | src/whatsvault/approval/sender.py:124-129 | one provider call with the draft's own fields |
| `Send.Sender.Record` | src/whatsvault/approval/sender.py:113-140 | the attempt's final state by the provider's answer |
| `Send.Sender.ExecuteWrite` | src/whatsvault/approval/sender.py:60-140 | the three steps in order |
| `Send.Sender.RecoverStartup` | src/whatsvault/approval/sender.py:143-148 | submitting attempts become indeterminate, and their number is returned |
| `Send.Sender.OnStatusEvent` | src/whatsvault/approval/reconcile.py:11-44 | by callback, by wamid, else a candidate |
| `Send.WholeCall` | src/whatsvault/approval/sender.py:60-140 | a call that starts makes one provider call with the draft's own number, recipient and body, and records the attempt as answered |
| `Outcomes.ChecksInOrder` | src/whatsvault/approval/sender.py:66-94 | why an envelope is refused, the first failure first: unknown draft, verdict, device, encoding, signature, body, recipient, window, expiry |
| `Outcomes.AuthorisedOrNot` | src/whatsvault/approval/sender.py:60-111 | what an authorisation answers and writes: a refusal moves nothing but the clock, and a start takes the nonce and opens one attempt |
| `Outcomes.PostedFrom` | src/whatsvault/approval/sender.py:124-129 | a posted flight holds the answer of the provider call made for it |
| `Outcomes.AnswerIsRecorded` | src/whatsvault/approval/sender.py:113-140 | in every run with quiet recoveries, finishing a send makes its attempt submitted under the provider's wamid exactly if the call was accepted, failed exactly if it was rejected or not connected, indeterminate exactly if it timed out, and touches nothing else |
| `Outcomes.RecoveryMarks` | src/whatsvault/approval/sender.py:143-148 | attempts being submitted become indeterminate and nothing else changes |
| `Outcomes.CrashLoses` | src/whatsvault/approval/sender.py:60-140 | a crash loses flights and clock guard and no row |
| `Window.TextSendHasEvidence` | src/whatsvault/approval/sender.py:48-129 | in every joint run every provider call goes back to one authorisation, and if its draft is a text the clock then read less than 24 hours after the timestamp of a stored window-eligible inbound message of its conversation |
| `Window.TextSendHasWriter` | src/whatsvault/approval/sender.py:48-129 | that message was delivered as an inbound event less than 24 hours before, and every other live message of the draft's conversation has its number and sender |
| `Window.ImportAndUndoAreMaintenance` | src/whatsvault/importers/whatsapp_export.py:182-201 | import and undo change neither the evidence nor the window |
| `Window.IngestAddsLive` | apps/ingest/consumer.py:52-85 | every step of ingest keeps the message rows there are and adds only live ones under fresh ids |
| `Window.IngestKeepsImports` | apps/ingest/consumer.py:52-85 | so ingest keeps the invariant of the imports |
| `Window.JointRun` | apps/ingest/consumer.py:105-143 | in every joint run the shared tables agree and both invariants hold |
| `Window.JointIsIngestRun` | apps/ingest/consumer.py:105-209 | every joint run is, event by event, a run of ingest |
| `Capabilities.BudgetsHold` | src/whatsvault/approval/capabilities.py:75-110 | however callers interleave between SELECT, check and update, a grant's counter is its successful consumes, within its maximum, and under each grant `mark_read` calls are no more than consumes |
| `Capabilities.ConsumeIsVouched` | src/whatsvault/approval/capabilities.py:82-110 | a consume rests on its caller's earlier check: then the grant, with its present terms, was signed by the key of an active device and unexpired; now it is not used up, and it is still vouched for exactly when its device has kept its active key |
| `Capabilities.RevocationTooLate` | src/whatsvault/approval/capabilities.py:83-107 | a revocation between check and update does not stop the consume |
| `Capabilities.AccountKeptIff` | src/whatsvault/approval/sender.py:151-167 | in an uninterrupted call, over every order of the matching rows, each once, a grant of the message's account pays exactly when every usable MARK_READ grant for the conversation names that account |
| `Capabilities.AnyAccountPays` | src/whatsvault/approval/sender.py:155-167 | a usable grant that the SELECT returns first pays for a bound message whatever accounts the two name |
| `Capabilities.ForeignAccountPays` | src/whatsvault/approval/sender.py:155-167 | a run from empty tables in which another account's grant pays |
| `GrantRaces.AccountKeptInRunsIff` | src/whatsvault/approval/sender.py:151-167 | whatever rows the SELECT of an ask returns and whatever every other caller then does, the ask wins only grants of the message's account exactly when every MARK_READ grant for the conversation that is unexpired, not used up and signed over its own terms names it |
| `GrantRaces.OwnGrantsPay` | src/whatsvault/approval/sender.py:151-167 | one half: if they all name it, no interleaving lets another account pay |
| `GrantRaces.ForeignGrantWins` | src/whatsvault/approval/sender.py:151-167 | the other: a grant that names another account has a continuation in which it pays |
| `GrantRaces.RevokedGrantIsConsumed` | src/whatsvault/approval/capabilities.py:83-107 | from empty tables, for any encodable grant of one use, a run in which it is consumed after its device was revoked |
| `Capabilities.TermsAreSealed` | src/whatsvault/approval/capabilities.py:38-45 | one signature vouches for one set of terms |
| `Capabilities.UsableIff` | src/whatsvault/approval/capabilities.py:82-102 | a row can be consumed exactly when its active device's key signed the row's own nine fields, it has not expired and has uses left |
| `Capabilities.StoreIff` | src/whatsvault/approval/capabilities.py:48-72 | a grant is stored, unused, exactly when its id is new, its maximum not negative and its active device signed it |
| `Capabilities.MarksAreBound` | src/whatsvault/approval/sender.py:151-167 | every message marked as read was received, and the grant that paid is a MARK_READ grant for its conversation |
| `Capabilities.GrantStore.VerifyAndConsume` | src/whatsvault/approval/capabilities.py:75-110 | uninterrupted, it succeeds exactly when a matching grant is usable and then spends one use of the first such in the SELECT's order |
| `Capabilities.GrantStore.MarkTarget` | src/whatsvault/approval/sender.py:151-167 | the provider is called exactly when the target is bound and a grant usable; a refusal spends nothing |
| `SearchText.NormAppend` | src/whatsvault/search/normalise.py:40-53 | normalisation is a homomorphism |
| `SearchText.NormSlice` | src/whatsvault/search/normalise.py:40-53 | a slice of the original normalises to a slice of the normalised text |
| `SearchText.OriginLocates` | src/whatsvault/search/normalise.py:43-53 | the origin map points at the character whose normal form holds the position |
| `SearchText.HitSpanSound` | src/whatsvault/search/snippet.py:31-37 | a raw span is not empty, lies in the text, and its slice normalises to text containing the term |
| `SearchText.HitSpanLeast` | src/whatsvault/search/snippet.py:31-37 | and it is the least slice of the text that holds the occurrence |
| `SearchText.CanonicalUnique` | src/whatsvault/search/snippet.py:13-20 | spans that are sorted, in bounds and separated by gaps are determined by what they cover |
| `SearchText.Core` | src/whatsvault/search/normalise.py:40-53 | the nested loops compute the normalised text and its origin map |
| `SearchText.EmitChar` | src/whatsvault/search/normalise.py:44-51 | what one character becomes |
| `SearchText.BecomesOne` | src/whatsvault/search/normalise.py:12-51 | what a character becomes: separators the separator; marks, tatweel and direction controls nothing; Yeh, Kaf, Alef and Waw variants the case fold of their base letter; both kinds of Arabic digits their decimal digit; any other its case fold; and nothing but that |
| `Folding.FormsSpell` | src/whatsvault/search/normalise.py:40-61 | both forms of any text are exactly what the characters of its normal form become, in order |
| `Folding.AlikeIsFound` | src/whatsvault/search/normalise.py:12-61 | texts that differ only in letter variants, digit forms, kinds of separator and kinds of mark are the same to search |
| `Folding.TermIs` | src/whatsvault/search/snippet.py:27-29 | a term is looked for in its searchable form without the white space at its ends |
| `Prelude.StripIs` | src/whatsvault/search/snippet.py:27 | what is stripped is the white space at the two ends, and all of it |
| `SearchText.Merge` | src/whatsvault/search/snippet.py:13-20 | the result is canonical and covers exactly the union of the spans |
| `SearchText.Find` | src/whatsvault/search/snippet.py:32 | the first occurrence from a position, or none |
| `SearchText.SpansOf` | src/whatsvault/search/snippet.py:30-37 | the find loop collects the span of every occurrence, overlapping ones included, and nothing else |
| `SearchText.Render` | src/whatsvault/search/snippet.py:23-38 | the spans are canonical and cover exactly the original positions of the occurrences of the terms |
| `SearchIndex.IndexRefinesDocuments` | src/whatsvault/search/index.py:10-70 | after any history of writes, undos, upgrades, reindexes and rebuilds each table's postings are those of the current documents, one row a message, and every stored text has the document its release made of it |
| `SearchIndex.CoveredIffNothingStale` | src/whatsvault/search/index.py:50-53 | the index is up to date with a release exactly when no stored message is stale under it |
| `SearchIndex.FoundByItsText` | src/whatsvault/search/index.py:10-42 | in every run a stored text is found by a word exactly when its release's searchable form of it holds the word, and by a trigram exactly when the compact form does |
| `SearchIndex.ReindexRestores` | src/whatsvault/search/index.py:50-70 | in every reachable state a reindex, like a rebuild, brings it up to date, and lookups answer as a rebuild's would |
| `SearchIndex.UpgradeMakesStale` | src/whatsvault/search/index.py:50-53 | a message written under one release is stale under the next |
| `SearchIndex.StageKeeps` | src/whatsvault/search/index.py:10-42 | staging keeps that agreement, replaces one document and touches no other |
| `SearchIndex.ReindexLeavesNothingStale` | src/whatsvault/search/index.py:50-59 | nothing is stale afterwards, current documents are as they were |
| `SearchIndex.RebuildRestores` | src/whatsvault/search/index.py:62-70 | a rebuild restores agreement and coverage from any state |
| `SearchIndex.LookupIs` | src/whatsvault/search/query.py:119-129 | a lookup returns a message exactly when the searchable form of its own text, or for trigrams the compact form, yields the word |
| `SearchIndex.LookupsAgree` | src/whatsvault/search/index.py:10-70 | incremental and rebuilt indexes answer alike |
| `SearchIndex.IndexStore.StageMessage` | src/whatsvault/search/index.py:10-42 | the three tables after one staging |
| `SearchIndex.IndexStore.ReindexStale` | src/whatsvault/search/index.py:50-59 | the loop over the stale rows, and their number |
| `SearchIndex.IndexStore.RebuildAll` | src/whatsvault/search/index.py:62-70 | empty tables, then every message with text |
| `SearchQuery.QuoteRoundTrip` | src/whatsvault/search/query.py:43-44 | a quoted string, whatever it holds, is read back and reading stops where it ends |
| `SearchQuery.ExpressionRoundTrip` | src/whatsvault/search/query.py:62-93 | a printed expression reads back as its parts, in order |
| `SearchQuery.CompiledReadsBack` | src/whatsvault/search/query.py:62-93 | what the engine reads from either compiled form is exactly the normalised, non-empty parts of the query |
| `SearchQuery.CompiledIff` | src/whatsvault/search/query.py:47-93 | a query compiles exactly within 16 terms, 10 NEAR texts, a limit of 200 and 512 bytes; the engine then reads terms, phrase, prefix and NEAR list, in that order, in their searchable form, or terms and phrase in their compact form of three characters or more |
| `SearchQuery.Utf8Is` | src/whatsvault/search/query.py:56-59 | the bytes of a text are those of its parts |
| `SearchQuery.Utf8Character` | src/whatsvault/search/query.py:56-59 | and those of a character one to four, by its code |
| `SearchQuery.CompileLexical` | src/whatsvault/search/query.py:62-82 | the caps, the parts in order and the length guard |
| `SearchQuery.CompileCompact` | src/whatsvault/search/query.py:85-93 | the same for the trigram form |
| `SearchQuery.RunIsRanked` | src/whatsvault/search/query.py:132-166 | for a limit that is not negative, 0 meaning the default: distinct messages, lexical before compact, at most the limit, and no lexical row missing while there is room |
| `SearchQuery.NegativeLimitDropsFromTheEnd` | src/whatsvault/search/query.py:133-166 | what a negative limit does |
| `SearchQuery.AddTier` | src/whatsvault/search/query.py:138-150 | the loop over one tier appends the unseen rows in order and remembers all |
| `SearchQuery.Run` | src/whatsvault/search/query.py:132-166 | refusal, or both tiers merged; an empty expression is not asked |
| `Reads.FenceNonInterference` | src/whatsvault/mcp/reads.py:49-120 | two vaults that agree on what is not fenced give equal answers to `get_messages`, `list_chats`, `get_message_status` and `get_conversation_window` for every argument |
| `Reads.MessagesArePublic` | src/whatsvault/mcp/reads.py:49-66 | `get_messages` answers as over a vault without the fenced conversations and what only they refer to |
| `Reads.ChatsArePublic` | src/whatsvault/mcp/reads.py:69-89 | so does `list_chats` |
| `Reads.StatusIsPublic` | src/whatsvault/mcp/reads.py:92-106 | so does `get_message_status` |
| `Reads.WindowIsPublic` | src/whatsvault/mcp/reads.py:109-120 | so does `get_conversation_window` |
| `Reads.MessagesExact` | src/whatsvault/mcp/reads.py:49-66 | a fenced or unknown conversation gives nothing; otherwise the rows are a page of those of the conversation that overlap the interval: in order, as many as the clamped limit allows, none left out earlier than one returned |
| `Reads.ChatsExact` | src/whatsvault/mcp/reads.py:69-89 | the chats are a page of the unfenced matching conversations: most recent first, as many as the clamped limit allows, none left out more recent than one returned |
| `Answers.MessagesAnswered` | src/whatsvault/mcp/reads.py:49-66 | the answer in columns: nothing for an unknown or fenced conversation; else its messages that meet the interval, by lower bound and id, 1 to 200 of them, as many as there are, none earlier left out, each with its sender's contact |
| `Answers.ChatsAnswered` | src/whatsvault/mcp/reads.py:69-89 | conversations that may be shown and whose subject matches, by last message with those without one last, 1 to 200 of them, none more recent left out |
| `Answers.StatusAnswered` | src/whatsvault/mcp/reads.py:92-106 | no status for a fenced message, never sent without a wamid, else exactly the events under its wamid |
| `Answers.UnknownHasNoStatus` | src/whatsvault/mcp/reads.py:92-95 | no status for an unknown message |
| `Answers.WindowAnswered` | src/whatsvault/mcp/reads.py:109-120 | last inbound time, open for less than 24 hours after it, closing then; a fenced conversation looks as if there were none |
| `Answers.SearchShows` | src/whatsvault/mcp/reads.py:33-46 | search shows exactly the hits of stored messages that are not fenced, in order, each as its own message with contact and tier |
| `Reads.FencingIsDeletion` | src/whatsvault/mcp/acl.py:12-16 | fencing a stored conversation leaves readers what deleting it would |
| `Reads.VaultDb.SetVisibility` | src/whatsvault/mcp/acl.py:12-16 | the one conversation's flag changes, or an invalid value is refused |
| `Reads.Search` | src/whatsvault/mcp/reads.py:33-46 | whatever the hits, no fenced message comes out |
| `Reads.SearchFenceExact` | src/whatsvault/mcp/reads.py:33-46 | a search over both tiers answers as the public vault would exactly when every hit inside the limit is visible or every visible match is inside it |
| `Reads.ResultsAreTop` | src/whatsvault/search/query.py:132-166 | what `run` returns is the best of one ranking: the lexical matches, then the compact ones not among them |
| `Reads.FencedTakesThePlace` | src/whatsvault/mcp/reads.py:33-46 | with a limit of one, a fenced best match hides the visible second |
| `Reads.SearchInterferes` | src/whatsvault/mcp/reads.py:33-46 | a vault where that happens |
| `Tables.SelectExact` | src/whatsvault/mcp/reads.py:55-66 | what WHERE, ORDER BY and LIMIT return together is a page of the matching rows |
| `Tables.FilterCount` | src/whatsvault/mcp/reads.py:55-66 | a WHERE returns as many rows as satisfy it |
| `Tables.TakeThenFilter` | src/whatsvault/mcp/reads.py:36-38 | limiting before filtering equals filtering before limiting exactly when nothing is dropped inside the limit or nothing kept beyond it |
| `Transcript.SpansPartition` | src/whatsvault/importers/parse.py:79-140 | for every text: ordinals count from 0, the records that are not ambiguous tile it from the first valid header to the end, and an ambiguous line lies before that header or inside one of them |
| `Transcript.RestIsBlocks` | src/whatsvault/importers/parse.py:83-137 | those records are the blocks between valid headers, in order |
| `Transcript.AmbiguousAreBadDates` | src/whatsvault/importers/parse.py:120-131 | the ambiguous records are exactly the header-shaped lines with an invalid date, in order, with their own text and span |
| `Transcript.BodyIsJoin` | src/whatsvault/importers/parse.py:73-76 | a body is its lines joined by line breaks without the leading empty ones |
| `Transcript.BodyKeepsTextIff` | src/whatsvault/importers/parse.py:73-76 | it gives back the text exactly when it has one line or its first is not empty |
| `Transcript.SplitLinesRoundTrip` | src/whatsvault/importers/parse.py:83-86 | the lines, none of them empty, make up the text |
| `Lines.LinesAreUnique` | src/whatsvault/importers/parse.py:83-86 | the lines are the only cut of the text into pieces that are not empty, of which each but the last ends in a terminator and none has one before its end, with CR LF never parted |
| `Lines.ContentIs` | src/whatsvault/importers/parse.py:84 | a line loses the line feeds at its end, then the carriage returns, and nothing else |
| `Lines.RecordsSayLines` | src/whatsvault/importers/parse.py:83-137 | parsing raises exactly when a header's time is no time; otherwise the records that are not ambiguous are one for each header line, and each column is what the header and the lines up to the next header say |
| `Lines.ListIsOrdered` | src/whatsvault/importers/parse.py:120-139 | the ambiguous records are one for each undated header line, with its text and span, and the whole list stands in the order in which records end |
| `Transcript.Parse` | src/whatsvault/importers/parse.py:79-140 | the specified records, numbered, or nothing when a header's time is no time |
| `Transcript.Assemble` | src/whatsvault/importers/parse.py:80-137 | the loop over the lines |
| `Transcript.Number` | src/whatsvault/importers/parse.py:138-139 | the loop that numbers the list |

## Left out

- Cryptography (sealing, signatures, key agreement, at-rest encryption): opening an envelope has four outcomes, a signature is ideal, a digest is its pre-image.
- HTTP, ASGI, the consent page, the MCP server, the CLI, launchd, paths, permissions, health, bootstrap and migrations: plumbing around the modelled calls.
- Regular expressions, time zones and Unicode tables: how a transcript line is recognised, the epoch of a local minute, NFC and case folding are parameters. The Arabic and Persian folding table is modelled.
- SQLite's tokenising and ranking: postings are a function of the text, and a tier is a given list. The subject test of `list_chats` is a given predicate.
- `split_webhook` and `to_rows` on raw JSON: a payload is the list of its atoms, or a text that does not parse; `classify` and `semantic_key` are modelled on atoms.
- zip_guard, scheduler, templates, display_guard, relay, retention, health checks, `dry_run`, `reparse` and the sealed source artefact: single-function facts that would only add easy members.
- `reduce_status` and the presentation of rows: a status answer is the list of events, a message answer the pair of row and contact; both functions depend on nothing else.
- `reconcile.resolve`: it marks a candidate decided and touches no attempt.
- Audit rows, client names, scopes, the redirect's `state`, DLQ details and the columns of an observation that only describe its place in the source file: written and never consulted.
- A request id and its user code are drawn together and named by one number; `approve` strips and upper-cases what the operator typed before the lookup.
- Window.TextSendHasEvidence: is about the clock reading of `execute_write`; how long the provider call then takes is not modelled.
- Ingest.Consumer.ProcessPayload: the index write after each inbound message is not part of it; the code swallows its failures, and `SearchIndex` is about completed calls.
- SearchIndex.IndexRefinesDocuments: echoes are never indexed by the code; a write in this model is of a message that is staged, and a rebuild brings in every stored text. The tokenisers are the same in every release.
- Transcript.Parse: a record's time-zone class is not part of the record.
- ImportVault.UndoInvertsImport: the batch log, the staged search documents and the id supply are not restored by the code either.
- Interleaving inside `begin_authorization`, `approve` and the other OAuth calls: `poll`, `exchange_code` and `refresh` are split into read and write, the others are one step each.
- Drafts.OneDraftPerWords: is about runs of whole calls of `prepare`, like the lemmas that rest on it; `DraftRaces` is about calls that interleave. A template's draft is any draft without body and recipient, which is what templates.py writes.
- Reads.SearchFenceExact: `search` also returns `rank`, a bm25 value that SQLite computes over all documents, fenced ones included. The model drops it, and takes the order of each tier as given and not dependent on the fenced documents.
