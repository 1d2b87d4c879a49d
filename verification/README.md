# A verified model of the platform's security core

This Dafny project models the parts of the secure chat platform whose correctness does not show in any single
function: the crash-safe end-to-end encryption clients, the data-loss-prevention engine, the tamper-evident audit
log with its anchored checkpoints, envelope encryption behind a key cache, the canonical encodings, intrusion
scoring and bans, and the bounded resources of the web tier.  `dafny verify dfyconfig.toml` checks everything.

## How the system is modelled

**The clients** (`MlsRelay`, `MlsSpec`, `MlsSafety`, `MlsRuns`, `MlsEpochs`, `MlsProgress`, `MlsTheorems`,
`MlsClient`; `OlmSpec`, `OlmSafety`, `OlmTheorems`, `OlmClient`).  A client has volatile data, a vault file and a poisoned flag; a relay has an
append-only log and epochs.  Every HTTP exchange, native call and vault write takes its outcome from a script that
the theorems quantify over: success, an error before or after the effect (a lost response, an error after the
atomic file replacement), or a crash before or after it.  Other devices act between any two exchanges, and rows
served to the MLS client may be forged.  A run is any list of commands, each with any script, including reopening
after a crash.  The specification functions say what each operation does to the world; the classes `MlsClient` and
`PrivateClient` carry the operations out on their own fields and are proved equal to the specification step by
step, and the theorems hold of every run from a new profile.  Message identifiers and chain keys drawn at random
are numbers that are never reused, across crashes too.

**DLP** (`DlpViews`, `DlpScan`, `DlpRedact`, `DlpPolicy`, `DlpDictionary`).  Regular expressions, Unicode
normalisation and case folding are parameters with the laws a left-to-right scan and a normaliser have; the offset
arithmetic, the worklist, merging, redaction and the decision are the real algorithms.

**Audit** (`AuditChain`, `AuditCheckpoint`).  The MAC is any function; results about history assume only that the
messages of the logs at hand do not collide and that no digest is the genesis value.  Messages and payloads are
spelled out with the JSON printer and proved injective.

**Envelope encryption** (`EnvelopeStore`, `EnvelopeService`).  AES-GCM is an ideal AEAD.  The first module says
what each operation does to sessions, key rows and messages; the second carries the operations out through the
bounded, expiring cache with a provider that may fail at any call.

**Encodings** (`Base64Url`, `CanonicalJson`, `E2eeBoundary`).  The inverse parser is part of the model, and
injectivity follows from the round trip.

**Intrusion detection** (`IdsWindow`, `IdsMemory`, `IdsPersistent`, `IdsAgreement`).  The reference keeps every hit
since the last reset and no bound; both state machines are proved against it, the in-memory one with its ordered
dictionary and periodic cleanup, the database one with its rows and pruning.

**Bounded resources** (`GradioQueue`, `GradioCapacity`, `Admission`, `Monitor`, `Excerpts`).  Concurrency is
modelled as interleavings of atomic lock-protected steps.

### What turned out not to hold

- `IntrusionState.unblock` does not read the clock, so it reports a ban that has run out but was not swept yet as
  lifted, where the persistent machine reports nothing.  It is right exactly when no such leftover is stored
  (`IdsMemory.IntrusionState.Unblock`, `IdsAgreement.UnblockDiffers`).
- The dictionary search jumps over each match it looks at, so it finds every occurrence in every text exactly for
  terms that do not end as they begin (`DlpDictionary.AllFoundIffUnbordered`).  The whole-word search, which is the
  default, can miss a clean match behind a rejected one (`DlpDictionary.WholeWordMiss`); it reports every bounded
  occurrence in every text exactly for the terms in which a word character comes before every ending that is also a
  beginning (`DlpDictionary.AllBoundedReportedIff`).
- `select_file_excerpts` can cut its own header or closing marker, but only when no chunk at all fits: then it cuts
  exactly if the budget is below the header's length plus five (`Excerpts.SelectFileExcerpts`, with an input in
  `Excerpts.CutAtTinyBudget`).  Whenever a chunk is chosen and the header keeps within its reserve, nothing is cut.
- `rotate_session_dek` does not refuse private sessions as `ensure_session_key` does: it gives any keyless session a
  key (`EnvelopeStore.RotateKeysAnySession`), and over every run a private session stays without one exactly if no
  rotation names it (`EnvelopeStore.PrivateStaysKeylessIff`).
- `ensure_latest_anchored` does not deliver a checkpoint that is stored but was never delivered, as one stored before
  an endpoint was configured (`AuditCheckpoint.UndeliveredTailStays`).  With the sink up and nothing damaged it ends
  fully anchored exactly if the newest event had no checkpoint or a delivered one
  (`AuditCheckpoint.CatchUpAnchorsIff`).
- The response ring reads the clock before it takes the lock.  A snapshot shows all of the log exactly if no
  observation of its window lost its slot to another second (`Monitor.SnapshotIsTotalIff`), which is so while no
  observation arrives a whole window late (`Monitor.PromptIsTotal`); one that does erases newer ones
  (`Monitor.LateObservationErases`).

## Model

| member | source | states |
|---|---|---|
| `MlsTheorems.ExactlyOnceInOrder` | clients/mls_client.py:257-300 | over every run with crashes, lost responses and retries, what the relay accepted from this device is a prefix of what the durable history produced, without repetition, and all of it once the outbox is empty |
| `MlsProgress.RetryDelivers` | clients/mls_client.py:257-300 | after any run, reopening and one undisturbed `flush` go through exactly if the relay is at the pending epoch with the matching member row, or one below with the change allowed; then the outbox is empty and the relay holds everything ever produced |
| `MlsProgress.CalmSettle` | clients/mls_client.py:264-280 | the membership part goes through exactly if the relay is ready, and leaves it at the pending epoch |
| `MlsTheorems.CommitBeforeWelcome` | clients/mls_client.py:216-236 | a Welcome is accepted only after the Commit of the same operation |
| `MlsTheorems.EpochAdvancesOncePerChange` | clients/mls_client.py:257-280 | the membership requests carried out belong to pairwise different operations |
| `MlsTheorems.SavedDigestAcceptsEcho` | clients/mls_client.py:361-369 | an own row whose digest is saved is accepted, moves the cursor onto it and uses up exactly that digest |
| `MlsTheorems.HonestEchoIsRecognised` | clients/mls_client.py:281-299 | against an honest relay, whenever receiving is allowed, every own broadcast row still to come has its digest saved, and serving it is accepted, moves the cursor onto it and uses up its digest |
| `MlsEpochs.EpochsStartAtOne` | clients/mls_client.py:171-255 | over every run the epochs of all groups and of everything ever sent are at least one, in memory and in the vault |
| `MlsEpochs.OwnRowHasEpoch` | clients/mls_client.py:336-345 | so every row the relay accepted from this device passes the receiver's epoch check |
| `MlsTheorems.DurableHistoryOnlyGrows` | clients/mls_client.py:117-119 | between any two moments of a run the saved native history and settled deliveries only grow and cursors never go back |
| `MlsTheorems.DigestConsumedOnce` | clients/mls_client.py:361-369 | a consumed digest never comes back |
| `MlsTheorems.NoRowTakesEffectTwice` | clients/mls_client.py:302-334 | whatever rows are served, they take effect in strictly increasing (time, id) order per conversation |
| `MlsTheorems.ReceptionIsAtomic` | clients/mls_client.py:336-406 | however the write ends, the file either stays as it was or holds the row's effect together with its cursor; returning means the second, raising while healthy means that nothing changed |
| `MlsTheorems.PoisonedClientIsSilent` | clients/mls_client.py:163-166 | after a failed save no command has any effect until the profile is reopened |
| `MlsRuns.RunKeeps` | clients/mls_client.py:203-406 | the joint invariant of client, vault and relay holds after every run of every command under every script |
| `MlsSafety.HeadStoredIffAccepted` | src/app/e2ee.py:614-641 | the relay already holds the replay key of the outbox head exactly when it accepted that very envelope |
| `MlsClientObject.MlsClient.SaveVault` | clients/mls_client.py:117-119 | one atomic write, or a poisoned client, for each way a write can end |
| `MlsClientObject.MlsClient.Settle` | clients/mls_client.py:264-280 | the membership request is made only one epoch below the pending one and must be acknowledged exactly |
| `MlsClientObject.MlsClient.DeliverOutbox` | clients/mls_client.py:281-300 | the delivery loop equals its specification: post the head, accept created or duplicate, remember the digest, save |
| `MlsClientObject.MlsClient.FlushOutbox` | clients/mls_client.py:257-300 | `flush` equals its specification |
| `MlsClientObject.MlsClient.CommissionOutbox` | clients/mls_client.py:225-236 | native state, exact ciphertext and intent go into one write before any request |
| `MlsClientObject.MlsClient.SendText` | clients/mls_client.py:238-255 | `send` equals its specification, with every refusal |
| `MlsClientObject.MlsClient.AlterMember` | clients/mls_client.py:203-236 | `change_member` equals its specification, with every refusal |
| `MlsClientObject.MlsClient.TakeRow` | clients/mls_client.py:336-406 | `_receive_one` equals its specification for own, foreign and malformed rows |
| `MlsClientObject.MlsClient.ReceiveAll` | clients/mls_client.py:302-334 | `receive` equals its specification: routing, pages in order, stop at the first failure |
| `OlmTheorems.NoRatchetReuseOnTheWire` | clients/e2ee_client.py:421-482 | in every run two posted envelopes at one ratchet position are the same envelope |
| `OlmTheorems.PreparedIsDeliveredOnce` | clients/e2ee_client.py:468-482 | the relay's rows from this device are the prepared ones in order and once each; an empty durable outbox means none is missing |
| `OlmTheorems.RetryDelivers` | clients/e2ee_client.py:468-482 | after any run, reopening and one undisturbed delivery empty the durable outbox, and the relay holds everything ever prepared |
| `OlmTheorems.PostsTheDurableOutbox` | clients/e2ee_client.py:468-482 | a delivery attempt posts nothing but the envelope in the vault file |
| `OlmTheorems.DurableCiphertextSurvives` | clients/e2ee_client.py:175-184 | a ciphertext once saved is later still in the vault or at the relay |
| `OlmTheorems.PoisonedClientIsSilent` | clients/e2ee_client.py:253-270 | a failed save blocks every request and write until reopening |
| `OlmTheorems.ReceptionIsAtomic` | clients/e2ee_client.py:488-549 | a refused row changes nothing; for an accepted one the file stays as it was or holds the turned ratchet together with the cursor, and returning means the second |
| `OlmTheorems.DecryptionIsAtomic` | clients/e2ee_client.py:488-549 | outside `receive` the file stays as it was or holds the turned ratchet alone; cursors never move |
| `OlmSafety.RunKeeps` | clients/e2ee_client.py:421-581 | the invariant of sessions, chains, vault and relay holds after every run, decryption outside `receive` included |
| `OlmClientObject.PrivateClient.SaveVault` | clients/e2ee_client.py:253-262 | a save ends as durable, or with the client poisoned |
| `OlmClientObject.PrivateClient.PrepareText` | clients/e2ee_client.py:421-466 | `prepare` equals its specification |
| `OlmClientObject.PrivateClient.FlushOutbox` | clients/e2ee_client.py:468-482 | `flush` equals its specification |
| `OlmClientObject.PrivateClient.DecryptRow` | clients/e2ee_client.py:488-545 | `decrypt` up to its save equals its specification |
| `OlmClientObject.PrivateClient.DecryptAlone` | clients/e2ee_client.py:488-549 | `decrypt` with its default `persist=True` equals its specification: the turned ratchet is saved, the cursor stays |
| `OlmClientObject.PrivateClient.ReceiveAll` | clients/e2ee_client.py:551-581 | `receive` equals its specification, returning what was decrypted before an interruption |
| `DlpViews.SpliceMatches` | src/app/dlp.py:676-713 | the splicing loop yields exactly the text and origins of the replaced matches |
| `DlpViews.EscapesDecodeWhenChanged` | src/app/dlp.py:676-713 | a decoded view is made exactly when some match decodes to a different text |
| `DlpViews.NestedDecodingsStayWellFormed` | src/app/dlp.py:663-741 | through every chain of decodings: one origin per character, in range, starts and ends nondecreasing |
| `DlpScan.TraceFindings` | src/app/dlp.py:918-926 | every detection in a view is reported with its source range |
| `DlpScan.TracedHoldsMatch` | src/app/dlp.py:918-926 | the reported range holds the source of every character of the match |
| `DlpScan.Consider` | src/app/dlp.py:928-942 | one decoding is admitted exactly if it is new and fits the budgets, and covered exactly if it is new and does not |
| `DlpScan.ExpandView` | src/app/dlp.py:927-942 | every decoding was seen before, is admitted, or has its source covered by a budget finding; it is left out only when depth, views or characters are exhausted, and what is admitted stays within all three |
| `DlpScan.InspectViews` | src/app/dlp.py:900-942 | the worklist terminates with nothing silently skipped: every admitted view was inspected and is within depth, view and character budgets, a decoding is missing only when a budget is exhausted, and every reported span has its reason |
| `DlpScan.EveryReachableViewIsAccountedFor` | src/app/dlp.py:900-942 | the last view of any chain of decodings was inspected, or a budget finding covers its whole source range |
| `DlpRedact.MergeSpans` | src/app/dlp.py:988-1000 | merged blocks cover exactly what the spans cover, are separated by gaps, and name exactly the types inside them |
| `DlpRedact.EmitPieces` | src/app/dlp.py:1001-1010 | the output loop reads the text with one placeholder per block |
| `DlpRedact.SortIsStable` | src/app/dlp.py:988-989 | both sorts are stable: spans with the same key keep their order |
| `DlpRedact.RedactSpans` | src/app/dlp.py:987-1010 | sort, merge and emit equal the left-to-right reference reading |
| `DlpRedact.OnlyUncoveredSurvive` | src/app/dlp.py:987-1010 | the surviving characters are exactly those under no span, in order |
| `DlpRedact.PlaceholdersAreMaximal` | src/app/dlp.py:987-1010 | two placeholders are never adjacent |
| `DlpPolicy.Disambiguate` | src/app/dlp.py:870-889 | exactly the spans not overruled by tax-id evidence remain, once each, by start, end and type name |
| `DlpPolicy.DisambiguateKeepsOrder` | src/app/dlp.py:870-889 | findings of one range and type stay in the order in which they were first found |
| `DlpPolicy.DetectSpans` | src/app/dlp.py:900-942 | an oversized text fails closed, otherwise the worklist is complete |
| `DlpPolicy.Evaluate` | src/app/dlp.py:1027-1086 | the executable decision is the specified one on the spans of a complete inspection; under the default policy a release means that each finding in each view reachable by any chain of decodings was kept or overruled, and that no source character feeding a match above internal shows |
| `DlpPolicy.ClassOnlyRises` | src/app/dlp.py:1027-1086 | the effective class is the highest of the label and the findings not simply removed |
| `DlpPolicy.BudgetFailsClosed` | src/app/dlp.py:1054-1070 | under the default policy an exhausted budget releases nothing |
| `DlpPolicy.ReleaseMeansInspected` | src/app/dlp.py:900-1086 | a release means every reachable view was inspected and each of its findings kept or overruled |
| `DlpPolicy.ReleasedTextHidesFindings` | src/app/dlp.py:1054-1086 | a released text shows no character of a withheld finding, and what is not withheld is at most internal |
| `DlpPolicy.ReleaseIsSafe` | src/app/dlp.py:900-1086 | from inspection to output: an oversized text is never released; a released one was inspected, its survivors are exactly the uncovered characters, and every source character feeding a match above internal is covered unless tax-id evidence overruled the match |
| `DlpDictionary.OriginsAligned` | src/app/dlp.py:828-836 | one source index per folded character, in order, none skipped |
| `DlpDictionary.RangeIsExact` | src/app/dlp.py:859-867 | the reported range holds every source character that feeds the match and is as short as possible |
| `DlpDictionary.SearchTerm` | src/app/dlp.py:841-868 | the loop reports exactly the kept matches with their source ranges |
| `DlpDictionary.UnborderedHits` | src/app/dlp.py:841-868 | for a term without a border the reported matches are exactly the occurrences that pass the whole-word test |
| `DlpDictionary.AllFoundIffUnbordered` | src/app/dlp.py:844-849 | every occurrence in every text is found if and only if the term has no border |
| `DlpDictionary.AllBoundedReportedIff` | src/app/dlp.py:841-868 | the whole-word search reports every bounded occurrence in every text if and only if each border of the term has a word character before it |
| `DlpDictionary.UnguardedBorderMisses` | src/app/dlp.py:841-868 | for any other term, a text built from it in which a bounded occurrence is missed |
| `DlpDictionary.WholeWordMiss` | src/app/dlp.py:844-858 | a text in which a bounded occurrence is missed |
| `AuditChain.MessageIsInjective` | src/app/audit_chain.py:60-98 | a MAC message fixes the previous digest and every field of the entry |
| `AuditChain.VerifyChain` | src/app/audit_chain.py:232-302 | the walk reports the first broken row, counts, segments and strict intactness exactly |
| `AuditChain.PrefixIsIntact` | src/app/audit_chain.py:232-302 | every front part of an intact log is intact |
| `AuditChain.HistoryCommitment` | src/app/audit_chain.py:97-98 | two intact logs with the same last digest hold the same entries |
| `AuditChain.EveryRunVerifies` | src/app/audit_chain.py:132-168 | after any mix of sealed appends and unsealed inserts no link is broken, and the log is strictly intact iff nothing is unsealed |
| `AuditChain.RowsAreDated` | src/app/audit_chain.py:154-168 | after any mix of writes every row carries its time |
| `AuditChain.RepairKeepsDates` | src/app/audit_chain.py:305-348 | repair dates every row it seals, and changes no entry of a log written as above |
| `AuditChain.AuditLog.Append` | src/app/audit_chain.py:154-168 | a sealed append dates its row and points at the row before it |
| `AuditChain.AuditLog.CheckGap` | src/app/audit_chain.py:305-330 | whether the unsealed rows form a suffix |
| `AuditChain.AuditLog.Reseal` | src/app/audit_chain.py:305-348 | repair succeeds iff the unsealed rows form a suffix, changes no sealed row, and dates and seals the rest; otherwise nothing changes |
| `AuditChain.RepairMakesIntact` | src/app/audit_chain.py:305-348 | the repaired log is strictly intact iff the sealed rows were unbroken |
| `AuditChain.RunsCanBeRepaired` | src/app/audit_chain.py:305-348 | a tail gap left by any run is repaired into a strictly intact log with the same entries |
| `AuditCheckpoint.PayloadIsInjective` | src/app/audit_checkpoint.py:64-83 | a signed payload fixes all its fields |
| `AuditCheckpoint.IntactMeansUndamaged` | src/app/audit_checkpoint.py:430-505 | verification is intact iff there is a checkpoint and none is damaged |
| `AuditCheckpoint.FullyAnchoredCoversEverything` | src/app/audit_checkpoint.py:430-505 | fully anchored means the newest event is the anchored one with the signed digest |
| `AuditCheckpoint.WorkersAgree` | src/app/audit_checkpoint.py:245-339 | two workers build the same document for one sealed event if and only if the event carries its time or they read the same clock value |
| `AuditCheckpoint.LostRaceIsSuccessIff` | src/app/audit_checkpoint.py:313-339 | losing the race for the tail succeeds with the other worker's row if and only if both date it alike, is an error otherwise, and damages nothing either way, where the two documents do not share a signature unless they are equal |
| `AuditCheckpoint.LostRaceSucceeds` | src/app/audit_checkpoint.py:313-339 | in every deployment that any run of writes, repairs and anchoring leads to, a lost race succeeds |
| `AuditCheckpoint.OneDocumentPerKey` | src/app/audit_checkpoint.py:178-222 | over every run of writes, repairs and anchoring by any workers, deliveries under one idempotency key are the same document |
| `AuditCheckpoint.MissingTimeForks` | src/app/audit_checkpoint.py:262-332 | why rows must be dated: if the column allowed an event without a time, a failed commit and a retry would deliver two documents under one key |
| `AuditCheckpoint.AuditCheckpointService.AnchorTail` | src/app/audit_checkpoint.py:245-339 | `_anchor` on the tables in place equals its specification |
| `AuditCheckpoint.AuditCheckpointService.Ensure` | src/app/audit_checkpoint.py:356-404 | `ensure_latest_anchored` equals its specification |
| `AuditCheckpoint.CatchUpAnchorsIff` | src/app/audit_checkpoint.py:356-404 | with the sink up, a sealed tail and no damage, catching up ends fully anchored if and only if the tail had no checkpoint or a delivered one |
| `AuditCheckpoint.UndeliveredTailStays` | src/app/audit_checkpoint.py:263-267 | a stored undelivered checkpoint of the tail is neither delivered nor replaced |
| `AuditCheckpoint.DamageStopsAnchoring` | src/app/audit_checkpoint.py:245-404 | while any retained checkpoint is damaged no path inserts or delivers one, and the damage stays unless a lost event is put back |
| `AuditCheckpoint.DamageIsAbsorbing` | src/app/audit_checkpoint.py:341-404 | ... after any number of steps that put no lost event back, also when ids are reused |
| `AuditCheckpoint.AnchoringKeepsIntact` | src/app/audit_checkpoint.py:245-339 | anchoring never damages an undamaged deployment, whatever honest row another worker inserts meanwhile; success with a delivered row leaves it fully anchored |
| `AuditCheckpoint.AnchoredAtTail` | src/app/audit_checkpoint.py:430-505 | without damage, a delivered checkpoint for the newest event means fully anchored |
| `AuditCheckpoint.AnchorFixesHistory` | src/app/audit_checkpoint.py:406-428 | two intact logs that both match a checkpoint agree on everything up to the anchored event |
| `EnvelopeStore.ProviderLaw` | src/app/key_management.py:159-222 | wrap then unwrap, and rewrap then unwrap, give the data key back |
| `EnvelopeStore.AadIsInjective` | src/app/envelope.py:33-57 | the associated data fixes owner, session, message, index, role and epoch |
| `EnvelopeStore.NewEpochPreserves` | src/app/envelope.py:394-429 | a new epoch keeps every message readable and the mirror current |
| `EnvelopeStore.RewrapPreserves` | src/app/envelope.py:431-457 | rewrapping, complete or interrupted at any epoch, keeps every data key and message |
| `EnvelopeStore.WritePreserves` | src/app/envelope.py:285-311 | a new message is readable and everything else still is |
| `EnvelopeStore.MigratePreserves` | src/app/envelope.py:357-392 | a migrated message decrypts to the same text under the new scheme |
| `EnvelopeStore.EveryRunKeepsMessagesReadable` | src/app/envelope.py:194-457 | after any run of writes, migrations, rotations and rewraps every message decrypts to its original text and every session mirrors its current key row |
| `EnvelopeStore.EmptyIsSound` | src/app/envelope.py:194-238 | a store without keys and messages is sound, so runs from one keep every message readable |
| `EnvelopeStore.RotateKeysAnySession` | src/app/envelope.py:394-429 | rotation gives any keyless session, private or not, its first key row |
| `EnvelopeStore.PrivateStaysKeylessIff` | src/app/envelope.py:194-429 | over every run a private session without key rows still has none if and only if no rotation named it |
| `EnvelopeStore.MovedCiphertextIsRejected` | src/app/envelope.py:325-355 | a ciphertext relabelled with any other owner, session, message, index, role or epoch does not open |
| `EnvelopeService.EnvelopeCryptoService.CacheGet` | src/app/envelope.py:159-169 | an entry is served iff it has not expired, and an expired one is removed |
| `EnvelopeService.EnvelopeCryptoService.CachePut` | src/app/envelope.py:171-186 | the bound holds, the new entry is there, nothing else changes, and an entry is given up only from a full cache and only if no other expires sooner |
| `EnvelopeService.EnvelopeCryptoService.SessionDek` | src/app/envelope.py:251-274 | the key equals a fresh unwrap of the stored row; in an outage it is that or nothing |
| `EnvelopeService.EnvelopeCryptoService.EnsureSessionKey` | src/app/envelope.py:194-238 | the database effect is the specified one, whatever is cached |
| `EnvelopeService.EnvelopeCryptoService.EncryptMessage` | src/app/envelope.py:285-311 | the sealed row is the specified one, whatever is cached; a failure leaves at most a new key |
| `EnvelopeService.EnvelopeCryptoService.StoreMessage` | src/app/envelope.py:285-311 | a new message is stored as specified, or no message is stored |
| `EnvelopeService.EnvelopeCryptoService.DecryptMessage` | src/app/envelope.py:325-355 | the cache never changes what a message decrypts to |
| `EnvelopeService.EnvelopeCryptoService.MigrateLegacyMessage` | src/app/envelope.py:357-392 | in-place migration equals its specification |
| `EnvelopeService.EnvelopeCryptoService.RotateSessionDek` | src/app/envelope.py:394-429 | rotation equals its specification |
| `EnvelopeService.EnvelopeCryptoService.RewrapSessionKeys` | src/app/envelope.py:431-457 | the loop equals its specification, the cache stays sound when it stops half way and is empty when it completes |
| `EnvelopeService.Serve` | src/app/envelope.py:159-457 | any one call through the cache, at any time and with any outage, keeps cache and store sound and every earlier message readable |
| `EnvelopeService.ServeAll` | src/app/envelope.py:159-457 | so does any run of calls |
| `EnvelopeService.ReadBack` | src/app/envelope.py:325-355 | a stored message decrypts through the cache to what was written; in an outage it is that or nothing |
| `EnvelopeService.ServeAndReadBack` | src/app/envelope.py:159-457 | from an empty store, after any run of calls, every stored message reads back as it was written |
| `Base64Url.CanonicalIsAccepted` | src/app/e2ee.py:83-143 | the padded and unpadded canonical forms decode to the bytes |
| `Base64Url.StrictDecodingIsExact` | src/app/e2ee.py:75-143 | strict decoding accepts exactly the canonical forms, padded or not, of bytes within the limits |
| `Base64Url.EncodingIsInjective` | src/app/e2ee.py:75-80 | different bytes have different texts |
| `CanonicalJson.ValueRoundTrip` | src/app/e2ee.py:186-218 | the parser reads back any printed value and stops where it ends |
| `CanonicalJson.PrintIsInjective` | src/app/e2ee.py:186-218 | equal texts come from equal values |
| `E2eeBoundary.CanonicalIsOrdered` | src/app/e2ee.py:150-183 | a canonical value has its keys in strict order at every depth |
| `E2eeBoundary.StatementsAreUnambiguous` | src/app/e2ee.py:186-218 | equal bytes imply equal schema, version and canonical payload |
| `E2eeBoundary.AlikeAgree` | src/app/e2ee.py:150-183 | payloads that differ only in normalisation and in the order of dict fields, at any depth, are canonicalised or refused alike |
| `E2eeBoundary.OneTextPerMeaning` | src/app/e2ee.py:150-218 | an accepted statement shares its bytes with another if and only if schema and version agree and the payloads differ only in normalisation and field order |
| `E2eeBoundary.ReplayTextIsExact` | src/app/e2ee.py:614-641 | two requests share a replay key text iff sender, addressee and message id agree |
| `E2eeBoundary.RevalidationIsIdentity` | src/app/e2ee.py:468-611 | validating a validated envelope again returns the same envelope |
| `IdsWindow.FullMeansThreshold` | src/app/ids.py:415-423 | a pruned bounded bucket is full iff the whole history weighs at least the threshold inside the window |
| `IdsWindow.PruneIsFilter` | src/app/ids.py:417-418 | dropping from the front equals filtering on an ordered bucket |
| `IdsWindow.PushIsSlice` | src/app/ids.py:414-420 | appending to the bounded deque equals extending and slicing |
| `IdsWindow.RecordTracks` | src/app/ids.py:392-424 | the bounded bucket starts a ban exactly when the unbounded window does |
| `IdsMemory.IntrusionState.ExpireSource` | src/app/ids.py:369-375 | a served ban and its score go together |
| `IdsMemory.IntrusionState.Cleanup` | src/app/ids.py:377-390 | a full sweep leaves exactly the live sources and every running ban |
| `IdsMemory.IntrusionState.MakeRoom` | src/app/ids.py:401-413 | within capacity nothing is lost; beyond it the least recently hit unbanned source goes, or the newcomer is refused |
| `IdsMemory.IntrusionState.Record` | src/app/ids.py:392-424 | bans stay among tracked sources, no running ban is lost, and the verdict is the reference's |
| `IdsMemory.IntrusionState.IsBlocked` | src/app/ids.py:426-434 | the answer is the reference's, with the remaining seconds |
| `IdsMemory.IntrusionState.Unblock` | src/app/ids.py:436-439 | the source is reset; the answer is right iff no run-out ban was left unswept |
| `IdsPersistent.ScoresAreBucket` | src/app/ids.py:581-585 | the stored score list is the deque of the in-memory machine |
| `IdsPersistent.KeptMeansLive` | src/app/ids.py:512-517 | pruning spares a row iff its source is live |
| `IdsPersistent.PersistentIntrusionState.PruneSources` | src/app/ids.py:512-517 | exactly the live sources keep rows, and running bans stay |
| `IdsPersistent.PersistentIntrusionState.RecordLocked` | src/app/ids.py:565-590 | the same outcome relation as the in-memory machine, within and beyond capacity |
| `IdsPersistent.PersistentIntrusionState.RecordMany` | src/app/ids.py:536-563 | within capacity a batch counts its detections one after another and reports whether any started a ban |
| `IdsPersistent.PersistentIntrusionState.IsBlocked` | src/app/ids.py:599-606 | the answer is the reference's, without writing |
| `IdsPersistent.PersistentIntrusionState.Unblock` | src/app/ids.py:608-616 | the source is reset and the answer tells whether a ban was running |
| `IdsAgreement.ReplayMemory` | src/app/ids.py:341-439 | on any monotone trace within capacity the in-memory machine answers as the unbounded reference |
| `IdsAgreement.ReplayPersistent` | src/app/ids.py:457-629 | so does the database machine |
| `IdsAgreement.ReplayBoth` | src/app/ids.py:341-629 | hence both machines give the same verdicts |
| `IdsAgreement.UnblockDiffers` | src/app/ids.py:436-439 | a trace after which the two `unblock` answers differ |
| `GradioQueue.ResultQueue.PutBounded` | src/app/gradio_capacity.py:61-78 | the two scans in place equal the specified put |
| `GradioQueue.PutDropsNoTerminal` | src/app/gradio_capacity.py:61-78 | a put keeps every start and completion that was waiting, and adds only its own message |
| `GradioQueue.TerminalsAreCounted` | src/app/gradio_capacity.py:67-76 | without disposable messages a queue is no longer than its distinct starts and completions |
| `GradioQueue.PutNeverFails` | src/app/gradio_capacity.py:39-78 | with at most the retained number of live events a full queue holds something disposable |
| `GradioCapacityModel.PruneEvents` | src/app/gradio_capacity.py:244-258 | the pruning loop equals its specification |
| `GradioCapacityModel.SweepRetiresDue` | src/app/gradio_capacity.py:244-258 | pruning retires exactly the idle terminal events that were read or outlived their time |
| `GradioCapacityModel.IdleIsTerminalUnless` | src/app/gradio_capacity.py:314-340 | over every interleaving a retained idle event lacks its terminal time if and only if it was taken from the queue, or had run before `push` recorded it, and was never ended or cleaned since |
| `GradioCapacityModel.EarlyEndIsNeverPruned` | src/app/gradio_capacity.py:244-325 | an event that ran before `push` recorded it stays for every later pruning |
| `GradioCapacityModel.RetireIsSafe` | src/app/gradio_capacity.py:214-242 | retiring an idle event keeps every other event's messages and the queue bounds, even when the session's queue goes |
| `GradioCapacityModel.SendIsSafe` | src/app/gradio_capacity.py:305-312 | a queued or running event whose completion was not read still has its queue, and the queue takes its message |
| `GradioCapacityModel.EveryRunIsSafe` | src/app/gradio_capacity.py:214-340 | in every interleaving no message is refused or sent to a missing queue, map and queues stay within the maximum, queued and running events are never retired, every start or completion sent for a retained event waits in its queue or was read, starts before completions |
| `Admission.CapacityBudget.Acquire` | src/app/availability.py:43-49 | a slot is taken iff one is free, and refusals are counted |
| `Admission.CapacityBudget.Release` | src/app/availability.py:51-55 | a slot nobody holds is an error |
| `Admission.ApplyExact` | src/app/availability.py:363-411 | each step of each request keeps occupancy and source counts exact |
| `Admission.EveryRunConserves` | src/app/availability.py:363-411 | under every interleaving occupancy equals the requests in flight, source counts have no zero entry, limits hold and nothing is released twice |
| `Admission.AllGoneAllFree` | src/app/availability.py:403-411 | once all requests have gone, by whatever path, every slot is free |
| `Monitor.ObservedRemembers` | src/app/availability.py:129-156 | an observation of any second leaves ring sums equal to the aggregate of the observations whose slot was not taken over |
| `Monitor.SnapshotIsTotalIff` | src/app/availability.py:129-199 | a snapshot equals the aggregate of the whole log if and only if no observation of its window lost its slot |
| `Monitor.PromptIsTotal` | src/app/availability.py:129-199 | which holds for out-of-order seconds while none is a whole window late and the snapshot is not older than any |
| `Monitor.LateObservationErases` | src/app/availability.py:129-199 | seconds 60 and then 0: a snapshot at 60 shows neither |
| `Monitor.AvailabilityMonitor.ObserveResponse` | src/app/availability.py:129-156 | overwriting one slot in place records the observation, whatever its second |
| `Monitor.AvailabilityMonitor.Snapshot` | src/app/availability.py:187-227 | every figure, with requests, responses, slow responses and average, counts the remembered observations of the window, or the whole log if none was forgotten; each alert is raised exactly at its threshold; suppressed denials complete the stored ones |
| `Monitor.AvailabilityMonitor.SampleAnonymousAudit` | src/app/availability.py:174-185 | one denial is stored or counted as suppressed |
| `Monitor.SampledConserves` | src/app/availability.py:174-185 | per event, stored samples plus reported plus pending suppressed equal all denials, and samples are a minute apart |
| `Monitor.AllDenialsAccounted` | src/app/availability.py:174-185 | the same in total |
| `Excerpts.Chunks` | src/app/chat_files.py:541-554 | chunks concatenate to the text, none empty or too long |
| `Excerpts.ChunkEnd` | src/app/chat_files.py:541-554 | a chunk ends after the last line break of its second half, else after the last space there, else at the size |
| `Excerpts.Choose` | src/app/chat_files.py:609-619 | over any candidate order the budget holds, the first candidate is taken iff it fits, and nothing tried that would still fit is left out |
| `Excerpts.Join` | src/app/chat_files.py:621-629 | the chosen chunks verbatim and in order with one marker per maximal gap |
| `Excerpts.AbridgedFits` | src/app/chat_files.py:612-629 | with the first chunk chosen the markers stay within what the selection paid for |
| `Excerpts.AbridgedLength` | src/app/chat_files.py:621-629 | any nonempty selection exceeds what it paid for by at most three characters; an empty one leaves the closing marker |
| `Excerpts.HeaderFits` | src/app/chat_files.py:630-635 | the header leaves at least three characters of its reserve |
| `Excerpts.NothingOmitted` | src/app/chat_files.py:621-629 | choosing every chunk gives the document back |
| `Excerpts.SelectFileExcerpts` | src/app/chat_files.py:592-636 | never longer than the budget; the first chunk is chosen iff it fits; with anything chosen the truncation removes nothing while the header keeps within its reserve, and with nothing chosen it removes something iff the budget is below header plus five; the rest is stripped |
| `Excerpts.CutAtTinyBudget` | src/app/chat_files.py:592-636 | a text and a budget for which something is cut |

## Left out

- AES-GCM, HMAC, SHA-256, Ed25519, Olm and OpenMLS internals: symbolic, with the laws named above.
- Random identifiers, keys and nonces: numbers that never repeat.
- The relay's routes (src/app/main.py): only duplicate rejection by replay key, append order in (time, id), one epoch step per membership change and membership lookups.
- MlsTheorems.HonestEchoIsRecognised: alone among the MLS results assumes that served pages are not forged.
- Device registration, offers, approvals and prekey refills in both clients: easy members beside the delivery protocol.
- `PrivateClient.prepare` can leave a peer's one-time prekey cleared in memory only when the session budget is exhausted: the agreement of memory and file in the Olm model leaves peers out.
- Regular expressions, validators, NFKC/NFC and case folding: parameters.
- UTF-8 encoding and lone surrogates: JSON texts are sequences of characters.
- SQL, transactions and locks: tables are maps and sequences, a lock-protected section is one step; an integrity error on insert is taken to be a duplicate.
- EnvelopeService.EnvelopeCryptoService.RewrapSessionKeys: goes through epochs 1 to the current one, which every run keeps as the only ones; account-secret keys work the same way and are not repeated.
- Cache keys are the inputs of the digest themselves, so the digest is injective by construction.
- The bounded detection history, anomaly correlations and request signatures of src/app/ids.py.
- IdsAgreement.ReplayBoth: claims nothing about traces beyond capacity, where ties between equally old sources are broken differently.
- GradioCapacityModel.EveryRunIsSafe: assumes of the wrapped queue that starts and completions come only from queued or running events, at most one start each and not after the completion, and none once the completion was read; converting the wrapped queue's first messages is not modelled, and `clean_events` for a session is one step per event.
- Session state eviction, result middleware and authentication bindings of src/app/gradio_capacity.py.
- Rate limiting before admission, readiness probing and the rejection counters in src/app/availability.py.
- Monitor.AvailabilityMonitor.Snapshot: averages and alert thresholds are exact reals; rounding to two decimals and binary fractions are not modelled.
- IdsAgreement.ReplayMemory: like the other two replays, assumes that operations reach the lock in the order of their clock readings, although `record` reads the clock first.
- BM25 ranking and even spreading of excerpts: any in-range index lists; white space is any set of characters.
- Excerpts.HeaderFits: for texts below ten to the thirty-sixth characters.
- `ChatFileStore`: expiry and eviction of staged files.
- Vault, AWS and GCP providers: only the local provider's law.
- Fields of `GradioCapacity` and `AdmissionMiddleware` are parts of one state value changed step by step, since several threads share them; update in place is shown for the result queue, the budgets, the response ring and the pruning loop.
